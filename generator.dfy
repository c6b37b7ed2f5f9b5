/** The password-generation core of the App component: the four fixed
    character classes, the alphabet built from the enabled ones, the
    sampling loop that draws characters from it, and the range check on
    the requested length.

    The random source is replaced by a caller-supplied sequence of draws.
    `Math.round(Math.random() * n)` can only produce an integer in the
    closed range [0, n], so each draw is a natural number at most the
    alphabet length; a draw equal to the length reads past the end, where
    `charAt` gives the empty string. */
module Generator {

  datatype Option<T> = None | Some(value: T)

  const UpperCaseChars: string := "ABCDEFGHIJKLMNOPQRSTUVWXYZ"
  const LowerCaseChars: string := "abcdefghijklmnopqrstuvwxyz"
  const NumericChars: string := "0123456789"
  const SpecialChars: string := "!@#$%^&*()_+"

  /** The alphabet for a choice of classes: the enabled class strings,
      always in the order uppercase, lowercase, digits, symbols. */
  function Alphabet(upperCase: bool, lowerCase: bool, numbers: bool, symbols: bool): string
  {
    (if upperCase then UpperCaseChars else "")
    + (if lowerCase then LowerCaseChars else "")
    + (if numbers then NumericChars else "")
    + (if symbols then SpecialChars else "")
  }

  /** Number of loop passes of `for (i = 0; i < n; i++)`. */
  function Iterations(n: int): nat
  {
    if n <= 0 then 0 else n
  }

  /** JavaScript's `String.prototype.charAt`: the one character at index
      `i`, or the empty string when `i` is past the end. */
  function CharAt(s: string, i: nat): (r: string)
    ensures |r| <= 1
    ensures |r| == 1 <==> i < |s|
    ensures forall k :: 0 <= k < |r| ==> r[k] == s[i]
  {
    if i < |s| then [s[i]] else ""
  }

  /** What the sampling loop appends for the given draws, in order. */
  function Picked(alpha: string, draws: seq<nat>): (r: string)
    ensures |r| <= |draws|
    ensures forall k :: 0 <= k < |r| ==> r[k] in alpha
    ensures |r| == |draws| <==> forall k :: 0 <= k < |draws| ==> draws[k] < |alpha|
    decreases |draws|
  {
    if draws == [] then ""
    else
      var init := draws[..|draws| - 1];
      assert forall k :: 0 <= k < |init| ==> init[k] == draws[k];
      Picked(alpha, init) + CharAt(alpha, draws[|draws| - 1])
  }

  /** The draws fit the sampling loop: one per pass, each in the range
      [0, |alpha|] that `Math.round(Math.random() * |alpha|)` can yield. */
  predicate DrawsFit(alpha: string, passwordLength: int, draws: seq<nat>)
  {
    Iterations(passwordLength) <= |draws|
    && forall k :: 0 <= k < |draws| ==> draws[k] <= |alpha|
  }

  /** The length check that gates submission: the field is present and
      lies in [4, 16]. */
  predicate LengthAccepted(passwordLength: Option<int>)
  {
    passwordLength.Some? && 4 <= passwordLength.value <= 16
  }

  /** The first half of `generatePwdString`: append the enabled class
      strings one after the other. */
  method BuildCharacterString(upperCase: bool, lowerCase: bool, numbers: bool, symbols: bool)
    returns (characterString: string)
    ensures characterString == Alphabet(upperCase, lowerCase, numbers, symbols)
  {
    characterString := "";
    if upperCase {
      characterString := characterString + UpperCaseChars;
    }
    assert characterString == if upperCase then UpperCaseChars else "";
    ghost var sofar := characterString;
    if lowerCase {
      characterString := characterString + LowerCaseChars;
    }
    assert characterString == sofar + (if lowerCase then LowerCaseChars else "");
    sofar := characterString;
    if numbers {
      characterString := characterString + NumericChars;
    }
    assert characterString == sofar + (if numbers then NumericChars else "");
    sofar := characterString;
    if symbols {
      characterString := characterString + SpecialChars;
    }
    assert characterString == sofar + (if symbols then SpecialChars else "");
  }

  /** `createPwd`: one draw per pass, appending the character at the drawn
      index (nothing when the draw is one past the end). */
  method CreatePwd(userSelection: string, passwordLength: int, draws: seq<nat>)
    returns (result: string)
    requires DrawsFit(userSelection, passwordLength, draws)
    ensures result == Picked(userSelection, draws[..Iterations(passwordLength)])
    ensures forall k :: 0 <= k < |result| ==> result[k] in userSelection
    ensures |result| <= Iterations(passwordLength)
    ensures |result| == Iterations(passwordLength)
            <==> forall k :: 0 <= k < Iterations(passwordLength) ==> draws[k] != |userSelection|
    ensures userSelection == "" ==> result == ""
    ensures passwordLength <= 0 ==> result == ""
  {
    result := "";
    var i := 0;
    while i < passwordLength
      invariant 0 <= i <= Iterations(passwordLength)
      invariant result == Picked(userSelection, draws[..i])
    {
      var index := draws[i];
      assert draws[..i + 1][..i] == draws[..i];
      result := result + CharAt(userSelection, index);
      i := i + 1;
    }
    ghost var used := draws[..Iterations(passwordLength)];
    assert result == Picked(userSelection, used);
    assert forall k :: 0 <= k < |used| ==> used[k] == draws[k];
    assert (forall k :: 0 <= k < |used| ==> used[k] < |userSelection|)
           <==> (forall k :: 0 <= k < |used| ==> draws[k] != |userSelection|);
    if userSelection == "" {
      PickedFromEmpty(used);
    }
  }

  // ----- Properties of the alphabet -----

  /** The alphabet's size: 26 per letter class, 10 digits, 12 symbols. */
  lemma AlphabetLength(upperCase: bool, lowerCase: bool, numbers: bool, symbols: bool)
    ensures |Alphabet(upperCase, lowerCase, numbers, symbols)|
            == (if upperCase then 26 else 0) + (if lowerCase then 26 else 0)
               + (if numbers then 10 else 0) + (if symbols then 12 else 0)
  {
  }

  /** All four classes give 74 characters; the default (lowercase only)
      gives 26; none gives the empty alphabet. */
  lemma AlphabetExtremes()
    ensures |Alphabet(true, true, true, true)| == 74
    ensures Alphabet(false, true, false, false) == LowerCaseChars
    ensures |Alphabet(false, true, false, false)| == 26
    ensures Alphabet(false, false, false, false) == ""
  {
  }

  /** A character is in the alphabet exactly when it belongs to an enabled
      class. */
  lemma AlphabetMembership(upperCase: bool, lowerCase: bool, numbers: bool, symbols: bool, c: char)
    ensures c in Alphabet(upperCase, lowerCase, numbers, symbols)
            <==> (upperCase && c in UpperCaseChars) || (lowerCase && c in LowerCaseChars)
                 || (numbers && c in NumericChars) || (symbols && c in SpecialChars)
  {
  }

  /** The alphabet is empty exactly when no class is enabled. */
  lemma AlphabetEmptyIff(upperCase: bool, lowerCase: bool, numbers: bool, symbols: bool)
    ensures Alphabet(upperCase, lowerCase, numbers, symbols) == ""
            <==> !upperCase && !lowerCase && !numbers && !symbols
  {
  }

  // ----- Properties of the sampling -----

  /** Sampling from the empty alphabet yields the empty string, whatever
      the draws. */
  lemma {:induction false} PickedFromEmpty(draws: seq<nat>)
    ensures Picked("", draws) == ""
    decreases |draws|
  {
    if draws != [] {
      PickedFromEmpty(draws[..|draws| - 1]);
    }
  }

  /** Sampling distributes over splitting the draws. */
  lemma {:induction false} PickedAppend(alpha: string, first: seq<nat>, second: seq<nat>)
    ensures Picked(alpha, first + second) == Picked(alpha, first) + Picked(alpha, second)
    decreases |second|
  {
    if second == [] {
      assert first + second == first;
    } else {
      var init := second[..|second| - 1];
      assert (first + second)[..|first + second| - 1] == first + init;
      PickedAppend(alpha, first, init);
    }
  }

  /** When no draw falls off the end, the password is exactly the drawn
      characters, one per draw. */
  lemma {:induction false} PickedExact(alpha: string, draws: seq<nat>)
    requires forall k :: 0 <= k < |draws| ==> draws[k] < |alpha|
    ensures |Picked(alpha, draws)| == |draws|
    ensures forall k :: 0 <= k < |draws| ==> Picked(alpha, draws)[k] == alpha[draws[k]]
    decreases |draws|
  {
    if draws != [] {
      var init := draws[..|draws| - 1];
      PickedExact(alpha, init);
      assert forall k :: 0 <= k < |init| ==> init[k] == draws[k];
    }
  }

  /** The number of draws that land inside the alphabet. */
  function InRange(alpha: string, draws: seq<nat>): (n: nat)
    ensures n <= |draws|
    decreases |draws|
  {
    if draws == [] then 0
    else InRange(alpha, draws[..|draws| - 1]) + (if draws[|draws| - 1] < |alpha| then 1 else 0)
  }

  /** The loop appends one character per draw inside the alphabet and
      nothing for the others. */
  lemma {:induction false} PickedLengthCountsHits(alpha: string, draws: seq<nat>)
    ensures |Picked(alpha, draws)| == InRange(alpha, draws)
    decreases |draws|
  {
    if draws != [] {
      PickedLengthCountsHits(alpha, draws[..|draws| - 1]);
    }
  }

  /** Each generated character belongs to a class that was enabled. */
  lemma GeneratedCharsFromEnabledClasses(upperCase: bool, lowerCase: bool, numbers: bool, symbols: bool,
                                         draws: seq<nat>, k: nat)
    requires k < |Picked(Alphabet(upperCase, lowerCase, numbers, symbols), draws)|
    ensures var c := Picked(Alphabet(upperCase, lowerCase, numbers, symbols), draws)[k];
            (upperCase && c in UpperCaseChars) || (lowerCase && c in LowerCaseChars)
            || (numbers && c in NumericChars) || (symbols && c in SpecialChars)
  {
    var c := Picked(Alphabet(upperCase, lowerCase, numbers, symbols), draws)[k];
    AlphabetMembership(upperCase, lowerCase, numbers, symbols, c);
  }

  /** An accepted length, with draws that all land inside the alphabet,
      gives a password of that length; any accepted length gives at most
      16 characters. */
  lemma AcceptedLengthBounds(alpha: string, passwordLength: Option<int>, draws: seq<nat>)
    requires LengthAccepted(passwordLength)
    requires DrawsFit(alpha, passwordLength.value, draws)
    ensures |Picked(alpha, draws[..passwordLength.value])| <= 16
    ensures (forall k :: 0 <= k < passwordLength.value ==> draws[k] < |alpha|)
            ==> 4 <= |Picked(alpha, draws[..passwordLength.value])| <= 16
  {
    var used := draws[..passwordLength.value];
    assert forall k :: 0 <= k < |used| ==> used[k] == draws[k];
  }
}
