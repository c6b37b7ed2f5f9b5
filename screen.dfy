/** The state of the password screen: the last generated password, whether
    one has been generated, and the four class checkboxes. The screen's
    transitions are given as functions on a value of that state, and the
    `App` class holds the six fields the component updates in place, each
    of its methods tied to one transition. */
module Screen {
  import opened Generator

  datatype ScreenState = ScreenState(
    password: string,
    isPassGenerated: bool,
    lowerCase: bool,
    upperCase: bool,
    numbers: bool,
    symbols: bool)

  /** The four checkboxes. */
  datatype CharClass = LowerCase | UpperCase | Numbers | Symbols

  /** The initial values of the six pieces of state, which are also the
      values a reset restores: no password, lowercase only. */
  const DefaultState: ScreenState := ScreenState("", false, true, false, false, false)

  function IsChecked(s: ScreenState, c: CharClass): bool
  {
    match c
    case LowerCase => s.lowerCase
    case UpperCase => s.upperCase
    case Numbers => s.numbers
    case Symbols => s.symbols
  }

  /** The alphabet the current checkboxes select. */
  function AlphabetOf(s: ScreenState): string
  {
    Alphabet(s.upperCase, s.lowerCase, s.numbers, s.symbols)
  }

  /** A checkbox press: flips its own flag and nothing else. */
  function Toggle(s: ScreenState, c: CharClass): (r: ScreenState)
    ensures IsChecked(r, c) == !IsChecked(s, c)
    ensures forall d :: d != c ==> IsChecked(r, d) == IsChecked(s, d)
    ensures r.password == s.password && r.isPassGenerated == s.isPassGenerated
  {
    match c
    case LowerCase => s.(lowerCase := !s.lowerCase)
    case UpperCase => s.(upperCase := !s.upperCase)
    case Numbers => s.(numbers := !s.numbers)
    case Symbols => s.(symbols := !s.symbols)
  }

  /** The end of `generatePwdString`: the sampled password is stored and
      the result is marked as generated. */
  function Generated(s: ScreenState, passwordLength: int, draws: seq<nat>): (r: ScreenState)
    requires DrawsFit(AlphabetOf(s), passwordLength, draws)
    ensures r.isPassGenerated
    ensures forall c :: IsChecked(r, c) == IsChecked(s, c)
    ensures |r.password| <= Iterations(passwordLength)
    ensures forall k :: 0 <= k < |r.password| ==> r.password[k] in AlphabetOf(s)
  {
    s.(password := Picked(AlphabetOf(s), draws[..Iterations(passwordLength)]), isPassGenerated := true)
  }

  // ----- Properties of the transitions -----

  /** Pressing the same checkbox twice restores the state. */
  lemma ToggleTwice(s: ScreenState, c: CharClass)
    ensures Toggle(Toggle(s, c), c) == s
  {
  }

  /** Presses of two checkboxes commute. */
  lemma ToggleCommutes(s: ScreenState, c: CharClass, d: CharClass)
    ensures Toggle(Toggle(s, c), d) == Toggle(Toggle(s, d), c)
  {
  }

  /** A new generation replaces the previous password entirely: it depends
      only on the checkboxes, the length and the draws. */
  lemma GenerateForgetsPrevious(s: ScreenState, t: ScreenState, passwordLength: int, draws: seq<nat>)
    requires forall c :: IsChecked(s, c) == IsChecked(t, c)
    requires DrawsFit(AlphabetOf(s), passwordLength, draws)
    ensures AlphabetOf(s) == AlphabetOf(t)
    ensures Generated(s, passwordLength, draws) == Generated(t, passwordLength, draws)
  {
    assert IsChecked(s, LowerCase) == IsChecked(t, LowerCase);
    assert IsChecked(s, UpperCase) == IsChecked(t, UpperCase);
    assert IsChecked(s, Numbers) == IsChecked(t, Numbers);
    assert IsChecked(s, Symbols) == IsChecked(t, Symbols);
  }

  /** With every checkbox cleared, generation stores the empty password,
      whatever the length and draws. */
  lemma NoClassesNoPassword(s: ScreenState, passwordLength: int, draws: seq<nat>)
    requires !s.lowerCase && !s.upperCase && !s.numbers && !s.symbols
    requires DrawsFit(AlphabetOf(s), passwordLength, draws)
    ensures Generated(s, passwordLength, draws).password == ""
    ensures Generated(s, passwordLength, draws).isPassGenerated
  {
    PickedFromEmpty(draws[..Iterations(passwordLength)]);
  }

  /** From the initial state (lowercase only), a generation with an
      accepted length whose draws all land inside the alphabet gives a
      password of exactly that length, every character a lowercase
      letter. */
  lemma DefaultGeneratesLowercase(passwordLength: Option<int>, draws: seq<nat>)
    requires LengthAccepted(passwordLength)
    requires DrawsFit(LowerCaseChars, passwordLength.value, draws)
    requires forall k :: 0 <= k < passwordLength.value ==> draws[k] < 26
    ensures AlphabetOf(DefaultState) == LowerCaseChars
    ensures var p := Generated(DefaultState, passwordLength.value, draws).password;
            |p| == passwordLength.value && forall k :: 0 <= k < |p| ==> p[k] in LowerCaseChars
  {
    var used := draws[..passwordLength.value];
    assert forall k :: 0 <= k < |used| ==> used[k] == draws[k];
  }

  /** The component: six fields updated in place by the checkbox handlers,
      the reset button and the generation on submit. */
  class App {
    var password: string
    var isPassGenerated: bool
    var lowerCase: bool
    var upperCase: bool
    var numbers: bool
    var symbols: bool

    function State(): ScreenState
      reads this
    {
      ScreenState(password, isPassGenerated, lowerCase, upperCase, numbers, symbols)
    }

    /** The `useState` initial values. */
    constructor ()
      ensures State() == DefaultState
    {
      password := "";
      isPassGenerated := false;
      lowerCase := true;
      upperCase := false;
      numbers := false;
      symbols := false;
    }

    method ToggleLowerCase()
      modifies this
      ensures State() == Toggle(old(State()), LowerCase)
    {
      lowerCase := !lowerCase;
    }

    method ToggleUpperCase()
      modifies this
      ensures State() == Toggle(old(State()), UpperCase)
    {
      upperCase := !upperCase;
    }

    method ToggleNumbers()
      modifies this
      ensures State() == Toggle(old(State()), Numbers)
    {
      numbers := !numbers;
    }

    method ToggleSymbols()
      modifies this
      ensures State() == Toggle(old(State()), Symbols)
    {
      symbols := !symbols;
    }

    /** `generatePwdString`: build the alphabet from the checkboxes, sample
        the password, store it and mark it generated. */
    method GeneratePwdString(passwordLength: int, draws: seq<nat>)
      requires DrawsFit(AlphabetOf(State()), passwordLength, draws)
      modifies this
      ensures State() == Generated(old(State()), passwordLength, draws)
    {
      var characterString := BuildCharacterString(upperCase, lowerCase, numbers, symbols);
      var finalPwd := CreatePwd(characterString, passwordLength, draws);
      password := finalPwd;
      isPassGenerated := true;
    }

    /** The submit handler, reachable only when the length check passes. */
    method Submit(passwordLength: Option<int>, draws: seq<nat>)
      requires LengthAccepted(passwordLength)
      requires DrawsFit(AlphabetOf(State()), passwordLength.value, draws)
      modifies this
      ensures State() == Generated(old(State()), passwordLength.value, draws)
      ensures |password| <= 16
    {
      GeneratePwdString(passwordLength.value, draws);
    }

    /** `resetState`: every field back to its initial value, whatever the
        state before. */
    method ResetState()
      modifies this
      ensures State() == DefaultState
    {
      password := "";
      isPassGenerated := false;
      lowerCase := true;
      upperCase := false;
      numbers := false;
      symbols := false;
    }
  }
}
