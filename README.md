# Password Generator — a Dafny model

This project models the password-generation core of the single `App`
screen of a React Native password generator:

- the four fixed character classes (uppercase, lowercase, digits, the
  twelve symbols `!@#$%^&*()_+`) and the alphabet built by appending the
  enabled ones, always in the order uppercase, lowercase, digits, symbols
  (`generatePwdString`);
- the sampling loop `createPwd`, which runs once per requested character
  and appends `charAt(index)` for an index drawn by
  `Math.round(Math.random() * n)`;
- the six pieces of screen state (`password`, `isPassGenerated` and the
  four checkbox flags), the four checkbox handlers, `resetState`, and the
  end of `generatePwdString` that stores the result;
- the length check (present, between 4 and 16) that gates submission.

Randomness is a parameter: the caller supplies the sequence of draws, one
per loop pass, each an integer in [0, n] where n is the alphabet length —
exactly the range `Math.round(Math.random() * n)` can produce. The
source's off-by-one is modelled as written: a draw equal to n reads past
the end of the alphabet, `charAt` returns the empty string, and the
password comes out one character shorter. The model proves that this is
the only way the password can be shorter than requested, and that no
character outside the enabled classes can ever appear. The password can
be shorter than requested: one character fewer for each draw that lands
one past the end. An empty alphabet gives the empty string.

Layout:

- `generator.dfy`, module `Generator`: the class strings, `Alphabet`,
  `CharAt` (JavaScript's `charAt`), the specification `Picked` of the
  sampling loop, the methods `BuildCharacterString` and `CreatePwd`, the
  `LengthAccepted` predicate and the lemmas about them.
- `screen.dfy`, module `Screen`: the `ScreenState` value, the transitions
  `Toggle` and `Generated` with their lemmas, and the class `App` whose
  six fields are updated in place; each of its methods is tied to a
  transition (`State() == Toggle(old(State()), …)` and so on).

## Model

| member | source | states |
|---|---|---|
| Generator.BuildCharacterString | App.tsx:36-60 | the string built by successive appends equals the alphabet of the enabled classes in the fixed order |
| Generator.AlphabetMembership | App.tsx:42-60 | a character is in the alphabet if and only if it belongs to an enabled class |
| Generator.AlphabetLength | App.tsx:37-60 | the alphabet has 26 characters per enabled letter class, 10 for digits and 12 for symbols |
| Generator.AlphabetExtremes | App.tsx:27-60 | all four classes give 74 characters; the default lowercase-only choice gives exactly the 26 lowercase letters; none gives the empty alphabet |
| Generator.AlphabetEmptyIff | App.tsx:36-60 | the alphabet is empty exactly when no class is enabled |
| Generator.CharAt | App.tsx:78 | `charAt` yields the one character at an index inside the string and the empty string past its end |
| Generator.Picked | App.tsx:72-81 | the sampled string is no longer than the draws, every character of it is in the alphabet, and its length equals the number of draws exactly when every draw is inside the alphabet |
| Generator.CreatePwd | App.tsx:72-81 | the loop runs `passwordLength` times (not at all for a length of zero or less) and its result is the sampling of the first `passwordLength` draws; every character is in the alphabet; the length is at most `passwordLength`, and equal to it exactly when no draw equals the alphabet length; empty for an empty alphabet or a length of zero or less |
| Generator.PickedFromEmpty | App.tsx:72-81 | sampling from the empty alphabet (all flags off) gives the empty string for any draws |
| Generator.PickedAppend | App.tsx:74-79 | the loop's output for a sequence of draws is the output for its first part followed by the output for the rest |
| Generator.PickedExact | App.tsx:77-78 | when every draw is inside the alphabet, the password has one character per draw and the k-th character is the alphabet character at the k-th draw |
| Generator.PickedLengthCountsHits | App.tsx:74-78 | the password's length is the number of draws that land inside the alphabet |
| Generator.GeneratedCharsFromEnabledClasses | App.tsx:42-80 | every character of a generated password belongs to one of the enabled classes |
| Generator.LengthAccepted | App.tsx:12-18 | the length is present and 4 ≤ n ≤ 16 |
| Generator.AcceptedLengthBounds | App.tsx:12-18 | with an accepted length the password has at most 16 characters, and between 4 and 16 when no draw falls off the end |
| Screen.Toggle | App.tsx:143-185 | a checkbox press flips its own flag and leaves the other three flags, the password and `isPassGenerated` unchanged |
| Screen.Generated | App.tsx:62-65 | after generation `isPassGenerated` is true, the four flags are unchanged, and the stored password is no longer than requested and drawn from the alphabet of the current flags |
| Screen.ToggleTwice | App.tsx:143-185 | pressing the same checkbox twice restores the state |
| Screen.ToggleCommutes | App.tsx:143-185 | presses of two checkboxes commute |
| Screen.GenerateForgetsPrevious | App.tsx:62-65 | the stored password depends only on the flags, the length and the draws, not on the previous password or `isPassGenerated` |
| Screen.NoClassesNoPassword | App.tsx:36-65 | with every checkbox cleared, generation stores the empty password and still marks it generated |
| Screen.DefaultGeneratesLowercase | App.tsx:24-30 | from the initial state, an accepted length with in-range draws gives a password of exactly that length made of lowercase letters |
| Screen.App.constructor | App.tsx:24-30 | the initial state: no password, not generated, lowercase on, the other three classes off |
| Screen.App.ToggleLowerCase | App.tsx:146 | the lowercase handler performs `Toggle` for lowercase |
| Screen.App.ToggleUpperCase | App.tsx:159 | the uppercase handler performs `Toggle` for uppercase |
| Screen.App.ToggleNumbers | App.tsx:172 | the numbers handler performs `Toggle` for digits |
| Screen.App.ToggleSymbols | App.tsx:185 | the symbols handler performs `Toggle` for symbols |
| Screen.App.GeneratePwdString | App.tsx:35-66 | the new state is `Generated` of the old one: password stored, marked generated, flags unchanged |
| Screen.App.Submit | App.tsx:102-109 | `onSubmit` runs only with an accepted length and then generates a password of at most 16 characters |
| Screen.App.ResetState | App.tsx:85-92 | after a reset the state is exactly the initial state, whatever it was before, so a second reset changes nothing |

## Left out

- Rendering, layout and styles (the JSX tree, `ScrollView`, `SafeAreaView`, the result card and `StyleSheet`): presentation only.
- `Math.random` and floating-point rounding: replaced by the caller-supplied draws, each in [0, n]; no claim about the distribution of passwords is made, and the sampling is not uniform.
- Formik and Yup internals (error messages, `touched`, `isValid`, re-validation inside `handleSubmit`): third-party code; only the numeric range check is kept, as the precondition `LengthAccepted` of `Submit`.
- Formik's `handleReset`, which clears the length field alongside `resetState`: the field belongs to Formik, not to the six pieces of component state modelled here.
- The coercion `+values.passwordLength` and `console.log` in the submit handler: the length is an integer input and I/O is not modelled.
- Non-integer lengths: the range check accepts a number such as 4.5, for which the loop would run five times; the model takes the length as an integer.
