# SecurePass password generator — Dafny model

This project models `generate_password` from the SecurePass generator (TASK3.py).
The generator takes a password length and a strength string. It picks a universe
of characters and a list of mandatory character classes for that strength:

- `"low"` uses letters only and guarantees nothing.
- `"medium"` adds digits and guarantees one uppercase letter, one lowercase letter and one digit.
- `"high"` also adds ASCII punctuation and guarantees one character of each of the four classes.
- Any other strength string gets the same treatment as `"low"`, because the source has no `else` branch.

The generator first draws one character of each mandatory class. Then, if the length is
smaller than the number of mandatory characters, it returns the string
`"Error: Length too short for selected strength."` and the draws are discarded. Otherwise
it pads the rest of the length with characters drawn from the universe, shuffles the list,
and joins it into a string.

Layout:

- `charsets.dfy`, module `CharSets`. The four character classes and their alphabets. The
  alphabets are written as the literal strings of Python's `string.ascii_uppercase`,
  `ascii_lowercase`, `digits` and `punctuation`. `InClass` is an independent definition
  of each class by ASCII code-point ranges.
- `generator.dfy`, module `PasswordGenerator`. The tiers, the random source and the generator.
  - `UniverseClasses` and `MandatoryClasses` give the classes of each tier.
  - `Universe` concatenates the universe classes' alphabets in the order the source
    extends `all_chars`.
  - `Outcome` is `Password(text)` or `TooShort`. `Outcome.Rendered()` gives the single
    string the Python function returns in either case.
  - `GeneratePassword` is imperative. The tier phase (`ResolveTier`) and the filler
    comprehension (`DrawFiller`) are their own methods so each proof stays small.

Randomness is modelled by nondeterminism. `Choice` returns an arbitrary element of a
non-empty string (`random.choice`). `Shuffle` is an in-place Fisher–Yates pass over an
`array<char>` that swaps with an arbitrary index at each step (`random.shuffle`). Every
property below therefore holds for every outcome of the random source.

The code does not reject `length <= 0` on its own. At low strength, length 0 gives
the empty password. A negative length makes `len(guaranteed_chars) > length` true for
every tier (TASK3.py:65), so it always returns the too-short error.

## Model

| member | source | states |
|---|---|---|
| `CharSets.Alphabet` | TASK3.py:21-26 | the `CHAR_SETS` lookup: each class's alphabet is non-empty, so every draw from it is defined (its contents are pinned by `AlphabetIsRange`) |
| `CharSets.AlphabetIsRange` | TASK3.py:21-26 | each alphabet holds exactly the characters of its ASCII range: 'A'-'Z', 'a'-'z', '0'-'9', and the four punctuation ranges '!'-'/', ':'-'@', '['-'`', '{'-'~' |
| `CharSets.ClassesDisjoint` | TASK3.py:21-26 | no character belongs to two of the four classes |
| `PasswordGenerator.UniverseClasses` | TASK3.py:38-54 | letters always come first in the universe; digits join it exactly for "medium" and "high", punctuation exactly for "high" |
| `PasswordGenerator.MandatoryClasses` | TASK3.py:42-59 | nothing is guaranteed exactly when the strength is neither "medium" nor "high"; otherwise one character of every contributing class is guaranteed |
| `PasswordGenerator.Universe` | TASK3.py:39-54 | the finished `all_chars` has 52 characters for "low" and any unrecognised strength, 62 for "medium" and 94 for "high" |
| `PasswordGenerator.UnionLength` | TASK3.py:39-54 | a concatenation of alphabets is as long as the sum of their sizes |
| `PasswordGenerator.UnionMembership` | TASK3.py:39-40 | a character is in a concatenation of alphabets exactly when it is in one of them |
| `PasswordGenerator.UniverseMembership` | TASK3.py:38-54 | a character is in a tier's universe exactly when it belongs, by code-point range, to one of the tier's contributing classes |
| `PasswordGenerator.MandatoryWithinUniverse` | TASK3.py:45-59 | every guaranteed class of a tier also contributes to its universe |
| `PasswordGenerator.FormRangeAdmitsEveryTier` | TASK3.py:17-18 | any length the form accepts (4 to 80) is at least the number of mandatory classes of every tier, so through the form the too-short error cannot occur |
| `PasswordGenerator.ResolveTier` | TASK3.py:35-59 | the extended `all_chars` equals the tier's universe, and the guaranteed characters are one draw from each mandatory class's alphabet, in order |
| `PasswordGenerator.Choice` | TASK3.py:48 | a draw from a non-empty string is one of its characters |
| `PasswordGenerator.DrawFiller` | TASK3.py:72 | the filler has exactly `remaining_length` characters (none for a negative count), all drawn from the universe |
| `PasswordGenerator.Shuffle` | TASK3.py:76 | the shuffled list is a permutation of its input (same multiset) |
| `PasswordGenerator.GeneratePassword` | TASK3.py:30-78 | it returns the too-short error exactly when the length is below the mandatory count, so for every negative length and every tier; the error is decided by length and tier alone, and on that path no filler is reported. Otherwise the password is a permutation of the guaranteed characters plus the filler, has exactly `length` characters, uses only the universe, and covers every mandatory class |
| `PasswordGenerator.ComposedMeetsPolicy` | TASK3.py:69-78 | any rearrangement of per-class guaranteed characters plus universe filler has their combined length, lies in the universe and covers every mandatory class |
| `PasswordGenerator.MediumTier` | TASK3.py:45-50 | a successful medium password has an uppercase letter, a lowercase letter and a digit, and no punctuation |
| `PasswordGenerator.HighTier` | TASK3.py:52-59 | a successful high password has a character of each of the four classes |
| `PasswordGenerator.LowTier` | TASK3.py:38-43 | low strength, and any unrecognised strength, guarantees nothing and yields only letters |
| `PasswordGenerator.SpaceOutsideUniverse` | TASK3.py:38-54 | no tier's universe contains the space character |
| `PasswordGenerator.ErrorIsNeverAPassword` | TASK3.py:65-66 | no valid password equals the error string, so the caller can always tell them apart |
| `PasswordGenerator.RenderedDistinguishes` | TASK3.py:66-78 | `Outcome.Rendered`, the one string the function returns, equals the error string exactly when the outcome is the too-short error, for every password that meets the policy |
| `PasswordGenerator.LowZeroLength` | TASK3.py:65-78 | length 0 at low strength returns the empty password |
| `PasswordGenerator.HighTooShort` | TASK3.py:65-66 | length 2 at high strength returns the error string |
| `PasswordGenerator.MediumTwelve` | TASK3.py:45-50 | twelve characters at medium strength: twelve characters, all from the medium universe, with an uppercase letter, a lowercase letter and a digit, and no punctuation |
| `PasswordGenerator.HighEight` | TASK3.py:52-59 | eight characters at high strength: eight characters, all from the high universe, with one of each of the four classes |

## Left out

- The Tkinter user interface (`create_main_window`, `setup_ui_elements`, the widgets and
  message boxes of `on_generate_button_click`). It is presentation and event plumbing.
- Parsing the length with `int(...)` and the exception handlers of the click handler. This
  is boundary input handling. The handler's 4 to 80 range check appears only as the lemma
  `FormRangeAdmitsEveryTier`.
- The statistical quality of `random.choice` and `random.shuffle` (uniformity, independence,
  entropy). The model states membership and permutation facts only. `Shuffle` follows the
  Fisher–Yates shape of Python's shuffle, but any permutation would satisfy its contract.
- `"".join` is the identity on a list of characters, because strings are character
  sequences here.
- The clamp at TASK3.py:70 is kept, but it can never fire. The method asserts
  `remaining_length >= 0` just before it.
