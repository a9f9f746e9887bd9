# Password strength analyser and generator, in Dafny

This project models the logic of `Password/password.py`, a small desktop password
generator. The model has three parts:

- **The strength analyser** (`PasswordStrengthAnalyzer.calculate_strength`). A password
  earns 0, 1 or 2 points for its length (under 8, 8 to 11, 12 or more characters). It
  earns one more point for each of four character classes it contains: uppercase
  `A-Z`, lowercase `a-z`, digits, and the special set `!@#$%^&*(),.?":{}|<>`. The total
  is clamped to 0..5. The feedback line is the length verdict followed by the message
  of each class found, in the order uppercase, lowercase, digits, special, joined with
  `", "`. The empty password gets `(0, "No password provided")` and nothing else is
  checked.
- **The generator** (`PasswordGenerator._generate_password`). The ticked character sets
  (`string.ascii_uppercase`, `ascii_lowercase`, `digits`, `punctuation`) are pooled in
  that order. An empty pool is an error that leaves the window unchanged. Otherwise a
  password of the chosen length is drawn from the pool, shown, and scored. The strength
  label then shows the score, the feedback and a colour.
- **The colour lookup**, where the source has an off-by-one (see "## Findings").

Files:

- `joining.dfy` (module `Joining`): Python's `", ".join` and its inverse `split(", ")`.
- `strength.dfy` (module `StrengthAnalyzer`): the analyser as an imperative method. It
  keeps the source's accumulator and message list and its pass over the check table.
  It is proved equal to the specification functions `Score` and `Feedback`, and lemmas
  state what those functions mean.
- `generator.dfy` (module `Generator`): the character sets, the pool, the random draw,
  the colour lookup as written and corrected, and the generator window as a class.
  The class holds the settings and what the window displays.

`random.choice` is modelled as an arbitrary choice from the pool (`:|`), so the draw's
contract holds for every possible outcome. The `messagebox` error is returned as a value.

## Model

| member | source | states |
|---|---|---|
| `StrengthAnalyzer.Search` | Password/password.py:44-45 | a search for a one-class pattern succeeds exactly when some character of the password is in that class |
| `StrengthAnalyzer.CalculateStrength` | Password/password.py:13-52 | the step-by-step analyser returns exactly `Score(password)` and `Feedback(password)`; the empty password returns `(0, "No password provided")` |
| `StrengthAnalyzer.Score` | Password/password.py:20-50 | the score is always between 0 and 5, and 0 for the empty password |
| `StrengthAnalyzer.MatchedChecksInOrder` | Password/password.py:37-47 | the pass over the check table reports uppercase, lowercase, digits, special in that order, each exactly when the class occurs; the number reported is the number of classes present |
| `StrengthAnalyzer.ScoreComposition` | Password/password.py:23-50 | for every password the score is min(length points + classes present, 5); the raw total is never negative, so `max(..., 0)` never applies |
| `StrengthAnalyzer.TopScore` | Password/password.py:27-50 | the score is 5 exactly when the password has 12 or more characters and 3 or more classes, or 8 to 11 characters and all 4 classes |
| `StrengthAnalyzer.FeedbackInOrder` | Password/password.py:24-52 | the feedback of a non-empty password is the length verdict followed by the present classes' messages in check order, joined with ", " |
| `StrengthAnalyzer.ClassReported` | Password/password.py:37-47 | a class's message is among the feedback items exactly when the class occurs in the password |
| `StrengthAnalyzer.FeedbackReadsBack` | Password/password.py:52 | splitting the feedback at ", " gives back the items; the first item is the length verdict; a class's message is there exactly when the class occurs |
| `StrengthAnalyzer.NoPasswordOnlyForEmpty` | Password/password.py:20-34 | the feedback is "No password provided" exactly for the empty password |
| `Joining.SplitJoin` | Password/password.py:52 | joining comma-free items with ", " and splitting the result at ", " is the identity |
| `Generator.AlphanumericSets` | Password/password.py:168-171 | the uppercase, lowercase and digit sets hold exactly the characters of the analyser's `[A-Z]`, `[a-z]` and digit classes |
| `Generator.PunctuationSet` | Password/password.py:172 | the punctuation set is exactly the printable ASCII characters that are not letters, digits or space |
| `Generator.SpecialIsPunctuation` | Password/password.py:41 | every character of the analyser's special class is in the generator's punctuation set |
| `Generator.CharPool` | Password/password.py:176-183 | the pool (the ticked sets joined in the order uppercase, lowercase, digits, symbols, an order the contract does not state) is empty exactly when no set is ticked; its length is the sum of the ticked sets' sizes; a character is in it exactly when it belongs to a ticked set |
| `Generator.DrawPassword` | Password/password.py:186-188 | the password has the requested length (0 for a negative one, as `range` gives) and every character comes from the pool |
| `Generator.ScoreBoundedBySelection` | Password/password.py:176-193 | a password drawn from a pool scores at most its length points plus the number of ticked sets |
| `Generator.ColourAsWritten` | Password/password.py:194-198 | `strength_colors[strength]` succeeds exactly for indices -5..4 and then yields one of the five colours |
| `Generator.ColourLookupFailsOnTopScore` | Password/password.py:193-198 | over the analyser's scores, the lookup as written fails exactly on the score 5 |
| `Generator.TopScoreReachedByGenerator` | Password/password.py:186-198 | "Aa1Aa1Aa1Aa1" can be drawn with the initial settings, scores 5, and makes the lookup as written fail |
| `Generator.ColourFailureNeedsVariety` | Password/password.py:176-198 | the lookup as written fails only if at least 3 sets are ticked and the length is 12 or more, or all 4 are ticked and the length is 8 or more |
| `Generator.StrengthColour` | Password/password.py:194-198 | the corrected lookup gives a colour for every score 0..5; it agrees with the lookup as written below 5 and gives the strongest colour at 5 |
| `Generator.StrengthText` | Password/password.py:196-197 | the label text is "Strength: ", the score digit, "/5 - ", then the feedback unchanged |
| `Generator.PasswordGenerator.constructor` | Password/password.py:81-155 | a new window has every set ticked, length 12, no password and the label "Strength: N/A" |
| `Generator.PasswordGenerator.GeneratePassword` | Password/password.py:164-199 | with no set ticked it reports "Select at least one character type" and changes nothing; otherwise the password has the chosen length, draws only from the pool, and the label shows its score, feedback and colour |

## Left out

- `\d` matching: Python's `\d` on strings also matches non-ASCII decimal digits (Arabic-Indic and others). The model's digit class is ASCII `0-9` only.
- Python strings may hold lone surrogate code points. Dafny's `char` excludes them, so such passwords are not modelled.
- `Generator.PasswordGenerator.GeneratePassword`: uses the corrected colour lookup. With the lookup as written, a score of 5 raises an IndexError after the password is shown and before the label is updated; `Generator.ColourAsWritten` models that lookup.
- The randomness of `random.choice`: only which characters can be drawn is modelled, not their distribution.
- The length slider's range (4 to 32) and its float-to-integer conversion are widget behaviour. The model accepts any integer length.
- All tkinter widget construction, layout and styles, and the `messagebox` dialogs. The error message is returned instead of shown.
- Copying to the clipboard via `pyperclip` (`_copy_password`) is a foreign call.
- The show/hide toggle of the password entry (`_toggle_password_visibility`) is widget state only.
- The regular-expression engine: each pattern is modelled as membership of one character in a class.
- `BMI/BMIcalculator.py` (floating-point arithmetic behind a GUI) and the chat client and server (sockets and threads) are not part of this model.

## Findings

| source | as written | input that shows it | evidently intended | confidence | as-written member | corrected member |
|---|---|---|---|---|---|---|
| Password/password.py:194-198 | `strength_colors` has five entries but is indexed by a score in 0..5 | the password "Aa1Aa1Aa1Aa1" scores 5, so `strength_colors[5]` raises IndexError after the password is already shown | every score the label can show ("Strength: 5/5") has a colour; the model gives 5 the strongest one | medium, not executed | `Generator.ColourAsWritten` (shown by `Generator.TopScoreReachedByGenerator`) | `Generator.StrengthColour` |
