# takecmd — a Dafny model of the scenario generator's text layer

`takecmd.js` is a command-line role-playing script with one `main` function.
It draws a disaster scenario and a roster of three to seven people at random.
It prints a paragraph about the scenario, one paragraph per person, and a
closing question. This project models what the script does with the values it
draws: the clock text, the article before the disaster type, the roster loop,
the pronoun and training phrases, and the two paragraph templates. Every random
draw is a parameter: `ScenarioDraw` carries the scenario draws, and
`draws: nat -> PersonDraw` gives the draws of roster iteration `i`.

Files:

- `wrappers.dfy`: `Option` with `:-` support.
- `text.dfy` (module `Text`): JavaScript's integer-to-decimal conversion as it
  happens in `'...' + n`, the left padding of the `pad` package at its one call
  site, suffix stripping, and `Fill`, a literal/field template used to state
  where each value lands in a paragraph.
- `takecmd.dfy` (module `Takecmd`): the records, `PadTime`, `Article`,
  `Pronoun`, `TrainingPhrase`, the two descriptions, the roster loop
  (`BuildPersonnel`), the rendering loop (`DescribePersonnel`) and a whole run
  (`Run`).
- `properties.dfy` (module `TakecmdProperties`): lemmas about the above, and a
  reader (`DecodeTrainingTail`) that parses the two training sentences back
  from a person's paragraph.

Facts about the script that the model keeps:

- The minutes-ago value is drawn from 10..45 (takecmd.js:50).
- The clock is one integer drawn from 0..2399 and left-padded to four
  characters (takecmd.js:49), so "0075" can occur.
- A person has exactly two training flags, first aid and CPR
  (takecmd.js:66-67). The paragraph's only pronoun is "He" or "She"
  (takecmd.js:99), the same in both training sentences.
- The negative training phrase is "does not have" (takecmd.js:100-101).
- The scenario paragraph names no resources and says nothing about an
  emergency call (takecmd.js:85-89).
- The script ends by printing a fixed question (takecmd.js:111). It reads no
  input.

## Model

| member | source | states |
|---|---|---|
| Takecmd.PadTime | takecmd.js:49 | the clock text is never shorter than four characters |
| TakecmdProperties.PadTimeInRange | takecmd.js:49 | for a time in 0..2399 the clock text has exactly four characters, all digits. It is the decimal form with '0's in front and denotes the same number |
| TakecmdProperties.PadTimeExamples | takecmd.js:49 | 75 gives "0075", so the minutes are not limited to 59. 0 gives "0000" and 2399 gives "2399" |
| Text.LeftPad | takecmd.js:49 | a result of length max(width, \|text\|) that ends with the text and is padding characters before it; longer text is unchanged |
| Text.IntToDecimal | takecmd.js:86-87 | the text of an integer joined to a string is one or more digits, after a '-' exactly for negative numbers. It is the digit text of the absolute value (NatToDecimal: no leading zero, and 0 is the single digit "0") |
| Text.DecimalRoundTrip | takecmd.js:86-87 | the decimal text a number is joined into a paragraph as reads back as that number |
| Takecmd.Article | takecmd.js:83 | the article is "a" or "an" |
| Takecmd.CharAt | takecmd.js:83 | `charAt` on a string of Unicode characters: a one-character string holding the character at i, or "" exactly when i is past the end |
| TakecmdProperties.VowelPatternMatches | takecmd.js:83 | `/^[aeiou]$/i` (MatchesVowelPattern) accepts exactly the one-character strings holding a, e, i, o or u in either case |
| TakecmdProperties.ArticleChoice | takecmd.js:83 | "an" exactly when the type's first character is a, e, i, o or u in either case. Otherwise "a", including for an empty type, whose charAt(0) is "" |
| TakecmdProperties.DisasterTypeArticles | takecmd.js:27-44 | of the sixteen configured types, exactly earthquake, avalanche, ice storm and active shooting event take "an" |
| Takecmd.MakePerson | takecmd.js:62-76 | a person record carries the name, gender, age and both flags of its draws unchanged. Its job is the job area, one space, then the job type |
| Takecmd.BuildPersonnel | takecmd.js:57-79 | the roster has exactly `count` entries. Entry i is the person built from the i-th iteration's draws, with the job being area + " " + type |
| Takecmd.Pronoun | takecmd.js:99 | "He" exactly when the gender is "male", and "She" for every other value |
| Takecmd.TrainingPhrase | takecmd.js:100-101 | "has" exactly when the flag is true, and "does not have" exactly when it is false |
| Takecmd.DescribePersonnel | takecmd.js:97-109 | one paragraph per person for indices 0..count-1, in index order, each the description of that person |
| Takecmd.Run | takecmd.js:46-111 | a run yields the scenario paragraph for the drawn values and exactly `count` person paragraphs. Paragraph i describes the person from the i-th draws, and the closing question is fixed |
| Takecmd.MakeScenario | takecmd.js:46-54 | the scenario record carries type, location, minutes ago and distance unchanged. Its clock text is the drawn integer's text with only '0's before it, four characters long, or the text itself when that is longer |
| Takecmd.ScenarioDescription | takecmd.js:85-89 | the scenario paragraph ends with " mi from the disaster site.". Its whole layout is stated by ScenarioTemplate |
| TakecmdProperties.ScenarioTemplate | takecmd.js:85-89 | the scenario paragraph is the fixed text with time, minutes ago, article, type, head count, location and distance embedded in that order |
| TakecmdProperties.ScenarioTimeField | takecmd.js:85 | characters 17..20 of the scenario paragraph are the clock text: four digits denoting the drawn time |
| TakecmdProperties.ScenarioMinutesField | takecmd.js:85-86 | with the time in 0..2399 and minutes ago in 10..45, characters 21..28 are " hours (". Characters 29..30 are the two digits of the minutes-ago value |
| TakecmdProperties.ScenarioFrame | takecmd.js:85-89 | the scenario paragraph starts with "At approximately " and ends with " mi from the disaster site." |
| Text.FillField | takecmd.js:85-89 | in a filled template each field occurs whole at its offset, after all earlier fields and literals |
| TakecmdProperties.SamePronounInParagraph | takecmd.js:103-105 | in a person's paragraph, the text at the first pronoun slot and the text at the second, later slot are both the pronoun for the person's gender |
| Takecmd.PersonHead | takecmd.js:103-104 | the opening clause starts with the name followed by " is a " and ends with the job |
| Takecmd.PersonDescription | takecmd.js:103-105 | a person's paragraph ends with " CPR training.". Its whole layout is stated by PersonTemplate |
| TakecmdProperties.PersonTemplate | takecmd.js:103-105 | a person's paragraph embeds name, age, gender, job, pronoun, first-aid phrase, the same pronoun and the CPR phrase, in that order |
| TakecmdProperties.TrainingTailRoundTrip | takecmd.js:99-105 | reading a person's paragraph back from its end recovers the same pronoun twice, "He" exactly for "male". It also recovers the first-aid flag, the CPR flag and the leading clause |
| TakecmdProperties.CprFlagIndependent | takecmd.js:100-101 | changing only the CPR flag flips the CPR flag read back. The head, the first-aid flag and both pronouns read back stay the same |
| TakecmdProperties.FirstAidFlagIndependent | takecmd.js:100-101 | changing only the first-aid flag flips the first-aid flag read back. The head, the CPR flag and both pronouns read back stay the same |

## Left out

- Random sampling (`chance.pickone`, `address`, `integer`, `floating`, `name`,
  `age`, `bool`; `faker.helpers.randomize`, `jobArea`, `jobType`): these are
  library calls with probabilistic results, so their results are parameters.
  The library ranges for the time (0..2399) and for minutes ago (10..45)
  appear only as constants in the preconditions of lemmas (PadTimeInRange,
  ScenarioTimeField, ScenarioMinutesField). The head count is any natural
  number; its range 3..7 plays no part in what the script does with it.
- The distance (`chance.floating`, takecmd.js:51-53) is a floating-point
  value. It is kept as the opaque text it prints as.
- Word wrapping (`word-wrap`, takecmd.js:91, 107) is a library call. The model
  stops at the unwrapped paragraph.
- Console output, the clear-screen escape (takecmd.js:24) and the bootstrapper
  (takecmd.js:118) are I/O and process plumbing. `Run` returns the paragraphs
  instead of printing them.
- The internals of the `pad` package are left out. Only its left-pad behaviour
  with a numeric first argument is modelled.
- DescribePersonnel: requires `count <= |personnel|`. The script indexes the
  roster up to its head count without a check, which would throw a TypeError
  past the end; it never does, because `BuildPersonnel` makes the roster
  exactly `count` long, so that error path is not modelled.
- JavaScript numbers are modelled as unbounded integers. Only the integer
  draws are modelled as numbers; the distance is kept as text. How integers
  print beyond 2^53 or in exponent form is not modelled.
- CharAt: strings are modelled as sequences of Unicode characters, not as
  JavaScript's UTF-16 code units. At a character outside the Basic
  Multilingual Plane, `charAt` returns half of a surrogate pair, which the
  model cannot represent; it returns the whole character instead. The script
  only calls `charAt(0)`, and neither form is a vowel, so the article is the
  same either way.
