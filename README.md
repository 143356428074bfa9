# VetTriageAI home page, modelled in Dafny

VetTriageAI's home page is a six-question wizard about a pet. The questions
are species, breed, age, gender and neuter status, symptoms, and time since
onset. After the last question it shows a triage level with a fixed
recommendation. The level comes from keyword matching:
- one of fourteen emergency keywords anywhere in the lower-cased text
  "symptoms + space + elapsed time" makes it `emergency`;
- otherwise one of nine urgent keywords makes it `urgent`;
- otherwise it is `stable`.

The project has four modules:
- `Strings` (`strings.dfy`): ASCII lower-casing, `includes`, `.some` over a keyword list, and facts about where a keyword can occur in a joined text.
- `Classifier` (`triage.dfy`): the form, the option lists, the keyword lists, the three recommendations and the `triage` function, with one lemma per tier.
- `Wording` (`wording.dfy`): facts about the fixed wording. The main one is that no elapsed-time option can add a keyword to a symptom text that has none.
- `Wizard` (`wizard.dfy`): the page state (`step`, `form`, `result`) as a value, and the transition each handler makes. It also has the `Home` class, whose handler methods update the three fields and are proved against those transitions.

## Model

| member | source | states |
|---|---|---|
| Strings.ToLower | pages/index.tsx:46 | the lower-cased text has the same length, and each character is the lower-case form of the character at the same position |
| Strings.ToLowerIdempotent | pages/index.tsx:46 | a lower-cased text contains no upper-case letter, and lower-casing it again changes nothing |
| Strings.ToLowerConcat | pages/index.tsx:46 | lower-casing the joined text is the same as joining the lower-cased parts |
| Strings.Includes | pages/index.tsx:51-54 | `text.includes(kw)`, searched left to right, holds exactly when kw appears as a contiguous slice of text at some position (so an empty kw is always included) |
| Strings.OccursPastFirst | pages/index.tsx:51-54 | when text does not start with kw, kw occurs in text exactly when it occurs after the first character |
| Strings.IncludesAny | pages/index.tsx:51-54 | `kws.some(kw => text.includes(kw))` holds exactly when some keyword of the list is included in the text, that is, exactly when some keyword occurs somewhere in the text |
| Strings.OccursLowered | pages/index.tsx:46 | a word that occurs in a text still occurs, lower-cased, in the lower-cased text |
| Strings.NoMentionAcrossSpace | pages/index.tsx:46 | no keyword straddles the joining space when no keyword has a space followed by the first letter of the second part |
| Classifier.Level.Name | pages/index.tsx:48-55 | each tier has its own `triage_level` string: "stable", "urgent" or "emergency", and the string determines the tier |
| Classifier.Advice | pages/index.tsx:49-56 | each tier has its own recommendation text, and the text determines the tier |
| Classifier.ScannedText | pages/index.tsx:46 | the scanned text is the lower-cased symptoms, one space, then the lower-cased elapsed time |
| Classifier.InitialFormUnanswered | pages/index.tsx:4-23 | the initial form has no listed species, gender or elapsed-time option selected |
| Classifier.Triage | pages/index.tsx:34-59 | the recommendation returned is always the one fixed for the returned level |
| Classifier.EmergencyTier | pages/index.tsx:51-53 | the level is emergency exactly when an emergency keyword occurs in the scanned text, and the recommendation is then the emergency advice |
| Classifier.UrgentTier | pages/index.tsx:54-56 | the level is urgent exactly when no emergency keyword occurs and an urgent keyword does, and the recommendation is then the urgent advice |
| Classifier.StableTier | pages/index.tsx:48-49 | the level is stable exactly when neither list has a keyword in the scanned text, and the stable advice is returned |
| Classifier.CaseInsensitive | pages/index.tsx:46 | two forms whose symptoms and elapsed times differ only in the case of ASCII letters get the same triage result |
| Classifier.ScannedInAnyCase | pages/index.tsx:46 | a word typed in any ASCII case in the symptoms occurs in lower case in the scanned text |
| Classifier.EmergencyInAnyCase | pages/index.tsx:36-40 | symptoms containing an emergency keyword, in any ASCII letter case, are triaged as an emergency with the emergency advice |
| Classifier.UrgentInAnyCase | pages/index.tsx:41-44 | symptoms containing an urgent keyword in any ASCII case, with no emergency keyword in the text, are triaged as urgent with the urgent advice |
| Wording.OptionShapes | pages/index.tsx:6-13 | every elapsed-time option is non-empty, has no upper-case letter, and starts with one of four known characters |
| Wording.KeywordSpacing | pages/index.tsx:36-44 | no keyword of either list has a space followed by the first character of any elapsed-time option |
| Wording.KeywordsAbsentFromOptions | pages/index.tsx:6-13 | no keyword of either list occurs in a space followed by an elapsed-time option |
| Wording.NeutralWording | pages/index.tsx:6-13 | every elapsed-time option is lower case, holds no keyword and starts no keyword after a space |
| Wording.NeutralOptionKeepsStable | pages/index.tsx:46-58 | with such a neutral elapsed time, symptoms free of keywords are triaged as stable |
| Wording.ListedOptionKeepsStable | pages/index.tsx:6-13 | choosing any listed elapsed-time option never turns keyword-free symptoms into an urgent or emergency result |
| Wording.KeywordLengths | pages/index.tsx:36-44 | every keyword is at least two characters long |
| Wording.EmptySymptomsAreStable | pages/index.tsx:46-49 | empty symptoms, with an empty or listed elapsed time, are triaged as stable |
| Wizard.SetField | pages/index.tsx:61-65 | the changed input's field takes the new value and every other field keeps its old value |
| Wizard.FormExtensionality | pages/index.tsx:16-23 | two forms that agree on all six fields are equal |
| Wizard.SetFieldToSame | pages/index.tsx:61-65 | writing the value a field already holds leaves the form unchanged |
| Wizard.SetFieldTwice | pages/index.tsx:61-65 | of two changes to the same field, the later one wins |
| Wizard.SetFieldCommutes | pages/index.tsx:61-65 | changes to two different fields can be made in either order |
| Wizard.Apply | pages/index.tsx:61-85 | if the step was between 1 and 7 before a handler runs, it is still between 1 and 7 after |
| Wizard.RunKeepsRange | pages/index.tsx:67-85 | any sequence of handler calls from a state whose step is in 1..7 keeps the step in 1..7 |
| Wizard.RunConcat | pages/index.tsx:61-85 | handling two sequences of events one after the other is the same as handling their concatenation |
| Wizard.NextSixTimes | pages/index.tsx:67-75 | from the first question, five Nexts reach the last question with nothing else changed, and a sixth shows the triage of the current form |
| Wizard.NextThenPrev | pages/index.tsx:67-79 | on questions 1 to 5, Back undoes Next |
| Wizard.PrevThenNext | pages/index.tsx:67-79 | on questions 2 to 6, Next undoes Back; from the result screen, Back then Next recomputes the result from the current form |
| Wizard.ApplyShowsCurrentForm | pages/index.tsx:67-75 | each handler keeps the result screen showing the triage of the current form, except for an input change while the result screen is up |
| Wizard.RestartResets | pages/index.tsx:81-85 | after Restart the page is at its initial state whatever came before, and a second Restart changes nothing |
| Wizard.Home.constructor | pages/index.tsx:26-31 | the page starts on question 1 with the initial empty form and no result |
| Wizard.Home.HandleInputChange | pages/index.tsx:61-65 | only the named form field changes, to the given value; the new state is the Apply transition from the old |
| Wizard.Home.HandleNext | pages/index.tsx:67-75 | below question 6 the step advances by one; otherwise the result becomes the triage of the form and the step becomes 7; the form is kept and the new state is the Apply transition |
| Wizard.Home.HandlePrev | pages/index.tsx:77-79 | the step goes back by one unless it is already 1; form and result are kept |
| Wizard.Home.HandleRestart | pages/index.tsx:81-85 | the form becomes the initial form, the step becomes 1, and the result is cleared |

## Left out

- Rendering: the JSX markup, including the species and gender dropdowns built from lines 4-5, styles and layout are not modelled. The result screen appears when step is 7 and a result exists; the model records the result, not how it is displayed.
- React state hooks: each `setX` call is a direct field update in `Home`. Batching and re-rendering are not modelled.
- The "Next" buttons disabled on empty answers (lines 122, 188, 228, 262, 302): this UI guard is not a precondition of the handlers. The model lets Next run on any form, as `handleNext` itself does.
- Event objects: `e.preventDefault()` has no effect on the state. `e.target.name` is one of the six form keys (`Wizard.Field`). An input with any other name would add an extra key to the form object; that is not modelled.
- Lower-casing: `toLowerCase` is modelled for ASCII letters only (`Strings.LowerChar`). Other Unicode case mappings are not modelled, so the page and the model can differ on non-ASCII text: JavaScript lower-cases the Kelvin sign U+212A to `k`, so symptoms "SHOC\u212A" are an emergency on the page but stable in the model.
- A lookup of triage levels in a reference table or database, suggested by the comment at line 33, has no code in `pages/index.tsx`. It is not part of this model.
- Determinism and idempotence of `triage` are immediate in the model: `Classifier.Triage` is a function of the form, so the same form always gets the same result. No separate lemma states them.
- The species, breed, age and gender answers never reach `triage`. No lemma says so, because `Classifier.ScannedText` reads only the symptoms and elapsed time.
