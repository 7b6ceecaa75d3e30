# Three-step form wizard: validator and step state machine

This project models the logic of the form wizard component in
`src/components/Form.jsx`: a personal-details step, an address step and a
review step, with a per-step validator that gates the Next button, a Back
button, numbered progress buttons, a simulated submission that resets the
form, and a browser storage entry that mirrors the record.

- `JsText` (`js_text.dfy`): the JavaScript `\s` class, `String.length`
  counted in UTF-16 code units, and digit strings.
- `FormRecord` (`form_record.dfy`): the eight-field record, the `[name]: value`
  update that `handleChange` performs, and the empty initial record.
- `Validation` (`validation.dfy`): `validateStep` as the function `Validate`,
  which builds the error map with the source's sequence of overwriting
  assignments; `StepComplete`, a field-by-field statement of what each
  step demands, proved equivalent to an empty error map; the email
  expression `/\S+@\S+\.\S+/` as an index predicate, proved equal to a
  substring search.
- `Wizard` (`wizard.dfy`): the component state as a value, the events
  (field edit, Next, Back, progress jump, submission start, submission end),
  the guards the markup puts on them, and `Apply`, the effect of each. An
  invariant holds in every state a run of enabled events reaches. The step
  stays in 1..3. Every step before the current one is complete. The storage
  entry equals the record. So the Submit button is only ever enabled on a
  record that passes the checks of steps 1 and 2.
- `FormComponent` (`form_component.dfy`): a class with the fields `step`,
  `isSubmitting`, `formData`, `errors` and a ghost `stored`. Each handler is
  a method proved to perform `Apply` for its event and to keep the invariant.

Behaviour of the code that the model follows where the field labels and
messages suggest otherwise:

- An empty phone is reported as "Phone number is invalid" and an empty zip
  code as "Zip Code is invalid". The length checks run after the "required"
  checks and overwrite them, so "Phone is required" and "Zip Code is
  required" are never shown (`RequiredPhoneAndZipNeverShown`).
- The email check is an unanchored search: it needs a non-space character
  before some '@' and a non-empty run of non-space characters before a '.',
  then one non-space character. It is stricter than "an '@' with a dot after it".
- Submission calls `localStorage.removeItem`, but it also gives `formData` a
  new object, so the persistence effect (lines 35-37) runs again and saves
  the empty record. After a completed submission the entry holds the empty
  record rather than being absent. A reload gives the empty record in both
  cases.
- `handleSubmit` checks only step 3, which checks nothing, so submission
  always starts. That the record is complete follows from the invariant:
  a field can only be edited through an input its own step renders.
- A saved entry that is not a valid record is not replaced by the empty
  record: the code passes it straight to `JSON.parse`.

## Model

| member | source | states |
|---|---|---|
| JsText.IsJsSpace | src/components/Form.jsx:45 | the `\s` class of the email expression (ECMAScript white space and line terminators); every such character lies in the Basic Multilingual Plane and is neither a digit, '@' nor '.' |
| JsText.JsLength | src/components/Form.jsx:48 | `s.length` lies between the number of characters and twice that, and is 0 only for the empty string |
| JsText.JsLengthOfBmp | src/components/Form.jsx:57 | for text without astral characters `.length` equals the number of characters |
| JsText.DigitsAreBmpText | src/components/Form.jsx:48 | a digit string contains no `\s` character and its `.length` is its number of characters |
| FormRecord.FormData.With | src/components/Form.jsx:67-73 | a change event sets the named field to the new value and leaves every other field as it was |
| FormRecord.WithLaws | src/components/Form.jsx:69-72 | writing back a field's own value changes nothing; a second write to a field overrides the first |
| FormRecord.Empty | src/components/Form.jsx:15-24 | the initial record holds the empty string in every field |
| Validation.Validate | src/components/Form.jsx:39-65 | the error map has keys only among the current step's checked fields, and it is empty exactly when the step is complete field by field |
| Validation.StepComplete | src/components/Form.jsx:42-58 | what each step demands field by field (step 1: name non-empty, email matching, phone at least 10 code units and numeric; step 2: address line 1, city, state non-empty, zip code 6 code units and numeric; other steps nothing); it implies every field the step checks is non-empty |
| Validation.EmailMatchAt | src/components/Form.jsx:45 | the expression matched at a given '@' and '.': non-space characters before the '@', between the two and after the '.'; the whole matched text is free of white space |
| Validation.EmailPattern | src/components/Form.jsx:45 | the `test` of the unanchored email expression: some '@' and later '.' match; a passing address has at least five characters and contains '@' and '.' |
| Validation.Step1Rules | src/components/Form.jsx:42-50 | name key iff name empty ("Name is required"); empty email gives "Email is required", a non-matching one "Email is invalid", a matching one no key; phone key iff empty, shorter than 10 code units or not numeric, always "Phone number is invalid" |
| Validation.Step2Rules | src/components/Form.jsx:51-59 | address line 1, city and state get their "is required" message exactly when empty; zip code gets "Zip Code is invalid" exactly when not numeric or not 6 code units long; address line 2 never gets a key |
| Validation.RequiredPhoneAndZipNeverShown | src/components/Form.jsx:47-58 | no step ever reports "Phone is required" or "Zip Code is required" |
| Validation.OtherStepsPass | src/components/Form.jsx:60-62 | step 3 and every step number other than 1 and 2 give the empty map |
| Validation.ValidateFrame | src/components/Form.jsx:41-62 | a step's errors depend only on the fields that step checks |
| Validation.MatchAtGivesSplit | src/components/Form.jsx:45 | an index match of the email expression splits the text into prefix, the three `\S+` parts and suffix |
| Validation.SplitGivesMatchAt | src/components/Form.jsx:45 | such a split gives an index match at the '@' and the '.' |
| Validation.EmailPatternIsSearch | src/components/Form.jsx:45 | the email test holds exactly when some substring is `\S+@\S+\.\S+` |
| Validation.AddressShapePasses | src/components/Form.jsx:45 | `local@domain.tld` with non-empty, space-free parts passes the email test |
| Validation.NoAtFails | src/components/Form.jsx:45-46 | text without an '@' fails the email test |
| Validation.ExampleMissingName | src/components/Form.jsx:43-49 | name "", email "a@b.com", phone "1234567890" give only "Name is required" |
| Validation.ExampleBadEmail | src/components/Form.jsx:44-46 | name "A", email "bad-email", phone "1234567890" give only "Email is invalid" |
| Validation.ExampleShortZip | src/components/Form.jsx:57-58 | the five-digit zip code "12345" with the other address fields filled gives only "Zip Code is invalid" |
| Validation.ExampleEmptyPhone | src/components/Form.jsx:47-49 | an empty phone is reported as "Phone number is invalid" |
| Wizard.InputsOn | src/components/Form.jsx:118-286 | step 2 renders no input checked by step 1; steps 1 and 3 render no address input |
| Wizard.Enabled | src/components/Form.jsx:401-458 | the markup's guards: Back iff step is not 1; Next iff step < 3; Submit iff step is 3 or more and no submission is in flight; progress button n iff n <= step; edits only on inputs the current step renders (none on the review step); the timer only while submitting |
| Wizard.Apply | src/components/Form.jsx:67-110 | the effect of each handler; only edits and completion change the record, only Next and submission start change the errors, only submission start and end change the flag, and neither edits nor submission start move the step |
| Wizard.InitEstablishes | src/components/Form.jsx:9-37 | a mounted component satisfies the invariant |
| Wizard.ApplyPreserves | src/components/Form.jsx:67-110 | every handler whose control is enabled keeps the step in 1..3, every earlier step complete and storage equal to the record |
| Wizard.NextIsGated | src/components/Form.jsx:75-79 | Next stores the step's errors and advances by exactly one when the step is complete, otherwise stays; the record is untouched |
| Wizard.ForwardOnlyThroughValidation | src/components/Form.jsx:75-83 | no enabled event other than Next moves the step forward, and Next only by one past a complete step |
| Wizard.EditIsSingleField | src/components/Form.jsx:67-73 | an edit changes exactly the named field and the storage follows it; step, errors and submission flag are kept |
| Wizard.SubmitStartAlwaysStarts | src/components/Form.jsx:85-88 | submission cannot start while one is in flight; when started it sets the flag and clears the errors, keeping step and record |
| Wizard.CompletionResets | src/components/Form.jsx:89-110 | the flag is cleared whatever happens; when the notification returns, the record is empty, the step is 1 and storage holds the empty record; when it throws, nothing else changes |
| Wizard.CompletionIsFreshStart | src/components/Form.jsx:89-110 | a completed submission leaves the state of a component mounted with nothing saved, except for the errors shown |
| Wizard.ReloadRestoresRecord | src/components/Form.jsx:11-37 | mounting again from the stored entry restores the current record |
| Wizard.RunPreserves | src/components/Form.jsx:75-110 | every run of enabled events keeps the invariant |
| Wizard.ReachableStates | src/components/Form.jsx:441-458 | in every reachable state the step is 1, 2 or 3, storage equals the record, and whenever Submit is enabled steps 1 and 2 are complete |
| Wizard.SubmittedRecordIsComplete | src/components/Form.jsx:85-88 | in any run of enabled events, the record at the moment a submission starts passes every check of steps 1 and 2, though `handleSubmit` itself checks only step 3 |
| Wizard.RejectedNextIsStable | src/components/Form.jsx:75-79 | pressing Next again after a rejection changes nothing further |
| FormComponent.Component.constructor | src/components/Form.jsx:9-37 | the fields start as the mounted state of the transition system |
| FormComponent.Component.ValidateStep | src/components/Form.jsx:39-65 | the whole error map is replaced by the step's errors; the result is true exactly when the step is complete; record and step are untouched |
| FormComponent.Component.HandleChange | src/components/Form.jsx:67-73 | performs the edit transition for an input the current step renders, keeping the invariant |
| FormComponent.Component.HandleNext | src/components/Form.jsx:75-79 | performs the Next transition while the Next button is shown (step below 3) |
| FormComponent.Component.HandleBack | src/components/Form.jsx:81-83 | performs the Back transition while Back is enabled (step not 1) |
| FormComponent.Component.JumpTo | src/components/Form.jsx:401-402 | sets the step to a progress button's number, enabled only up to the current step |
| FormComponent.Component.HandleSubmit | src/components/Form.jsx:85-88 | on the review step with no submission in flight, always starts a submission and clears the errors |
| FormComponent.Component.FinishSubmission | src/components/Form.jsx:89-110 | clears the flag; unless the notification throws, empties the record, returns to step 1 and leaves storage holding the empty record |

## Left out

- Rendering, styling, animation and the randomly placed stars: presentation
  only. The markup enters the model only through the guards on each event
  (lines 401-402, 432, 441, 458) and through which inputs each step renders.
- Notifications (`toast`) and `console.error`: calls into libraries with no
  effect on the component's state. The one consequence kept is that the
  success notification may throw, which skips the reset (`SubmitDone(true)`).
- JSON serialisation of the stored entry: the model stores the record
  itself and assumes that `JSON.parse` of `JSON.stringify` returns it. A
  malformed entry makes the code throw; the model has no such entry.
- The second read of storage in the mount effect (lines 28-33) sets the
  same record again and is folded into mounting.
- `setTimeout` and its two-second delay: submission is two events, start
  and end, with no time between them.
- `isNaN(Number(s))`: float parsing is not modelled. The numeric test is a
  parameter; the worked examples assume only that non-empty strings of
  decimal digits are numeric.
- React's scheduling of state updates: each handler is one atomic step.
- Matching on UTF-16 code units: the email test is stated over Unicode
  characters, while the browser matches `\S` on code units. The two agree,
  because a surrogate code unit is never white space.
- The repository's second, near-identical copy of the component is not
  part of this model.
