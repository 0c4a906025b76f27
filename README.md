# Internship forms: controller logic in Dafny

This project models the client-side controller logic of a two-form data-entry
application. One form captures an internship application, the other the data
for an offer letter. A three-page navigator switches between a dashboard and
the two forms.

For each form the model covers:

- **The record.** This is the initial state, and the generic
  `(section, field, value)` leaf update that the inputs call.
- **The required-field validator.** It maps the record to an error map from
  field key to message.
- **The clearing step.** This is how `handleInputChange` empties an error when
  the user types.
- **The skill tags.** These exist in the application form only:
  add-if-new-and-non-blank, and remove-by-value.
- **The submit lifecycle.** Submit validates, then calls the gateway when the
  record is complete, then branches on the outcome. That sets the toast, resets
  the loading flag and, on success, schedules a return to the dashboard.

Files:

- `js_string.dfy`: JavaScript's `String.prototype.trim`, over the WhiteSpace
  and LineTerminator code points of ECMA-262 (sections 12.2 and 12.3). It also
  holds the `charAt(0).toUpperCase() + slice(1)` idiom.
- `types.dfy`: the records of `src/types/index.ts`.
- `form_common.dfy`: what both forms share.
  - The error map, and the display rule of `FormField`: an error shows only
    when its message is non-empty.
  - The two tests `!x` and `!x.trim()`.
  - The clearing step, the toast, and the toast a gateway outcome produces.
- `application_form.dfy`: `InternshipApplicationForm.tsx`.
- `offer_letter_form.dfy`: `OfferLetterForm.tsx`.
- `app.dfy`: `App.tsx`, and the dashboard buttons of `Dashboard.tsx`.

Each form is a class with the component's state: `formData`, `errors`,
`toast`, `isLoading` and, in the application form, `skillInput`. The
`setTimeout(onBack, 2000)` of a successful submit is a counter,
`scheduledReturns`. `RunScheduledReturn` fires one scheduled return, and
`App.ApplicationReturnFires` / `App.OfferReturnFires` wire it to the
navigator's `HandleBack`.

The validator is specified by `ValidationErrors`, the map its `if` lines build
in order (`ErrorsFrom` over `ValidatorOrder`). The lemmas state what that map
means: which keys, which messages, which tests, and the valid-iff-empty result.
`ValidateForm` runs the lines one by one and is proved to build exactly that
map.

Decisions that follow the code:

- **Clearing keeps the key.** Clearing an error sets its entry to `""`; it does
  not delete the key. An emptied entry is displayed as no error.
- **Dates are not trimmed.** The date fields are tested with `!x`, so a date
  made only of blanks passes. The text fields are tested with `!x.trim()`.
- **Untested fields.**
  - The application form never tests the address, although its label carries
    the required marker (`InternshipApplicationForm.tsx:252`).
  - The application form never tests the work mode, GPA, previous experience
    or skills either.
  - The offer letter form never tests the work mode or the additional terms.
- **Offer letter clearing never matches.** The key the offer letter form
  clears is `section + Capitalize(field)`, e.g. `candidateInfoName`. No key the
  validator writes has that shape, because every validator key lacks the
  section-name prefix. So typing never clears an offer letter error.
- **The additional-terms textarea.** It sends the top-level string
  `additionalTerms` through the generic update. The spread turns the string
  into an object that holds the string's characters under index keys, plus an
  `additionalTerms` key with the new text (`Terms.TermsObject`). It is not a
  plain string assignment.

Where the code's own comments and labels say more than the code does, the
model follows the code:

- **Clearing.** Both forms comment that typing in a field clears its error
  (`InternshipApplicationForm.tsx:87`, `OfferLetterForm.tsx:75`). The
  application form empties the field's entry and keeps the key. The offer
  letter form changes nothing, for the reason above.
- **Optional fields.** Only GPA, previous experience and additional terms are
  labelled "(Optional)" (`InternshipApplicationForm.tsx:302` and `:414`,
  `OfferLetterForm.tsx:305`). The code also leaves the application's address
  and both work modes untested.

## Model

| member | source | states |
|---|---|---|
| `JsString.Trim` | src/components/InternshipApplicationForm.tsx:53-72 | `String.prototype.trim`; its meaning is stated by `TrimShape` and `TrimIsTrimmed` (the infix with every trimmable end character dropped) and by `TrimEmptyIff` (empty exactly for all-blank strings) |
| `JsString.TrimStartShape` | src/components/InternshipApplicationForm.tsx:53 | the leading part `trim` drops is all trimmable and it stops at a non-trimmable character |
| `JsString.TrimEndShape` | src/components/InternshipApplicationForm.tsx:53 | the trailing part `trim` drops is all trimmable and it stops at a non-trimmable character |
| `JsString.TrimIsTrimmed` | src/components/InternshipApplicationForm.tsx:94 | the result of `trim` has no trimmable character at either end and is no longer than its input |
| `JsString.TrimShape` | src/components/InternshipApplicationForm.tsx:94 | `trim` keeps an infix of its input and drops only trimmable characters on both sides |
| `JsString.TrimEmptyIff` | src/components/InternshipApplicationForm.tsx:53-72 | `!x.trim()` holds exactly for the strings made only of whitespace and line terminators, the empty string included |
| `JsString.TrimOfTrimmed` | src/components/InternshipApplicationForm.tsx:94 | a string with no trimmable end is left unchanged |
| `JsString.TrimIdempotent` | src/components/InternshipApplicationForm.tsx:94 | trimming twice is trimming once |
| `JsString.UpperCaseAscii` | src/components/OfferLetterForm.tsx:76 | `toUpperCase` maps a to z onto A to Z and leaves every other character alone |
| `JsString.Capitalize` | src/components/OfferLetterForm.tsx:76 | same length; the first character upper-cased and the rest kept, and "" for "" |
| `FormCommon.Shows` | src/components/FormField.tsx:23 | the error paragraph is rendered only for a non-empty message; `ClearError` states that a cleared key stops showing, and `ValidationErrorsMeaning` that every key the validator writes shows |
| `FormCommon.Missing` | src/components/InternshipApplicationForm.tsx:53-72 | the `!x` and `!x.trim()` tests of the validators; `MissingMeaning` states which strings fail each |
| `FormCommon.MissingMeaning` | src/components/InternshipApplicationForm.tsx:53-72 | `!x` fails only on "", `!x.trim()` fails exactly on all-blank strings, an untested leaf never fails |
| `FormCommon.ClearError` | src/components/InternshipApplicationForm.tsx:87-90 | the key set is unchanged and the cleared key no longer shows; other entries are unchanged; an absent or empty entry leaves the map unchanged |
| `FormCommon.Closed` | src/components/InternshipApplicationForm.tsx:451 | closing hides the toast and keeps its message and kind |
| `FormCommon.OutcomeToast` | src/components/InternshipApplicationForm.tsx:130-155 | the toast is visible; success kind iff the response succeeded; the response message, or the generic message when the call threw |
| `InternshipApplicationForm.FieldNameInjective` | src/components/InternshipApplicationForm.tsx:78-90 | no two inputs share an error key |
| `InternshipApplicationForm.SetLeaf` | src/components/InternshipApplicationForm.tsx:79-85 | the targeted leaf takes the value; every other leaf, the skills, the id and every other section are unchanged |
| `InternshipApplicationForm.Message` | src/components/InternshipApplicationForm.tsx:53-72 | every tested field has a non-empty message |
| `InternshipApplicationForm.CheckOf` | src/components/InternshipApplicationForm.tsx:53-72 | which test each field gets; `PersonalTests`, `AcademicTests`, `InternshipTests` and `AdditionalTests` state the outcome field by field, untested fields included |
| `InternshipApplicationForm.ErrorsFromMeaning` | src/components/InternshipApplicationForm.tsx:50-72 | the lines for a list of leaves write a key exactly for the listed leaves that fail, with that leaf's message, and no other key |
| `InternshipApplicationForm.LineStep` | src/components/InternshipApplicationForm.tsx:53-72 | running one more `if` line on the map of the earlier lines gives the map of one more line |
| `InternshipApplicationForm.ValidatorOrderComplete` | src/components/InternshipApplicationForm.tsx:53-72 | every tested leaf has its line |
| `InternshipApplicationForm.ValidationErrors` | src/components/InternshipApplicationForm.tsx:49-75 | the map `validateForm` builds; `ValidationErrorsMeaning`, `ValidIffComplete` and the section lemmas state its keys and messages |
| `InternshipApplicationForm.ValidationErrorsMeaning` | src/components/InternshipApplicationForm.tsx:49-76 | the validator's key appears exactly for the failing tested leaves, each with its message, and every entry shows |
| `InternshipApplicationForm.ErrorFor` | src/components/InternshipApplicationForm.tsx:53-72 | one leaf: its key is present iff its test fails, and then it shows |
| `InternshipApplicationForm.PersonalTests` | src/components/InternshipApplicationForm.tsx:53-57 | first name, last name, email and phone fail iff blank after trimming; date of birth fails iff ""; address never fails |
| `InternshipApplicationForm.AcademicTests` | src/components/InternshipApplicationForm.tsx:60-63 | university, degree and major fail iff blank after trimming; graduation date fails iff ""; GPA never fails |
| `InternshipApplicationForm.InternshipTests` | src/components/InternshipApplicationForm.tsx:66-69 | position, department and duration fail iff blank after trimming; start date fails iff ""; work mode never fails |
| `InternshipApplicationForm.AdditionalTests` | src/components/InternshipApplicationForm.tsx:72 | cover letter fails iff blank after trimming; previous experience never fails |
| `InternshipApplicationForm.BlankDatePassesBlankNameFails` | src/components/InternshipApplicationForm.tsx:53-68 | a non-empty all-blank string passes as any of the three dates but fails as the first name |
| `InternshipApplicationForm.SameTestedLeavesSameErrors` | src/components/InternshipApplicationForm.tsx:49-76 | records agreeing on the tested leaves get the same error map |
| `InternshipApplicationForm.UncheckedLeafIgnored` | src/components/InternshipApplicationForm.tsx:53-72 | editing address, GPA, work mode or previous experience never changes the validator's result |
| `InternshipApplicationForm.SkillsIgnored` | src/components/InternshipApplicationForm.tsx:53-72 | the skill list never changes the validator's result |
| `InternshipApplicationForm.ValidIffComplete` | src/components/InternshipApplicationForm.tsx:74-75 | the map is empty iff no tested leaf fails |
| `InternshipApplicationForm.InitialFormFailsEveryTest` | src/components/InternshipApplicationForm.tsx:14-43 | on the initial record every tested field shows its error |
| `InternshipApplicationForm.Accepts` | src/components/InternshipApplicationForm.tsx:94 | the guard of `addSkill`: the trimmed input is non-empty and not yet a skill; `AddSkillTo` states that the list changes exactly when it holds |
| `InternshipApplicationForm.AddSkillTo` | src/components/InternshipApplicationForm.tsx:93-104 | the old list is a prefix, at most one entry longer; the members are the old ones plus the trimmed input when non-empty; the list changes iff the trimmed input is non-empty and new |
| `InternshipApplicationForm.AddSkillKeepsWellFormed` | src/components/InternshipApplicationForm.tsx:93-104 | adding keeps the list duplicate-free, with no empty and no untrimmed entry |
| `InternshipApplicationForm.AddSkillIdempotent` | src/components/InternshipApplicationForm.tsx:94 | adding the same input twice adds it once |
| `InternshipApplicationForm.RemoveSkillFrom` | src/components/InternshipApplicationForm.tsx:106-114 | every copy of the value is gone, every other entry keeps its count, and the rest stay in order |
| `InternshipApplicationForm.RemoveAbsent` | src/components/InternshipApplicationForm.tsx:111 | removing an absent value changes nothing |
| `InternshipApplicationForm.RemoveFromDistinct` | src/components/InternshipApplicationForm.tsx:111 | in a list without repeats, removing an entry deletes exactly its position |
| `InternshipApplicationForm.RemoveSkillKeepsWellFormed` | src/components/InternshipApplicationForm.tsx:106-114 | removing keeps the list duplicate-free, with no empty and no untrimmed entry |
| `InternshipApplicationForm.RemoveUndoesAdd` | src/components/InternshipApplicationForm.tsx:93-114 | removing the skill just added restores the list |
| `InternshipApplicationForm.Form.constructor` | src/components/InternshipApplicationForm.tsx:14-47 | the initial record, no errors, a hidden success toast, not loading, an empty skill box |
| `InternshipApplicationForm.Form.ValidateForm` | src/components/InternshipApplicationForm.tsx:49-76 | `errors` becomes the validator's map of the current record; the result is true iff it is empty iff no tested leaf fails |
| `InternshipApplicationForm.Form.HandleInputChange` | src/components/InternshipApplicationForm.tsx:78-91 | the record gets the leaf update and `errors` gets the clearing step on the field's key |
| `InternshipApplicationForm.Form.SetSkillInput` | src/components/InternshipApplicationForm.tsx:380 | the skill box holds the typed text |
| `InternshipApplicationForm.Form.AddSkill` | src/components/InternshipApplicationForm.tsx:93-104 | the skills get the add step; the box is emptied iff the input was accepted; the list stays well formed |
| `InternshipApplicationForm.Form.RemoveSkill` | src/components/InternshipApplicationForm.tsx:106-114 | the skills get the remove step; the list stays well formed |
| `InternshipApplicationForm.Form.HandleSubmit` | src/components/InternshipApplicationForm.tsx:116-159 | invalid: the error toast, no call, loading flag and returns unchanged. Valid: the record is sent, loading during the call and off after it, the outcome's toast, one return scheduled iff success. The record never changes |
| `InternshipApplicationForm.Form.CloseToast` | src/components/InternshipApplicationForm.tsx:451 | the toast is closed and keeps its message and kind |
| `InternshipApplicationForm.Form.RunScheduledReturn` | src/components/InternshipApplicationForm.tsx:140-142 | one scheduled return is consumed |
| `OfferLetterForm.SpreadTerms` | src/components/OfferLetterForm.tsx:69-72 | spreading the terms slot gives an object whose `additionalTerms` is the new text and which keeps the spread string's characters |
| `OfferLetterForm.SetLeaf` | src/components/OfferLetterForm.tsx:67-73 | a record leaf takes the value and everything else is unchanged; the terms slot becomes the spread object |
| `OfferLetterForm.TermsEditsBuildObject` | src/components/OfferLetterForm.tsx:308 | the terms slot never holds the typed string; a second edit only replaces the text; from the initial record the object spreads "" |
| `OfferLetterForm.ValidatorKeyInjective` | src/components/OfferLetterForm.tsx:45-60 | no two tested leaves share a validator key |
| `OfferLetterForm.Message` | src/components/OfferLetterForm.tsx:45-60 | every tested field has a non-empty message |
| `OfferLetterForm.CheckOf` | src/components/OfferLetterForm.tsx:45-60 | which test each field gets; `CandidateTests`, `PositionTests`, `StartDateTest`, `CompanyTests` and `UncheckedLeafIgnored` state the outcome field by field |
| `OfferLetterForm.ErrorsFromMeaning` | src/components/OfferLetterForm.tsx:42-60 | the lines for a list of leaves write a key exactly for the listed leaves that fail, with that leaf's message, and no other key |
| `OfferLetterForm.LineStep` | src/components/OfferLetterForm.tsx:45-60 | running one more `if` line on the map of the earlier lines gives the map of one more line |
| `OfferLetterForm.ValidatorOrderComplete` | src/components/OfferLetterForm.tsx:45-60 | every tested leaf has its line |
| `OfferLetterForm.ValidationErrors` | src/components/OfferLetterForm.tsx:41-63 | the map `validateForm` builds; `ValidationErrorsMeaning`, `ValidIffComplete` and the section lemmas state its keys and messages |
| `OfferLetterForm.ValidationErrorsMeaning` | src/components/OfferLetterForm.tsx:41-64 | the validator's key appears exactly for the failing tested leaves, each with its message, and every entry shows |
| `OfferLetterForm.ErrorFor` | src/components/OfferLetterForm.tsx:45-60 | one tested leaf: its key is present iff its test fails, and then it shows |
| `OfferLetterForm.CandidateTests` | src/components/OfferLetterForm.tsx:45-47 | candidateName, candidateEmail and candidateAddress appear iff the field is blank after trimming |
| `OfferLetterForm.PositionTests` | src/components/OfferLetterForm.tsx:50-54 | positionTitle, positionDepartment, positionDuration and positionStipend appear iff the field is blank after trimming |
| `OfferLetterForm.StartDateTest` | src/components/OfferLetterForm.tsx:52 | positionStartDate appears iff the start date is "", untrimmed |
| `OfferLetterForm.CompanyTests` | src/components/OfferLetterForm.tsx:57-60 | companyName, companyAddress, companyContact and companyEmail appear iff the field is blank after trimming |
| `OfferLetterForm.BlankStartDatePasses` | src/components/OfferLetterForm.tsx:50-52 | a non-empty all-blank string passes as the start date but fails as the title |
| `OfferLetterForm.SameTestedLeavesSameErrors` | src/components/OfferLetterForm.tsx:41-64 | records agreeing on the tested leaves get the same error map |
| `OfferLetterForm.UncheckedLeafIgnored` | src/components/OfferLetterForm.tsx:45-60 | editing the work mode or the additional terms never changes the validator's result |
| `OfferLetterForm.ValidIffComplete` | src/components/OfferLetterForm.tsx:62-63 | the map is empty iff no tested leaf fails |
| `OfferLetterForm.InitialFormFailsEveryTest` | src/components/OfferLetterForm.tsx:14-35 | on the initial record every tested field shows its error |
| `OfferLetterForm.ErrorKey` | src/components/OfferLetterForm.tsx:76 | the clearing key starts with the section name and is as long as section plus field; `ErrorKeyNeverValidated` states that it is never a validator key |
| `OfferLetterForm.ValidatorKeyLacksSectionPrefix` | src/components/OfferLetterForm.tsx:45-60 | no validator key starts with any section name |
| `OfferLetterForm.ErrorKeyNeverValidated` | src/components/OfferLetterForm.tsx:76 | no clearing key equals a validator key |
| `OfferLetterForm.ClearingNeverApplies` | src/components/OfferLetterForm.tsx:76-79 | on any map of validator keys the clearing step changes nothing |
| `OfferLetterForm.Form.constructor` | src/components/OfferLetterForm.tsx:14-39 | the initial record, no errors, a hidden success toast, not loading |
| `OfferLetterForm.Form.ValidateForm` | src/components/OfferLetterForm.tsx:41-64 | `errors` becomes the validator's map of the current record; the result is true iff it is empty iff no tested leaf fails |
| `OfferLetterForm.Form.HandleInputChange` | src/components/OfferLetterForm.tsx:66-80 | the record gets the leaf update; `errors` gets the clearing step on the derived key, which leaves it unchanged |
| `OfferLetterForm.Form.HandleSubmit` | src/components/OfferLetterForm.tsx:82-125 | invalid: the error toast, no call, loading flag and returns unchanged. Valid: the record is sent, loading during the call and off after it, the outcome's toast, one return scheduled iff success. The record never changes |
| `OfferLetterForm.Form.CloseToast` | src/components/OfferLetterForm.tsx:342 | the toast is closed and keeps its message and kind |
| `OfferLetterForm.Form.RunScheduledReturn` | src/components/OfferLetterForm.tsx:106-108 | one scheduled return is consumed |
| `App.PageNameInjective` | src/App.tsx:6 | distinct pages are distinct strings |
| `App.ScreenOf` | src/App.tsx:19-26 | the application form iff "application", the offer letter form iff "offer-letter", the dashboard for every other string |
| `App.ScreensFollowPages` | src/App.tsx:19-26 | each page renders its own screen, and distinct pages render distinct screens |
| `App.Target` | src/components/Dashboard.tsx:82 | a dashboard button never requests the dashboard and always leads to a form screen |
| `App.EveryPageReachable` | src/components/Dashboard.tsx:118 | every page other than the dashboard is requested by some button |
| `App.Navigator.constructor` | src/App.tsx:9 | the first page is the dashboard |
| `App.Navigator.HandleNavigate` | src/App.tsx:11-13 | the page becomes the requested one, unconditionally |
| `App.Navigator.HandleBack` | src/App.tsx:15-17 | the page becomes the dashboard from any page |
| `App.PressDashboardButton` | src/App.tsx:25 | a dashboard button moves to its form's page, which renders a form |
| `App.ApplicationReturnFires` | src/App.tsx:21 | a return scheduled by the application form lands on the dashboard |
| `App.OfferReturnFires` | src/App.tsx:23 | a return scheduled by the offer letter form lands on the dashboard |
| `App.SubmitApplicationAndReturn` | src/App.tsx:21 | a complete application with a successful gateway shows the success toast and ends on the dashboard |
| `App.SubmitOfferAndReturn` | src/App.tsx:23 | a complete offer letter with a successful gateway shows the success toast and ends on the dashboard |

## Left out

- JSX layout and styling are left out: the markup, the hard-coded dashboard
  statistics and the `Input`/`Textarea`/`Select` wrappers. Of `FormField`, only
  the rule "an error is displayed iff its string is non-empty" is kept, as
  `FormCommon.Shows`.
- The mock gateway of `src/services/api.ts` is left out. Its random outcome,
  latency, generated ids and the unused `getApplications` are not modelled.
  The settled result of the call is a parameter of `HandleSubmit`: a response,
  or a thrown fault.
- The toast's own auto-close timer is React effect scheduling. Only the close
  action is modelled: it hides the toast and keeps its message and kind.
- Real time is left out. The 2000 ms delay before `onBack` is a count of
  scheduled returns (`scheduledReturns`), and `ReturnDelayMs` only records the
  constant.
- Asynchrony is left out. `HandleSubmit` runs from validation to the `finally`
  in one step, so nothing can happen during the `await`. `loadingAtCall`
  records that the loading flag is set while the gateway is called.
- Re-entrancy protection is left out. Duplicate submits are prevented only by
  the button's `disabled={isLoading}`, which is markup. Like the source,
  `HandleSubmit` does not look at `isLoading`.
- `handleInputChange` with arbitrary `(section, field)` strings is left out.
  Only the pairs the form's inputs pass are modelled (`Leaf`). Other strings
  would add new keys to the record.
- `InternshipApplicationForm.Form.ValidateForm` and
  `OfferLetterForm.Form.ValidateForm` do not spell out the source's `if` lines
  one per statement. The lines are a table: `ValidatorOrder`, `CheckOf`, and
  `Message` with `FieldName` or `ValidatorKey`. The method runs the table in
  order in a loop, and builds the same map, line by line.
- `JsString.UpperCaseAscii` upper-cases ASCII letters only. Every field name it
  is applied to is ASCII.
- React's functional updates and render batching are left out. Each handler is
  modelled as reading and writing the current state.
- The text the additional-terms textarea shows once its slot holds an object is
  left out.
- The unmounting of a form when the page changes is left out: a form object is
  not destroyed. A return that fires after the user has left still calls
  `handleBack` and lands on the dashboard.
