# Patient records controller, modelled in Dafny

This project models the controller of a single-page patient-records screen:
the `EMRApp` page component of `src/App.js`. The component keeps six pieces of
state:

- the patient directory;
- the visit ledger;
- the selected patient id;
- the selected visit id;
- an "editing the visit" flag;
- the search term.

Every button and input calls one handler. A handler makes a small,
deterministic transition of that state. The model has three layers:

- **Collection transforms** (pure). A handler assigns a new patient or visit
  list built with `filter`, `find` or `map`, often with an object spread
  `{ ...visit, ...updates }`. These are functions with lemmas:
  - `Sequences`: the generic array operations;
  - `Text`: ASCII `toLowerCase` and `includes`;
  - `Records`: the records and the spread;
  - `Directory`: the patient search and the new-patient record;
  - `Ledger`: the visit-list transforms.
- **Validation** (pure). `VisitForm` states the visit form's zod schema as a
  predicate over the form values. It also gives the mapping from an accepted
  form to the update object that "Save" hands to the update handler.
- **Controller** (imperative). `App.EMRApp` is a class whose fields are the
  component's state. Its methods are the handlers. Each method's `modifies`
  clause names exactly the state setters the handler calls, so every other
  field is provably untouched. Its `ensures` clauses give the new state in
  terms of the pure transforms. `CurrentMode` reads the screen's mode off the
  state: idle, patient selected, visit viewed, or visit edited.

The handlers are modelled as the code has them:

- Deleting a visit clears the selected visit even if another visit was
  selected.
- Selecting a patient keeps the editing flag. `SelectPatient` still proves
  the mode becomes `PatientSelected`: no visit is shown, so the stale flag is
  never visible.
- Saving leaves edit mode even when no visit has the id.
- Logging out keeps the editing flag and the search term.

A reader might expect a patient selection to clear the edit flag, and a
deletion to clear the selected visit only when that visit was the one
deleted. The code does neither, and the model follows the code.

"Add Medication" followed by removing index 0 empties the list only when the
visit had no medications. On a single-medication visit `[m]` it leaves
`[""]`: the original entry goes and the new blank one stays.
`Ledger.AddThenRemoveFirst` states both cases.
`Ledger.AddThenRemoveMedication` proves the round trip the code does
satisfy: removing the last index undoes "Add Medication".

## Model

| member | source | states |
|---|---|---|
| `Sequences.Filter` | src/App.js:518 | `filter` keeps exactly the elements that pass the test, and never lengthens the list |
| `Sequences.FilterAppend` | src/App.js:565-568 | filtering distributes over concatenation, so kept elements keep their relative order |
| `Sequences.FilterKeepsAll` | src/App.js:565-568 | when every element passes, `filter` returns the list unchanged |
| `Sequences.FilterIdempotent` | src/App.js:565-568 | filtering twice with the same test is filtering once |
| `Sequences.Find` | src/App.js:500-503 | `find` returns nothing exactly when no element passes; otherwise it returns a passing element of the list |
| `Sequences.FindFirst` | src/App.js:503 | the element `find` returns is the one at the first passing index |
| `Sequences.MapWhere` | src/App.js:510-513 | the conditional `map` keeps the length; passing elements are changed and the others stay as they were, index by index |
| `Sequences.MapWhereMissing` | src/App.js:510-513 | when no element passes, the conditional `map` returns the list unchanged |
| `Text.LowerChar` | src/App.js:566 | lower-casing yields no upper-case letter, maps `A`-`Z` onto `a`-`z`, and leaves every other character alone |
| `Text.Lower` | src/App.js:566 | `toLowerCase` keeps the length and leaves no upper-case letter |
| `Text.LowerAt` | src/App.js:566 | `toLowerCase` works character by character |
| `Text.LowerIdempotent` | src/App.js:566 | lower-casing twice is lower-casing once |
| `Text.IncludesIff` | src/App.js:566-567 | `includes(t)` holds exactly when `t` occurs at some position |
| `Text.IncludesEmpty` | src/App.js:566-567 | every string includes the empty string |
| `Records.Merge` | src/App.js:512 | the spread `{ ...visit, ...updates }` takes every field the update carries and keeps every other field |
| `Records.MergeNoChanges` | src/App.js:512 | spreading an empty update changes nothing |
| `Records.MergeIdempotent` | src/App.js:512 | spreading the same update twice is spreading it once |
| `Records.MergeThen` | src/App.js:512 | two spreads in a row equal one spread of the combined update, whose present fields are the later update's where it has them and the earlier one's otherwise |
| `Directory.FilterPatients` | src/App.js:565-568 | a patient is listed exactly when it is in the directory and its lower-cased name contains the lower-cased term, or its record number contains the term as typed |
| `Directory.FilterPatientsAppend` | src/App.js:565-568 | the search keeps the directory's order |
| `Directory.FilterPatientsEmptyTerm` | src/App.js:565-568 | an empty term lists every patient, in order |
| `Directory.MatchesIgnoresNameCase` | src/App.js:566 | a name match survives lower-casing either the term or the name |
| `Directory.FindPatient` | src/App.js:500 | the selected-patient lookup finds a directory patient with the selected id, or nothing exactly when none has it |
| `Directory.FilterAfterAdd` | src/App.js:646-656 | an added patient is listed at the end of the search results exactly when it matches the term |
| `Ledger.FindVisit` | src/App.js:503 | the selected-visit lookup finds a ledger visit with the selected id, or nothing exactly when none has it |
| `Ledger.VisitsOf` | src/App.js:704-705 | a patient's visit table holds exactly the ledger's visits owned by that patient |
| `Ledger.UpdateVisits` | src/App.js:510-515 | saving keeps length and order and leaves visits with another id unchanged; a visit with the id takes the update's fields and keeps the rest; with no such visit the ledger is unchanged |
| `Ledger.DeleteVisits` | src/App.js:517-521 | deletion keeps exactly the visits whose id differs; with no such visit the ledger is unchanged |
| `Ledger.DeleteVisitsAppend` | src/App.js:518 | deletion keeps the relative order of the remaining visits |
| `Ledger.DeleteUniqueVisit` | src/App.js:518 | with unique ids, deleting visit `i` removes exactly entry `i` |
| `Ledger.DeleteThenList` | src/App.js:517-521 | a deleted visit never appears in its patient's visit table |
| `Ledger.CreateThenList` | src/App.js:531-545 | a created visit appears at the end of its patient's visit table, after the earlier ones |
| `Ledger.UpdateKeepsSelection` | src/App.js:510-515 | a save that carries no id keeps the selected visit in the ledger, so the screen can show it again |
| `Ledger.SaveTwice` | src/App.js:510-515 | two saves of the same visit in a row equal one save of the combined update |
| `Ledger.CreateThenUpdate` | src/App.js:531-545 | saving right after creating changes only the new last visit, which becomes the empty visit with the update spread over it |
| `Ledger.DropIndex` | src/App.js:559 | the index filter removes exactly the entry at a valid index, keeping the rest in order, and removes nothing for an out-of-range index |
| `Ledger.DropIndexLength` | src/App.js:559 | removal at a valid index shortens the list by one; any other index keeps its length |
| `Ledger.DropIndexAfterAppend` | src/App.js:547-563 | removing the last index undoes an append |
| `Ledger.AddMedicationTo` | src/App.js:547-553 | every visit with the id gets one empty entry appended, its earlier entries and other fields unchanged; other visits are unchanged |
| `Ledger.RemoveMedicationFrom` | src/App.js:555-563 | every visit with the id loses the entry at the index (none if out of range), other fields unchanged; other visits are unchanged |
| `Ledger.AddThenRemoveFirst` | src/App.js:547-563 | "Add Medication" then removing index 0 leaves `[]` on a visit with no medications and `[""]` on one with a single medication |
| `Ledger.AddThenRemoveMedication` | src/App.js:547-563 | with unique ids, "Add Medication" followed by removing the last index restores the ledger |
| `VisitForm.Message` | src/App.js:138-141 | exactly the chief complaint, diagnosis, notes and medications rules carry a message of their own, and each such message is non-empty |
| `VisitForm.ReportedMessages` | src/App.js:138-141 | a rule with its own message is reported exactly when its text field is empty or, for medications, the list is empty |
| `VisitForm.Errors` | src/App.js:137-148 | a rule is reported exactly when it fails; the list is empty exactly when the schema accepts: valid date, non-empty chief complaint, diagnosis and notes, at least one medication entry, vitals absent or numeric |
| `VisitForm.RecordedVitals` | src/App.js:143-147 | the saved vitals keep each number given and each absent value absent, plus the blood pressure as entered |
| `VisitForm.Submission` | src/App.js:254-265 | a form is submitted exactly when the schema accepts it; the update then carries all six form fields and neither id nor patient; a rejected form reports its failed rules |
| `VisitForm.SavedVisit` | src/App.js:254-265 | saving an accepted form over a visit keeps its id and patient and replaces every other field with the form's |
| `App.EMRApp.constructor` | src/App.js:491-496 | the initial state: the sample directory and ledger, nothing selected, not editing, empty search |
| `App.EMRApp.SelectVisit` | src/App.js:505-508 | selects the visit in view mode |
| `App.EMRApp.UpdateVisit` | src/App.js:510-515 | the ledger becomes `UpdateVisits` of the old one; editing is off even when no visit matched; unique ids survive an update that carries no id |
| `App.EMRApp.DeleteVisit` | src/App.js:517-521 | the ledger becomes `DeleteVisits` of the old one; the selected visit is cleared whichever visit was deleted; editing is off; the screen returns to the patient or to idle |
| `App.EMRApp.StartEditVisit` | src/App.js:523-525 | editing is on; a viewed visit becomes an edited one |
| `App.EMRApp.CancelEditVisit` | src/App.js:527-529 | editing is off; an edited visit becomes a viewed one |
| `App.EMRApp.AddVisit` | src/App.js:531-545 | appends exactly one empty visit for the patient under a fresh id, selects it and enters edit mode; earlier visits are unchanged |
| `App.EMRApp.AddMedication` | src/App.js:547-553 | the ledger becomes `AddMedicationTo` of the old one |
| `App.EMRApp.RemoveMedication` | src/App.js:555-563 | the ledger becomes `RemoveMedicationFrom` of the old one |
| `App.EMRApp.SelectPatient` | src/App.js:571-575 | selects the patient and clears the selected visit, leaving the editing flag; the screen shows the patient |
| `App.EMRApp.Search` | src/App.js:577-579 | the term is stored and the sidebar lists `FilterPatients` for it |
| `App.EMRApp.AddPatient` | src/App.js:646-656 | appends exactly one placeholder patient under a fresh id and selects it |
| `App.EMRApp.Logout` | src/App.js:581-588 | both lists are emptied and both selections cleared; the editing flag and search term are kept |
| `App.EMRApp.SubmitVisitForm` | src/App.js:254-265 | a rejected form reports its failed rules and changes nothing; an accepted one is saved over the shown visit through `UpdateVisits` and leaves edit mode; when the visit was being edited, the screen returns to viewing it |
| `App.CheckupScenario` | src/App.js:531-545 | adding a visit for the second sample patient and saving a check-up form appends exactly one visit holding the form's fields, which is still found under the selected id, so the screen returns to viewing it |

## Left out

- Rendering is not modelled: JSX, the card, table, dialog and select
  components, animation and icons. These are presentation.
- The mobile sidebar flag `isSidebarOpen` is not modelled. This includes the
  `setIsSidebarOpen(false)` in the patient-select handler.
- The form library's wiring is not modelled: `useForm`, the zod resolver, the
  default values and the `useEffect` reset. The form values are an input of
  `VisitForm`. On the page, the form's medication list is the visit's own
  list: its entries are read-only, and only "Add Medication" and the remove
  buttons change them.
- Date parsing and formatting (`parseISO`, `format`, `new Date()`) are a
  foreign library. A parsed date is held as its yyyy-MM-dd text. An
  unreadable input is `InvalidDate`. "Today" is a parameter of `AddVisit`.
- `Date.now()` and `Math.random()` generate ids and record numbers. These
  are parameters: the id must be fresh and the record number is any string.
- App.EMRApp.AddVisit and App.EMRApp.AddPatient require the new id to be
  fresh. The code assumes this of its time-based ids but does not check it.
- Vitals numbers are reals, not IEEE floating point. The model admits
  `Blank` (absent) and `NotANumber` as form values for a number input, and
  the schema rejects `NotANumber`. It does not decide which one the page
  produces for an empty number input.
- `toLowerCase` lower-cases only the ASCII letters `A`-`Z`. Unicode case
  mapping is not modelled.
- The `alert` on logout is a UI side effect and is not modelled.
- React's batched, asynchronous state updates are not modelled. Each handler
  is one atomic transition.
- The validation library's default wording for a bad date or NaN is not
  modelled. `VisitForm.Message` returns `None` for those two rules and gives
  the schema's own message for the others.
