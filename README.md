# Form-submission state machine

A Dafny model of the onboarding form's state machine (`formMachine` in
`src/App.tsx`). The form has three fields, `name`, `companyName` and `email`.
The machine starts in `Editing.Pristine` with every value and every error
empty. `CHANGE` overwrites one value. `SUBMIT` enters `Submitting`, which invokes
the `saveData` service on the current values. The service rejects with a
per-field "X is required" report when any value is empty; the machine then
replaces `errors` with the report and returns to `Editing.Error`. Otherwise the
service resolves and the machine reaches the final `Success` phase.

Modules:

- `FormFields` (`fields.dfy`): the fixed-shape `Fields` record, the `FieldName`
  enumeration, and field read and overwrite.
- `Validation` (`validation.dfy`): the validation rule of `saveData`. It is a
  pure specification (`Report`, `Validate`) plus the imperative `SaveData`
  method. `SaveData` builds the report one field at a time, as the service does,
  and is proved equal to `Validate`.
- `FormMachine` (`machine.dfy`): phases, context, events, the transition
  function `Step`, the delivery of the service outcome (`Resolve`, `Complete`),
  runs over sequences of inputs, and the lemmas about reachable configurations.
- `Controller` (`controller.dfy`): the class `FormController`. It holds the
  current `phase` and `ctx` and updates them in `Dispatch` (the form's `send`)
  and `Resolve` (the pending call settling). It takes the place of the
  `useMachine` interpreter.
- `Scenarios` (`scenarios.dfy`): three end-to-end runs of the form.

Modelling choices:

- The asynchronous service call is an explicit `Settle` input. The machine
  records the values snapshot on entering `Submitting` (`Submitting(snapshot)`).
  Settling validates that snapshot. The invariant shows that in every reachable
  configuration the snapshot equals the current values, because no event changes
  the context while the call is pending.
- An outcome delivered when no call is pending is ignored. Only `Submitting`
  has handlers for the service's done and error events.
- The `CHANGE` key is a `FieldName`. This assumes the form only sends the input
  names `name`, `companyName` and `email` (src/App.tsx:160, 171, 182). The
  source's computed key `[e.key]` (src/App.tsx:93) would otherwise add a new key
  to `values`.
- The `CHANGE` transition has an empty target (src/App.tsx:67). Whether that
  re-enters `Editing` at its initial sub-state depends on the runtime. The model
  keeps the current sub-state. The top-level phase stays `Editing` either way.
- The service tests `!values.x`. On string values this means the value is "",
  and the model tests exactly that.

## Model

| member | source | states |
|---|---|---|
| `FormFields.Set` | src/App.tsx:90-95 | the written field holds the new value and the other two fields are unchanged |
| `Validation.RequiredMessage` | src/App.tsx:110-118 | each field's fixed message ("Name is required", "Company Name is required", "Email is required") is non-empty |
| `Validation.Report` | src/App.tsx:105-118 | a field's message is its fixed text exactly when its value is empty, and "" otherwise |
| `Validation.Validate` | src/App.tsx:105-124 | accepts exactly when all three values are non-empty; a rejection carries the complete three-field report with at least one message |
| `Validation.SaveData` | src/App.tsx:105-124 | building the report field by field and rejecting when any message is set gives exactly the outcome `Validate` specifies |
| `FormMachine.Initial` | src/App.tsx:45-64 | the machine starts in Editing.Pristine with all three values and all three errors "" |
| `FormMachine.Step` | src/App.tsx:58-95 | in Editing, CHANGE sets one value, keeps the other values, the errors and the sub-state; in Editing, SUBMIT enters Submitting with the context unchanged and the current values as snapshot; in Submitting and Success every event leaves phase and context unchanged |
| `FormMachine.Resolve` | src/App.tsx:73-98 | in Submitting, an accepted outcome reaches Success with the context unchanged, and a rejection reaches Editing.Error with the values kept and errors replaced by the report; with no call pending the outcome is ignored |
| `FormMachine.Complete` | src/App.tsx:73-82 | settling the pending call reaches Success exactly when every snapshot value is filled in; otherwise it reaches Editing.Error with the per-field messages of the snapshot and the values kept |
| `FormMachine.InitialSatisfiesInvariant` | src/App.tsx:45-64 | the initial configuration satisfies the reachability invariant |
| `FormMachine.ApplyPreservesInvariant` | src/App.tsx:58-98 | every event and every settle preserves the invariant |
| `FormMachine.RunPreservesInvariant` | src/App.tsx:42-101 | the invariant holds after any sequence of events and settles |
| `FormMachine.ReachableSatisfiesInvariant` | src/App.tsx:42-101 | every reachable configuration satisfies the invariant: errors are "" or the field's fixed message, Pristine has no messages, Error has at least one, the pending snapshot equals the values, and Success was reached only with every value filled in |
| `FormMachine.RunConcat` | src/App.tsx:42-101 | running two batches of inputs one after the other is running their concatenation |
| `FormMachine.SuccessIsFinal` | src/App.tsx:83-85 | once in Success, no sequence of inputs changes phase or context |
| `FormMachine.SubmittingIgnoresEvents` | src/App.tsx:73-82 | while a call is pending, any sequence of CHANGE and SUBMIT events leaves phase and context unchanged |
| `FormMachine.OutcomeConsumedOnce` | src/App.tsx:74-80 | settling a second time after an outcome was applied changes nothing |
| `FormMachine.FilledSubmitSucceeds` | src/App.tsx:70-124 | from either Editing sub-state with every value filled in, SUBMIT then settle reaches Success with the context unchanged |
| `FormMachine.IncompleteSubmitIsRejected` | src/App.tsx:70-121 | from either Editing sub-state with some value empty, SUBMIT then settle reaches Editing.Error with the values kept and the full report in errors |
| `Controller.FormController.constructor` | src/App.tsx:128-129 | a new controller holds the initial configuration and satisfies the invariant |
| `Controller.FormController.Dispatch` | src/App.tsx:131-137 | sending an event moves the held configuration by `Step` and keeps the invariant |
| `Controller.FormController.Resolve` | src/App.tsx:73-80 | the pending call runs `SaveData` on the snapshot, and the held configuration moves by `Complete` and keeps the invariant |
| `Controller.FormController.IsSuccess` | src/App.tsx:149 | true exactly when the phase is Success |
| `Controller.FormController.IsSubmitting` | src/App.tsx:195-196 | true exactly when the phase is Submitting |
| `Scenarios.EmptySubmitReportsAllFields` | src/App.tsx:105-121 | submitting the untouched form ends in Editing.Error with all three messages and the values still empty |
| `Scenarios.FilledFormSucceeds` | src/App.tsx:90-124 | CHANGE of name, companyName and email to non-empty values, then SUBMIT and settle, reaches Success |
| `Scenarios.CorrectingOneFieldClearsOnlyItsError` | src/App.tsx:90-121 | after the empty submit, filling in only the name and resubmitting clears the name's message and still flags companyName and email |

## Left out

- The rendering of the form (Chakra components, headings, icons, styling, the
  submit button's loading and disabled flags): presentation only.
  `IsSuccess` and `IsSubmitting` stand for the two phase tests the page makes.
- The `useMachine` hook and React plumbing: replaced by the `FormController`
  class.
- The one-second `setTimeout` delay and the Promise mechanics of `saveData`:
  the outcome is delivered by the separate `Settle` input / `Resolve` method.
- The `console.log(values)` on success: a diagnostic side effect.
- Service failures other than the validation report: `saveData` has no such
  path.
- `CHANGE` with a key outside the three field names, and events other than
  `CHANGE` and `SUBMIT`: the form never sends them (the event type admits only
  these two, and the inputs are named `name`, `companyName` and `email`).
- `src/SearchInput.tsx`: a text box with local React state and no logic.
