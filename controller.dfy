/** The running form: one machine instance that holds the current phase and context,
    takes events from the form one at a time and is told when the pending service
    call settles. */
module Controller {
  import opened FormFields
  import opened Validation
  import opened FormMachine

  class FormController {
    var phase: Phase
    var ctx: Context

    /** The configuration the machine is in. */
    function Current(): State
      reads this
    {
      State(phase, ctx)
    }

    /** The controller only ever holds reachable configurations. */
    ghost predicate Valid()
      reads this
    {
      Invariant(Current())
    }

    /** Start the machine in its initial configuration. */
    constructor ()
      ensures Current() == Initial() && Valid()
    {
      phase := Editing(Pristine);
      ctx := Context(BLANK, BLANK);
      InitialSatisfiesInvariant();
    }

    /** `send(event)`: apply the event's transition to the held configuration. */
    method Dispatch(e: Event)
      requires Valid()
      modifies this
      ensures Valid()
      ensures Current() == Step(old(Current()), e)
    {
      ApplyPreservesInvariant(Current(), Send(e));
      if phase.Editing? {
        match e
        case Change(key, value) =>
          ctx := ctx.(values := Set(ctx.values, key, value));
        case Submit =>
          phase := Submitting(ctx.values);
      }
    }

    /** The pending `saveData` call settles: run the validation on the snapshot and
        apply its outcome. With no call pending nothing happens. */
    method Resolve()
      requires Valid()
      modifies this
      ensures Valid()
      ensures Current() == Complete(old(Current()))
    {
      ApplyPreservesInvariant(Current(), Settle);
      if phase.Submitting? {
        var outcome := SaveData(phase.snapshot);
        match outcome
        case Accepted =>
          phase := Success;
        case Rejected(report) =>
          ctx := ctx.(errors := report);
          phase := Editing(Error);
      }
    }

    /** `state.matches("Success")`: the form shows its confirmation. */
    method IsSuccess() returns (b: bool)
      ensures b <==> phase == Success
    {
      b := phase.Success?;
    }

    /** `state.matches("Submitting")`: the submit button shows the loading state. */
    method IsSubmitting() returns (b: bool)
      ensures b <==> exists v :: phase == Submitting(v)
    {
      b := phase.Submitting?;
    }
  }
}
