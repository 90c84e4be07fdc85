/** The form state machine: phases, context, the event transitions, the delivery
    of the service's outcome, and what holds along every run from the initial
    configuration. */
module FormMachine {
  import opened FormFields
  import opened Validation

  /** The two sub-states of Editing. */
  datatype EditingSub = Pristine | Error

  /** The top-level phase. Submitting carries the snapshot of `values` the service
      was invoked with on entry; Success is final. */
  datatype Phase = Editing(sub: EditingSub) | Submitting(snapshot: Fields) | Success

  /** The machine's context. */
  datatype Context = Context(values: Fields, errors: Fields)

  /** A configuration: the active phase and the context. */
  datatype State = State(phase: Phase, ctx: Context)

  /** The events the form sends: CHANGE with the input's name and its new value, and SUBMIT. */
  datatype Event = Change(key: FieldName, value: string) | Submit

  /** One step of a run: an event from the form, or the settling of the pending service call. */
  datatype Input = Send(event: Event) | Settle

  /** The initial configuration: Editing.Pristine with every value and every error "". */
  function Initial(): (s: State)
    ensures s.phase == Editing(Pristine)
    ensures forall f :: Get(s.ctx.values, f) == "" && Get(s.ctx.errors, f) == ""
  {
    State(Editing(Pristine), Context(BLANK, BLANK))
  }

  /** The event transitions. In Editing, CHANGE runs `onChange` and keeps the
      sub-state; SUBMIT enters Submitting, snapshotting the values. Submitting and
      Success have no handlers, so every event is ignored there. */
  function Step(s: State, e: Event): (r: State)
    ensures s.phase.Editing? && e.Change? ==>
      r.phase == s.phase && r.ctx.errors == s.ctx.errors &&
      Get(r.ctx.values, e.key) == e.value &&
      forall f :: f != e.key ==> Get(r.ctx.values, f) == Get(s.ctx.values, f)
    ensures s.phase.Editing? && e.Submit? ==>
      r.phase.Submitting? && r.phase.snapshot == s.ctx.values && r.ctx == s.ctx
    ensures !s.phase.Editing? ==> r == s
  {
    match s.phase
    case Editing(_) =>
      (match e
       case Change(key, value) => s.(ctx := s.ctx.(values := Set(s.ctx.values, key, value)))
       case Submit => State(Submitting(s.ctx.values), s.ctx))
    case _ => s
  }

  /** Delivery of the service's outcome. In Submitting, a resolution reaches Success
      with the context kept, and a rejection runs `onError` (errors := report) and
      reaches Editing.Error. Outside Submitting there is no pending call and the
      outcome is ignored. */
  function Resolve(s: State, outcome: Outcome): (r: State)
    ensures !s.phase.Submitting? ==> r == s
    ensures s.phase.Submitting? && outcome.Accepted? ==> r.phase == Success && r.ctx == s.ctx
    ensures s.phase.Submitting? && outcome.Rejected? ==>
      r.phase == Editing(Error) && r.ctx.values == s.ctx.values && r.ctx.errors == outcome.report
  {
    if !s.phase.Submitting? then s
    else
      match outcome
      case Accepted => State(Success, s.ctx)
      case Rejected(report) => State(Editing(Error), s.ctx.(errors := report))
  }

  /** The pending service call settles with the verdict on its snapshot. */
  function Complete(s: State): (r: State)
    ensures !s.phase.Submitting? ==> r == s
    ensures s.phase.Submitting? ==> r.ctx.values == s.ctx.values
    ensures s.phase.Submitting? ==> (r.phase == Success <==> AllFilled(s.phase.snapshot))
    ensures s.phase.Submitting? && !AllFilled(s.phase.snapshot) ==>
      r.phase == Editing(Error) &&
      forall f :: Get(r.ctx.errors, f) == if Get(s.phase.snapshot, f) == "" then RequiredMessage(f) else ""
    ensures s.phase.Submitting? && AllFilled(s.phase.snapshot) ==> r.ctx == s.ctx
  {
    if s.phase.Submitting? then Resolve(s, Validate(s.phase.snapshot)) else s
  }

  function Apply(s: State, i: Input): State
  {
    match i
    case Send(e) => Step(s, e)
    case Settle => Complete(s)
  }

  /** The configuration after processing the inputs one at a time, each to completion. */
  function Run(s: State, inputs: seq<Input>): State
    decreases |inputs|
  {
    if inputs == [] then s else Run(Apply(s, inputs[0]), inputs[1..])
  }

  /** Processing two batches of inputs one after the other is processing their concatenation. */
  lemma {:induction false} RunConcat(s: State, a: seq<Input>, b: seq<Input>)
    ensures Run(s, a + b) == Run(Run(s, a), b)
    decreases |a|
  {
    if a != [] {
      assert (a + b)[0] == a[0] && (a + b)[1..] == a[1..] + b;
      RunConcat(Apply(s, a[0]), a[1..], b);
    } else {
      assert a + b == b;
    }
  }

  /** Every error is "" or its field's fixed message. */
  predicate WellFormedErrors(errors: Fields)
  {
    forall f :: Get(errors, f) == "" || Get(errors, f) == RequiredMessage(f)
  }

  /** What holds in every configuration reachable from the initial one. */
  predicate Invariant(s: State)
  {
    WellFormedErrors(s.ctx.errors) &&
    (s.phase == Editing(Pristine) ==> s.ctx.errors == BLANK) &&
    (s.phase == Editing(Error) ==> exists f :: Get(s.ctx.errors, f) != "") &&
    (s.phase.Submitting? ==> s.phase.snapshot == s.ctx.values) &&
    (s.phase.Success? ==> AllFilled(s.ctx.values))
  }

  lemma InitialSatisfiesInvariant()
    ensures Invariant(Initial())
  {
  }

  lemma ApplyPreservesInvariant(s: State, i: Input)
    requires Invariant(s)
    ensures Invariant(Apply(s, i))
  {
    if s.phase.Submitting? && i.Settle? && !AllFilled(s.phase.snapshot) {
      var f :| Get(s.phase.snapshot, f) == "";
      assert Get(Apply(s, i).ctx.errors, f) != "";
    }
  }

  lemma {:induction false} RunPreservesInvariant(s: State, inputs: seq<Input>)
    requires Invariant(s)
    ensures Invariant(Run(s, inputs))
    decreases |inputs|
  {
    if inputs != [] {
      ApplyPreservesInvariant(s, inputs[0]);
      RunPreservesInvariant(Apply(s, inputs[0]), inputs[1..]);
    }
  }

  /** Every reachable configuration satisfies the invariant: Pristine has no
      messages, Error has at least one, the pending snapshot is the current
      values, and Success was reached only with every value filled in. */
  lemma ReachableSatisfiesInvariant(inputs: seq<Input>)
    ensures Invariant(Run(Initial(), inputs))
  {
    InitialSatisfiesInvariant();
    RunPreservesInvariant(Initial(), inputs);
  }

  /** Success is final: no input changes the configuration afterwards. */
  lemma {:induction false} SuccessIsFinal(s: State, inputs: seq<Input>)
    requires s.phase.Success?
    ensures Run(s, inputs) == s
    decreases |inputs|
  {
    if inputs != [] {
      SuccessIsFinal(Apply(s, inputs[0]), inputs[1..]);
    }
  }

  /** While a call is pending, events from the form are ignored: only the outcome
      moves the machine out of Submitting. */
  lemma {:induction false} SubmittingIgnoresEvents(s: State, inputs: seq<Input>)
    requires s.phase.Submitting?
    requires forall k :: 0 <= k < |inputs| ==> inputs[k].Send?
    ensures Run(s, inputs) == s
    decreases |inputs|
  {
    if inputs != [] {
      SubmittingIgnoresEvents(Apply(s, inputs[0]), inputs[1..]);
    }
  }

  /** An outcome is consumed once: a second settle of the same call changes nothing. */
  lemma OutcomeConsumedOnce(s: State)
    ensures Complete(Complete(s)) == Complete(s)
  {
  }

  /** Submitting with every value filled in, from either Editing sub-state, reaches
      Success with the context unchanged, whatever errors an earlier attempt left. */
  lemma FilledSubmitSucceeds(s: State)
    requires s.phase.Editing? && AllFilled(s.ctx.values)
    ensures Run(s, [Send(Submit), Settle]) == State(Success, s.ctx)
  {
    var t := Step(s, Submit);
    assert Run(s, [Send(Submit), Settle]) == Run(t, [Settle]);
  }

  /** Submitting with some value empty lands in Editing.Error with the values kept
      and the full three-field report in errors. */
  lemma IncompleteSubmitIsRejected(s: State)
    requires s.phase.Editing? && !AllFilled(s.ctx.values)
    ensures Run(s, [Send(Submit), Settle]) == State(Editing(Error), Context(s.ctx.values, Report(s.ctx.values)))
  {
    var t := Step(s, Submit);
    assert Run(s, [Send(Submit), Settle]) == Run(t, [Settle]);
  }
}
