/** End-to-end runs of the form from its initial configuration. */
module Scenarios {
  import opened FormFields
  import opened Validation
  import opened FormMachine

  const ALL_REQUIRED: Fields := Fields("Name is required", "Company Name is required", "Email is required")

  /** The configuration after submitting the untouched form. */
  const AFTER_EMPTY_SUBMIT: State := State(Editing(Error), Context(BLANK, ALL_REQUIRED))

  /** Submitting the untouched form is rejected with all three messages. */
  lemma EmptySubmitReportsAllFields()
    ensures Run(Initial(), [Send(Submit), Settle]) == AFTER_EMPTY_SUBMIT
  {
    assert Get(Initial().ctx.values, Name) == "";
    IncompleteSubmitIsRejected(Initial());
  }

  /** Filling in all three fields and submitting reaches Success. */
  lemma FilledFormSucceeds()
    ensures Run(Initial(), [Send(Change(Name, "Alice")), Send(Change(CompanyName, "Acme")),
                            Send(Change(Email, "a@acme.com")), Send(Submit), Settle]).phase == Success
  {
    var changes := [Send(Change(Name, "Alice")), Send(Change(CompanyName, "Acme")), Send(Change(Email, "a@acme.com"))];
    var filled := Run(Initial(), changes);
    assert filled.phase == Editing(Pristine) && filled.ctx.values == Fields("Alice", "Acme", "a@acme.com");
    RunConcat(Initial(), changes, [Send(Submit), Settle]);
    assert changes + [Send(Submit), Settle] ==
      [Send(Change(Name, "Alice")), Send(Change(CompanyName, "Acme")),
       Send(Change(Email, "a@acme.com")), Send(Submit), Settle];
    FilledSubmitSucceeds(filled);
  }

  /** After a failed submit, filling in only the name and resubmitting clears the
      name's message and still flags the other two fields. */
  lemma CorrectingOneFieldClearsOnlyItsError()
    ensures Run(AFTER_EMPTY_SUBMIT, [Send(Change(Name, "Alice")), Send(Submit), Settle]) ==
      State(Editing(Error), Context(Fields("Alice", "", ""),
                                    Fields("", "Company Name is required", "Email is required")))
  {
    var changed := Step(AFTER_EMPTY_SUBMIT, Change(Name, "Alice"));
    assert changed.ctx.values == Fields("Alice", "", "");
    assert Run(AFTER_EMPTY_SUBMIT, [Send(Change(Name, "Alice")), Send(Submit), Settle]) ==
      Run(changed, [Send(Submit), Settle]);
    IncompleteSubmitIsRejected(changed);
  }
}
