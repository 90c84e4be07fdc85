/** The validation rule of the `saveData` service: every empty field is reported
    with a fixed message, and the submission is accepted only when none is empty. */
module Validation {
  import opened FormFields

  /** What one invocation of the service settles to: resolved, or rejected with a
      report shaped like `errors`. */
  datatype Outcome = Accepted | Rejected(report: Fields)

  /** The fixed "X is required" text of each field. */
  function RequiredMessage(f: FieldName): (m: string)
    ensures m != ""
  {
    match f
    case Name => "Name is required"
    case CompanyName => "Company Name is required"
    case Email => "Email is required"
  }

  /** The per-field report: the field's message when its value is empty, "" otherwise. */
  function Report(values: Fields): (r: Fields)
    ensures forall f :: Get(r, f) == if Get(values, f) == "" then RequiredMessage(f) else ""
  {
    Fields(
      if values.name == "" then "Name is required" else "",
      if values.companyName == "" then "Company Name is required" else "",
      if values.email == "" then "Email is required" else "")
  }

  /** The service's verdict on a snapshot of the values. */
  function Validate(values: Fields): (o: Outcome)
    ensures o.Accepted? <==> AllFilled(values)
    ensures o.Rejected? ==> o.report == Report(values)
    ensures o.Rejected? ==> exists f :: Get(o.report, f) == RequiredMessage(f)
  {
    var report := Report(values);
    if Get(report, Name) != "" || Get(report, CompanyName) != "" || Get(report, Email) != "" then
      Rejected(report)
    else
      Accepted
  }

  /** The service body without its delay: it starts from a blank report, overwrites
      one field per failed check, then rejects if any message was written. */
  method SaveData(values: Fields) returns (outcome: Outcome)
    ensures outcome == Validate(values)
  {
    var errors := BLANK;
    if values.name == "" {
      errors := errors.(name := "Name is required");
    }
    if values.companyName == "" {
      errors := errors.(companyName := "Company Name is required");
    }
    if values.email == "" {
      errors := errors.(email := "Email is required");
    }
    if errors.name != "" || errors.companyName != "" || errors.email != "" {
      outcome := Rejected(errors);
    } else {
      outcome := Accepted;
    }
  }
}
