/** The fixed-shape records of the form's context: `values` and `errors` both hold
    exactly the three fields `name`, `companyName` and `email`. */
module FormFields {

  /** The three input names the form sends with CHANGE. */
  datatype FieldName = Name | CompanyName | Email

  /** A record with one string per field; no key can be added or removed. */
  datatype Fields = Fields(name: string, companyName: string, email: string)

  /** Every field empty: the initial `values` and `errors`. */
  const BLANK: Fields := Fields("", "", "")

  /** The field a name selects. */
  function Get(fs: Fields, f: FieldName): string
  {
    match f
    case Name => fs.name
    case CompanyName => fs.companyName
    case Email => fs.email
  }

  /** `{ ...fs, [f]: v }`: overwrite one field, keep the other two. */
  function Set(fs: Fields, f: FieldName, v: string): (r: Fields)
    ensures Get(r, f) == v
    ensures forall g :: g != f ==> Get(r, g) == Get(fs, g)
  {
    match f
    case Name => fs.(name := v)
    case CompanyName => fs.(companyName := v)
    case Email => fs.(email := v)
  }

  /** No field is empty. */
  predicate AllFilled(fs: Fields)
  {
    forall f :: Get(fs, f) != ""
  }
}
