/** The parts of Mongoose's behaviour that the schemas and routes rely on. */
module Mongoose {
  import opened Wrappers

  /** A String path in a JSON request body or a stored document: missing, null, or a string. */
  datatype Field = Absent | Null | Str(text: string)

  /** The `required` validator of a String path: the value is there and is not "". */
  predicate Required(v: Option<string>) {
    v.Some? && v.value != ""
  }

  predicate RequiredField(f: Field) {
    f.Str? && f.text != ""
  }

  /** One path of a `findByIdAndUpdate` body: validators do not run, keys that are
      undefined are stripped, so a missing key keeps the stored value. */
  function Overwrite(stored: string, v: Option<string>): (r: string)
    ensures v.Some? ==> r == v.value
    ensures v.None? ==> r == stored
  {
    v.GetOr(stored)
  }

  /** The same for a path that may hold null: a null in the body stores null. */
  function OverwriteField(stored: Field, v: Field): (r: Field)
    ensures v.Absent? ==> r == stored
    ensures !v.Absent? ==> r == v
  {
    if v.Absent? then stored else v
  }
}
