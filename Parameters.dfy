/**
 * The parameter value object (Parameter.py): a declared type, a name and an optional
 * literal value. Its constructor's `isinstance` checks cannot fail for strings, so the
 * datatype carries no invariant.
 */
module Parameters {
  import opened Common

  datatype Parameter = Parameter(dataType: string, name: string, value: Option<string>)
}
