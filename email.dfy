/**
 * The `Email` domain type. Whether a string is an address is decided by the
 * `validator` crate, which is not part of this model: `isValid` stands for it.
 */
module Email {
  import opened Wrappers

  datatype Email = Email(value: string) {
    /** `AsRef<str>`: the wrapped address. */
    function AsRef(): string { value }
  }

  function InvalidMessage(s: string): string
  {
    s + " is not a valid email"
  }

  /** `Email::parse`: wraps `s` unchanged exactly when the validator accepts it. */
  function Parse(s: string, isValid: string -> bool): (r: Result<Email, string>)
    ensures r.Ok? <==> isValid(s)
    ensures r.Ok? ==> r.value.AsRef() == s
    ensures r.Err? ==> r.error == InvalidMessage(s)
  {
    if isValid(s) then Ok(Email(s)) else Err(InvalidMessage(s))
  }
}
