/** The `Password` domain type: a string accepted only when it is at least eight bytes long. */
module Password {
  import opened Wrappers
  import opened Text

  /** The least byte length `Parse` accepts. */
  const MinLen: nat := 8

  datatype Password = Password(value: string) {
    /** `AsRef<str>`: the wrapped text. */
    function AsRef(): string { value }
  }

  /** The rejection message, which quotes the rejected text. */
  function InvalidMessage(p: string): string
  {
    p + " is invalid password. Password needs to be at-least 8 characters long"
  }

  /**
   * `Password::parse`. The length test is on bytes (`String::len`), so a
   * password of fewer than eight characters passes when it has enough
   * multi-byte characters.
   */
  function Parse(p: string): (r: Result<Password, string>)
    ensures r.Ok? <==> Utf8Len(p) >= MinLen
    ensures r.Ok? ==> r.value.AsRef() == p
    ensures r.Err? ==> r.error == InvalidMessage(p)
  {
    if Utf8Len(p) >= MinLen then Ok(Password(p)) else Err(InvalidMessage(p))
  }

  /** Eight characters are always enough; below two characters nothing passes. */
  lemma ParseByCharCount(p: string)
    ensures |p| >= MinLen ==> Parse(p).Ok?
    ensures 4 * |p| < MinLen ==> Parse(p).Err?
  {
    Utf8LenBounds(p);
  }

  /** On ASCII text, `Parse` accepts exactly the strings of eight characters or more. */
  lemma ParseAscii(p: string)
    requires AllAscii(p)
    ensures Parse(p).Ok? <==> |p| >= MinLen
  {
    AsciiUtf8Len(p);
  }

  /** The three cases of the unit tests: "", "e234" rejected, "ThisIsaValidPassword" accepted. */
  lemma ParseExamples()
    ensures Parse("").Err?
    ensures Parse("e234").Err?
    ensures Parse("ThisIsaValidPassword").Ok?
  {
    ParseAscii("e234");
    ParseAscii("ThisIsaValidPassword");
  }
}
