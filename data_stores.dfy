/**
 * The value types and error enums shared by the stores: `LoginAttemptId`,
 * `TwoFACode` and the three store error enums.
 */
module DataStores {
  import opened Wrappers
  import opened Text

  /** Failures of a user store. */
  datatype UserStoreError = UserAlreadyExists | UserNotFound | InvalidCredentials | UnexpectedError

  /** Failures of a banned-token store. */
  datatype BannedTokenStoreError = UnexpectedError

  /** Failures of a 2FA code store. */
  datatype TwoFACodeStoreError = LoginAttemptIdNotFound | UnexpectedError

  /** The identifier of one login attempt that awaits its second factor. */
  datatype LoginAttemptId = LoginAttemptId(id: string) {
    function AsRef(): string { id }
  }

  const InvalidUuidMessage: string := "Invalid UUID"

  /**
   * `LoginAttemptId::parse`. Whether `id` is a UUID is decided by the `uuid`
   * crate, which is not part of this model: `isUuid` stands for it.
   */
  function ParseLoginAttemptId(id: string, isUuid: string -> bool): (r: Result<LoginAttemptId, string>)
    ensures r.Ok? <==> isUuid(id)
    ensures r.Ok? ==> r.value.AsRef() == id
    ensures r.Err? ==> r.error == InvalidUuidMessage
  {
    if isUuid(id) then Ok(LoginAttemptId(id)) else Err(InvalidUuidMessage)
  }

  /** A second-factor code: six ASCII digits. */
  datatype TwoFACode = TwoFACode(code: string) {
    function AsRef(): string { code }
  }

  const InvalidCodeMessage: string := "Not valid 6-digit code"

  /** The number of digits of a 2FA code. */
  const CodeLen: nat := 6

  /**
   * `TwoFACode::parse`: the byte length must be six and every character an
   * ASCII digit, which together mean six digit characters.
   */
  function ParseTwoFACode(code: string): (r: Result<TwoFACode, string>)
    ensures r.Ok? <==> |code| == CodeLen && AllAsciiDigits(code)
    ensures r.Ok? ==> r.value.AsRef() == code
    ensures r.Err? ==> r.error == InvalidCodeMessage
  {
    DigitsUtf8Len(code);
    if Utf8Len(code) == CodeLen && AllAsciiDigits(code) then Ok(TwoFACode(code))
    else Err(InvalidCodeMessage)
  }

  /** The range `TwoFACode::default` draws from: 100000..=999999. */
  const LeastCode: nat := 100_000
  const GreatestCode: nat := 999_999

  /**
   * `TwoFACode::default`, with the random draw passed in as `n`. The code is
   * the decimal rendering of `n`: it passes `ParseTwoFACode` and reads back as `n`.
   */
  function DefaultTwoFACode(n: nat): (c: TwoFACode)
    requires LeastCode <= n <= GreatestCode
    ensures ParseTwoFACode(c.AsRef()) == Ok(c)
    ensures AllAsciiDigits(c.AsRef()) && DecimalValue(c.AsRef()) == n
  {
    assert Pow10(CodeLen - 1) == LeastCode && Pow10(CodeLen) == GreatestCode + 1;
    NatToDecimalLength(n, CodeLen);
    NatToDecimalRoundTrip(n);
    TwoFACode(NatToDecimal(n))
  }
}
