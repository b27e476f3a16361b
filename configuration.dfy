/**
 * Time and the two expiry settings the OTP engine reads from `IConfiguration`.
 *
 * A `DateTime` is its tick count (100 ns units since 0001-01-01); the clock is
 * never read here: every operation that needs "now" takes it as a parameter.
 * A configuration value is the raw string the configuration holds for a key,
 * `None` when the key is missing.
 */
module Configuration {
  import opened Wrappers
  import opened Text

  type Time = int

  const TicksPerMinute: int := 600_000_000

  /** `default(DateTime)`, i.e. `DateTime.MinValue`. */
  const DefaultTime: Time := 0

  /** `t.AddMinutes(minutes)` for a whole number of minutes. */
  function AddMinutes(t: Time, minutes: int): (r: Time)
    ensures minutes > 0 ==> r > t
    ensures minutes == 0 ==> r == t
    ensures minutes < 0 ==> r < t
  {
    t + minutes * TicksPerMinute
  }

  /** The minutes used when a setting is missing. */
  const DefaultExpiryMinutes: int := 60

  const OtpExpiryKey: string := "OtpSettings:ExpiryMinutes"
  const ResetExpiryKey: string := "PasswordResetSettings:ExpiryMinutes"

  /** The raw configuration values the core consults. */
  datatype Settings = Settings(otpExpiryMinutes: Option<string>, resetExpiryMinutes: Option<string>)

  /** The failure of `ConfigurationBinder.GetValue<int>` on a value that is not an integer. */
  datatype ConfigurationError = InvalidConfiguration(key: string)

  /**
   * `int.TryParse(configuration["OtpSettings:ExpiryMinutes"], out var mins) ? mins : 60`:
   * a missing or unparseable value falls back to 60 minutes.
   */
  function OtpExpiryMinutes(value: Option<string>): (minutes: int)
    ensures value.None? ==> minutes == DefaultExpiryMinutes
    ensures value.Some? && TryParseInt32(value.value).None? ==> minutes == DefaultExpiryMinutes
    ensures value.Some? && TryParseInt32(value.value).Some? ==> minutes == TryParseInt32(value.value).value
  {
    match value
    case None => DefaultExpiryMinutes
    case Some(s) =>
      match TryParseInt32(s)
      case Some(m) => m
      case None => DefaultExpiryMinutes
  }

  /**
   * `configuration.GetValue<int>("PasswordResetSettings:ExpiryMinutes", 60)`:
   * a missing key gives 60, but a value that does not convert to an `int`
   * throws instead of falling back.
   */
  function ResetExpiryMinutes(value: Option<string>): (r: Result<int, ConfigurationError>)
    ensures value.None? ==> r == Ok(DefaultExpiryMinutes)
    ensures value.Some? ==> (r.Ok? <==> TryParseInt32(value.value).Some?)
    ensures value.Some? && r.Ok? ==> r.value == TryParseInt32(value.value).value
    ensures r.Err? ==> r.error == InvalidConfiguration(ResetExpiryKey)
  {
    match value
    case None => Ok(DefaultExpiryMinutes)
    case Some(s) =>
      match TryParseInt32(s)
      case Some(m) => Ok(m)
      case None => Err(InvalidConfiguration(ResetExpiryKey))
  }

  /** A configured number of minutes written in decimal is read back as that number by both settings. */
  lemma ConfiguredMinutesAreUsed(minutes: nat)
    requires minutes <= Int32Max
    ensures OtpExpiryMinutes(Some(DecimalString(minutes))) == minutes
    ensures ResetExpiryMinutes(Some(DecimalString(minutes))) == Ok(minutes)
  {
    ParsesDecimalString(minutes);
  }

  /** A negative number of minutes, down to `int.MinValue`, is read back as itself by both settings. */
  lemma ConfiguredNegativeMinutesAreUsed(k: nat)
    requires 0 < k <= -Int32Min
    ensures OtpExpiryMinutes(Some("-" + DecimalString(k))) == -(k as int)
    ensures ResetExpiryMinutes(Some("-" + DecimalString(k))) == Ok(-(k as int))
  {
    ParsesNegativeDecimalString(k);
  }

  /** The two settings differ on a malformed value: the OTP expiry falls back, the reset expiry fails. */
  lemma MalformedSettingDiverges()
    ensures OtpExpiryMinutes(Some("soon")) == DefaultExpiryMinutes
    ensures ResetExpiryMinutes(Some("soon")) == Err(InvalidConfiguration(ResetExpiryKey))
  {
    var t := TrimEnd(TrimStart("soon"));
    assert TrimStart("soon") == "soon";
    assert TrimEnd("soon") == "soon";
    assert !IsDigit(t[0]);
  }
}
