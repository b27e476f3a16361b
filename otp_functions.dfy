/**
 * The post-validation actions of the OTP engine (`OtpFunctionHandler`): the
 * allow-list of function names, the dispatcher, and the three actions over the
 * business-verification and password-reset stores.
 *
 * `Execute` is the specification of one dispatch over an explicit store state;
 * the class `OtpFunctionHandler` owns the stores and is proved to change them
 * exactly as `Execute` says.
 */
module OtpFunctions {
  import opened Wrappers
  import opened Text
  import opened Configuration
  import opened Entities

  // ---------------------------------------------------------------- names

  /** The actions an OTP can trigger. */
  datatype OtpFunction = EmailVerification | SmsVerification | ResetPassword

  /** `ValidFunctions`: a set compared with `StringComparer.OrdinalIgnoreCase`. */
  const ValidFunctions: set<string> := {"emailVerification", "smsVerification", "resetPassword"}

  /** `IsValidFunction(name)`: membership in `ValidFunctions`, ignoring case. */
  predicate IsValidFunction(name: string) {
    exists f :: f in ValidFunctions && EqualsOrdinalIgnoreCase(name, f)
  }

  /** The `switch` of `ExecuteAsync` on `functionName.ToLowerInvariant()`. */
  function DispatchTarget(name: string): Option<OtpFunction> {
    var lower := ToLower(name);
    if lower == "emailverification" then Some(EmailVerification)
    else if lower == "smsverification" then Some(SmsVerification)
    else if lower == "resetpassword" then Some(ResetPassword)
    else None
  }

  /**
   * The allow-list and the dispatcher agree: every name `IsValidFunction`
   * accepts reaches a handler, and every other name falls to the default arm.
   */
  lemma ValidNamesAreDispatched(name: string)
    ensures IsValidFunction(name) <==> DispatchTarget(name).Some?
  {
    assert ToLower("emailVerification") == "emailverification";
    assert ToLower("smsVerification") == "smsverification";
    assert ToLower("resetPassword") == "resetpassword";
    OrdinalIgnoreCaseIsLowerEquality(name, "emailVerification");
    OrdinalIgnoreCaseIsLowerEquality(name, "smsVerification");
    OrdinalIgnoreCaseIsLowerEquality(name, "resetPassword");
  }

  /** The allow-list ignores case but nothing else: an upper-cased name passes, the empty name and unknown names do not. */
  lemma ValidFunctionExamples()
    ensures IsValidFunction("EMAILVERIFICATION")
    ensures IsValidFunction("ResetPassword")
    ensures !IsValidFunction("")
    ensures !IsValidFunction("emailVerify")
  {
    assert EqualsOrdinalIgnoreCase("EMAILVERIFICATION", "emailVerification");
    assert EqualsOrdinalIgnoreCase("ResetPassword", "resetPassword");
    ValidNamesAreDispatched("");
    ValidNamesAreDispatched("emailVerify");
    assert ToLower("emailVerify") == "emailverify";
  }

  // ---------------------------------------------------------------- stores

  /** Which contact column a verification resolves the business by. */
  datatype Contact = ByEmail | BySms

  /** A row of the `businesses` table, as far as the lookups read it. */
  datatype Business = Business(id: Guid, email: string, phone: string)

  /** A row of the `business_verifications` table. */
  datatype Verification = Verification(emailVerified: bool, phoneVerified: bool)

  /** The state of the stores the handler reads and writes. */
  datatype HandlerState = HandlerState(
    businesses: seq<Business>,
    verifications: map<Guid, Verification>,
    resets: set<PasswordResetRequest>)

  function ContactOf(b: Business, c: Contact): string {
    match c
    case ByEmail => b.email
    case BySms => b.phone
  }

  /**
   * `GetBusinessIdByEmailAsync` / `GetBusinessIdByPhoneAsync`: the id of the
   * first business row whose contact column equals `key`, or null.
   */
  function FindBusiness(rows: seq<Business>, c: Contact, key: string): (r: Option<Guid>)
    ensures r.None? <==> forall i :: 0 <= i < |rows| ==> ContactOf(rows[i], c) != key
    ensures r.Some? ==> exists i :: 0 <= i < |rows| && ContactOf(rows[i], c) == key && rows[i].id == r.value
                                   && forall j :: 0 <= j < i ==> ContactOf(rows[j], c) != key
  {
    if rows == [] then None
    else if ContactOf(rows[0], c) == key then Some(rows[0].id)
    else
      var r := FindBusiness(rows[1..], c, key);
      assert forall i :: 1 <= i < |rows| ==> rows[i] == rows[1..][i - 1];
      r
  }

  /**
   * `SetEmailVerifiedAsync` / `SetPhoneVerifiedAsync`: `UPDATE ... SET flag = true
   * WHERE business_id = id`, which changes nothing when the business has no
   * verification row.
   */
  function SetVerified(flags: map<Guid, Verification>, id: Guid, c: Contact): (r: map<Guid, Verification>)
    ensures r.Keys == flags.Keys
    ensures forall g :: g in flags && g != id ==> r[g] == flags[g]
    ensures id in flags ==> match c
                            case ByEmail => r[id] == flags[id].(emailVerified := true)
                            case BySms => r[id] == flags[id].(phoneVerified := true)
  {
    if id !in flags then flags
    else
      match c
      case ByEmail => flags[id := flags[id].(emailVerified := true)]
      case BySms => flags[id := flags[id].(phoneVerified := true)]
  }

  /** `passwordResetRequestRepository.DeleteByIdAsync(id)`: drop every request for `id`. */
  function DeleteResetsById(rows: set<PasswordResetRequest>, id: string): (r: set<PasswordResetRequest>)
    ensures forall q :: q in r <==> q in rows && q.id != id
  {
    set q | q in rows && q.id != id
  }

  /** The reset requests stored for `id`. */
  function ResetsFor(rows: set<PasswordResetRequest>, id: string): set<PasswordResetRequest> {
    set q | q in rows && q.id == id
  }

  // ---------------------------------------------------------------- actions

  /** What `ExecuteAsync` throws. */
  datatype HandlerError =
    | UnknownFunction(message: string)      // ArgumentException from the default arm
    | ConfigurationFailed(cause: ConfigurationError)

  /** `HandleEmailVerificationAsync` / `HandleSmsVerificationAsync` for the subject `key`. */
  function Verify(st: HandlerState, c: Contact, key: string): (Result<bool, HandlerError>, HandlerState) {
    match FindBusiness(st.businesses, c, key)
    case None => (Ok(false), st)
    case Some(id) => (Ok(true), st.(verifications := SetVerified(st.verifications, id, c)))
  }

  /**
   * `HandleResetPasswordAsync`: delete the requests for `id`, then read the
   * expiry setting (which may throw), then add one request expiring that many
   * minutes after `now`.
   */
  function Reset(st: HandlerState, id: string, now: Time, settings: Settings): (Result<bool, HandlerError>, HandlerState) {
    var cleared := st.(resets := DeleteResetsById(st.resets, id));
    match ResetExpiryMinutes(settings.resetExpiryMinutes)
    case Err(e) => (Err(ConfigurationFailed(e)), cleared)
    case Ok(minutes) =>
      (Ok(true), cleared.(resets := cleared.resets + {NewPasswordResetRequest(id, AddMinutes(now, minutes), now)}))
  }

  /** `ExecuteAsync(name, id)`: the result and the stores afterwards. */
  function Execute(name: string, id: string, now: Time, settings: Settings, st: HandlerState): (Result<bool, HandlerError>, HandlerState) {
    match DispatchTarget(name)
    case Some(EmailVerification) => Verify(st, ByEmail, id)
    case Some(SmsVerification) => Verify(st, BySms, id)
    case Some(ResetPassword) => Reset(st, id, now, settings)
    case None => (Err(UnknownFunction("Unknown OTP function: " + name)), st)
  }

  /** A name outside the allow-list throws `ArgumentException` and changes no store; an allow-listed one never does. */
  lemma UnknownNamesAreRejected(name: string, id: string, now: Time, settings: Settings, st: HandlerState)
    ensures !IsValidFunction(name) ==> Execute(name, id, now, settings, st) == (Err(UnknownFunction("Unknown OTP function: " + name)), st)
    ensures IsValidFunction(name) ==> !Execute(name, id, now, settings, st).0.Err? || !Execute(name, id, now, settings, st).0.error.UnknownFunction?
  {
    ValidNamesAreDispatched(name);
  }

  /**
   * Verification by email or phone succeeds exactly when a business has that
   * contact; it then sets that business's flag (and only that flag), and it
   * never touches the businesses or the reset requests.
   */
  lemma VerificationOutcome(st: HandlerState, c: Contact, key: string)
    ensures var (r, st') := Verify(st, c, key);
      && r.Ok?
      && (r.value <==> exists i :: 0 <= i < |st.businesses| && ContactOf(st.businesses[i], c) == key)
      && st'.businesses == st.businesses && st'.resets == st.resets
      && (!r.value ==> st' == st)
      && (r.value ==> var id := FindBusiness(st.businesses, c, key).value;
            && st'.verifications.Keys == st.verifications.Keys
            && (id in st.verifications ==> match c
                  case ByEmail => st'.verifications[id].emailVerified && st'.verifications[id].phoneVerified == st.verifications[id].phoneVerified
                  case BySms => st'.verifications[id].phoneVerified && st'.verifications[id].emailVerified == st.verifications[id].emailVerified)
            && forall g :: g in st.verifications && g != id ==> st'.verifications[g] == st.verifications[g])
  {
  }

  /**
   * `resetPassword` leaves exactly one request for the subject, expiring the
   * configured number of minutes (60 by default) after `now`, keeps the
   * requests of other subjects and the verification flags, and always reports
   * success; if the setting is malformed it throws after the old requests are gone.
   */
  lemma ResetLeavesOneRequest(st: HandlerState, id: string, now: Time, settings: Settings)
    ensures var (r, st') := Reset(st, id, now, settings);
      && st'.businesses == st.businesses && st'.verifications == st.verifications
      && (forall other :: other != id ==> ResetsFor(st'.resets, other) == ResetsFor(st.resets, other))
      && match ResetExpiryMinutes(settings.resetExpiryMinutes)
         case Ok(minutes) =>
           r == Ok(true) && ResetsFor(st'.resets, id) == {PasswordResetRequest(id, now, AddMinutes(now, minutes))}
         case Err(e) =>
           r == Err(ConfigurationFailed(e)) && ResetsFor(st'.resets, id) == {}
  {
    var (r, st') := Reset(st, id, now, settings);
    forall other | other != id
      ensures ResetsFor(st'.resets, other) == ResetsFor(st.resets, other)
    {
    }
  }

  // ---------------------------------------------------------------- the handler object

  /** `OtpFunctionHandler` over the stores it reads and writes. */
  class OtpFunctionHandler {
    var businesses: seq<Business>
    var verifications: map<Guid, Verification>
    var resetRequests: set<PasswordResetRequest>
    const settings: Settings

    function State(): HandlerState
      reads this
    {
      HandlerState(businesses, verifications, resetRequests)
    }

    constructor (st: HandlerState, settings: Settings)
      ensures State() == st && this.settings == settings
    {
      businesses := st.businesses;
      verifications := st.verifications;
      resetRequests := st.resets;
      this.settings := settings;
    }

    /** `ExecuteAsync(functionName, id)` at time `now`. */
    method ExecuteAsync(name: string, id: string, now: Time) returns (r: Result<bool, HandlerError>)
      modifies this
      ensures (r, State()) == Execute(name, id, now, settings, old(State()))
    {
      match DispatchTarget(name)
      case Some(EmailVerification) =>
        var ok := HandleVerification(ByEmail, id);
        r := Ok(ok);
      case Some(SmsVerification) =>
        var ok := HandleVerification(BySms, id);
        r := Ok(ok);
      case Some(ResetPassword) =>
        r := HandleResetPassword(id, now);
      case None =>
        r := Err(UnknownFunction("Unknown OTP function: " + name));
    }

    /** `HandleEmailVerificationAsync` (`ByEmail`) and `HandleSmsVerificationAsync` (`BySms`). */
    method HandleVerification(c: Contact, key: string) returns (ok: bool)
      modifies this`verifications
      ensures (Ok(ok), State()) == Verify(old(State()), c, key)
    {
      var found := FindBusiness(businesses, c, key);
      if found.None? {
        return false;
      }
      verifications := SetVerified(verifications, found.value, c);
      return true;
    }

    /** `HandleResetPasswordAsync`: delete, read the setting, add. */
    method HandleResetPassword(id: string, now: Time) returns (r: Result<bool, HandlerError>)
      modifies this`resetRequests
      ensures (r, State()) == Reset(old(State()), id, now, settings)
    {
      resetRequests := DeleteResetsById(resetRequests, id);
      var minutes := ResetExpiryMinutes(settings.resetExpiryMinutes);
      if minutes.Err? {
        return Err(ConfigurationFailed(minutes.error));
      }
      resetRequests := resetRequests + {NewPasswordResetRequest(id, AddMinutes(now, minutes.value), now)};
      return Ok(true);
    }
  }
}
