/**
 * The OTP engine (`OtpService`): create a code (one active code per subject),
 * validate it (allow-listed function, lookup, expiry, single-use consumption,
 * dispatch), and bulk deletion.
 *
 * The `otp` table is a set of rows; the functions below are the `WHERE`
 * clauses of the repository's statements, and the class proves that each
 * operation applies them in the source's order.
 */
module Otps {
  import opened Wrappers
  import opened Text
  import opened Configuration
  import opened Entities
  import opened OtpFunctions

  // ---------------------------------------------------------------- the otp table

  /** `DELETE FROM otp WHERE id = @Id`. */
  function DeleteById(rows: set<Otp>, id: string): (r: set<Otp>)
    ensures forall o :: o in r <==> o in rows && o.id != id
  {
    set o | o in rows && o.id != id
  }

  /** `DELETE FROM otp WHERE id = @Id AND code = @Code`. */
  function DeleteByIdAndCode(rows: set<Otp>, id: string, code: string): (r: set<Otp>)
    ensures forall o :: o in r <==> o in rows && !(o.id == id && o.code == code)
  {
    set o | o in rows && !(o.id == id && o.code == code)
  }

  /** `DELETE FROM otp WHERE id = ANY(@Ids)`. */
  function DeleteManyByIds(rows: set<Otp>, ids: set<string>): (r: set<Otp>)
    ensures forall o :: o in r <==> o in rows && o.id !in ids
  {
    set o | o in rows && o.id !in ids
  }

  /** The rows stored for one subject. */
  function OtpsFor(rows: set<Otp>, id: string): set<Otp> {
    set o | o in rows && o.id == id
  }

  /** `SELECT * FROM otp WHERE id = @Id AND code = @Code` finds a row. */
  predicate HasMatch(rows: set<Otp>, id: string, code: string) {
    exists o :: o in rows && o.id == id && o.code == code
  }

  /** The single-active-code invariant: at most one row per subject. */
  predicate OnePerId(rows: set<Otp>) {
    forall a, b :: a in rows && b in rows && a.id == b.id ==> a == b
  }

  /**
   * Creating a code for `o.id` (delete by id, then insert) leaves exactly that
   * code for the subject, leaves every other subject's rows as they were, and
   * keeps the single-active-code invariant.
   */
  lemma CreateLeavesOneCode(rows: set<Otp>, o: Otp)
    ensures OtpsFor(DeleteById(rows, o.id) + {o}, o.id) == {o}
    ensures forall other :: other != o.id ==> OtpsFor(DeleteById(rows, o.id) + {o}, other) == OtpsFor(rows, other)
    ensures OnePerId(rows) ==> OnePerId(DeleteById(rows, o.id) + {o})
  {
    var after := DeleteById(rows, o.id) + {o};
    forall other | other != o.id
      ensures OtpsFor(after, other) == OtpsFor(rows, other)
    {
    }
  }

  /** Creating twice for the same subject leaves only the second code. */
  lemma CreateTwiceKeepsSecond(rows: set<Otp>, first: Otp, second: Otp)
    requires first.id == second.id
    ensures OtpsFor(DeleteById(DeleteById(rows, first.id) + {first}, second.id) + {second}, second.id) == {second}
  {
    CreateLeavesOneCode(DeleteById(rows, first.id) + {first}, second);
  }

  /**
   * Bulk deletion removes exactly the rows of the listed subjects, and doing
   * it again changes nothing.
   */
  lemma DeleteManyIsExactAndIdempotent(rows: set<Otp>, ids: set<string>)
    ensures forall id :: id in ids ==> OtpsFor(DeleteManyByIds(rows, ids), id) == {}
    ensures forall id :: id !in ids ==> OtpsFor(DeleteManyByIds(rows, ids), id) == OtpsFor(rows, id)
    ensures DeleteManyByIds(DeleteManyByIds(rows, ids), ids) == DeleteManyByIds(rows, ids)
  {
    forall id | id in ids
      ensures OtpsFor(DeleteManyByIds(rows, ids), id) == {}
    {
    }
    forall id | id !in ids
      ensures OtpsFor(DeleteManyByIds(rows, ids), id) == OtpsFor(rows, id)
    {
    }
  }

  /** Consuming (id, code) removes every matching row and nothing else, and keeps the invariant. */
  lemma ConsumeRemovesOnlyThatCode(rows: set<Otp>, id: string, code: string)
    ensures !HasMatch(DeleteByIdAndCode(rows, id, code), id, code)
    ensures forall o :: o in rows && (o.id != id || o.code != code) ==> o in DeleteByIdAndCode(rows, id, code)
    ensures OnePerId(rows) ==> OnePerId(DeleteByIdAndCode(rows, id, code))
  {
  }

  /**
   * Nothing rejects a negative expiry setting: a code created under one is
   * already expired at its creation instant, so every validation of it fails
   * as expired.
   */
  lemma NegativeExpiryIsImmediate(settings: Settings, id: string, code: string, now: Time)
    requires OtpExpiryMinutes(settings.otpExpiryMinutes) < 0
    ensures NewOtp(id, code, AddMinutes(now, OtpExpiryMinutes(settings.otpExpiryMinutes)), now).IsExpired(now)
  {
  }

  // ---------------------------------------------------------------- code generation

  /** A code as `GenerateSixDigitCode` writes it: six decimal digits, value in [100000, 999998]. */
  predicate IsSixDigitCode(code: string) {
    |code| == 6 && AllDigits(code) && 100000 <= DecimalValue(code) <= 999998
  }

  /**
   * `new Random().Next(100000, 999999).ToString()`: the upper bound of `Next`
   * is exclusive, so 999999 is never produced.
   */
  method GenerateSixDigitCode() returns (code: string)
    ensures IsSixDigitCode(code)
    ensures code[0] != '0'
  {
    var n :| 100000 <= n < 999999;
    code := DecimalString(n);
    DecimalRoundTrip(n);
    DecimalLength(n, 5);
  }

  // ---------------------------------------------------------------- responses

  /** `OtpResponseDto`. */
  datatype OtpResponse = OtpResponse(id: string, code: string, createdAt: Time, expiresAt: Time)

  /** `ValidateOtpResponseDto`. */
  datatype ValidateOtpResponse = ValidateOtpResponse(success: bool, message: string)

  /** What `ValidateOtpAsync` throws. */
  datatype OtpError =
    | OtpNotFound(message: string)          // OtpNotFoundException
    | OtpExpired(message: string)           // OtpExpiredException
    | FunctionFailed(cause: HandlerError)   // an exception out of ExecuteAsync

  const NotFoundMessage: string := "OTP not found or invalid."
  const ExpiredMessage: string := "OTP has expired."
  const SuccessMessage: string := "OTP validated successfully."
  const FailureMessage: string := "Failed to execute OTP function."

  function InvalidTypeMessage(fnType: string): string {
    "Invalid OTP function type: " + fnType
  }

  /** How the outcome of the function becomes the outcome of the validation. */
  function ValidationResult(executed: Result<bool, HandlerError>): (r: Result<ValidateOtpResponse, OtpError>)
    ensures executed == Ok(true) <==> r == Ok(ValidateOtpResponse(true, SuccessMessage))
    ensures executed == Ok(false) <==> r == Ok(ValidateOtpResponse(false, FailureMessage))
    ensures executed.Err? <==> r.Err?
  {
    match executed
    case Ok(true) => Ok(ValidateOtpResponse(true, SuccessMessage))
    case Ok(false) => Ok(ValidateOtpResponse(false, FailureMessage))
    case Err(e) => Err(FunctionFailed(e))
  }

  // ---------------------------------------------------------------- the service

  /** `OtpService` over the `otp` table, with its function handler and configuration. */
  class OtpService {
    var otps: set<Otp>
    const handler: OtpFunctionHandler
    const settings: Settings

    ghost predicate Valid()
      reads this
    {
      OnePerId(otps)
    }

    constructor (handler: OtpFunctionHandler, settings: Settings)
      ensures Valid() && otps == {}
      ensures this.handler == handler && this.settings == settings
    {
      otps := {};
      this.handler := handler;
      this.settings := settings;
    }

    /** The expiry of a code created at `now`. */
    function ExpiryFor(now: Time): Time
      reads this
    {
      AddMinutes(now, OtpExpiryMinutes(settings.otpExpiryMinutes))
    }

    /**
     * `CreateOtpAsync`: delete every code of the subject, generate a code,
     * store it with expiry `now` + the configured minutes, and echo the stored row.
     * The request's type and purpose are not stored.
     */
    method CreateOtp(id: string, otpType: string, purpose: string, now: Time) returns (r: OtpResponse)
      modifies this
      ensures IsSixDigitCode(r.code)
      ensures r == OtpResponse(id, r.code, now, ExpiryFor(now))
      ensures otps == DeleteById(old(otps), id) + {Otp(id, r.code, now, ExpiryFor(now))}
      ensures OtpsFor(otps, id) == {Otp(id, r.code, now, ExpiryFor(now))}
      ensures forall other :: other != id ==> OtpsFor(otps, other) == OtpsFor(old(otps), other)
      ensures old(Valid()) ==> Valid()
    {
      otps := DeleteById(otps, id);
      var code := GenerateSixDigitCode();
      var expiryMinutes := OtpExpiryMinutes(settings.otpExpiryMinutes);
      var otp := NewOtp(id, code, AddMinutes(now, expiryMinutes), now);
      ghost var before := old(otps);
      otps := otps + {otp};
      CreateLeavesOneCode(before, otp);
      r := OtpResponse(otp.id, otp.code, otp.createdAt, otp.expiresAt);
    }

    /** `GetByIdAndCodeAsync`: some row matching (id, code), or null. */
    method FindOtp(id: string, code: string) returns (found: Option<Otp>)
      ensures found.Some? <==> HasMatch(otps, id, code)
      ensures found.Some? ==> found.value in otps && found.value.id == id && found.value.code == code
    {
      if o :| o in otps && o.id == id && o.code == code {
        found := Some(o);
      } else {
        found := None;
      }
    }

    /**
     * `ValidateOtpAsync`: reject an unknown function name without touching
     * anything; otherwise look the code up (not found: throw, nothing changes),
     * consume it (expired: throw after consuming), and only then run the function.
     */
    method ValidateOtp(id: string, code: string, fnType: string, now: Time) returns (r: Result<ValidateOtpResponse, OtpError>)
      modifies this, handler
      ensures !IsValidFunction(fnType) ==>
                r == Ok(ValidateOtpResponse(false, InvalidTypeMessage(fnType)))
                && otps == old(otps) && handler.State() == old(handler.State())
      ensures IsValidFunction(fnType) && !HasMatch(old(otps), id, code) ==>
                r == Err(OtpNotFound(NotFoundMessage))
                && otps == old(otps) && handler.State() == old(handler.State())
      ensures IsValidFunction(fnType) && HasMatch(old(otps), id, code) ==>
                otps == DeleteByIdAndCode(old(otps), id, code)
      ensures r == Err(OtpExpired(ExpiredMessage)) ==>
                IsValidFunction(fnType) && handler.State() == old(handler.State())
                && exists o :: o in old(otps) && o.id == id && o.code == code && o.IsExpired(now)
      ensures IsValidFunction(fnType) && HasMatch(old(otps), id, code)
              && (forall o :: o in old(otps) && o.id == id && o.code == code ==> o.IsExpired(now)) ==>
                r == Err(OtpExpired(ExpiredMessage))
      ensures IsValidFunction(fnType) && HasMatch(old(otps), id, code)
              && (forall o :: o in old(otps) && o.id == id && o.code == code ==> !o.IsExpired(now)) ==>
                var (executed, st) := Execute(fnType, id, now, handler.settings, old(handler.State()));
                r == ValidationResult(executed) && handler.State() == st
      ensures old(Valid()) ==> Valid()
    {
      if !IsValidFunction(fnType) {
        return Ok(ValidateOtpResponse(false, InvalidTypeMessage(fnType)));
      }
      var found := FindOtp(id, code);
      if found.None? {
        return Err(OtpNotFound(NotFoundMessage));
      }
      if found.value.IsExpired(now) {
        otps := DeleteByIdAndCode(otps, id, code);
        return Err(OtpExpired(ExpiredMessage));
      }
      otps := DeleteByIdAndCode(otps, id, code);
      var executed := handler.ExecuteAsync(fnType, id, now);
      r := ValidationResult(executed);
      assert r != Err(OtpExpired(ExpiredMessage));
    }

    /** `DeleteManyOtpAsync`: delete the codes of every listed subject; no existence checks. */
    method DeleteManyOtp(ids: set<string>)
      modifies this
      ensures otps == DeleteManyByIds(old(otps), ids)
      ensures old(Valid()) ==> Valid()
    {
      otps := DeleteManyByIds(otps, ids);
    }
  }

  // ---------------------------------------------------------------- sequences of calls

  /**
   * A code is single-use: after any validation that reached the lookup, the
   * same (id, code) is not found again, whatever the function did.
   */
  method ValidateTwice(svc: OtpService, id: string, fnType: string, now: Time)
    returns (created: OtpResponse, first: Result<ValidateOtpResponse, OtpError>, second: Result<ValidateOtpResponse, OtpError>)
    modifies svc, svc.handler
    ensures IsValidFunction(fnType) ==> second == Err(OtpNotFound(NotFoundMessage))
    ensures !IsValidFunction(fnType) ==> first == second == Ok(ValidateOtpResponse(false, InvalidTypeMessage(fnType)))
  {
    created := svc.CreateOtp(id, "email", "verify", now);
    first := svc.ValidateOtp(id, created.code, fnType, now);
    second := svc.ValidateOtp(id, created.code, fnType, now);
  }

  /**
   * An unknown function name leaves the code in place: a later validation with
   * an allow-listed name, before expiry, still reaches the function.
   */
  method InvalidTypeKeepsCode(svc: OtpService, id: string, now: Time)
    returns (created: OtpResponse, first: Result<ValidateOtpResponse, OtpError>, second: Result<ValidateOtpResponse, OtpError>)
    modifies svc, svc.handler
    ensures first == Ok(ValidateOtpResponse(false, InvalidTypeMessage("sendFax")))
    ensures OtpExpiryMinutes(svc.settings.otpExpiryMinutes) >= 0
            && ResetExpiryMinutes(svc.handler.settings.resetExpiryMinutes).Ok? ==>
              second == Ok(ValidateOtpResponse(true, SuccessMessage))
  {
    created := svc.CreateOtp(id, "email", "verify", now);
    ValidFunctionExamples();
    ValidNamesAreDispatched("sendFax");
    assert ToLower("sendFax") == "sendfax";
    first := svc.ValidateOtp(id, created.code, "sendFax", now);
    ValidNamesAreDispatched("resetPassword");
    assert ToLower("resetPassword") == "resetpassword";
    second := svc.ValidateOtp(id, created.code, "resetPassword", now);
  }

  /**
   * A code validated after its expiry fails as expired and is consumed by that
   * attempt, so the next attempt fails as not found.
   */
  method ExpiredCodeIsConsumed(svc: OtpService, id: string, created: Time, later: Time)
    returns (code: OtpResponse, first: Result<ValidateOtpResponse, OtpError>, second: Result<ValidateOtpResponse, OtpError>)
    modifies svc, svc.handler
    requires later > svc.ExpiryFor(created)
    ensures first == Err(OtpExpired(ExpiredMessage))
    ensures second == Err(OtpNotFound(NotFoundMessage))
  {
    code := svc.CreateOtp(id, "sms", "login", created);
    ValidFunctionExamples();
    first := svc.ValidateOtp(id, code.code, "ResetPassword", later);
    second := svc.ValidateOtp(id, code.code, "ResetPassword", later);
  }
}
