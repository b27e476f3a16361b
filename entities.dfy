/**
 * The domain entities: one-time passwords, password-reset requests,
 * notifications and the delivery parameters record, with the values their
 * constructors give them. Status changes and deletions happen in the stores
 * (see the service modules), never on these values.
 */
module Entities {
  import opened Wrappers
  import opened Configuration

  // ---------------------------------------------------------------- identifiers

  /** A `Guid`, as a number; `Guid.Empty` is zero. */
  type Guid = nat

  const EmptyGuid: Guid := 0

  /** A strict upper bound of a finite set of identifiers (used to show a fresh one exists). */
  ghost function StrictUpperBound(s: set<Guid>): (m: Guid)
    ensures forall x :: x in s ==> x < m
    decreases |s|
  {
    if s == {} then 0
    else
      var y :| y in s;
      var m := StrictUpperBound(s - {y});
      assert forall x :: x in s ==> x == y || x in s - {y};
      if y < m then m else y + 1
  }

  /**
   * `Guid.NewGuid()`: a random version-4 identifier, which is never
   * `Guid.Empty`. The model also takes it to differ from every identifier
   * already in use (`taken`), the collision-free idealisation of a 122-bit
   * random value.
   */
  method NewGuid(taken: set<Guid>) returns (g: Guid)
    ensures g != EmptyGuid && g !in taken
  {
    ghost var bound := StrictUpperBound(taken);
    assert bound + 1 != EmptyGuid && bound + 1 !in taken;
    g :| g != EmptyGuid && g !in taken;
  }

  // ---------------------------------------------------------------- Otp

  /** A row of the `otp` table. */
  datatype Otp = Otp(id: string, code: string, createdAt: Time, expiresAt: Time) {
    /** `IsExpired => DateTime.UtcNow > ExpiresAt`: valid up to and including `ExpiresAt`. */
    predicate IsExpired(now: Time) {
      now > expiresAt
    }
  }

  /** `new Otp(id, code, expiresAt)` at time `now`. */
  function NewOtp(id: string, code: string, expiresAt: Time, now: Time): (o: Otp)
    ensures o.id == id && o.code == code && o.expiresAt == expiresAt
    ensures o.createdAt == now
  {
    Otp(id, code, now, expiresAt)
  }

  /** `new Otp()` at time `now`: empty id and code, no expiry set. */
  function BlankOtp(now: Time): (o: Otp)
    ensures o.id == "" && o.code == ""
    ensures o.createdAt == now && o.expiresAt == DefaultTime
  {
    Otp("", "", now, DefaultTime)
  }

  /** An OTP is still valid at the very instant it expires, and expired one tick later. */
  lemma OtpExpiryIsStrict(o: Otp)
    ensures !o.IsExpired(o.expiresAt)
    ensures o.IsExpired(o.expiresAt + 1)
  {
  }

  /** Once expired, an OTP stays expired. */
  lemma OtpStaysExpired(o: Otp, now: Time, later: Time)
    requires o.IsExpired(now) && now <= later
    ensures o.IsExpired(later)
  {
  }

  // ---------------------------------------------------------------- PasswordResetRequest

  /** A row of the `password_reset_requests` table. */
  datatype PasswordResetRequest = PasswordResetRequest(id: string, createdAt: Time, expiresAt: Time) {
    /** `IsExpired => DateTime.UtcNow > ExpiresAt`. */
    predicate IsExpired(now: Time) {
      now > expiresAt
    }
  }

  /** `new PasswordResetRequest(id, expiresAt)` at time `now`. */
  function NewPasswordResetRequest(id: string, expiresAt: Time, now: Time): (r: PasswordResetRequest)
    ensures r.id == id && r.expiresAt == expiresAt && r.createdAt == now
  {
    PasswordResetRequest(id, now, expiresAt)
  }

  /** `new PasswordResetRequest()` at time `now`: empty id, no expiry set. */
  function BlankPasswordResetRequest(now: Time): (r: PasswordResetRequest)
    ensures r.id == "" && r.createdAt == now && r.expiresAt == DefaultTime
  {
    PasswordResetRequest("", now, DefaultTime)
  }

  /** A reset request is still valid at its expiry instant, and expired one tick later. */
  lemma ResetExpiryIsStrict(r: PasswordResetRequest)
    ensures !r.IsExpired(r.expiresAt)
    ensures r.IsExpired(r.expiresAt + 1)
  {
  }

  /** Once expired, a reset request stays expired. */
  lemma ResetStaysExpired(r: PasswordResetRequest, now: Time, later: Time)
    requires r.IsExpired(now) && now <= later
    ensures r.IsExpired(later)
  {
  }

  // ---------------------------------------------------------------- Notification

  /** Serialised JSON text; the core never looks inside it. */
  type Json = string

  const StatusSent: string := "sent"
  const StatusPushed: string := "pushed"

  /** A row of the `notifications` table; `None` stands for a null column. */
  datatype Notification = Notification(
    id: Guid,
    template: Option<string>,
    channel: Option<string>,
    retryCount: int,
    recipient: Option<string>,
    payload: Option<Json>,
    requestedAt: Time,
    deliveredAt: Option<Time>,
    status: string)
  {
    /** The state every constructor leaves a notification in. */
    predicate IsFresh(now: Time) {
      status == StatusSent && retryCount == 0 && requestedAt == now && deliveredAt.None?
    }
  }

  /** `new Notification()` with the identifier `Guid.NewGuid()` produced, at time `now`. */
  function BlankNotification(id: Guid, now: Time): (n: Notification)
    ensures n.IsFresh(now) && n.id == id
    ensures n.template.None? && n.channel.None? && n.recipient.None? && n.payload.None?
  {
    Notification(id, None, None, 0, None, None, now, None, StatusSent)
  }

  /** `new Notification(template, channel, recipient, payload)` with identifier `id`, at time `now`. */
  function NewNotification(id: Guid, template: string, channel: string, recipient: string,
                           payload: Option<Json>, now: Time): (n: Notification)
    ensures n.IsFresh(now) && n.id == id
    ensures n.template == Some(template) && n.channel == Some(channel)
    ensures n.recipient == Some(recipient) && n.payload == payload
  {
    Notification(id, Some(template), Some(channel), 0, Some(recipient), payload, now, None, StatusSent)
  }

  // ---------------------------------------------------------------- NotificationParams

  /** The SMTP and SMS delivery settings row the parameters cache holds. */
  datatype NotificationParams = NotificationParams(
    id: int,
    smtpHost: string, smtpPort: int, smtpUser: string, smtpPassword: string,
    fromEmail: string, fromName: string, enableSsl: bool,
    smsProvider: string, smsAccountSid: string, smsAuthToken: string, smsFromNumber: string,
    createdAt: Time, updatedAt: Time)
}
