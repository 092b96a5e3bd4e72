/**
 * The payment-tracking record of `src/lib/ppv-handler.ts`: created pending,
 * with an expiry a number of hours after its creation, and the expiry test.
 *
 * Times are milliseconds since the epoch. The clock (`new Date()`) and the
 * random part of the id are parameters.
 */
module PpvPayment {
  import opened Wrappers

  datatype PaymentState = Pending | Paid | Expired | Cancelled

  datatype PaymentStatus = PaymentStatus(
    id: string,
    commandId: string,
    userUuid: string,
    amount: real,
    status: PaymentState,
    createdAt: int,
    paidAt: Option<int>,
    expiresAt: int)

  const MillisPerHour: int := 60 * 60 * 1000

  /** The default lifetime of a tracking record, in hours. */
  const DefaultHours: real := 24.0

  /** `new Date(t)` of a time value: the fractional milliseconds are cut off toward zero. */
  function TimeValue(t: real): (r: int)
    ensures t >= 0.0 ==> r as real <= t < r as real + 1.0
    ensures t < 0.0 ==> r as real - 1.0 < t <= r as real
  {
    if t >= 0.0 then t.Floor else -((-t).Floor)
  }

  /**
   * `createPaymentTracking`: a pending record created at `now` that expires
   * `expiresInHours` hours later (24 when the argument is left out).
   */
  function CreatePaymentTracking(id: string, commandId: string, userUuid: string, amount: real,
                                 expiresInHours: Option<real>, now: int): (r: PaymentStatus)
    ensures r.status == Pending && r.paidAt == None && r.createdAt == now
    ensures r.id == id && r.commandId == commandId && r.userUuid == userUuid && r.amount == amount
    ensures expiresInHours.None? ==> r.expiresAt == now + 24 * MillisPerHour
    ensures expiresInHours.Some? && expiresInHours.value == expiresInHours.value.Floor as real ==>
              r.expiresAt == now + expiresInHours.value.Floor * MillisPerHour
  {
    var hours := expiresInHours.GetOr(DefaultHours);
    PaymentStatus(id, commandId, userUuid, amount, Pending, now, None,
                  TimeValue(now as real + hours * MillisPerHour as real))
  }

  /**
   * `isPaymentExpired`: the clock is strictly past the expiry time, that is,
   * more time has passed since creation than the record's lifetime.
   */
  predicate IsPaymentExpired(status: PaymentStatus, now: int): (r: bool)
    ensures r <==> now - status.createdAt > status.expiresAt - status.createdAt
  {
    now > status.expiresAt
  }

  /** Once a record has expired it stays expired as the clock moves on. */
  lemma ExpiredStaysExpired(status: PaymentStatus, now: int, later: int)
    requires IsPaymentExpired(status, now) && now <= later
    ensures IsPaymentExpired(status, later)
  {
  }

  /**
   * A record created with a non-negative lifetime is not expired while the
   * clock stays within that lifetime, and is expired after it.
   */
  lemma ExpiresAfterLifetime(id: string, commandId: string, userUuid: string, amount: real,
                             hours: nat, created: int, now: int)
    ensures var r := CreatePaymentTracking(id, commandId, userUuid, amount, Some(hours as real), created);
            IsPaymentExpired(r, now) <==> now - created > hours * MillisPerHour
  {
    assert (hours as real).Floor == hours;
  }

  /** A fresh record with a non-negative lifetime is not expired at its creation. */
  lemma FreshNotExpired(id: string, commandId: string, userUuid: string, amount: real,
                        expiresInHours: Option<real>, now: int)
    requires expiresInHours.Some? ==> expiresInHours.value >= 0.0
    ensures !IsPaymentExpired(CreatePaymentTracking(id, commandId, userUuid, amount, expiresInHours, now), now)
  {
    var hours := expiresInHours.GetOr(DefaultHours);
    assert hours * MillisPerHour as real >= 0.0;
  }
}
