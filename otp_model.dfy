/**
 * The one-time-code record of the OTP collection: its fields, the schema's
 * `required` validators and defaults, and the five-minute expiry of the TTL
 * index, stated as a liveness predicate over a millisecond clock.
 */
module OtpModel {
  import opened Wrappers
  import opened JsValues
  import opened Identity

  /** `expires: '5m'` on `createdAt`, in milliseconds. */
  const TtlMs: int := 300000

  datatype OtpRecord = OtpRecord(email: Email, otp: string, isVerified: bool, createdAt: int)

  /** A required string path rejects both a missing and an empty value. */
  predicate WellFormed(rec: OtpRecord) {
    rec.email != "" && rec.otp != ""
  }

  /**
   * Building a document from the given paths: the required validators on
   * `email` and `otp` (failing with the set of offending paths), then the
   * defaults `isVerified = false` and `createdAt = now`.
   */
  function NewOtpRecord(email: Option<string>, otp: Option<string>, isVerified: Option<bool>,
                        createdAt: Option<int>, now: int): (r: Result<OtpRecord, set<string>>)
    ensures r.Success? <==> !Falsy(email) && !Falsy(otp)
    ensures r.Failure? ==> ("email" in r.error <==> Falsy(email)) && ("otp" in r.error <==> Falsy(otp))
    ensures r.Success? ==> WellFormed(r.value) && r.value.email == email.value && r.value.otp == otp.value
    ensures r.Success? ==> (r.value.isVerified <==> isVerified == Some(true))
    ensures r.Success? && createdAt.None? ==> r.value.createdAt == now
    ensures r.Success? && createdAt.Some? ==> r.value.createdAt == createdAt.value
  {
    var missing := (if Falsy(email) then {"email"} else {}) + (if Falsy(otp) then {"otp"} else {});
    if missing != {} then Failure(missing)
    else Success(OtpRecord(email.value, otp.value, isVerified.GetOr(false), createdAt.GetOr(now)))
  }

  /** The record is still in the collection: the TTL index has not removed it. */
  predicate IsLive(rec: OtpRecord, now: int)
    ensures now <= rec.createdAt ==> IsLive(rec, now)
    ensures now < rec.createdAt + TtlMs ==> IsLive(rec, now)
    ensures now >= rec.createdAt + TtlMs ==> !IsLive(rec, now)
  {
    now - rec.createdAt < TtlMs
  }
}
