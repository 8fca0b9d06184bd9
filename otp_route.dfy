/** The POST /api/otp handler of src/app/api/otp/route.ts: resolve the profile
    to its phone number, then either issue a code (generate) or check one
    (verify). The handler takes no session: whoever knows a profile id may
    call both actions. The clock, the random draw and the SMS gateway's
    success are inputs; the unlock publish is recorded, never awaited. */
module OtpRoute {
  import opened Common
  import opened Decimal
  import opened ProfileModel
  import opened OtpModel
  import ProfilesRoute

  /** A code is valid for 5 minutes, in milliseconds. */
  const OtpLifetimeMs: nat := 5 * 60 * 1000

  /** `crypto.randomInt(MinCode, MaxCode)`: the upper bound is exclusive. */
  const MinCode: int := 100000
  const MaxCode: int := 999999

  /** The payload handed to the unlock publisher. */
  const UnlockPayload: string := "unlock"

  datatype Response = Response(status: nat, message: string)

  const ProfileNotFound := Response(404, "Profile not found")
  const OtpSent := Response(200, "OTP sent successfully")
  const SendFailed := Response(500, "Failed to send OTP")
  const NoOtpFound := Response(400, "No OTP found for this phone number and profileId")
  const OtpExpired := Response(400, "OTP expired")
  const InvalidOtp := Response(400, "Invalid OTP")
  const OtpVerified := Response(200, "OTP verified successfully")
  const InvalidRequest := Response(400, "Invalid request")

  /** A text message handed to the SMS gateway. */
  datatype Sms = Sms(to: string, body: string)

  /** What one request does: its response, the OTP collection afterwards, the
      SMS it hands to the gateway if any, and whether it publishes "unlock". */
  datatype Outcome = Outcome(resp: Response, store: OtpStore, sms: Option<Sms>, unlocked: bool)

  /** Six ASCII digits. */
  predicate IsOtpCode(s: string)
  {
    |s| == 6 && AllDigits(s)
  }

  /** Every stored code is one the generator can produce. */
  predicate CodesOk(store: OtpStore)
  {
    forall k :: k in store ==> IsOtpCode(store[k].otp)
  }

  /** `crypto.randomInt(100000, 999999).toString()` for the drawn integer: always
      exactly six digits without a leading zero, naming the drawn number. */
  function GenerateCode(draw: int): (code: string)
    requires MinCode <= draw < MaxCode
    ensures IsOtpCode(code) && code[0] != '0'
    ensures ParseDecimal(code) == draw
  {
    ToDecimalLength(draw, 5);
    ParseToDecimal(draw);
    ToDecimal(draw)
  }

  /** The codes the generator can issue are exactly the six-digit numerals
      without a leading zero other than "999999": "100000" to "999998". */
  lemma GeneratableCodes(code: string)
    ensures (exists draw :: MinCode <= draw < MaxCode && GenerateCode(draw) == code)
            <==> IsOtpCode(code) && code[0] != '0' && code != "999999"
  {
    if IsOtpCode(code) && code[0] != '0' && code != "999999" {
      var draw := ParseDecimal(code);
      ParseDecimalLowerBound(code);
      ToDecimalOfParse(code);
      assert draw != 999999;
      assert GenerateCode(draw) == code;
    }
    assert ToDecimal(999999) == "999999";
    ParseToDecimal(999999);
  }

  /** The text of the SMS that carries a code. */
  function SmsBody(code: string): string
  {
    "Your OTP is: " + code
  }

  /** The "generate" branch for a resolved phone number: upsert the record
      for (phoneNumber, profileId) with a fresh code expiring in 5 minutes,
      then send the SMS. A rejected upsert sends nothing; a failed send still
      leaves the upserted record live. Both failures answer 500. */
  function GenerateStep(store: OtpStore, phoneNumber: string, profileId: string,
                        draw: int, now: nat, smsOk: bool): (r: Outcome)
    requires MinCode <= draw < MaxCode
    ensures !r.unlocked
    ensures var key := (phoneNumber, profileId);
            var accepted := key in store || !PhoneInUse(store, phoneNumber);
      && r.resp == (if accepted && smsOk then OtpSent else SendFailed)
      && (accepted ==>
            && key in r.store
            && r.store[key].otp == GenerateCode(draw)
            && r.store[key].expiresAt == now + OtpLifetimeMs
            && r.store - {key} == store - {key}
            && r.sms == Some(Sms(phoneNumber, SmsBody(GenerateCode(draw)))))
      && (!accepted ==> r.store == store && r.sms == None)
    ensures StoreValid(store) && phoneNumber != "" ==> StoreValid(r.store)
    ensures CodesOk(store) ==> CodesOk(r.store)
  {
    var code := GenerateCode(draw);
    match Upsert(store, (phoneNumber, profileId), code, now + OtpLifetimeMs)
    case None => Outcome(SendFailed, store, None, false)
    case Some(updated) =>
      Outcome(if smsOk then OtpSent else SendFailed, updated, Some(Sms(phoneNumber, SmsBody(code))), false)
  }

  /** The "verify" branch for a resolved phone number. The checks run in this
      order: no record; expired (strictly past `expiresAt`), which deletes the
      record whatever code was supplied; wrong code, which keeps the record;
      match, which deletes the record and publishes "unlock". */
  function VerifyStep(store: OtpStore, phoneNumber: string, profileId: string,
                      supplied: Option<string>, now: nat): (r: Outcome)
    ensures r.sms == None
    ensures var key := (phoneNumber, profileId);
      && r.store - {key} == store - {key}
      && (r.unlocked <==> key in store && now <= store[key].expiresAt && supplied == Some(store[key].otp))
      && (r.resp.status == 200 <==> r.unlocked)
      && (r.unlocked ==> r.resp == OtpVerified && key !in r.store)
      && (key !in store ==> r.resp == NoOtpFound && r.store == store)
      && (key in store && now > store[key].expiresAt ==> r.resp == OtpExpired && key !in r.store)
      && (key in store && now <= store[key].expiresAt && supplied != Some(store[key].otp) ==>
            r.resp == InvalidOtp && r.store == store)
    ensures StoreValid(store) ==> StoreValid(r.store)
    ensures CodesOk(store) ==> CodesOk(r.store)
  {
    var key := (phoneNumber, profileId);
    if key !in store then Outcome(NoOtpFound, store, None, false)
    else if now > store[key].expiresAt then Outcome(OtpExpired, store - {key}, None, false)
    else if supplied != Some(store[key].otp) then Outcome(InvalidOtp, store, None, false)
    else Outcome(OtpVerified, store - {key}, None, true)
  }

  /** The whole handler: profile lookup first, then the action. A request
      only ever touches records of the profile it names. */
  function Handle(profiles: map<ProfileId, Profile>, store: OtpStore, action: string, profileId: ProfileId,
                  supplied: Option<string>, now: nat, draw: int, smsOk: bool): (r: Outcome)
    requires MinCode <= draw < MaxCode
    ensures profileId !in profiles ==> r == Outcome(ProfileNotFound, store, None, false)
    ensures profileId in profiles && action != "generate" && action != "verify" ==>
              r == Outcome(InvalidRequest, store, None, false)
    ensures r.unlocked ==> action == "verify" && r.resp == OtpVerified
    ensures r.sms.Some? ==> action == "generate" && r.sms.value.to == profiles[profileId].phoneNumber
    ensures forall k :: k in store && k.1 != profileId ==> k in r.store && r.store[k] == store[k]
    ensures forall k :: k in r.store && k.1 != profileId ==> k in store
    ensures StoreValid(store) && AllValid(profiles) ==> StoreValid(r.store)
    ensures CodesOk(store) ==> CodesOk(r.store)
  {
    if profileId !in profiles then Outcome(ProfileNotFound, store, None, false)
    else
      var phoneNumber := profiles[profileId].phoneNumber;
      if action == "generate" then GenerateStep(store, phoneNumber, profileId, draw, now, smsOk)
      else if action == "verify" then VerifyStep(store, phoneNumber, profileId, supplied, now)
      else Outcome(InvalidRequest, store, None, false)
  }

  function SmsSent(sms: Option<Sms>): seq<Sms>
  {
    if sms.Some? then [sms.value] else []
  }

  function Published(unlocked: bool): seq<string>
  {
    if unlocked then [UnlockPayload] else []
  }

  class OtpCoordinator {
    /** The OTP collection, keyed by the route's filter. */
    var otps: OtpStore
    /** Every "unlock" handed to the publisher, in order. */
    ghost var published: seq<string>
    /** Every SMS handed to the gateway, in order. */
    ghost var outbox: seq<Sms>
    /** The profile collection, which this handler only reads. */
    const profileStore: ProfilesRoute.ProfileStore

    ghost predicate Valid()
      reads this
    {
      StoreValid(otps) && CodesOk(otps)
    }

    constructor (profileStore: ProfilesRoute.ProfileStore)
      ensures Valid() && this.profileStore == profileStore
      ensures otps == map[] && published == [] && outbox == []
    {
      this.profileStore := profileStore;
      otps := map[];
      published := [];
      outbox := [];
    }

    /** POST /api/otp with body `{ action, otp, profileId }`; `draw` is the
        value `crypto.randomInt` returns, `now` is `Date.now()` and `smsOk`
        whether the gateway accepts the message. */
    method Post(action: string, profileId: ProfileId, supplied: Option<string>,
                now: nat, draw: int, smsOk: bool) returns (resp: Response)
      requires Valid() && profileStore.Valid()
      requires MinCode <= draw < MaxCode
      modifies this
      ensures Valid()
      ensures var r := Handle(profileStore.profiles, old(otps), action, profileId, supplied, now, draw, smsOk);
        && resp == r.resp
        && otps == r.store
        && published == old(published) + Published(r.unlocked)
        && outbox == old(outbox) + SmsSent(r.sms)
    {
      if profileId !in profileStore.profiles {
        return ProfileNotFound;
      }
      var phoneNumber := profileStore.profiles[profileId].phoneNumber;
      if action == "generate" {
        resp := Generate(phoneNumber, profileId, draw, now, smsOk);
        return;
      }
      if action == "verify" {
        resp := Verify(phoneNumber, profileId, supplied, now);
        return;
      }
      return InvalidRequest;
    }

    method Generate(phoneNumber: string, profileId: ProfileId, draw: int, now: nat, smsOk: bool)
      returns (resp: Response)
      requires Valid() && phoneNumber != ""
      requires MinCode <= draw < MaxCode
      modifies this
      ensures Valid()
      ensures var r := GenerateStep(old(otps), phoneNumber, profileId, draw, now, smsOk);
        && resp == r.resp
        && otps == r.store
        && published == old(published)
        && outbox == old(outbox) + SmsSent(r.sms)
    {
      var code := GenerateCode(draw);
      var expiresAt := now + OtpLifetimeMs;
      var upserted := Upsert(otps, (phoneNumber, profileId), code, expiresAt);
      if upserted.None? {
        return SendFailed;
      }
      otps := upserted.value;
      outbox := outbox + [Sms(phoneNumber, SmsBody(code))];
      if !smsOk {
        return SendFailed;
      }
      resp := OtpSent;
    }

    method Verify(phoneNumber: string, profileId: ProfileId, supplied: Option<string>, now: nat)
      returns (resp: Response)
      requires Valid()
      modifies this
      ensures Valid()
      ensures var r := VerifyStep(old(otps), phoneNumber, profileId, supplied, now);
        && resp == r.resp
        && otps == r.store
        && published == old(published) + Published(r.unlocked)
        && outbox == old(outbox)
    {
      var key := (phoneNumber, profileId);
      if key !in otps {
        return NoOtpFound;
      }
      var stored := otps[key];
      if now > stored.expiresAt {
        otps := otps - {key};
        return OtpExpired;
      }
      if supplied != Some(stored.otp) {
        return InvalidOtp;
      }
      otps := otps - {key};
      published := published + [UnlockPayload];
      resp := OtpVerified;
    }
  }

  /** Deleting a profile through /api/profiles leaves its OTP records in the
      collection, but none of them can be reached any more: every later OTP
      request for that profile stops at the profile lookup. */
  method DeleteProfileThenVerify(coordinator: OtpCoordinator, session: Option<string>, profileId: ProfileId,
                                 supplied: Option<string>, now: nat, draw: int)
    returns (deleted: ProfilesRoute.Reply, verified: Response)
    requires coordinator.Valid() && coordinator.profileStore.Valid()
    requires MinCode <= draw < MaxCode
    modifies coordinator, coordinator.profileStore
    ensures deleted.status == 200 ==> verified == ProfileNotFound && coordinator.otps == old(coordinator.otps)
  {
    deleted := coordinator.profileStore.Delete(session, profileId);
    verified := coordinator.Post("verify", profileId, supplied, now, draw, false);
  }
}
