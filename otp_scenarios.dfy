/** Properties of sequences of OTP requests against one profile collection. */
module OtpScenarios {
  import opened Common
  import opened ProfileModel
  import opened OtpModel
  import opened OtpRoute

  /** The upsert for this profile is not blocked by another profile's record
      on the same phone number. */
  predicate CanIssue(profiles: map<ProfileId, Profile>, store: OtpStore, profileId: ProfileId)
    requires profileId in profiles
  {
    var phoneNumber := profiles[profileId].phoneNumber;
    (phoneNumber, profileId) in store || !PhoneInUse(store, phoneNumber)
  }

  /** An issued code verifies once, up to and including the instant it
      expires, publishing exactly one "unlock"; replaying it is refused with
      "No OTP found" whenever it is tried again. */
  lemma IssuedCodeVerifiesOnce(profiles: map<ProfileId, Profile>, store: OtpStore, profileId: ProfileId,
                               draw: int, issuedAt: nat, smsOk: bool,
                               verifiedAt: nat, replayedAt: nat, draw2: int, draw3: int)
    requires profileId in profiles && CanIssue(profiles, store, profileId)
    requires MinCode <= draw < MaxCode && MinCode <= draw2 < MaxCode && MinCode <= draw3 < MaxCode
    requires verifiedAt <= issuedAt + OtpLifetimeMs
    ensures var code := Some(GenerateCode(draw));
            var g := Handle(profiles, store, "generate", profileId, None, issuedAt, draw, smsOk);
            var v := Handle(profiles, g.store, "verify", profileId, code, verifiedAt, draw2, smsOk);
            var replay := Handle(profiles, v.store, "verify", profileId, code, replayedAt, draw3, smsOk);
      && v.resp == OtpVerified && v.unlocked
      && replay.resp == NoOtpFound && !replay.unlocked && replay.store == v.store
  {
  }

  /** A second generate replaces the first code: the first is then refused as
      invalid (and the record survives), while the second one verifies. */
  lemma RegenerateReplacesCode(profiles: map<ProfileId, Profile>, store: OtpStore, profileId: ProfileId,
                               draw1: int, t1: nat, draw2: int, t2: nat, t: nat, sms1: bool, sms2: bool)
    requires profileId in profiles && CanIssue(profiles, store, profileId)
    requires MinCode <= draw1 < MaxCode && MinCode <= draw2 < MaxCode && draw1 != draw2
    requires t <= t2 + OtpLifetimeMs
    ensures var g1 := Handle(profiles, store, "generate", profileId, None, t1, draw1, sms1);
            var g2 := Handle(profiles, g1.store, "generate", profileId, None, t2, draw2, sms2);
            var stale := Handle(profiles, g2.store, "verify", profileId, Some(GenerateCode(draw1)), t, draw1, sms1);
            var current := Handle(profiles, stale.store, "verify", profileId, Some(GenerateCode(draw2)), t, draw1, sms1);
      && stale.resp == InvalidOtp && stale.store == g2.store
      && current.resp == OtpVerified && current.unlocked
  {
  }

  /** Past its expiry a code is refused as expired even when it is the right
      one, and the record is gone afterwards. */
  lemma ExpiredCodeIsDeleted(profiles: map<ProfileId, Profile>, store: OtpStore, profileId: ProfileId,
                             draw: int, issuedAt: nat, smsOk: bool, supplied: Option<string>,
                             verifiedAt: nat, laterAt: nat, draw2: int)
    requires profileId in profiles && CanIssue(profiles, store, profileId)
    requires MinCode <= draw < MaxCode && MinCode <= draw2 < MaxCode
    requires verifiedAt > issuedAt + OtpLifetimeMs
    ensures var g := Handle(profiles, store, "generate", profileId, None, issuedAt, draw, smsOk);
            var v := Handle(profiles, g.store, "verify", profileId, supplied, verifiedAt, draw2, smsOk);
            var w := Handle(profiles, v.store, "verify", profileId, Some(GenerateCode(draw)), laterAt, draw2, smsOk);
      && v.resp == OtpExpired && !v.unlocked
      && w.resp == NoOtpFound
  {
  }

  /** A wrong code leaves the record in place, so the right code still
      verifies before expiry. */
  lemma WrongThenRightCode(profiles: map<ProfileId, Profile>, store: OtpStore, profileId: ProfileId,
                           draw: int, issuedAt: nat, smsOk: bool, wrong: Option<string>, t1: nat, t2: nat)
    requires profileId in profiles && CanIssue(profiles, store, profileId)
    requires MinCode <= draw < MaxCode
    requires wrong != Some(GenerateCode(draw))
    requires t1 <= issuedAt + OtpLifetimeMs && t2 <= issuedAt + OtpLifetimeMs
    ensures var g := Handle(profiles, store, "generate", profileId, None, issuedAt, draw, smsOk);
            var bad := Handle(profiles, g.store, "verify", profileId, wrong, t1, draw, smsOk);
            var good := Handle(profiles, bad.store, "verify", profileId, Some(GenerateCode(draw)), t2, draw, smsOk);
      && bad.resp == InvalidOtp && bad.store == g.store
      && good.resp == OtpVerified && good.unlocked
  {
  }

  /** A failed SMS answers 500, yet the code it carried is stored and
      verifies if it reaches the caller some other way. */
  lemma FailedSendKeepsCodeLive(profiles: map<ProfileId, Profile>, store: OtpStore, profileId: ProfileId,
                                draw: int, issuedAt: nat, verifiedAt: nat)
    requires profileId in profiles && CanIssue(profiles, store, profileId)
    requires MinCode <= draw < MaxCode
    requires verifiedAt <= issuedAt + OtpLifetimeMs
    ensures var g := Handle(profiles, store, "generate", profileId, None, issuedAt, draw, false);
            var v := Handle(profiles, g.store, "verify", profileId, Some(GenerateCode(draw)), verifiedAt, draw, false);
      && g.resp == SendFailed && g.sms.Some?
      && v.resp == OtpVerified
  {
  }

  /** Two profiles with the same phone number: once the first holds a code,
      generate for the second is rejected by the unique phone index with 500,
      sends no SMS and stores nothing, so verify for it finds no code. */
  lemma SharedPhoneSecondProfileFails(profiles: map<ProfileId, Profile>, store: OtpStore,
                                      first: ProfileId, second: ProfileId,
                                      draw1: int, draw2: int, t1: nat, t2: nat, t3: nat, sms1: bool, sms2: bool)
    requires first in profiles && second in profiles && first != second
    requires profiles[first].phoneNumber == profiles[second].phoneNumber
    requires StoreValid(store) && AllValid(profiles) && CanIssue(profiles, store, first)
    requires MinCode <= draw1 < MaxCode && MinCode <= draw2 < MaxCode
    ensures var g1 := Handle(profiles, store, "generate", first, None, t1, draw1, sms1);
            var g2 := Handle(profiles, g1.store, "generate", second, None, t2, draw2, sms2);
            var v := Handle(profiles, g2.store, "verify", second, Some(GenerateCode(draw2)), t3, draw2, sms2);
      && g2.resp == SendFailed && g2.store == g1.store && g2.sms == None
      && v.resp == NoOtpFound
  {
  }

  /** A record left behind by a deleted profile is never removed: no request
      can reach it, since verify for its profile stops at the profile lookup
      and requests for other profiles touch only their own records. While it
      stands, the unique phone index refuses a code to every other profile on
      that phone number. */
  lemma OrphanedRecordBlocksPhone(profiles: map<ProfileId, Profile>, store: OtpStore, deleted: ProfileId,
                                  phoneNumber: string, action: string, profileId: ProfileId,
                                  supplied: Option<string>, now: nat, draw: int, smsOk: bool)
    requires StoreValid(store) && (phoneNumber, deleted) in store && deleted !in profiles
    requires MinCode <= draw < MaxCode
    ensures var r := Handle(profiles, store, action, profileId, supplied, now, draw, smsOk);
      && (phoneNumber, deleted) in r.store && r.store[(phoneNumber, deleted)] == store[(phoneNumber, deleted)]
      && (action == "generate" && profileId in profiles && profiles[profileId].phoneNumber == phoneNumber ==>
            r.resp == SendFailed && r.store == store && r.sms == None)
  {
  }

  /** Any other action is refused and changes nothing. */
  lemma UnknownActionChangesNothing(profiles: map<ProfileId, Profile>, store: OtpStore, action: string,
                                    profileId: ProfileId, supplied: Option<string>, now: nat, draw: int, smsOk: bool)
    requires action != "generate" && action != "verify"
    requires MinCode <= draw < MaxCode
    ensures var r := Handle(profiles, store, action, profileId, supplied, now, draw, smsOk);
      r.store == store && !r.unlocked && r.sms == None && r.resp.status in {400, 404}
  {
  }
}
