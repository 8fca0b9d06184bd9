/** The Otp document of src/models/Otp.ts and the collection that holds it.
    The route finds, updates and deletes records by the pair
    (phoneNumber, profileId), while the schema declares an index that makes
    `phoneNumber` alone unique across the collection. */
module OtpModel {
  import opened Common

  /** The filter `{ phoneNumber, profileId }` the route uses for every access. */
  type Key = (string, string)

  datatype OtpRecord = OtpRecord(phoneNumber: string, otp: string, expiresAt: nat, profileId: string)

  type OtpStore = map<Key, OtpRecord>

  /** Each stored document answers the filter it is stored under. */
  predicate KeysMatch(store: OtpStore)
  {
    forall k :: k in store ==> store[k].phoneNumber == k.0 && store[k].profileId == k.1
  }

  /** The unique index on `phoneNumber`: at most one document per phone number,
      whatever its profile. */
  predicate UniquePhone(store: OtpStore)
  {
    forall k1, k2 :: k1 in store && k2 in store && k1.0 == k2.0 ==> k1 == k2
  }

  /** The schema's required string fields are present and non-empty. */
  predicate RecordOk(r: OtpRecord)
  {
    r.phoneNumber != "" && r.otp != ""
  }

  predicate StoreValid(store: OtpStore)
  {
    KeysMatch(store) && UniquePhone(store) && forall k :: k in store ==> RecordOk(store[k])
  }

  /** Some document already holds this phone number. */
  predicate PhoneInUse(store: OtpStore, phoneNumber: string)
  {
    exists k :: k in store && k.0 == phoneNumber
  }

  /** The keys of the documents that hold a phone number. */
  function RecordsFor(store: OtpStore, phoneNumber: string): (keys: set<Key>)
    ensures forall k :: k in keys <==> k in store && k.0 == phoneNumber
  {
    set k | k in store && k.0 == phoneNumber
  }

  /** `findOneAndUpdate(key, { otp, expiresAt }, { upsert: true })` on a
      collection with the unique phone index: a matching document is updated
      in place; otherwise a new document is inserted, which the index rejects
      (a duplicate-key error, `None`) when another profile's document already
      holds the phone number. */
  function Upsert(store: OtpStore, key: Key, otp: string, expiresAt: nat): (r: Option<OtpStore>)
    ensures r.None? <==> key !in store && PhoneInUse(store, key.0)
    ensures r.Some? ==> key in r.value && r.value[key].otp == otp && r.value[key].expiresAt == expiresAt
    ensures r.Some? ==> r.value - {key} == store - {key}
    ensures r.Some? && KeysMatch(store) ==> r.value == store[key := OtpRecord(key.0, otp, expiresAt, key.1)]
    ensures r.Some? && StoreValid(store) && key.0 != "" && otp != "" ==> StoreValid(r.value)
  {
    if key in store then
      Some(store[key := store[key].(otp := otp, expiresAt := expiresAt)])
    else if PhoneInUse(store, key.0) then
      None
    else
      Some(store[key := OtpRecord(key.0, otp, expiresAt, key.1)])
  }

  /** Under the unique index a phone number has at most one document, which is
      stronger than one document per (phoneNumber, profileId). */
  lemma AtMostOneRecordPerPhone(store: OtpStore, phoneNumber: string)
    requires UniquePhone(store)
    ensures |RecordsFor(store, phoneNumber)| <= 1
  {
    var keys := RecordsFor(store, phoneNumber);
    if keys != {} {
      var k :| k in keys;
      assert keys == {k};
    }
  }

  /** Two profiles that share a phone number cannot both hold a live code: the
      second profile's upsert is rejected while the first one's record exists. */
  lemma SharedPhoneBlocksOtherProfile(store: OtpStore, phoneNumber: string, holder: string, other: string,
                                      otp: string, expiresAt: nat)
    requires UniquePhone(store)
    requires (phoneNumber, holder) in store && holder != other
    ensures Upsert(store, (phoneNumber, other), otp, expiresAt).None?
  {
  }
}
