/** The Profile document of src/models/Profile.ts: an owner, a display name and
    a phone number, with the timestamps the schema maintains on save. */
module ProfileModel {
  import opened Common

  type ProfileId = string
  type UserId = string

  datatype Profile = Profile(
    userId: UserId,
    fullName: string,
    phoneNumber: string,
    createdAt: nat,
    updatedAt: nat)

  /** What the schema's `required` validators accept: an owner, and a name and
      phone number that are non-empty strings. Phone numbers are not unique. */
  predicate Valid(p: Profile)
  {
    p.userId != "" && p.fullName != "" && p.phoneNumber != ""
  }

  /** Every document of the collection passes the schema. */
  predicate AllValid(profiles: map<ProfileId, Profile>)
  {
    forall id :: id in profiles ==> Valid(profiles[id])
  }

  /** `new Profile({ userId, fullName, phoneNumber }).save()`: the required
      validators reject a missing or empty name or phone number; a document
      that passes is stamped with `createdAt == updatedAt == now`. */
  function Create(userId: UserId, fullName: Option<string>, phoneNumber: Option<string>, now: nat)
    : (r: Option<Profile>)
    requires userId != ""
    ensures r.Some? <==> Truthy(fullName) && Truthy(phoneNumber)
    ensures r.Some? ==> Valid(r.value)
    ensures r.Some? ==> r.value.userId == userId
                        && r.value.fullName == fullName.value
                        && r.value.phoneNumber == phoneNumber.value
                        && r.value.createdAt == now && r.value.updatedAt == now
  {
    if Truthy(fullName) && Truthy(phoneNumber)
    then Some(Profile(userId, fullName.value, phoneNumber.value, now, now))
    else None
  }

  /** The field update of the PUT handler followed by `save()`: a supplied
      value replaces a field only when it is truthy; the owner and `createdAt`
      never change, and `updatedAt` moves to `now` only when a field changed. */
  function Patch(p: Profile, fullName: Option<string>, phoneNumber: Option<string>, now: nat)
    : (r: Profile)
    ensures Valid(p) ==> Valid(r)
    ensures r.userId == p.userId && r.createdAt == p.createdAt
    ensures r.fullName == (if Truthy(fullName) then fullName.value else p.fullName)
    ensures r.phoneNumber == (if Truthy(phoneNumber) then phoneNumber.value else p.phoneNumber)
    ensures r.updatedAt == (if r.fullName == p.fullName && r.phoneNumber == p.phoneNumber
                            then p.updatedAt else now)
  {
    var name := if Truthy(fullName) then fullName.value else p.fullName;
    var phone := if Truthy(phoneNumber) then phoneNumber.value else p.phoneNumber;
    var modified := name != p.fullName || phone != p.phoneNumber;
    p.(fullName := name, phoneNumber := phone, updatedAt := if modified then now else p.updatedAt)
  }

  /** Repeating a PUT with the same body changes nothing more. */
  lemma PatchIdempotent(p: Profile, fullName: Option<string>, phoneNumber: Option<string>, now: nat, later: nat)
    ensures Patch(Patch(p, fullName, phoneNumber, now), fullName, phoneNumber, later)
            == Patch(p, fullName, phoneNumber, now)
  {
  }

  /** A PUT whose body supplies only falsy values leaves the document as it was. */
  lemma PatchWithNothingIsIdentity(p: Profile, now: nat)
    ensures Patch(p, None, None, now) == p
    ensures Patch(p, Some(""), Some(""), now) == p
  {
  }
}
