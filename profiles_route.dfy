/** The /api/profiles handlers of src/app/api/profiles/route.ts over the
    profile collection: every request needs a signed-in caller whose email
    names a known user, and PUT and DELETE only reach profiles that caller owns. */
module ProfilesRoute {
  import opened Common
  import opened ProfileModel

  /** An HTTP reply: status, the `error` or `message` text, and the profile
      documents the body carries (none, the created or updated one, or the
      caller's list). */
  datatype Reply = Reply(status: nat, message: string, profiles: map<ProfileId, Profile>)

  const Unauthorized := Reply(401, "Unauthorized", map[])
  const UserNotFound := Reply(404, "User not found", map[])
  const CreateFailed := Reply(500, "Failed to create profile", map[])
  const NoProfilesFound := Reply(404, "No profiles found", map[])
  const NotFoundOrUnauthorized := Reply(404, "Profile not found or unauthorized", map[])
  const ProfileDeleted := Reply(200, "Profile deleted successfully", map[])

  /** The gate every handler opens with: the session's `user.email`, then the
      user with that email. */
  datatype Auth = Rejected(reply: Reply) | Authenticated(userId: UserId)

  /** `session` is the session's `user.email`, `None` when there is no session
      or no user in it; `users` maps each user's email to its id. */
  function Authenticate(users: map<string, UserId>, session: Option<string>): (a: Auth)
    ensures a.Authenticated? <==> Truthy(session) && session.value in users
    ensures a.Authenticated? ==> a.userId == users[session.value]
    ensures !Truthy(session) ==> a == Rejected(Unauthorized)
    ensures Truthy(session) && session.value !in users ==> a == Rejected(UserNotFound)
  {
    if !Truthy(session) then Rejected(Unauthorized)
    else if session.value !in users then Rejected(UserNotFound)
    else Authenticated(users[session.value])
  }

  /** `Profile.findOne({ _id: profileId, userId })` finds a document. */
  predicate Owns(profiles: map<ProfileId, Profile>, profileId: ProfileId, userId: UserId)
  {
    profileId in profiles && profiles[profileId].userId == userId
  }

  /** `Profile.find({ userId })`: exactly the documents that user owns. */
  function OwnedBy(profiles: map<ProfileId, Profile>, userId: UserId): (owned: map<ProfileId, Profile>)
    ensures forall id :: id in owned <==> Owns(profiles, id, userId)
    ensures forall id :: id in owned ==> id in profiles && owned[id] == profiles[id]
  {
    map id | id in profiles && profiles[id].userId == userId :: profiles[id]
  }

  class ProfileStore {
    var profiles: map<ProfileId, Profile>
    /** The user collection, read only here: email to user id. */
    const users: map<string, UserId>

    ghost predicate Valid()
      reads this
    {
      AllValid(profiles) && forall e :: e in users ==> users[e] != ""
    }

    constructor (users: map<string, UserId>)
      requires forall e :: e in users ==> users[e] != ""
      ensures Valid() && this.users == users && profiles == map[]
    {
      this.users := users;
      profiles := map[];
    }

    /** POST: create a profile owned by the caller. `freshId` is the `_id`
        the database assigns to the new document. */
    method Post(session: Option<string>, fullName: Option<string>, phoneNumber: Option<string>,
                freshId: ProfileId, now: nat) returns (reply: Reply)
      requires Valid() && freshId !in profiles
      modifies this
      ensures Valid()
      ensures var auth := Authenticate(users, session);
        && (reply.status == 201 <==> auth.Authenticated? && Truthy(fullName) && Truthy(phoneNumber))
        && (auth.Rejected? ==> reply == auth.reply)
        && (auth.Authenticated? && !(Truthy(fullName) && Truthy(phoneNumber)) ==> reply == CreateFailed)
        && (reply.status == 201 ==>
              var created := Profile(auth.userId, fullName.value, phoneNumber.value, now, now);
              profiles == old(profiles)[freshId := created]
              && reply == Reply(201, "Profile created successfully", map[freshId := created]))
      ensures reply.status != 201 ==> profiles == old(profiles)
    {
      var auth := Authenticate(users, session);
      if auth.Rejected? {
        return auth.reply;
      }
      var created := Create(auth.userId, fullName, phoneNumber, now);
      if created.None? {
        return CreateFailed;
      }
      profiles := profiles[freshId := created.value];
      reply := Reply(201, "Profile created successfully", map[freshId := created.value]);
    }

    /** GET: the caller's profiles, or 404 when the caller owns none. */
    function Get(session: Option<string>): (reply: Reply)
      reads this
      ensures var auth := Authenticate(users, session);
        && (auth.Rejected? ==> reply == auth.reply)
        && (auth.Authenticated? ==>
              if OwnedBy(profiles, auth.userId) == map[] then reply == NoProfilesFound
              else reply.status == 200 && reply.profiles == OwnedBy(profiles, auth.userId))
      ensures reply.status == 200 ==> reply.profiles != map[]
                                      && forall id :: id in reply.profiles ==> id in profiles
    {
      var auth := Authenticate(users, session);
      if auth.Rejected? then auth.reply
      else
        var owned := OwnedBy(profiles, auth.userId);
        if owned == map[] then NoProfilesFound else Reply(200, "", owned)
    }

    /** PUT: overwrite the truthy fields of a profile the caller owns. */
    method Put(session: Option<string>, profileId: ProfileId, fullName: Option<string>,
               phoneNumber: Option<string>, now: nat) returns (reply: Reply)
      requires Valid()
      modifies this
      ensures Valid()
      ensures var auth := Authenticate(users, session);
        && (reply.status == 200 <==> auth.Authenticated? && Owns(old(profiles), profileId, auth.userId))
        && (auth.Rejected? ==> reply == auth.reply)
        && (auth.Authenticated? && !Owns(old(profiles), profileId, auth.userId) ==>
              reply == NotFoundOrUnauthorized)
      ensures reply.status == 200 ==>
        var patched := Patch(old(profiles)[profileId], fullName, phoneNumber, now);
        profiles == old(profiles)[profileId := patched]
        && reply == Reply(200, "Profile updated successfully", map[profileId := patched])
      ensures reply.status != 200 ==> profiles == old(profiles)
    {
      var auth := Authenticate(users, session);
      if auth.Rejected? {
        return auth.reply;
      }
      if !Owns(profiles, profileId, auth.userId) {
        return NotFoundOrUnauthorized;
      }
      var patched := Patch(profiles[profileId], fullName, phoneNumber, now);
      profiles := profiles[profileId := patched];
      reply := Reply(200, "Profile updated successfully", map[profileId := patched]);
    }

    /** DELETE: remove a profile the caller owns, and nothing else. */
    method Delete(session: Option<string>, profileId: ProfileId) returns (reply: Reply)
      requires Valid()
      modifies this
      ensures Valid()
      ensures var auth := Authenticate(users, session);
        && (reply.status == 200 <==> auth.Authenticated? && Owns(old(profiles), profileId, auth.userId))
        && (auth.Rejected? ==> reply == auth.reply)
        && (auth.Authenticated? && !Owns(old(profiles), profileId, auth.userId) ==>
              reply == NotFoundOrUnauthorized)
      ensures reply.status == 200 ==> profiles == old(profiles) - {profileId} && reply == ProfileDeleted
      ensures reply.status != 200 ==> profiles == old(profiles)
    {
      var auth := Authenticate(users, session);
      if auth.Rejected? {
        return auth.reply;
      }
      if !Owns(profiles, profileId, auth.userId) {
        return NotFoundOrUnauthorized;
      }
      profiles := profiles - {profileId};
      reply := ProfileDeleted;
    }
  }
}
