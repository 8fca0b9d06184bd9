# Smart-lock OTP and profile handlers, modelled in Dafny

The system unlocks a door remotely. A signed-in user keeps "profiles" (a name
and a phone number) through `/api/profiles`. Anyone who knows a profile id
can ask `/api/otp` to text a one-time code to that profile's phone
("generate"), and then present the code ("verify"). A successful verify
publishes the message "unlock" to the door controller.

The model has six modules:

- `Common`: optional request-body fields and JavaScript truthiness.
- `Decimal`: `Number.prototype.toString()` on the drawn code, and the decimal
  reading that undoes it, proved in both directions.
- `ProfileModel` (`src/models/Profile.ts`): the Profile document. It carries
  the schema's required-field rule, creation with its timestamps, and the
  field-merging rule of PUT.
- `OtpModel` (`src/models/Otp.ts`): the Otp document and its collection. It
  carries the store invariants and the upsert used by the route. The upsert
  runs under the schema's unique index on `phoneNumber`.
- `ProfilesRoute` (`src/app/api/profiles/route.ts`): class `ProfileStore`
  holds the profile map and the read-only user table. Its methods are POST,
  PUT and DELETE; GET is a function over the store.
- `OtpRoute` (`src/app/api/otp/route.ts`): three pure step functions,
  `GenerateStep`, `VerifyStep` and `Handle`. Class `OtpCoordinator` holds the
  OTP map, keyed by (phoneNumber, profileId), a reference to the profile
  store, and two ghost logs: published "unlock" messages and SMS messages
  handed to the gateway. Its methods `Post`, `Generate` and `Verify` are
  proved against the step functions.
- `OtpScenarios`: properties of sequences of requests.

The clock (`Date.now()`), the random draw (`crypto.randomInt`) and the SMS
gateway's success are parameters of the requests. Publishing is an append to
the ghost log. It is never awaited, so it cannot change the response.

Two details of the code shape what can happen:

- `crypto.randomInt(100000, 999999)` excludes its upper bound, so the issued
  codes are "100000" to "999998" (`OtpRoute.GeneratableCodes`).
- The route keys records by (phoneNumber, profileId), but the Otp schema's
  `unique: true` on `phoneNumber` allows only one record per phone number.
  Once one profile holds a code, a generate for another profile with the same
  phone number is rejected by the index. It answers 500 "Failed to send OTP",
  sends no SMS and stores nothing (`OtpModel.SharedPhoneBlocksOtherProfile`,
  `OtpScenarios.SharedPhoneSecondProfileFails`). A record left behind by a
  deleted profile holds the phone number for good: no request can remove it,
  and every other profile on that phone number gets this 500
  (`OtpScenarios.OrphanedRecordBlocksPhone`).

## Model

| member | source | states |
|---|---|---|
| `Decimal.ToDecimal` | src/app/api/otp/route.ts:35 | the printed code is a non-empty string of decimal digits whose first digit is '0' only for zero |
| `Decimal.ParseToDecimal` | src/app/api/otp/route.ts:35 | reading the printed numeral back gives the drawn number |
| `Decimal.ToDecimalOfParse` | src/app/api/otp/route.ts:35 | printing the value of a digit string without a leading zero gives that string back |
| `Decimal.ToDecimalInjective` | src/app/api/otp/route.ts:91 | different draws give different code strings, so string equality on codes is equality on draws |
| `Decimal.ToDecimalLength` | src/app/api/otp/route.ts:35 | a number of k+1 decimal places prints as k+1 characters |
| `OtpRoute.GenerateCode` | src/app/api/otp/route.ts:35 | every issued code is exactly six ASCII digits, has no leading zero and reads back as the draw |
| `OtpRoute.GeneratableCodes` | src/app/api/otp/route.ts:35 | a string can be issued iff it is six digits, has no leading zero and is not "999999" |
| `OtpModel.Upsert` | src/app/api/otp/route.ts:42-46 | the upsert is rejected iff no record has the key and another record holds the phone number; otherwise the key holds the new code and expiry and no other record changes; the store invariants are kept |
| `OtpModel.AtMostOneRecordPerPhone` | src/models/Otp.ts:12 | under the unique index, at most one record exists per phone number |
| `OtpModel.SharedPhoneBlocksOtherProfile` | src/models/Otp.ts:12 | while profile A holds a record for phone p, an upsert for (p, B) with B different from A is rejected |
| `OtpRoute.GenerateStep` | src/app/api/otp/route.ts:33-65 | 200 iff the upsert is accepted and the SMS succeeds. An accepted upsert stores the new code with expiry now + 300000 ms, replaces any older record for that key, leaves other keys alone and sends one SMS. A rejected upsert changes nothing and sends nothing. Valid stores stay valid |
| `OtpRoute.VerifyStep` | src/app/api/otp/route.ts:67-106 | missing record: "No OTP found", no change. Expired (now strictly after expiresAt): record deleted, "OTP expired", whatever the code. Wrong code: "Invalid OTP", record kept. Match: record deleted, unlock published, 200. Unlock happens iff a live record's code equals the supplied string |
| `OtpRoute.Handle` | src/app/api/otp/route.ts:12-118 | unknown profile: 404, store unchanged, for every action. Unknown action: 400 "Invalid request", no change. Only records of the named profile change. Unlock and SMS come only from verify and generate. The store invariants are kept |
| `OtpRoute.OtpCoordinator.Post` | src/app/api/otp/route.ts:12-118 | the handler's response, new OTP map and appended publish/SMS logs are those of `Handle` on the old map, and the coordinator invariant is kept |
| `OtpRoute.OtpCoordinator.Generate` | src/app/api/otp/route.ts:33-65 | the imperative generate branch (draw, expiry, upsert, SMS) has the effect of `GenerateStep` and publishes nothing |
| `OtpRoute.OtpCoordinator.Verify` | src/app/api/otp/route.ts:67-106 | the imperative verify branch, with its early returns and two deletions, has the effect of `VerifyStep` and appends "unlock" exactly when it succeeds |
| `OtpRoute.DeleteProfileThenVerify` | src/app/api/profiles/route.ts:175-184 | deleting a profile leaves its OTP records in place, and a later verify for that profile stops at "Profile not found" |
| `OtpScenarios.IssuedCodeVerifiesOnce` | src/app/api/otp/route.ts:97-101 | an issued code verifies once, up to and including the instant it expires, publishing one unlock; a replay gets "No OTP found" |
| `OtpScenarios.RegenerateReplacesCode` | src/app/api/otp/route.ts:42-46 | after two generates with different draws the first code is "Invalid OTP" (record kept) and the second verifies |
| `OtpScenarios.ExpiredCodeIsDeleted` | src/app/api/otp/route.ts:82-88 | past expiry even the right code gets "OTP expired", and afterwards "No OTP found" |
| `OtpScenarios.WrongThenRightCode` | src/app/api/otp/route.ts:91-95 | a wrong code leaves the record, so the right code still verifies before expiry |
| `OtpScenarios.FailedSendKeepsCodeLive` | src/app/api/otp/route.ts:42-64 | a failed SMS answers 500 but the stored code still verifies |
| `OtpScenarios.SharedPhoneSecondProfileFails` | src/models/Otp.ts:12 | a second profile on the same phone gets 500, no SMS, no stored record, and then "No OTP found" |
| `OtpScenarios.OrphanedRecordBlocksPhone` | src/models/Otp.ts:12 | a record whose profile is gone survives every request, and a generate for any profile on its phone number answers 500 with no SMS and no change |
| `OtpScenarios.UnknownActionChangesNothing` | src/app/api/otp/route.ts:115-117 | an action other than generate or verify changes nothing, publishes nothing and sends nothing |
| `ProfileModel.Create` | src/models/Profile.ts:13-30 | save succeeds iff name and phone are present and non-empty; the new document is valid, owned by the caller, holds the given fields and has createdAt = updatedAt = now |
| `ProfileModel.Patch` | src/app/api/profiles/route.ts:130-132 | each field takes the supplied value iff it is truthy, else keeps the old one. Owner and createdAt never change. updatedAt moves to now only when a field changed. Valid documents stay valid |
| `ProfileModel.PatchIdempotent` | src/app/api/profiles/route.ts:130-132 | repeating a PUT with the same body changes nothing more |
| `ProfileModel.PatchWithNothingIsIdentity` | src/app/api/profiles/route.ts:130-132 | a PUT with only missing or empty fields leaves the document as it was |
| `ProfilesRoute.Authenticate` | src/app/api/profiles/route.ts:9-29 | no truthy session email gives 401 "Unauthorized"; an email with no user gives 404 "User not found"; otherwise the caller is that user's id |
| `ProfilesRoute.OwnedBy` | src/app/api/profiles/route.ts:77 | exactly the profiles whose owner is the user, with their stored values |
| `ProfilesRoute.ProfileStore.Post` | src/app/api/profiles/route.ts:8-53 | 201 iff the caller is authenticated and both fields are truthy; then exactly one profile is added under the new id, owned by the caller; otherwise 401, 404 or 500 and nothing changes |
| `ProfilesRoute.ProfileStore.Get` | src/app/api/profiles/route.ts:56-94 | an authenticated caller gets exactly the profiles they own, or 404 "No profiles found" when there are none |
| `ProfilesRoute.ProfileStore.Put` | src/app/api/profiles/route.ts:97-148 | 200 iff the caller owns the profile; then only that profile changes, to its patched value; otherwise 401, 404 "User not found" or 404 "Profile not found or unauthorized", with nothing changed |
| `ProfilesRoute.ProfileStore.Delete` | src/app/api/profiles/route.ts:151-197 | 200 iff the caller owns the profile; then exactly that profile is removed; otherwise nothing changes |

## Left out

- The MQTT publisher (`src/lib/mqtt.ts`): connecting, waiting for connect or error, and the publish callback. The publish is an append of "unlock" to a ghost log, with no acknowledgement.
- The Twilio gateway: its success is a boolean input. The message handed to it is recorded in a ghost log.
- The randomness and unpredictability of `crypto.randomInt`, and `Date.now()`: the draw and the time are parameters. The draw's range is a precondition.
- Storage failures other than the duplicate-key rejection and the Profile validation failure: connection or I/O errors on find, update, save or delete lead to the generic 500 replies ("Failed to verify OTP", "Failed to fetch profiles", and so on). Each request is atomic.
- Concurrent requests and their races on the OTP collection: requests run one at a time.
- A malformed profile id. In the OTP route `Profile.findById` throws outside the `try` and the framework answers 500. In PUT and DELETE, `Profile.findOne({ _id: profileId, userId })` throws inside the `try`, and the handler answers 500 "Failed to update profile" or "Failed to delete profile". Ids are opaque strings here, so the model answers 404 ("Profile not found", or "Profile not found or unauthorized") for every unknown id.
- Request bodies that are not JSON, body fields that are not strings, and a PUT or DELETE body without `profileId`.
- The user collection: src/models/User.ts is not part of this model. Users are a read-only map from email to a non-empty user id.
- The `_id` the database assigns on POST is a parameter that must not already be in use.
- The order of GET's result list: the result is a map from id to profile.
- Response bodies are reduced to a status and the `error` or `message` text. GET's 200 reply has no text, only the profiles.
- Logging, session configuration, password checks and the UI pages.
