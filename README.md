# Wine-dine backend: a Dafny model of its request handlers

The Wine-dine backend is an Express/Mongoose server for a social dining app:
accounts with e-mail verification codes, friend requests and blocking,
"moments" (image posts) with comments, likes, views and shares, and
end-to-end messaging with scheduled delivery over WebSockets. This project
models the rules those handlers apply to their collections and proves what
they promise.

- **Collections.** Each Mongo collection is a Dafny value: a `seq` in
  insertion order where `find`/`findOne` order matters (users, moments,
  activities), and a `map` keyed by document id otherwise (messages,
  friend records by owner).
- **Handlers.** Each handler is a pure function from the collection and the
  request to the reply and the new collection (`Friends.Accept`,
  `Auth.Verify`, `Moments.Delete`, `Messenger.Post`, ...). A class holding
  the collection as a field (`Friends.FriendStore`, `Auth.Accounts`,
  `Moments.MomentStore`, `Activities.ActivityLog`, `Messenger.Messenger`)
  implements the same handler step by step and is proved to leave exactly
  that reply and collection, while keeping the collection's invariant.
- **Request fields.** A field JavaScript tests for truthiness is an
  `Option<string>`. `Common.Truthy` means present and non-empty.
- **Foreign code.** Every call into code that is not shown is a parameter.
  This covers bcrypt, jwt, AES and scrypt, `randomBytes`, `new Date(...)`,
  `ObjectId.isValid`, the clock and the id a new document gets. Where a
  property needs one of them to behave, it is stated as a precondition of
  that lemma (`Cipher.Inverts`, `Auth.Sound`), never assumed.
- **Messaging.**
  - `utils/encrypt.js` and `utils/decrypt.js` frame a token as
    `base64(iv) + "." + hex(ciphertext)`. The encoders and decoders are
    concrete, and the framing and the round trip are proved. Both functions
    use one constant key derived from a fixed password, so the model's
    cipher takes no key argument. The recipient's `publicKey` and the
    reader's `privateKey` that the routes pass are ignored.
  - `routes/messenger.js` keeps a `clients` Map of WebSocket connections,
    modelled as a sequence of entries in Map order. A broadcast is recorded
    in an `outbox` of deliveries to OPEN sockets.
  - The cron job's sweep is a loop proved against a recursive
    specification (`SweepRun`) that stops at the first exception.

Behaviours of the code that the model keeps as written:

- The conversation query of GET /messages repeats the `$or` key. Only the
  date filter survives, so it returns every user's messages
  (`MessageQueries.ConversationIgnoresParticipants`).
- The User schema has no `publicKey`, so any text message is refused with
  404. A message without text fails the schema's `required` on `text`, so
  only edits save (`Messenger.TextNeedsReceiverKey`,
  `Messenger.TextlessCreateRejected`).
- The sweep overwrites the stored token with its plaintext. A later read
  then fails to decrypt it (`Messenger.SweptPlaintextUnreadable`).
- send-request stores the request in the sender's own record, while
  accept-request looks in the acceptor's own record. A request therefore
  never reaches its target (`Friends.TargetCannotAccept`).
- accept-request pushes onto `friends` without checking for duplicates
  (`Friends.AcceptDuplicatesFriend`).
- Closing a replaced connection deletes the user's newer entry
  (`Messenger.StaleCloseDropsNewerConnection`).
- sign-in does not look at `isVerified` (`Auth.SigninSkipsVerification`).
  Without an e-mail in the body it matches the first user
  (`Auth.SigninWithoutEmailTriesFirstUser`).
- The comment route has no `validateMomentId`, so a missing id is a 404
  there and a 400 on the other activity routes
  (`Activities.MissingMomentId`).

## Model

| member | source | states |
|---|---|---|
| Common.Pull | routes/friends.js:307-308 | Mongoose `pull` removes every occurrence of the id and keeps every other element with its number of occurrences |
| Base64.Encode | utils/encrypt.js:14 | the base64 text of the IV never contains the separator '.' |
| Base64.RoundTrip | utils/decrypt.js:12 | decoding the base64 text of any byte string gives those bytes back |
| Base64.EncodeLength | utils/encrypt.js:14 | base64 text has 4 characters per started 3-byte group, so a 16-byte IV is 24 characters |
| Base64.Injective | utils/encrypt.js:11-14 | different byte strings have different base64 texts |
| Hex.Encode | utils/encrypt.js:13 | hex text has two characters per byte and never contains '.' |
| Hex.EncodeDigits | utils/encrypt.js:13 | every character of the hex text is a lower-case hex digit |
| Hex.RoundTrip | utils/decrypt.js:14 | decoding the hex text of any byte string gives those bytes back |
| Strings.Split | utils/decrypt.js:11 | `split('.')` gives at least one piece and no piece contains the separator |
| Strings.SplitAt | utils/decrypt.js:11 | splitting `a + "." + b` with no '.' in `a` gives `a` followed by the pieces of `b` |
| Strings.SplitWithout | utils/decrypt.js:11 | a string without the separator splits into itself alone |
| Strings.ToUpper | routes/auth.js:57 | `toUpperCase` keeps the length and maps each lower-case letter to its capital, other characters unchanged |
| Cipher.EncryptMessage | utils/encrypt.js:9-19 | encryption fails exactly when the AES call fails, and then with the single error "Encryption failed" |
| Cipher.DecryptMessage | utils/decrypt.js:9-20 | every failure of decryption surfaces as the single error "Decryption failed" |
| Cipher.TokenFraming | utils/encrypt.js:14 | a token is the 24-character base64 IV, then '.', then hex; '.' occurs exactly once, at index 24 |
| Cipher.TokenSplits | utils/decrypt.js:11 | splitting a token on '.' gives exactly the IV text and the ciphertext text |
| Cipher.RoundTrip | utils/decrypt.js:11-15 | when AES inverts under the constant key, decrypting a token gives back the message |
| Cipher.DistinctIvsDistinctTokens | utils/encrypt.js:11-14 | two encryptions of one message under different IVs give different tokens |
| Cipher.MissingSeparatorFails | utils/decrypt.js:11-18 | a string without '.' fails with "Decryption failed" |
| Cipher.ExtraPiecesIgnored | utils/decrypt.js:11 | pieces after a second '.' do not change the result |
| Cipher.BadIvFails | utils/decrypt.js:12-18 | an IV part that does not decode to 16 bytes fails whatever follows |
| MessageModel.Create | models/Message.js:4-48 | a new record keeps the given fields; timestamp and createdAt are now, status is "sent", sent is false, scheduledAt as given (null by default) |
| MessageModel.TextlessRejected | models/Message.js:15-18 | a record built with null text fails validation whatever image or emoji it has |
| MessageQueries.Select | routes/messenger.js:57-60 | a query returns each matching record exactly once and nothing else |
| MessageQueries.Sort | routes/messenger.js:228 | `.sort` returns a permutation of its input, sorted ascending by the key with null first |
| MessageQueries.Query | routes/messenger.js:221-228 | `find(filter).sort(key)` returns exactly the matching records, each once, sorted |
| MessageQueries.OpenText | routes/messenger.js:217-219 | a truthy text is replaced by exactly its decryption and nothing else changes; it fails iff the decryption fails, with the decryption error; a falsy text is left as is |
| MessageQueries.OpenAll | routes/messenger.js:230-235 | the map succeeds iff every document decrypts, and then gives each document decrypted, in order |
| MessageQueries.MarkRead | routes/messenger.js:275-278 | only records listed, addressed to the caller and with read false get read true; everything else is unchanged |
| MessageQueries.MarkReadIsNoOpOnSchemaRecords | routes/messenger.js:275-278 | records with no `read` field are never matched, so mark-read changes nothing and reports 0 |
| MessageQueries.MarkReadIdempotent | routes/messenger.js:275-278 | marking the same ids twice changes nothing the second time |
| MessageQueries.ConversationIgnoresParticipants | routes/messenger.js:237-246 | any unscheduled message is in the conversation view, whoever its sender and recipient are |
| Messenger.SetClient | routes/messenger.js:27 | `clients.set` keeps the key order and appends a new key at the end |
| Messenger.SetClientLookup | routes/messenger.js:27 | after `set`, the user maps to the new socket and every other user to its old one |
| Messenger.SetClientKeepsKeysDistinct | routes/messenger.js:27 | the Map keeps one entry per user id |
| Messenger.DeleteClient | routes/messenger.js:31 | `clients.delete` removes the user's entry and keeps every other entry |
| Messenger.LastConnectionWins | routes/messenger.js:23-29 | a second connection for a user replaces the first, in the same Map position |
| Messenger.StaleCloseDropsNewerConnection | routes/messenger.js:30-33 | closing the replaced connection removes the user's newer connection |
| Messenger.Fanout | routes/messenger.js:43-49 | broadcast sends the payload to every OPEN socket in the Map, to no other socket, whoever is addressed |
| Messenger.NoClientsNoDeliveries | routes/messenger.js:24-27 | with no stored connection nothing is delivered |
| Messenger.PayloadOf | routes/messenger.js:81-92 | the payload carries the record's sender, recipient, text, image, emoji and schedule |
| Messenger.EncryptedText | routes/messenger.js:119-125 | null without text; otherwise the (non-empty) token, or the failure iff encryption fails |
| Messenger.Post | routes/messenger.js:94-196 | each refusal once the earlier checks passed: 400 no content, 400 bad id, 401 no caller, 404 unknown users, 404 no receiver key, 500 encryption; then 400 invalid or past schedule, 404 unknown or 403 foreign message on edit; otherwise a schedule saves iff there is text, an edit of a stored record by its sender always saves, a new send saves iff there is text (500 otherwise); a new record is `new Message` of the caller, the receiver, the encrypted text, the image and emoji or null, the schedule and now; an edit replaces only truthy text, image and emoji |
| Messenger.StoreAfter | routes/messenger.js:140-176 | a refused request changes nothing; otherwise exactly the saved record is written, other records unchanged |
| Messenger.TextlessCreateRejected | routes/messenger.js:140-176 | without text and messageId no message is ever saved |
| Messenger.TextNeedsReceiverKey | routes/messenger.js:119-123 | text to a receiver without a public key is refused, with 404 NO_PUBLIC_KEY once the id and caller checks pass |
| Messenger.ScheduleAtNowAccepted | routes/messenger.js:129-152 | a schedule time equal to now is accepted and stored as scheduled |
| Messenger.PostTextRoundTrip | routes/messenger.js:119-125 | the text a successful POST stores decrypts to the request's text |
| Messenger.Deliver | routes/messenger.js:62-73 | throws iff a party is gone or the decryption fails; otherwise it broadcasts, and saves iff both ids and the decrypted text are non-empty; a swept record is the due record with decrypted text and sent true, and the payload is what is broadcast |
| Messenger.Emitted | routes/messenger.js:62-74 | a step broadcasts once unless it threw before the broadcast |
| Messenger.SweepRun | routes/messenger.js:52-78 | the sweep keeps the collection's ids and broadcasts at most once per due message (what it broadcasts: SweepBroadcastsPrefix and SweepBroadcastsRest) |
| Messenger.SweptStaysStored | routes/messenger.js:62-73 | a swept record is still valid and scheduled |
| Messenger.SweptCount | routes/messenger.js:62-77 | the sweep gets through at most the due messages |
| Messenger.SweepTouchesOnlyDue | routes/messenger.js:52-78 | no record outside the due list changes |
| Messenger.SweepDeliversPrefix | routes/messenger.js:62-74 | each message before the first exception is replaced by its swept record |
| Messenger.SweepBroadcastsPrefix | routes/messenger.js:62-71 | each due message of the swept prefix is broadcast, in query order, as its payload |
| Messenger.SweepBroadcastsRest | routes/messenger.js:62-78 | after the swept prefix only the failing step's broadcast (if it broadcast before throwing) follows; a batch with no failure broadcasts exactly once per due message |
| Messenger.SweepStopsAtFirstFailure | routes/messenger.js:53-77 | every due message from the first exception on keeps its stored state |
| Messenger.SweptPlaintextUnreadable | routes/messenger.js:64-66 | a swept record holds plaintext, which a later read fails to decrypt |
| Messenger.ImmediateNeverDue | routes/messenger.js:57-60 | a message without a schedule is never selected by the sweep |
| Messenger.ScheduledViewOnlyScheduled | routes/messenger.js:221-228 | every record in the scheduled view has a schedule at or before now |
| Messenger.GetById | routes/messenger.js:209-219 | 500 for a malformed id, 404 for an unknown one, 403 unless the caller is sender or recipient, else the decrypted record |
| Messenger.OpenAllKeepsOrder | routes/messenger.js:228-235 | decrypting a sorted list keeps it sorted |
| Messenger.Messenger.OnConnection | routes/messenger.js:23-29 | a connection with a user id is stored under it; one without is not |
| Messenger.Messenger.OnClose | routes/messenger.js:30-33 | close deletes the user's entry, whichever socket it holds |
| Messenger.Messenger.Broadcast | routes/messenger.js:43-49 | the loop appends exactly the fan-out of the payload to the outbox |
| Messenger.Messenger.SendMessage | routes/messenger.js:81-92 | sendMessage broadcasts the record's payload and changes nothing else |
| Messenger.Messenger.PostMessage | routes/messenger.js:94-196 | stores what `Post` decides, and broadcasts only an immediate send |
| Messenger.Messenger.DeliverOne | routes/messenger.js:62-74 | one loop iteration: decrypt into the record, broadcast, mark sent, save |
| Messenger.Messenger.Sweep | routes/messenger.js:52-78 | selects exactly the due messages and leaves the collection and outbox `SweepRun` gives |
| Messenger.Messenger.DeliverAll | routes/messenger.js:62-77 | the loop over the due messages ends in the state `SweepRun` gives |
| Messenger.Messenger.GetMessages | routes/messenger.js:199-264 | 400 without a parameter; by id as `GetById`; the scheduled view and the conversation view list the matching records, each once, sorted and decrypted, or 500 |
| Messenger.Messenger.MarkMessagesRead | routes/messenger.js:267-288 | 400 unless the ids are an array; 500 for a malformed id; otherwise the conditional update and its count |
| Friends.Ensure | routes/friends.js:88-109 | find-or-create adds an empty record only when none exists |
| Friends.AddPending | routes/friends.js:55 | the target is appended to the caller's own pending list; the other lists are unchanged |
| Friends.Befriend | routes/friends.js:120-126 | the other user leaves the pending list, every other pending id keeps its count, and the other user is on the friends list once more than before |
| Friends.BlockIn | routes/friends.js:301-308 | the user is blocked once and removed from friends and pending; every other id keeps its count in all three lists |
| Friends.UnblockIn | routes/friends.js:359-368 | the user is no longer blocked or pending and is a friend once; every other id keeps its count in all three lists |
| Friends.Send | routes/friends.js:10-69 | succeeds iff the id is given, is not the caller, names a user and is not already pending; 400, 400, 404, 400 in that order; success stores the target appended to the caller's pending list, a refusal changes nothing |
| Friends.Accept | routes/friends.js:74-139 | both records exist afterwards; succeeds iff the id is in the caller's own pending list, else 400 with only empty records created; other records unchanged; on success each side is Befriend of its previous record |
| Friends.Block | routes/friends.js:277-323 | succeeds iff the id is given; only the caller's record changes |
| Friends.Unblock | routes/friends.js:329-383 | succeeds iff the id is given, the caller has a record and the id is blocked; 400 without an id, 404 without a record, 400 when not blocked |
| Friends.Without | routes/friends.js:250-252 | the filter keeps exactly the ids that are not excluded, each as often as before |
| Friends.Populate | routes/friends.js:196-198 | populate keeps exactly the referenced ids that still name a user, each as often as referenced |
| Friends.AllUsers | routes/friends.js:145-184 | 404 without a record; exactly the users other than the caller and the blocked ones, each as often as in the collection, or 404 when none |
| Friends.AllRequests | routes/friends.js:191-225 | 404 without a record; succeeds iff some pending id still names a user, with exactly the pending users, each as often as pending; 404 otherwise |
| Friends.AllFriends | routes/friends.js:232-272 | 404 without a record; succeeds iff some friend still names a user and is not blocked, with exactly those friends, each as often as listed (a twice-accepted friend twice); 404 otherwise |
| Friends.RequestStaysWithSender | routes/friends.js:43-56 | send-request changes no record but the sender's |
| Friends.TargetCannotAccept | routes/friends.js:111-117 | after a asks b, b accepting a is refused |
| Friends.AcceptIsMutual | routes/friends.js:119-126 | after acceptance each user is on the other's friends list and off the pending list; blocks are unchanged |
| Friends.AcceptDuplicatesFriend | routes/friends.js:121 | accepting someone already on the friends list lists them twice |
| Friends.RefusedAcceptCreatesRecords | routes/friends.js:87-117 | a refused accept has still created both records |
| Friends.SelfAcceptRefused | routes/friends.js:111-117 | no user can accept themselves |
| Friends.BlockIdempotent | routes/friends.js:301-308 | blocking twice is blocking once |
| Friends.BlockThenUnblock | routes/friends.js:301-368 | unblocking right after a block leaves the user a friend once, not blocked and not pending |
| Friends.BlockedFriendHidden | routes/friends.js:249-252 | a blocked friend never appears in get-all-friends |
| Friends.AllUsersHidesBlocked | routes/friends.js:158-163 | neither the caller nor a blocked user appears in allUsers |
| Friends.SendKeepsNoSelfRequests | routes/friends.js:23-28 | send-request never puts a user in their own pending list |
| Friends.AcceptKeepsNoSelfRequests | routes/friends.js:119-126 | accept-request never puts a user in their own pending list |
| Friends.BlockKeepsNoSelfRequests | routes/friends.js:301-308 | block-friend never puts a user in their own pending list |
| Friends.UnblockKeepsNoSelfRequests | routes/friends.js:359-368 | unblock-friend never puts a user in their own pending list |
| Friends.FriendStore.SendRequest | routes/friends.js:10-69 | the step-by-step handler leaves the reply and records `Send` gives |
| Friends.FriendStore.AcceptRequest | routes/friends.js:74-139 | the step-by-step handler leaves the reply and records `Accept` gives |
| Friends.FriendStore.BlockFriend | routes/friends.js:277-323 | the step-by-step handler leaves the reply and records `Block` gives |
| Friends.FriendStore.UnblockFriend | routes/friends.js:329-383 | the step-by-step handler leaves the reply and records `Unblock` gives |
| Auth.FindByEmail | routes/auth.js:42 | `findOne({email})` gives the first user with that email, or none when no user has it |
| Auth.ReplaceKeepsUnique | models/User.js:10-14 | rewriting a user without touching email or id keeps emails and ids unique |
| Auth.CodeIsUpperHex | routes/auth.js:57 | the verification code is six upper-case hex digits |
| Auth.NewAccount | routes/auth.js:50-61 | the account stores the password's hash, the code, an expiry one hour after now, userName = name, and is not verified |
| Auth.Register | routes/auth.js:31-96 | succeeds iff name, email and password are given and the email is new, and then appends the new account; 400 for a missing field, 400 USER_EXISTS for a known email; a refusal changes nothing |
| Auth.Verified | routes/auth.js:129-132 | verification sets the flag, clears code and expiry and changes nothing else |
| Auth.Verify | routes/auth.js:101-145 | succeeds iff both fields are given, the email is known, the code matches and now is not past the expiry; 400, 404, 400 in that order; a refusal changes nothing |
| Auth.SigninLookup | routes/auth.js:154 | with an email, exactly `findOne({email})`; without one, the first user, or none in an empty collection |
| Auth.Signin | routes/auth.js:150-201 | an unknown email or a wrong password is "Invalid Credentials"; a request without a password is 500; a matching password succeeds iff the token is signed (500 otherwise), returning the user's id, name and email with the token |
| Auth.UpdatedProfile | routes/auth.js:259-262 | each of dob, userName and liveLocation is replaced only when supplied and truthy; no other field changes |
| Auth.Update | routes/auth.js:252-283 | 401 for a missing caller; an unparseable dob is 500 and changes nothing; otherwise it succeeds and only the caller's record changes, as `UpdatedProfile` |
| Auth.SignupThenVerify | routes/auth.js:57-121 | a fresh account verifies with its code iff the time is not past now + 3600000 |
| Auth.VerifyReplayRefused | routes/auth.js:121-131 | replaying a successful verification is refused |
| Auth.SigninSkipsVerification | routes/auth.js:162-167 | a new, unverified account can sign in at once |
| Auth.SigninIgnoresVerification | routes/auth.js:150-201 | setting any user's `isVerified` either way leaves every sign-in answer unchanged |
| Auth.SigninUniformRefusal | routes/auth.js:154-175 | an unknown email and a wrong password get the same 400 "Invalid Credentials" |
| Auth.SigninWithoutEmailTriesFirstUser | routes/auth.js:151-154 | without an email, sign-in checks the password of the first user |
| Auth.SignupKeepsUnique | routes/auth.js:42-54 | signup keeps emails and ids unique |
| Auth.Accounts.Signup | routes/auth.js:31-96 | the two saves leave the reply and users `Register` gives |
| Auth.Accounts.VerifyCode | routes/auth.js:101-145 | the field updates leave the reply and users `Verify` gives |
| Auth.Accounts.UploadProfileImage | routes/auth.js:219-247 | without a file: 400 and nothing changes; otherwise only the caller's profileImageUrl becomes the upload's URL |
| Auth.Accounts.UpdateProfile | routes/auth.js:252-283 | the field updates leave the reply and users `Update` gives |
| Common.PositionOf | routes/moments.js:101 | `findById` gives the position of the document with that id, or none when no document has it (also the User lookup of the auth middleware) |
| Common.UploadUrl | routes/moments.js:48 | the public URL of a stored upload (moment, profile and comment images alike) starts with the request protocol and ends with the stored file name |
| Common.UploadUrlDistinct | routes/moments.js:48 | two stored files in one upload folder get different public URLs |
| Moments.Upload | routes/moments.js:27-66 | 400 iff no file; otherwise the caller's moment, with each falsy title, description or location stored as null |
| Moments.Remove | routes/moments.js:118 | `findByIdAndDelete` removes exactly the moments with that id; every other moment keeps its number of occurrences |
| Moments.Delete | routes/moments.js:95-131 | 404 for an unknown id, 403 for someone else's moment, both changing nothing; otherwise that moment is removed |
| Moments.MyMoments | routes/moments.js:137-155 | exactly the moments whose owner is the caller, each as often as in the collection |
| Moments.AllMoments | routes/moments.js:71-89 | every moment, in order, with its owner's details or null; no caller is involved |
| Moments.DeleteKeepsOthers | routes/moments.js:101-118 | after a delete the moment is gone and every other moment is still listed for its owner |
| Moments.OwnMomentDeletable | routes/moments.js:110-142 | every moment my-moments lists can be deleted by the caller |
| Moments.UploadListedAsMine | routes/moments.js:41-52 | an uploaded moment is listed in the uploader's my-moments |
| Moments.RemoveKeepsUniqueIds | routes/moments.js:118 | deleting keeps moment ids unique |
| Moments.MomentStore.UploadMoment | routes/moments.js:27-66 | stores the moment `Upload` builds, or nothing when there is no file |
| Moments.MomentStore.DeleteMoment | routes/moments.js:95-131 | leaves the reply and moments `Delete` gives |
| Activities.TagOf | routes/activity.js:68-180 | each kind of activity has its own broadcast tag |
| Activities.ValidateMomentId | routes/activity.js:33-39 | a falsy momentId is refused with 400 "Moment ID is required", and only then |
| Activities.CommentOn | routes/activity.js:44-82 | 404 iff the moment is missing; otherwise a comment storing `comment` or null and an image URL only when a file was sent |
| Activities.LikeOn | routes/activity.js:87-129 | 400 for a missing id, 404 for a missing moment, 400 "already liked" when the caller has liked it; succeeds iff the caller has not liked it yet |
| Activities.VisitOn | routes/activity.js:134-187 | 400 for a missing id, 404 for a missing moment, otherwise a new view or share |
| Activities.MissingMomentId | routes/activity.js:33-53 | without a momentId: like, view and share answer 400, comment answers 404 |
| Activities.SecondLikeRefused | routes/activity.js:98-102 | a second like of a moment by the same user is refused with 400 |
| Activities.ViewsAccumulate | routes/activity.js:144-145 | viewing a moment twice records two views |
| Activities.AppendKeepsAtMostOneLike | routes/activity.js:98-112 | saving anything but a repeated like keeps at most one like per user and moment |
| Activities.ActivityLog.Record | routes/activity.js:65-71 | saving appends the activity and broadcasts it once under its tag |
| Activities.ActivityLog.AddComment | routes/activity.js:44-82 | appends and broadcasts NEW_COMMENT exactly when `CommentOn` succeeds; nothing otherwise |
| Activities.ActivityLog.AddLike | routes/activity.js:87-129 | appends and broadcasts NEW_LIKE exactly when `LikeOn` succeeds, keeping at most one like per user and moment |
| Activities.ActivityLog.AddVisit | routes/activity.js:134-187 | appends and broadcasts NEW_VIEW or NEW_SHARE exactly when `VisitOn` succeeds |

## Left out

- Express routing, JSON envelopes and success messages are left out. Replies are an `HttpError` or a value, and `server.listen` is not modelled.
- The WebSocket transport is left out. `client.send` appends to `outbox`, and `readyState` is part of each socket's value.
- The WebSocket connection's `req.user` is never set, because nothing authenticates upgrade requests. The model takes the user id as an input to `OnConnection`.
- `utils/broadcast.js` is left out. The activity routes' calls of `broadcast` are recorded in `ActivityLog.broadcasts`, but not delivered. `setWebSocketServer` is never called in server.js, so those calls send nothing.
- server.js's own WebSocket server, its per-user broadcast and routes/chat.js are not part of this model.
- AES, scrypt, `randomBytes`, bcrypt, jwt, multer and nodemailer are left out: they are foreign. They are function-valued parameters, or the values they produce (the IV, the code bytes, the stored file name).
- Node's base64 and hex decoders are lenient: base64 accepts unpadded or malformed input, and the hex decoding of the ciphertext (utils/decrypt.js:14) stops at the first non-hex character and drops an odd last digit. The model's decoders are strict. The round trip is unaffected, but `Cipher.BadIvFails` and `Cipher.DecryptMessage` refuse tokens Node would go on to decipher.
- Timing is left out: the cron schedule, `await` interleavings and concurrent requests. The sweep is one call at time `now`.
- The verification e-mail is not modelled: its sending is commented out in the route.
- The auth middleware is not modelled beyond its lookup. Its 401 for a missing or invalid token is out, and the caller id is an input. `Auth.Accounts.UploadProfileImage` and `Auth.Update` do return its 401 for a user that no longer exists.
- utils/scheduler.js is not part of this model: it duplicates the sweep, and its imports do not resolve.
- Moment latitude and longitude are not modelled: they are floats.
- Moments.Upload: a truthy `latitude` or `longitude` that `parseFloat` cannot read gives NaN, `moment.save()` then fails its Number cast and the route answers 500 (routes/moments.js:46-47, 52, 59-64); the model takes no coordinates and answers success there.
- CastErrors from malformed ObjectIds are modelled only in routes/messenger.js. In friends, auth, moments and activities, an id that cannot be cast makes Mongoose throw a 500, where the model answers "not found" or stores the id.
- Activities.CommentOn: a momentId of "" is a CastError (500) in the source, but the model answers 404.
- Mongoose's cast of Date fields and ObjectId equality are left out. Ids are compared as strings.
- Auth.FindByEmail: the unique index on email is the invariant `Auth.Unique`. The index error a concurrent duplicate signup would raise is not modelled.
- Friends.Accept: when the acceptor names themselves, the source loads the same document twice and the second save wins. The model writes the map twice, and `Friends.SelfAcceptRefused` shows the case is refused while no user has requested themselves.
- `getProfileData` and the other routes of routes/auth.js after line 283 are not part of this model.
- models/ArchivedChat.js is not part of this model: it is unused.
