/**
 * routes/messenger.js: the in-memory WebSocket client registry, the
 * broadcast, POST /messages, the scheduled-delivery sweep, GET /messages
 * and PUT /messages/read.
 *
 * The Message collection is `store`; what `client.send` would transmit is
 * appended to `outbox`. The clock, `randomBytes(16)` and the ObjectId of a
 * new record are parameters. `mongoose.Types.ObjectId.isValid` and
 * `new Date(string)` are the abstract function values `isValidObjectId` and
 * `parseDate`. The User collection is `users`, mapping each user id to the
 * `publicKey` its document carries (the User schema declares none, so in a
 * deployment every value is None).
 */
module Messenger {
  import opened Common
  import opened MessageModel
  import opened MessageQueries
  import Cipher

  datatype ReadyState = Connecting | Open | Closing | Closed

  /** A connection; `handle` tells connections apart, `readyState` is its state when a broadcast runs. */
  datatype Socket = Socket(handle: nat, readyState: ReadyState)

  /** One entry of the `clients` Map. */
  datatype Client = Client(userId: Id, socket: Socket)

  /** The object `sendMessage` broadcasts (its constant `type: 'message'` left implicit). */
  datatype Payload = Payload(
    senderId: Id,
    receiverId: Id,
    text: Option<string>,
    imageUrl: Option<string>,
    emoji: Option<string>,
    scheduledAt: Option<int>)

  /** `client.send(JSON.stringify(payload))` to one socket. */
  datatype Delivery = Delivery(to: Socket, payload: Payload)

  const MISSING_CONTENT := HttpError(400, "Receiver ID and message content or messageId required")
  const INVALID_ID := HttpError(400, "Invalid ID format")
  const AUTH_FAILED := HttpError(401, "User authentication failed")
  const USERS_NOT_FOUND := HttpError(404, "Sender or receiver not found")
  const NO_PUBLIC_KEY := HttpError(404, "Receiver public key not found for encryption")
  const INVALID_SCHEDULE := HttpError(400, "Valid schedule time is required")
  const PAST_SCHEDULE := HttpError(400, "Scheduled time cannot be in the past")
  const MESSAGE_NOT_FOUND := HttpError(404, "Message not found")
  const UNAUTHORIZED := HttpError(403, "Unauthorized")
  const MISSING_QUERY := HttpError(400, "User ID, message ID, or scheduled parameter required")
  const INVALID_IDS := HttpError(400, "Valid message IDs are required")

  // ---------------------------------------------------------------------
  // The `clients` Map: entries in insertion order, one per user id.

  /** The Map's keys in iteration order. */
  function UserIds(cs: seq<Client>): (ids: seq<Id>)
    ensures |ids| == |cs|
  {
    if cs == [] then [] else [cs[0].userId] + UserIds(cs[1..])
  }

  /** `clients.get(u)`. */
  function Lookup(cs: seq<Client>, u: Id): Option<Socket>
  {
    if cs == [] then None
    else if cs[0].userId == u then Some(cs[0].socket)
    else Lookup(cs[1..], u)
  }

  /**
   * `clients.set(u, ws)`: the entry for `u` now holds `ws`, replacing any earlier
   * connection in place; a new key goes to the end of the iteration order.
   */
  function SetClient(cs: seq<Client>, u: Id, ws: Socket): (r: seq<Client>)
    ensures UserIds(r) == if u in UserIds(cs) then UserIds(cs) else UserIds(cs) + [u]
  {
    if cs == [] then [Client(u, ws)]
    else if cs[0].userId == u then
      var r := [Client(u, ws)] + cs[1..];
      assert r[1..] == cs[1..];
      r
    else
      var tail := SetClient(cs[1..], u, ws);
      var r := [cs[0]] + tail;
      assert r[1..] == tail;
      assert [cs[0].userId] + (UserIds(cs[1..]) + [u]) == UserIds(cs) + [u];
      r
  }

  /** After `clients.set(u, ws)`, `u` maps to `ws` and every other id to what it mapped to before. */
  lemma {:induction false} SetClientLookup(cs: seq<Client>, u: Id, ws: Socket, v: Id)
    ensures Lookup(SetClient(cs, u, ws), v) == if v == u then Some(ws) else Lookup(cs, v)
  {
    if cs != [] {
      if cs[0].userId != u {
        SetClientLookup(cs[1..], u, ws, v);
        assert ([cs[0]] + SetClient(cs[1..], u, ws))[1..] == SetClient(cs[1..], u, ws);
      } else {
        assert ([Client(u, ws)] + cs[1..])[1..] == cs[1..];
      }
    }
  }

  /** `clients.set` keeps one entry per user id. */
  lemma SetClientKeepsKeysDistinct(cs: seq<Client>, u: Id, ws: Socket)
    requires Distinct(UserIds(cs))
    ensures Distinct(UserIds(SetClient(cs, u, ws)))
  {
    if u !in UserIds(cs) {
      DistinctSnoc(UserIds(cs), u);
    }
  }

  /** `clients.delete(u)`: the entry for `u` is gone, every other entry stays in order. */
  function DeleteClient(cs: seq<Client>, u: Id): (r: seq<Client>)
    ensures UserIds(r) == Pull(UserIds(cs), u)
    ensures Lookup(r, u) == None
    ensures forall v :: v != u ==> Lookup(r, v) == Lookup(cs, v)
  {
    if cs == [] then []
    else
      var tail := DeleteClient(cs[1..], u);
      if cs[0].userId == u then tail
      else
        var r := [cs[0]] + tail;
        assert r[1..] == tail;
        r
  }

  /** The two connection events a user id goes through: whatever the first connection was, the last one wins. */
  lemma LastConnectionWins(cs: seq<Client>, u: Id, first: Socket, second: Socket)
    ensures Lookup(SetClient(SetClient(cs, u, first), u, second), u) == Some(second)
    ensures UserIds(SetClient(SetClient(cs, u, first), u, second)) == UserIds(SetClient(cs, u, first))
  {
    SetClientLookup(SetClient(cs, u, first), u, second, u);
  }

  /** The close of a replaced connection still deletes the user's entry, dropping the newer connection. */
  lemma StaleCloseDropsNewerConnection(cs: seq<Client>, u: Id, first: Socket, second: Socket)
    ensures Lookup(DeleteClient(SetClient(SetClient(cs, u, first), u, second), u), u) == None
  {
  }

  // ---------------------------------------------------------------------
  // broadcast and sendMessage

  /** The sockets of the Map's entries. */
  function Sockets(cs: seq<Client>): set<Socket>
  {
    set c | c in cs :: c.socket
  }

  /**
   * What `broadcast(payload)` sends: one delivery to every entry whose socket is
   * OPEN, in Map order, whoever the payload is addressed to.
   */
  function Fanout(cs: seq<Client>, pl: Payload): (r: seq<Delivery>)
    ensures |r| <= |cs|
    ensures forall d :: d in r ==> d.payload == pl && d.to.readyState == Open && d.to in Sockets(cs)
    ensures forall c :: c in cs && c.socket.readyState == Open ==> Delivery(c.socket, pl) in r
  {
    if cs == [] then []
    else
      var init := cs[..|cs| - 1];
      var last := cs[|cs| - 1];
      assert cs == init + [last];
      assert Sockets(cs) == Sockets(init) + {last.socket};
      Fanout(init, pl) + (if last.socket.readyState == Open then [Delivery(last.socket, pl)] else [])
  }

  lemma FanoutSnoc(cs: seq<Client>, c: Client, pl: Payload)
    ensures Fanout(cs + [c], pl)
         == Fanout(cs, pl) + if c.socket.readyState == Open then [Delivery(c.socket, pl)] else []
  {
    assert (cs + [c])[..|cs|] == cs;
  }

  /** The deliveries of several broadcasts in a row. */
  function FanoutAll(cs: seq<Client>, pls: seq<Payload>): seq<Delivery>
  {
    if pls == [] then [] else FanoutAll(cs, pls[..|pls| - 1]) + Fanout(cs, pls[|pls| - 1])
  }

  lemma {:induction false} FanoutAllAppend(cs: seq<Client>, a: seq<Payload>, b: seq<Payload>)
    ensures FanoutAll(cs, a + b) == FanoutAll(cs, a) + FanoutAll(cs, b)
    decreases |b|
  {
    if b != [] {
      var init := b[..|b| - 1];
      assert (a + b)[..|a + b| - 1] == a + init;
      FanoutAllAppend(cs, a, init);
    } else {
      assert a + b == a;
    }
  }

  lemma FanoutAllOne(cs: seq<Client>, pl: Payload)
    ensures FanoutAll(cs, [pl]) == Fanout(cs, pl)
  {
    assert [pl][..0] == [];
  }

  /** With no registered client a broadcast sends nothing. */
  lemma NoClientsNoDeliveries(pls: seq<Payload>)
    ensures FanoutAll([], pls) == []
  {
  }

  /** The object `sendMessage(message)` broadcasts. */
  function PayloadOf(m: Message): (pl: Payload)
    ensures pl.senderId == m.sender && pl.receiverId == m.recipient
    ensures pl.text == m.text && pl.imageUrl == m.imageUrl && pl.emoji == m.emoji
    ensures pl.scheduledAt == m.scheduledAt
  {
    Payload(m.sender, m.recipient, m.text, m.imageUrl, m.emoji, m.scheduledAt)
  }

  // ---------------------------------------------------------------------
  // POST /messages, as a decision on the request

  /** The body fields POST /messages reads; each is absent, null or a string. */
  datatype PostRequest = PostRequest(
    receiverId: Option<string>,
    text: Option<string>,
    imageUrl: Option<string>,
    emoji: Option<string>,
    messageId: Option<string>,
    scheduleTime: Option<string>)

  /** The handler's outcome: an error response, or the record it saves under `id`. */
  datatype PostOutcome =
    | Rejected(err: HttpError)
    | Scheduled(id: Id, m: Message)
    | Edited(id: Id, m: Message)
    | SentNow(id: Id, m: Message)
  {
    predicate Saves() { !Rejected? }
  }

  /** A record as the routes store it: it passed validation, has no `read` field, and only scheduled records are ever sent. */
  predicate Stored(m: Message)
  {
    PassesValidation(m) && m.read.None? && (m.sent ==> m.scheduledAt.Some?)
  }

  /** `encryptedText`: null without text, the token with text, an exception when encryption fails. */
  function EncryptedText(p: Cipher.Primitives, iv: seq<Byte>, text: Option<string>): (r: Result<Option<string>, string>)
    requires |iv| == Cipher.IV_LENGTH
    ensures !Truthy(text) ==> r == Ok(None)
    ensures Truthy(text) && r.Ok? ==>
      Cipher.EncryptMessage(p, iv, text.value).Ok? && r.value == Some(Cipher.EncryptMessage(p, iv, text.value).value)
    ensures Truthy(text) ==> (r.Err? <==> Cipher.EncryptMessage(p, iv, text.value).Err?)
    ensures Truthy(text) && r.Ok? ==> Truthy(r.value)
  {
    if Truthy(text) then
      match Cipher.EncryptMessage(p, iv, text.value)
      case Ok(token) =>
        Cipher.TokenFraming(p, iv, text.value);
        Ok(Some(token))
      case Err(e) => Err(e)
    else Ok(None)
  }

  /** True when the request names a receiver and carries at least one truthy content field. */
  predicate HasContent(req: PostRequest)
  {
    Truthy(req.receiverId)
    && (Truthy(req.text) || Truthy(req.imageUrl) || Truthy(req.emoji) || Truthy(req.messageId) || Truthy(req.scheduleTime))
  }

  /** Both ids are well formed (the message id only when given). */
  predicate WellFormedIds(isValidObjectId: string -> bool, req: PostRequest)
    requires Truthy(req.receiverId)
  {
    isValidObjectId(req.receiverId.value) && (Truthy(req.messageId) ==> isValidObjectId(req.messageId.value))
  }

  /** The caller and the receiver are both known users. */
  predicate KnownParties(users: map<Id, Option<string>>, caller: Id, req: PostRequest)
    requires Truthy(req.receiverId)
  {
    caller != "" && caller in users && req.receiverId.value in users
  }

  /** The request got past every check before encryption: content, ids, users and the receiver's key. */
  predicate Admitted(users: map<Id, Option<string>>, isValidObjectId: string -> bool, caller: Id, req: PostRequest)
  {
    && HasContent(req) && WellFormedIds(isValidObjectId, req) && KnownParties(users, caller, req)
    && (Truthy(req.text) ==> Truthy(users[req.receiverId.value]))
  }

  /** Encrypting the request's text, when it has one, succeeds. */
  predicate Encrypts(p: Cipher.Primitives, iv: seq<Byte>, req: PostRequest)
    requires |iv| == Cipher.IV_LENGTH
  {
    Truthy(req.text) ==> Cipher.EncryptMessage(p, iv, req.text.value).Ok?
  }

  /**
   * The POST /messages handler up to its writes. Checks run in the source's order:
   * content (400), id format (400), authentication (401), users (404), receiver key
   * for text (404), encryption (500); then `scheduleTime` wins over `messageId`.
   * A record that fails validation on `save()` is a 500.
   */
  function Post(store: map<Id, Message>, users: map<Id, Option<string>>,
                isValidObjectId: string -> bool, parseDate: string -> DateInput,
                p: Cipher.Primitives, iv: seq<Byte>,
                caller: Id, req: PostRequest, now: int, newId: Id): (r: PostOutcome)
    requires |iv| == Cipher.IV_LENGTH
    ensures r.Saves() ==> HasContent(req) && WellFormedIds(isValidObjectId, req)
    ensures r.Saves() ==> caller != "" && caller in users && req.receiverId.value in users
    ensures r.Saves() && Truthy(req.text) ==>
      && Truthy(users[req.receiverId.value])
      && Cipher.EncryptMessage(p, iv, req.text.value).Ok?
      && r.m.text == Some(Cipher.EncryptMessage(p, iv, req.text.value).value)
    ensures r.Scheduled? ==>
      && Truthy(req.scheduleTime)
      && parseDate(req.scheduleTime.value).ValidDate?
      && r.m.scheduledAt == Some(parseDate(req.scheduleTime.value).millis)
      && r.m.scheduledAt.value >= now
      && r.id == newId && r.m.sender == caller && r.m.recipient == req.receiverId.value
      && !r.m.sent && r.m.createdAt == now
    ensures r.Edited? ==>
      && !Truthy(req.scheduleTime) && Truthy(req.messageId)
      && r.id == req.messageId.value && r.id in store && store[r.id].sender == caller
      && r.m == store[r.id].(text := r.m.text, imageUrl := r.m.imageUrl, emoji := r.m.emoji)
      && r.m.imageUrl == (if Truthy(req.imageUrl) then req.imageUrl else store[r.id].imageUrl)
      && r.m.emoji == (if Truthy(req.emoji) then req.emoji else store[r.id].emoji)
      && (!Truthy(req.text) ==> r.m.text == store[r.id].text)
    ensures r.SentNow? ==>
      && !Truthy(req.scheduleTime) && !Truthy(req.messageId)
      && r.id == newId && r.m.sender == caller && r.m.recipient == req.receiverId.value
      && r.m.scheduledAt.None? && !r.m.sent && r.m.createdAt == now
    ensures (r.Scheduled? || r.SentNow?) ==> Stored(r.m)
    ensures r.Scheduled? ==>
      r.m == Create(caller, req.receiverId.value, r.m.text, Or(req.imageUrl, None), Or(req.emoji, None), r.m.scheduledAt, now)
    ensures r.SentNow? ==>
      r.m == Create(caller, req.receiverId.value, r.m.text, Or(req.imageUrl, None), Or(req.emoji, None), None, now)
    ensures r.Edited? && Stored(store[r.id]) ==> Stored(r.m)
    // The refusals, each once the checks before it have passed
    ensures !HasContent(req) ==> r == Rejected(MISSING_CONTENT)
    ensures HasContent(req) && !WellFormedIds(isValidObjectId, req) ==> r == Rejected(INVALID_ID)
    ensures HasContent(req) && WellFormedIds(isValidObjectId, req) && caller == "" ==> r == Rejected(AUTH_FAILED)
    ensures (HasContent(req) && WellFormedIds(isValidObjectId, req) && caller != ""
             && (caller !in users || req.receiverId.value !in users)) ==> r == Rejected(USERS_NOT_FOUND)
    ensures (HasContent(req) && WellFormedIds(isValidObjectId, req) && KnownParties(users, caller, req)
             && Truthy(req.text) && !Truthy(users[req.receiverId.value])) ==> r == Rejected(NO_PUBLIC_KEY)
    ensures Admitted(users, isValidObjectId, caller, req) && !Encrypts(p, iv, req) ==> r == Rejected(SERVER_ERROR)
    ensures Admitted(users, isValidObjectId, caller, req) && Encrypts(p, iv, req) && Truthy(req.scheduleTime) ==>
      match parseDate(req.scheduleTime.value)
      case InvalidDate => r == Rejected(INVALID_SCHEDULE)
      case ValidDate(t) =>
        if t < now then r == Rejected(PAST_SCHEDULE)
        else (r.Scheduled? <==> Truthy(req.text)) && (!Truthy(req.text) ==> r == Rejected(SERVER_ERROR))
    ensures (Admitted(users, isValidObjectId, caller, req) && Encrypts(p, iv, req)
             && !Truthy(req.scheduleTime) && Truthy(req.messageId)) ==>
      var id := req.messageId.value;
      && (id !in store ==> r == Rejected(MESSAGE_NOT_FOUND))
      && (id in store && store[id].sender != caller ==> r == Rejected(UNAUTHORIZED))
      && (id in store && store[id].sender == caller && Stored(store[id]) ==> r.Edited?)
    ensures (Admitted(users, isValidObjectId, caller, req) && Encrypts(p, iv, req)
             && !Truthy(req.scheduleTime) && !Truthy(req.messageId)) ==>
      (r.SentNow? <==> Truthy(req.text)) && (!Truthy(req.text) ==> r == Rejected(SERVER_ERROR))
  {
    if !HasContent(req) then Rejected(MISSING_CONTENT)
    else if !WellFormedIds(isValidObjectId, req) then Rejected(INVALID_ID)
    else if caller == "" then Rejected(AUTH_FAILED)
    else if caller !in users || req.receiverId.value !in users then Rejected(USERS_NOT_FOUND)
    else if Truthy(req.text) && !Truthy(users[req.receiverId.value]) then Rejected(NO_PUBLIC_KEY)
    else
      match EncryptedText(p, iv, req.text)
      case Err(_) => Rejected(SERVER_ERROR)
      case Ok(encrypted) =>
        if Truthy(req.scheduleTime) then
          match parseDate(req.scheduleTime.value)
          case InvalidDate => Rejected(INVALID_SCHEDULE)
          case ValidDate(t) =>
            if t < now then Rejected(PAST_SCHEDULE)
            else
              var m := Create(caller, req.receiverId.value, encrypted, Or(req.imageUrl, None),
                              Or(req.emoji, None), Some(t), now);
              if PassesValidation(m) then Scheduled(newId, m) else Rejected(SERVER_ERROR)
        else if Truthy(req.messageId) then
          var id := req.messageId.value;
          if id !in store then Rejected(MESSAGE_NOT_FOUND)
          else if store[id].sender != caller then Rejected(UNAUTHORIZED)
          else
            var prior := store[id];
            var m := prior.(text := Or(encrypted, prior.text), imageUrl := Or(req.imageUrl, prior.imageUrl),
                           emoji := Or(req.emoji, prior.emoji));
            if PassesValidation(m) then Edited(id, m) else Rejected(SERVER_ERROR)
        else
          var m := Create(caller, req.receiverId.value, encrypted, Or(req.imageUrl, None),
                          Or(req.emoji, None), None, now);
          if PassesValidation(m) then SentNow(newId, m) else Rejected(SERVER_ERROR)
  }

  /** The collection after the handler: the saved record under its id, or unchanged. */
  function StoreAfter(store: map<Id, Message>, o: PostOutcome): (r: map<Id, Message>)
    ensures o.Rejected? ==> r == store
    ensures o.Saves() ==> r.Keys == store.Keys + {o.id} && r[o.id] == o.m
    ensures o.Saves() ==> forall id :: id in store && id != o.id ==> r[id] == store[id]
  {
    if o.Rejected? then store else store[o.id := o.m]
  }

  /** Any request without text, other than an edit, is rejected: the record it builds has no text and never saves. */
  lemma TextlessCreateRejected(store: map<Id, Message>, users: map<Id, Option<string>>,
                               isValidObjectId: string -> bool, parseDate: string -> DateInput,
                               p: Cipher.Primitives, iv: seq<Byte>,
                               caller: Id, req: PostRequest, now: int, newId: Id)
    requires |iv| == Cipher.IV_LENGTH
    requires !Truthy(req.text) && !Truthy(req.messageId)
    ensures Post(store, users, isValidObjectId, parseDate, p, iv, caller, req, now, newId).Rejected?
  {
  }

  /** A receiver without a public key can never be sent text. */
  lemma TextNeedsReceiverKey(store: map<Id, Message>, users: map<Id, Option<string>>,
                             isValidObjectId: string -> bool, parseDate: string -> DateInput,
                             p: Cipher.Primitives, iv: seq<Byte>,
                             caller: Id, req: PostRequest, now: int, newId: Id)
    requires |iv| == Cipher.IV_LENGTH
    requires Truthy(req.text) && Truthy(req.receiverId)
    requires req.receiverId.value in users && users[req.receiverId.value].None?
    ensures Post(store, users, isValidObjectId, parseDate, p, iv, caller, req, now, newId).Rejected?
    ensures WellFormedIds(isValidObjectId, req) && caller != "" && caller in users ==>
      Post(store, users, isValidObjectId, parseDate, p, iv, caller, req, now, newId) == Rejected(NO_PUBLIC_KEY)
  {
  }

  /** A schedule time equal to the current time is accepted. */
  lemma ScheduleAtNowAccepted(store: map<Id, Message>, users: map<Id, Option<string>>,
                              isValidObjectId: string -> bool, parseDate: string -> DateInput,
                              p: Cipher.Primitives, iv: seq<Byte>,
                              caller: Id, req: PostRequest, now: int, newId: Id)
    requires |iv| == Cipher.IV_LENGTH
    requires Truthy(req.receiverId) && Truthy(req.text) && Truthy(req.scheduleTime)
    requires WellFormedIds(isValidObjectId, req)
    requires caller != "" && caller in users && req.receiverId.value in users
    requires Truthy(users[req.receiverId.value])
    requires Cipher.EncryptMessage(p, iv, req.text.value).Ok?
    requires parseDate(req.scheduleTime.value) == ValidDate(now)
    ensures Post(store, users, isValidObjectId, parseDate, p, iv, caller, req, now, newId).Scheduled?
  {
    assert Cipher.EncryptMessage(p, iv, req.text.value).value != "" by {
      Cipher.TokenFraming(p, iv, req.text.value);
    }
  }

  /** The text a successful POST stores decrypts back to the request's text. */
  lemma PostTextRoundTrip(store: map<Id, Message>, users: map<Id, Option<string>>,
                          isValidObjectId: string -> bool, parseDate: string -> DateInput,
                          p: Cipher.Primitives, iv: seq<Byte>,
                          caller: Id, req: PostRequest, now: int, newId: Id)
    requires |iv| == Cipher.IV_LENGTH
    requires Cipher.Inverts(p)
    requires Truthy(req.text)
    requires Post(store, users, isValidObjectId, parseDate, p, iv, caller, req, now, newId).Saves()
    ensures var m := Post(store, users, isValidObjectId, parseDate, p, iv, caller, req, now, newId).m;
      OpenText(p, m) == Ok(m.(text := req.text))
  {
    Cipher.RoundTrip(p, iv, req.text.value);
  }

  // ---------------------------------------------------------------------
  // The scheduled-delivery sweep

  /** One iteration of the sweep's loop over a due message. */
  datatype Step =
    | Threw                             // an exception before the broadcast
    | ThrewAfterBroadcast(pl: Payload)  // broadcast, then `save()` failed validation
    | Swept(m: Message, pl: Payload)    // broadcast and saved as sent

  /**
   * One due message: `populate` leaves a deleted sender or recipient null, and
   * dereferencing it throws; a truthy text is replaced by its decryption, which
   * may throw; the result is broadcast, marked sent and saved.
   */
  function Deliver(p: Cipher.Primitives, users: map<Id, Option<string>>, m: Message): (r: Step)
    ensures r.Swept? ==> r.pl == PayloadOf(r.m)
    ensures r.Swept? ==> r.m == m.(text := r.m.text, sent := true) && PassesValidation(r.m)
    ensures r.Swept? && Truthy(m.text) ==> Ok(r.m.text.value) == Cipher.DecryptMessage(p, m.text.value)
    ensures !r.Threw? ==> m.sender in users && m.recipient in users
    ensures Truthy(m.text) && Cipher.DecryptMessage(p, m.text.value).Err? ==> r.Threw?
    ensures (m.sender in users && m.recipient in users
             && (Truthy(m.text) ==> Cipher.DecryptMessage(p, m.text.value).Ok?)) ==> !r.Threw?
    ensures !r.Threw? ==>
      (r.Swept? <==> m.sender != "" && m.recipient != "" && Truthy(m.text)
                      && Cipher.DecryptMessage(p, m.text.value).value != "")
    ensures r.ThrewAfterBroadcast? ==>
      r.pl == PayloadOf(if Truthy(m.text) then m.(text := Some(Cipher.DecryptMessage(p, m.text.value).value)) else m)
  {
    if m.sender !in users || m.recipient !in users then Threw
    else
      var text :=
        if Truthy(m.text) then
          (match Cipher.DecryptMessage(p, m.text.value)
           case Ok(plain) => Ok(Some(plain))
           case Err(e) => Err(e))
        else Ok(m.text);
      if text.Err? then Threw
      else
        var shown := m.(text := text.value);
        var saved := shown.(sent := true);
        if PassesValidation(saved) then Swept(saved, PayloadOf(shown))
        else ThrewAfterBroadcast(PayloadOf(shown))
  }

  /** The payloads a step broadcast before it ended. */
  function Emitted(step: Step): (pls: seq<Payload>)
    ensures step.Threw? <==> pls == []
    ensures !step.Threw? ==> pls == [step.pl]
  {
    match step
    case Threw => []
    case ThrewAfterBroadcast(pl) => [pl]
    case Swept(_, pl) => [pl]
  }

  /**
   * The sweep over the due ids in query order: the collection afterwards and the
   * payloads broadcast. An exception ends the batch.
   */
  function SweepRun(p: Cipher.Primitives, users: map<Id, Option<string>>,
                    store: map<Id, Message>, due: seq<Id>): (r: (map<Id, Message>, seq<Payload>))
    requires forall id :: id in due ==> id in store
    ensures r.0.Keys == store.Keys
    ensures |r.1| <= |due|
  {
    if due == [] then (store, [])
    else
      var step := Deliver(p, users, store[due[0]]);
      if step.Swept? then
        var rest := SweepRun(p, users, store[due[0] := step.m], due[1..]);
        (rest.0, Emitted(step) + rest.1)
      else (store, Emitted(step))
  }

  /** The sweep from position `i` on: one step, then the rest unless it threw. */
  lemma SweepRunFrom(p: Cipher.Primitives, users: map<Id, Option<string>>,
                     store: map<Id, Message>, due: seq<Id>, i: nat)
    requires forall id :: id in due ==> id in store
    requires i < |due|
    ensures var step := Deliver(p, users, store[due[i]]);
      SweepRun(p, users, store, due[i..])
      == if step.Swept? then
           var rest := SweepRun(p, users, store[due[i] := step.m], due[i + 1..]);
           (rest.0, Emitted(step) + rest.1)
         else (store, Emitted(step))
  {
    assert due[i..][0] == due[i];
    assert due[i..][1..] == due[i + 1..];
  }

  /**
   * The bookkeeping of one iteration of the sweep's loop against `SweepRun`:
   * `store` and `emitted` before the step at `i`, `after` the collection once the
   * step is done.
   */
  lemma SweepAdvance(p: Cipher.Primitives, users: map<Id, Option<string>>, store: map<Id, Message>,
                     after: map<Id, Message>, due: seq<Id>, i: nat, emitted: seq<Payload>,
                     run: (map<Id, Message>, seq<Payload>))
    requires forall id :: id in due ==> id in store
    requires i < |due|
    requires SweepRun(p, users, store, due[i..]).0 == run.0
    requires emitted + SweepRun(p, users, store, due[i..]).1 == run.1
    requires var step := Deliver(p, users, store[due[i]]);
      after == if step.Swept? then store[due[i] := step.m] else store
    ensures forall id :: id in due ==> id in after
    ensures var step := Deliver(p, users, store[due[i]]);
      && (step.Swept? ==> SweepRun(p, users, after, due[i + 1..]).0 == run.0)
      && (step.Swept? ==> (emitted + Emitted(step)) + SweepRun(p, users, after, due[i + 1..]).1 == run.1)
      && (!step.Swept? ==> after == run.0 && emitted + Emitted(step) == run.1)
  {
    SweepRunFrom(p, users, store, due, i);
    var step := Deliver(p, users, store[due[i]]);
    if step.Swept? {
      Associative(emitted, Emitted(step), SweepRun(p, users, after, due[i + 1..]).1);
    }
  }

  /** A swept due record is still a record as the routes store it. */
  lemma SweptStaysStored(p: Cipher.Primitives, users: map<Id, Option<string>>, m: Message, now: int)
    requires Stored(m) && Matches(Due(now), m)
    requires Deliver(p, users, m).Swept?
    ensures Stored(Deliver(p, users, m).m)
  {
  }

  /** How many due messages the sweep gets through before the first exception. */
  function SweptCount(p: Cipher.Primitives, users: map<Id, Option<string>>,
                      store: map<Id, Message>, due: seq<Id>): (k: nat)
    requires forall id :: id in due ==> id in store
    ensures k <= |due|
  {
    if due == [] then 0
    else
      var step := Deliver(p, users, store[due[0]]);
      if step.Swept? then 1 + SweptCount(p, users, store[due[0] := step.m], due[1..]) else 0
  }

  /**
   * What the sweep broadcasts, first part: the payload of each due message of
   * the swept prefix, in query order.
   */
  lemma {:induction false} SweepBroadcastsPrefix(p: Cipher.Primitives, users: map<Id, Option<string>>,
                                                 store: map<Id, Message>, due: seq<Id>)
    requires forall x :: x in due ==> x in store
    requires Distinct(due)
    ensures var k := SweptCount(p, users, store, due);
      var sent := SweepRun(p, users, store, due).1;
      && |sent| >= k
      && (forall i :: 0 <= i < k ==>
            Deliver(p, users, store[due[i]]).Swept? && sent[i] == Deliver(p, users, store[due[i]]).pl)
  {
    if due == [] {
      return;
    }
    var step := Deliver(p, users, store[due[0]]);
    if !step.Swept? {
      return;
    }
    var next := store[due[0] := step.m];
    var tail := due[1..];
    DistinctCons(due[0], tail);
    assert due == [due[0]] + tail;
    SweepBroadcastsPrefix(p, users, next, tail);
    var rest := SweepRun(p, users, next, tail).1;
    var sent := SweepRun(p, users, store, due).1;
    var k := SweptCount(p, users, store, due);
    assert sent == [step.pl] + rest;
    assert k == SweptCount(p, users, next, tail) + 1;
    forall i | 0 <= i < k
      ensures Deliver(p, users, store[due[i]]).Swept? && sent[i] == Deliver(p, users, store[due[i]]).pl
    {
      if i > 0 {
        assert tail[i - 1] == due[i] && next[due[i]] == store[due[i]];
        assert sent[i] == rest[i - 1];
      }
    }
  }

  /**
   * What the sweep broadcasts, second part: after the swept prefix, what the
   * failing step broadcast before it threw, and nothing more.
   */
  lemma {:induction false} SweepBroadcastsRest(p: Cipher.Primitives, users: map<Id, Option<string>>,
                                               store: map<Id, Message>, due: seq<Id>)
    requires forall x :: x in due ==> x in store
    requires Distinct(due)
    ensures var k := SweptCount(p, users, store, due);
      var sent := SweepRun(p, users, store, due).1;
      && k <= |sent|
      && (k < |due| ==> sent[k..] == Emitted(Deliver(p, users, store[due[k]])))
      && (k == |due| ==> |sent| == k)
  {
    if due == [] {
      return;
    }
    var step := Deliver(p, users, store[due[0]]);
    var sent := SweepRun(p, users, store, due).1;
    if !step.Swept? {
      assert sent[0..] == sent;
      return;
    }
    var next := store[due[0] := step.m];
    var tail := due[1..];
    DistinctCons(due[0], tail);
    assert due == [due[0]] + tail;
    SweepBroadcastsRest(p, users, next, tail);
    var rest := SweepRun(p, users, next, tail).1;
    var k' := SweptCount(p, users, next, tail);
    var k := k' + 1;
    assert sent == [step.pl] + rest;
    if k < |due| {
      assert tail[k'] == due[k] && next[due[k]] == store[due[k]];
      assert sent[k..] == rest[k'..];
    }
  }

  /** The sweep changes no record outside the due list. */
  lemma {:induction false} SweepTouchesOnlyDue(p: Cipher.Primitives, users: map<Id, Option<string>>,
                                               store: map<Id, Message>, due: seq<Id>, id: Id)
    requires forall x :: x in due ==> x in store
    requires id in store && id !in due
    ensures SweepRun(p, users, store, due).0[id] == store[id]
  {
    if due != [] && Deliver(p, users, store[due[0]]).Swept? {
      SweepTouchesOnlyDue(p, users, store[due[0] := Deliver(p, users, store[due[0]]).m], due[1..], id);
    }
  }

  /**
   * The sweep delivers a prefix of the due list: each of the first `SweptCount`
   * due messages is replaced by its swept record.
   */
  lemma {:induction false} SweepDeliversPrefix(p: Cipher.Primitives, users: map<Id, Option<string>>,
                                               store: map<Id, Message>, due: seq<Id>)
    requires forall x :: x in due ==> x in store
    requires Distinct(due)
    ensures forall i :: 0 <= i < SweptCount(p, users, store, due) ==>
      Deliver(p, users, store[due[i]]).Swept?
      && SweepRun(p, users, store, due).0[due[i]] == Deliver(p, users, store[due[i]]).m
  {
    if due != [] {
      var step := Deliver(p, users, store[due[0]]);
      if step.Swept? {
        var next := store[due[0] := step.m];
        var tail := due[1..];
        DistinctCons(due[0], tail);
        assert due == [due[0]] + tail;
        assert forall i :: 0 <= i < |tail| ==> tail[i] == due[i + 1] && next[tail[i]] == store[tail[i]];
        SweepDeliversPrefix(p, users, next, tail);
        SweepTouchesOnlyDue(p, users, next, tail, due[0]);
      }
    }
  }

  /** The sweep stops at the first exception: the due messages after the swept prefix keep their stored state. */
  lemma {:induction false} SweepStopsAtFirstFailure(p: Cipher.Primitives, users: map<Id, Option<string>>,
                                                    store: map<Id, Message>, due: seq<Id>)
    requires forall x :: x in due ==> x in store
    requires Distinct(due)
    ensures forall i :: SweptCount(p, users, store, due) <= i < |due| ==>
      SweepRun(p, users, store, due).0[due[i]] == store[due[i]]
  {
    if due != [] {
      var step := Deliver(p, users, store[due[0]]);
      if step.Swept? {
        var next := store[due[0] := step.m];
        var tail := due[1..];
        DistinctCons(due[0], tail);
        assert due == [due[0]] + tail;
        assert forall i :: 0 <= i < |tail| ==> tail[i] == due[i + 1] && next[tail[i]] == store[tail[i]];
        SweepStopsAtFirstFailure(p, users, next, tail);
      }
    }
  }

  /**
   * A swept record holds plaintext, and plaintext without '.' is not a token:
   * reading it back (GET /messages) fails to decrypt.
   */
  lemma SweptPlaintextUnreadable(p: Cipher.Primitives, users: map<Id, Option<string>>, m: Message)
    requires Deliver(p, users, m).Swept?
    requires Cipher.SEPARATOR !in Deliver(p, users, m).m.text.value
    ensures OpenText(p, Deliver(p, users, m).m).Err?
  {
    Cipher.MissingSeparatorFails(p, Deliver(p, users, m).m.text.value);
  }

  /** A message sent immediately is never due: the sweep never picks records without a schedule. */
  lemma ImmediateNeverDue(m: Message, now: int)
    requires m.scheduledAt.None?
    ensures !Matches(Due(now), m)
  {
  }

  /** Every record in the scheduled view has a schedule: only the sweep sets `sent`. */
  lemma ScheduledViewOnlyScheduled(m: Message, reader: Id, now: int)
    requires Stored(m)
    requires Matches(ScheduledFor(reader, now), m)
    ensures m.scheduledAt.Some? && m.scheduledAt.value <= now
  {
  }

  // ---------------------------------------------------------------------
  // Reads

  /** The query string of GET /messages. */
  datatype GetQuery = GetQuery(userId: Option<string>, messageId: Option<string>, scheduled: Option<string>)

  /** One message (by id) or a list. */
  datatype Found = One(doc: Doc) | Many(docs: seq<Doc>)

  /**
   * GET /messages?messageId: a malformed id makes `findById` throw (500); then 404,
   * 403 unless the caller is sender or recipient, and the decrypted record.
   */
  function GetById(store: map<Id, Message>, isValidObjectId: string -> bool, p: Cipher.Primitives,
                   caller: Id, id: Id): (r: Result<Doc, HttpError>)
    ensures !isValidObjectId(id) ==> r == Err(SERVER_ERROR)
    ensures isValidObjectId(id) && id !in store ==> r == Err(MESSAGE_NOT_FOUND)
    ensures isValidObjectId(id) && id in store && store[id].sender != caller && store[id].recipient != caller ==>
      r == Err(UNAUTHORIZED)
    ensures r.Ok? ==>
      && id in store && (store[id].sender == caller || store[id].recipient == caller)
      && r.value.id == id && OpenText(p, store[id]) == Ok(r.value.msg)
    ensures isValidObjectId(id) && id in store && (store[id].sender == caller || store[id].recipient == caller) ==>
      (r.Ok? <==> OpenText(p, store[id]).Ok?)
  {
    if !isValidObjectId(id) then Err(SERVER_ERROR)
    else if id !in store then Err(MESSAGE_NOT_FOUND)
    else if store[id].recipient != caller && store[id].sender != caller then Err(UNAUTHORIZED)
    else
      match OpenText(p, store[id])
      case Ok(m) => Ok(Doc(id, m))
      case Err(_) => Err(SERVER_ERROR)
  }

  /**
   * What a list read returns: the records matching `f`, each once, in ascending `k`
   * order, each with its text decrypted; a 500 when any of them fails to decrypt.
   */
  predicate Listed(store: map<Id, Message>, p: Cipher.Primitives, f: Filter, k: SortKey,
                   r: Result<Found, HttpError>)
  {
    && (r.Ok? <==> forall id :: id in store && Matches(f, store[id]) ==> OpenText(p, store[id]).Ok?)
    && (r.Err? ==> r.error == SERVER_ERROR)
    && (r.Ok? ==> r.value.Many?)
    && (r.Ok? && r.value.Many? ==>
         var docs := r.value.docs;
         && Sorted(docs, k)
         && (forall i, j :: 0 <= i < j < |docs| ==> docs[i].id != docs[j].id)
         && (forall i :: 0 <= i < |docs| ==>
               docs[i].id in store && Matches(f, store[docs[i].id]) && OpenText(p, store[docs[i].id]) == Ok(docs[i].msg))
         && (forall id :: id in store && Matches(f, store[id]) ==> exists i :: 0 <= i < |docs| && docs[i].id == id))
  }

  /** Decrypting documents preserves their sort order, which depends on dates only. */
  lemma OpenAllKeepsOrder(p: Cipher.Primitives, docs: seq<Doc>, k: SortKey)
    requires Sorted(docs, k)
    requires OpenAll(p, docs).Ok?
    ensures Sorted(OpenAll(p, docs).value, k)
  {
    var decrypted := OpenAll(p, docs).value;
    forall i, j | 0 <= i < j < |decrypted|
      ensures InOrder(decrypted[i].msg, decrypted[j].msg, k)
    {
      assert decrypted[i].msg == docs[i].msg.(text := decrypted[i].msg.text);
      assert decrypted[j].msg == docs[j].msg.(text := decrypted[j].msg.text);
    }
  }

  // ---------------------------------------------------------------------
  // The router's state

  class Messenger {
    /** The Message collection. */
    var store: map<Id, Message>
    /** The `clients` Map. */
    var clients: seq<Client>
    /** Everything sent to sockets so far. */
    var outbox: seq<Delivery>
    /** `mongoose.Types.ObjectId.isValid`. */
    const isValidObjectId: string -> bool
    /** `new Date(string)`. */
    const parseDate: string -> DateInput

    ghost predicate Valid()
      reads this
    {
      Distinct(UserIds(clients)) && forall id :: id in store ==> Stored(store[id])
    }

    constructor(isValidObjectId: string -> bool, parseDate: string -> DateInput)
      ensures Valid()
      ensures store == map[] && clients == [] && outbox == []
      ensures this.isValidObjectId == isValidObjectId && this.parseDate == parseDate
    {
      store := map[];
      clients := [];
      outbox := [];
      this.isValidObjectId := isValidObjectId;
      this.parseDate := parseDate;
    }

    /**
     * `wss.on('connection')`: the id of the request's user, when there is one,
     * maps to the new socket; a connection without a user id is not stored.
     */
    method OnConnection(userId: Option<Id>, ws: Socket)
      requires Valid()
      modifies this
      ensures Valid()
      ensures clients == if Truthy(userId) then SetClient(old(clients), userId.value, ws) else old(clients)
      ensures store == old(store) && outbox == old(outbox)
    {
      if Truthy(userId) {
        SetClientKeepsKeysDistinct(clients, userId.value, ws);
        clients := SetClient(clients, userId.value, ws);
      }
    }

    /** `ws.on('close')` of a connection stored for `userId`: deletes the entry, whichever socket it holds. */
    method OnClose(userId: Id)
      requires Valid()
      modifies this
      ensures Valid()
      ensures clients == DeleteClient(old(clients), userId)
      ensures store == old(store) && outbox == old(outbox)
    {
      PullKeepsDistinct(UserIds(clients), userId);
      clients := DeleteClient(clients, userId);
    }

    /** `broadcast(payload)`: a send to every OPEN client, in Map order. */
    method Broadcast(pl: Payload)
      modifies this
      ensures outbox == old(outbox) + Fanout(clients, pl)
      ensures store == old(store) && clients == old(clients)
    {
      ghost var outbox0 := outbox;
      for i := 0 to |clients|
        invariant store == old(store) && clients == old(clients)
        invariant outbox == outbox0 + Fanout(clients[..i], pl)
      {
        FanoutSnoc(clients[..i], clients[i], pl);
        assert clients[..i] + [clients[i]] == clients[..i + 1];
        if clients[i].socket.readyState == Open {
          outbox := outbox + [Delivery(clients[i].socket, pl)];
        }
      }
      assert clients[..|clients|] == clients;
    }

    /** `sendMessage(message)`: the message's broadcast. */
    method SendMessage(m: Message)
      modifies this
      ensures outbox == old(outbox) + Fanout(clients, PayloadOf(m))
      ensures store == old(store) && clients == old(clients)
    {
      Broadcast(PayloadOf(m));
    }

    /**
     * POST /messages: saves what `Post` decides; only an immediate send broadcasts,
     * and it broadcasts the stored ciphertext.
     */
    method PostMessage(caller: Id, req: PostRequest, users: map<Id, Option<string>>, now: int,
                       p: Cipher.Primitives, iv: seq<Byte>, newId: Id) returns (r: Result<Message, HttpError>)
      requires Valid()
      requires |iv| == Cipher.IV_LENGTH
      requires newId !in store
      modifies this
      ensures Valid()
      ensures var o := Post(old(store), users, isValidObjectId, parseDate, p, iv, caller, req, now, newId);
        && store == StoreAfter(old(store), o)
        && outbox == old(outbox) + (if o.SentNow? then Fanout(clients, PayloadOf(o.m)) else [])
        && r == (if o.Rejected? then Err(o.err) else Ok(o.m))
      ensures clients == old(clients)
    {
      var o := Post(store, users, isValidObjectId, parseDate, p, iv, caller, req, now, newId);
      match o
      case Rejected(e) =>
        r := Err(e);
      case Scheduled(id, m) =>
        store := store[id := m];
        r := Ok(m);
      case Edited(id, m) =>
        store := store[id := m];
        r := Ok(m);
      case SentNow(id, m) =>
        store := store[id := m];
        SendMessage(m);
        r := Ok(m);
    }

    /**
     * One iteration of the sweep's loop on the record `id`: decrypt its text into
     * the record, broadcast it, mark it sent and save it. Returns whether it saved.
     */
    method DeliverOne(id: Id, p: Cipher.Primitives, users: map<Id, Option<string>>, ghost now: int) returns (saved: bool)
      requires Valid()
      requires id in store && Matches(Due(now), store[id])
      modifies this
      ensures Valid()
      ensures var step := Deliver(p, users, old(store)[id]);
        && saved == step.Swept?
        && store == (if step.Swept? then old(store)[id := step.m] else old(store))
        && outbox == old(outbox) + FanoutAll(clients, Emitted(step))
      ensures clients == old(clients)
    {
      saved := false;
      var m := store[id];
      if m.sender !in users || m.recipient !in users {
        return;
      }
      if Truthy(m.text) {
        var plain := Cipher.DecryptMessage(p, m.text.value);
        if plain.Err? {
          return;
        }
        m := m.(text := Some(plain.value));
      }
      SendMessage(m);
      FanoutAllOne(clients, PayloadOf(m));
      m := m.(sent := true);
      if PassesValidation(m) {
        SweptStaysStored(p, users, store[id], now);
        store := store[id := m];
        saved := true;
      }
    }

    /**
     * The cron job at time `now`: the due ids in query order, each delivered in turn
     * until one throws. Returns the due list it worked through.
     */
    method Sweep(now: int, p: Cipher.Primitives, users: map<Id, Option<string>>) returns (due: seq<Id>)
      requires Valid()
      modifies this
      ensures Valid()
      ensures Distinct(due)
      ensures forall id :: id in due <==> id in old(store) && Matches(Due(now), old(store)[id])
      ensures store == SweepRun(p, users, old(store), due).0
      ensures outbox == old(outbox) + FanoutAll(clients, SweepRun(p, users, old(store), due).1)
      ensures clients == old(clients)
    {
      due := Select(store, Due(now));
      DeliverAll(due, now, p, users);
    }

    /** The sweep's `for` loop over the due records, ending at the first exception. */
    method DeliverAll(due: seq<Id>, now: int, p: Cipher.Primitives, users: map<Id, Option<string>>)
      requires Valid()
      requires Distinct(due)
      requires forall j :: 0 <= j < |due| ==> due[j] in store && Matches(Due(now), store[due[j]])
      modifies this
      ensures Valid()
      ensures store == SweepRun(p, users, old(store), due).0
      ensures outbox == old(outbox) + FanoutAll(clients, SweepRun(p, users, old(store), due).1)
      ensures clients == old(clients)
    {
      ghost var run := SweepRun(p, users, store, due);
      ghost var emitted: seq<Payload> := [];
      ghost var outbox0 := outbox;
      var saved := true;
      var i := 0;
      while i < |due| && saved
        invariant 0 <= i <= |due|
        invariant clients == old(clients)
        invariant Valid()
        invariant forall j :: i <= j < |due| ==> due[j] in store && store[due[j]] == old(store)[due[j]]
        invariant outbox == outbox0 + FanoutAll(clients, emitted)
        invariant saved ==> SweepRun(p, users, store, due[i..]).0 == run.0
        invariant saved ==> emitted + SweepRun(p, users, store, due[i..]).1 == run.1
        invariant !saved ==> store == run.0 && emitted == run.1
        decreases |due| - i
      {
        ghost var step := Deliver(p, users, store[due[i]]);
        ghost var storeBefore := store;
        saved := DeliverOne(due[i], p, users, now);
        SweepAdvance(p, users, storeBefore, store, due, i, emitted, run);
        FanoutAllAppend(clients, emitted, Emitted(step));
        ghost var sentBefore, sentNow := FanoutAll(clients, emitted), FanoutAll(clients, Emitted(step));
        assert outbox == (outbox0 + sentBefore) + sentNow;
        Associative(outbox0, sentBefore, sentNow);
        emitted := emitted + Emitted(step);
        i := i + 1;
        assert saved ==> SweepRun(p, users, store, due[i..]).0 == run.0;
        assert saved ==> emitted + SweepRun(p, users, store, due[i..]).1 == run.1;
      }
      if saved {
        assert due[i..] == [];
        assert emitted + [] == emitted;
      }
      assert emitted == run.1;
    }

    /**
     * GET /messages: by id first, then the scheduled view (the caller's received,
     * delivered messages by `scheduledAt`), else the conversation query, whose
     * duplicate `$or` key leaves only the date filter (every user's messages, by `createdAt`).
     */
    method GetMessages(caller: Id, q: GetQuery, now: int, p: Cipher.Primitives) returns (r: Result<Found, HttpError>)
      ensures !Truthy(q.messageId) && !Truthy(q.userId) && !Truthy(q.scheduled) ==> r == Err(MISSING_QUERY)
      ensures Truthy(q.messageId) ==>
        r == match GetById(store, isValidObjectId, p, caller, q.messageId.value)
             case Ok(d) => Ok(One(d))
             case Err(e) => Err(e)
      ensures !Truthy(q.messageId) && Truthy(q.scheduled) ==>
        Listed(store, p, ScheduledFor(caller, now), ByScheduledAt, r)
      ensures !Truthy(q.messageId) && !Truthy(q.scheduled) && Truthy(q.userId) ==>
        Listed(store, p, NotLater(now), ByCreatedAt, r)
    {
      if !Truthy(q.messageId) && !Truthy(q.userId) && !Truthy(q.scheduled) {
        return Err(MISSING_QUERY);
      }
      if Truthy(q.messageId) {
        var found := GetById(store, isValidObjectId, p, caller, q.messageId.value);
        if found.Ok? {
          r := Ok(One(found.value));
        } else {
          r := Err(found.error);
        }
        return;
      }
      var f, k := NotLater(now), ByCreatedAt;
      if Truthy(q.scheduled) {
        f, k := ScheduledFor(caller, now), ByScheduledAt;
      }
      var docs := Query(store, f, k);
      var decrypted := OpenAll(p, docs);
      if decrypted.Err? {
        r := Err(SERVER_ERROR);
        var i :| 0 <= i < |docs| && OpenText(p, docs[i].msg).Err?;
      } else {
        OpenAllKeepsOrder(p, docs, k);
        r := Ok(Many(decrypted.value));
        forall id | id in store && Matches(f, store[id])
          ensures OpenText(p, store[id]).Ok?
        {
          var i :| 0 <= i < |docs| && docs[i].id == id;
        }
      }
    }

    /**
     * PUT /messages/read: 400 unless `messageIds` is an array; a malformed id makes the
     * `$in` filter throw (500); otherwise the conditional update and its modified count.
     */
    method MarkMessagesRead(caller: Id, body: IdsField) returns (r: Result<nat, HttpError>)
      requires Valid()
      modifies this
      ensures Valid()
      ensures !body.Ids? ==> r == Err(INVALID_IDS) && store == old(store)
      ensures body.Ids? && (exists i :: 0 <= i < |body.ids| && !isValidObjectId(body.ids[i])) ==>
        r == Err(SERVER_ERROR) && store == old(store)
      ensures body.Ids? && (forall i :: 0 <= i < |body.ids| ==> isValidObjectId(body.ids[i])) ==>
        store == MarkRead(old(store), body.ids, caller) && r == Ok(ModifiedCount(old(store), body.ids, caller))
      ensures clients == old(clients) && outbox == old(outbox)
    {
      if !body.Ids? {
        return Err(INVALID_IDS);
      }
      var ids := body.ids;
      for i := 0 to |ids|
        invariant forall j :: 0 <= j < i ==> isValidObjectId(ids[j])
      {
        if !isValidObjectId(ids[i]) {
          return Err(SERVER_ERROR);
        }
      }
      var count := ModifiedCount(store, ids, caller);
      store := MarkRead(store, ids, caller);
      r := Ok(count);
    }
  }

  /** The `messageIds` body field of PUT /messages/read. */
  datatype IdsField = Missing | NotArray | Ids(ids: seq<string>)
}
