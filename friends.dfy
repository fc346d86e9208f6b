/**
 * routes/friends.js: the friend-relation records and the seven handlers over them.
 *
 * The Friend collection is `records`, keyed by the record's `user` (the routes
 * create a record only after `findOne` found none, so there is at most one per
 * user). The User collection is a parameter `users`, its ids in natural order.
 * Mongoose array `push` appends, `pull` removes every occurrence, `includes`
 * tests membership. A populated list is modelled by the ids it resolves to.
 */
module Friends {
  import opened Common

  /** One Friend document's three id arrays. */
  datatype FriendRecord = FriendRecord(pendingRequests: seq<Id>, friends: seq<Id>, blockedUsers: seq<Id>)

  /** `new Friend({user})`: all three arrays start empty. */
  const EMPTY := FriendRecord([], [], [])

  type Reply = Result<(), HttpError>

  const USER_ID_REQUIRED := HttpError(400, "User ID is required")
  const SELF_REQUEST := HttpError(400, "You cannot send a friend request to yourself")
  const TARGET_NOT_FOUND := HttpError(404, "Target user not found")
  const ALREADY_SENT := HttpError(400, "Friend request already sent")
  const NO_PENDING := HttpError(400, "No pending friend request from this user")
  const RECORD_NOT_FOUND := HttpError(404, "User record not found")
  const NO_USERS := HttpError(404, "No users found")
  const NO_REQUESTS := HttpError(404, "No pending requests found")
  const NO_FRIENDS := HttpError(404, "No friends found")
  const NOT_BLOCKED := HttpError(400, "User is not blocked")

  /** The number of occurrences of `x` in `s`. */
  function Count(s: seq<Id>, x: Id): nat
  {
    multiset(s)[x]
  }

  /** `Friend.findOne({user})`, or the empty record `new Friend({user})` builds. */
  function RecordOf(records: map<Id, FriendRecord>, u: Id): FriendRecord
  {
    if u in records then records[u] else EMPTY
  }

  /** The find-or-create of accept-request, which saves the new record at once. */
  function Ensure(records: map<Id, FriendRecord>, u: Id): (r: map<Id, FriendRecord>)
    ensures r.Keys == records.Keys + {u}
    ensures r[u] == RecordOf(records, u)
    ensures forall v :: v in records ==> r[v] == records[v]
  {
    if u in records then records else records[u := EMPTY]
  }

  /**
   * No user has its own id among its pending requests: send-request refuses a
   * request to oneself, and no other handler adds to `pendingRequests`.
   */
  predicate NoSelfRequests(records: map<Id, FriendRecord>)
  {
    forall u :: u in records ==> u !in records[u].pendingRequests
  }

  // ---------------------------------------------------------------------
  // The per-record updates

  /** send-request's update of the caller's own record: the target appended to its pending list. */
  function AddPending(rec: FriendRecord, target: Id): (r: FriendRecord)
    ensures r.pendingRequests == rec.pendingRequests + [target]
    ensures r.friends == rec.friends && r.blockedUsers == rec.blockedUsers
  {
    rec.(pendingRequests := rec.pendingRequests + [target])
  }

  /**
   * One side of accept-request: `other` pulled from the pending list and
   * pushed onto the friends list, even when it is already there.
   */
  function Befriend(rec: FriendRecord, other: Id): (r: FriendRecord)
    ensures other !in r.pendingRequests
    ensures forall x :: x != other ==> Count(r.pendingRequests, x) == Count(rec.pendingRequests, x)
    ensures Count(r.friends, other) == Count(rec.friends, other) + 1
    ensures forall x :: x != other ==> Count(r.friends, x) == Count(rec.friends, x)
    ensures r.blockedUsers == rec.blockedUsers
  {
    FriendRecord(Pull(rec.pendingRequests, other), rec.friends + [other], rec.blockedUsers)
  }

  /** block-friend's update: `u` blocked once, and gone from friends and pending requests. */
  function BlockIn(rec: FriendRecord, u: Id): (r: FriendRecord)
    ensures u in r.blockedUsers && u !in r.friends && u !in r.pendingRequests
    ensures forall x :: x != u ==> Count(r.blockedUsers, x) == Count(rec.blockedUsers, x)
    ensures forall x :: x != u ==> Count(r.friends, x) == Count(rec.friends, x)
    ensures forall x :: x != u ==> Count(r.pendingRequests, x) == Count(rec.pendingRequests, x)
    ensures Count(r.blockedUsers, u) == if u in rec.blockedUsers then Count(rec.blockedUsers, u) else 1
  {
    var blocked := if u in rec.blockedUsers then rec.blockedUsers else rec.blockedUsers + [u];
    FriendRecord(Pull(rec.pendingRequests, u), Pull(rec.friends, u), blocked)
  }

  /** unblock-friend's update: `u` no longer blocked, a friend once, and not pending. */
  function UnblockIn(rec: FriendRecord, u: Id): (r: FriendRecord)
    ensures u !in r.blockedUsers && u in r.friends && u !in r.pendingRequests
    ensures forall x :: x != u ==> Count(r.blockedUsers, x) == Count(rec.blockedUsers, x)
    ensures forall x :: x != u ==> Count(r.friends, x) == Count(rec.friends, x)
    ensures forall x :: x != u ==> Count(r.pendingRequests, x) == Count(rec.pendingRequests, x)
    ensures Count(r.friends, u) == if u in rec.friends then Count(rec.friends, u) else 1
  {
    var friends := if u in rec.friends then rec.friends else rec.friends + [u];
    FriendRecord(Pull(rec.pendingRequests, u), friends, Pull(rec.blockedUsers, u))
  }

  // ---------------------------------------------------------------------
  // The handlers as functions of the collections

  /** POST /send-request by `caller` with body field `userId`. */
  function Send(records: map<Id, FriendRecord>, users: seq<Id>, caller: Id, userId: Option<string>)
    : (out: (Reply, map<Id, FriendRecord>))
    ensures out.0.Ok? <==>
      && Truthy(userId)
      && userId.value != caller
      && userId.value in users
      && userId.value !in RecordOf(records, caller).pendingRequests
    ensures !Truthy(userId) ==> out.0 == Err(USER_ID_REQUIRED)
    ensures Truthy(userId) && userId.value == caller ==> out.0 == Err(SELF_REQUEST)
    ensures Truthy(userId) && userId.value != caller && userId.value !in users ==> out.0 == Err(TARGET_NOT_FOUND)
    ensures (Truthy(userId) && userId.value != caller && userId.value in users
             && userId.value in RecordOf(records, caller).pendingRequests) ==> out.0 == Err(ALREADY_SENT)
    ensures out.0.Err? ==> out.1 == records
    ensures out.0.Ok? ==> out.1 == records[caller := AddPending(RecordOf(records, caller), userId.value)]
  {
    if !Truthy(userId) then (Err(USER_ID_REQUIRED), records)
    else
      var target := userId.value;
      if target == caller then (Err(SELF_REQUEST), records)
      else if target !in users then (Err(TARGET_NOT_FOUND), records)
      else
        var rec := RecordOf(records, caller);
        if target in rec.pendingRequests then (Err(ALREADY_SENT), records)
        else (Ok(()), records[caller := AddPending(rec, target)])
  }

  /**
   * POST /accept-request by `caller` with body field `userId`: both records
   * exist afterwards, whether or not the request is then accepted.
   */
  function Accept(records: map<Id, FriendRecord>, caller: Id, userId: Option<string>)
    : (out: (Reply, map<Id, FriendRecord>))
    ensures out.0.Ok? <==> Truthy(userId) && userId.value in RecordOf(records, caller).pendingRequests
    ensures !Truthy(userId) ==> out == (Err(USER_ID_REQUIRED), records)
    ensures Truthy(userId) ==> out.1.Keys == records.Keys + {caller, userId.value}
    ensures Truthy(userId) && out.0.Err? ==> out.0 == Err(NO_PENDING)
    ensures Truthy(userId) && out.0.Err? ==> forall v :: v in out.1 ==> out.1[v] == RecordOf(records, v)
    ensures Truthy(userId) ==>
      forall v :: v in records && v != caller && v != userId.value ==> out.1[v] == records[v]
    ensures out.0.Ok? && userId.value != caller ==>
      && out.1[caller] == Befriend(RecordOf(records, caller), userId.value)
      && out.1[userId.value] == Befriend(RecordOf(records, userId.value), caller)
  {
    if !Truthy(userId) then (Err(USER_ID_REQUIRED), records)
    else
      var u := userId.value;
      var loaded := Ensure(Ensure(records, caller), u);
      assert forall v :: v in loaded ==> loaded[v] == RecordOf(records, v);
      var mine, theirs := loaded[caller], loaded[u];
      if u !in mine.pendingRequests then (Err(NO_PENDING), loaded)
      else
        var afterMine := loaded[caller := Befriend(mine, u)];
        (Ok(()), afterMine[u := Befriend(theirs, caller)])
  }

  /** POST /block-friend by `caller`: only the caller's record changes (and is created if absent). */
  function Block(records: map<Id, FriendRecord>, caller: Id, userId: Option<string>)
    : (out: (Reply, map<Id, FriendRecord>))
    ensures out.0.Ok? <==> Truthy(userId)
    ensures out.0.Err? ==> out == (Err(USER_ID_REQUIRED), records)
    ensures out.0.Ok? ==> out.1 == records[caller := BlockIn(RecordOf(records, caller), userId.value)]
  {
    if !Truthy(userId) then (Err(USER_ID_REQUIRED), records)
    else (Ok(()), records[caller := BlockIn(RecordOf(records, caller), userId.value)])
  }

  /** POST /unblock-friend by `caller`. */
  function Unblock(records: map<Id, FriendRecord>, caller: Id, userId: Option<string>)
    : (out: (Reply, map<Id, FriendRecord>))
    ensures out.0.Ok? <==> Truthy(userId) && caller in records && userId.value in records[caller].blockedUsers
    ensures !Truthy(userId) ==> out.0 == Err(USER_ID_REQUIRED)
    ensures Truthy(userId) && caller !in records ==> out.0 == Err(RECORD_NOT_FOUND)
    ensures Truthy(userId) && caller in records && userId.value !in records[caller].blockedUsers ==>
      out.0 == Err(NOT_BLOCKED)
    ensures out.0.Err? ==> out.1 == records
    ensures out.0.Ok? ==> out.1 == records[caller := UnblockIn(records[caller], userId.value)]
  {
    if !Truthy(userId) then (Err(USER_ID_REQUIRED), records)
    else if caller !in records then (Err(RECORD_NOT_FOUND), records)
    else if userId.value !in records[caller].blockedUsers then (Err(NOT_BLOCKED), records)
    else (Ok(()), records[caller := UnblockIn(records[caller], userId.value)])
  }

  // ---------------------------------------------------------------------
  // The read-only handlers

  /** The ids of `s` that are not in `excluded`, in their order. */
  function Without(s: seq<Id>, excluded: seq<Id>): (r: seq<Id>)
    ensures forall x :: x in r <==> x in s && x !in excluded
    ensures forall x :: Count(r, x) == if x in excluded then 0 else Count(s, x)
    ensures |r| <= |s|
  {
    if s == [] then []
    else
      assert s == [s[0]] + s[1..];
      if s[0] in excluded then Without(s[1..], excluded)
      else [s[0]] + Without(s[1..], excluded)
  }

  /** `populate`: the referenced ids that still name a user, in order. */
  function Populate(ids: seq<Id>, users: seq<Id>): (r: seq<Id>)
    ensures forall x :: x in r <==> x in ids && x in users
    ensures forall x :: Count(r, x) == if x in users then Count(ids, x) else 0
    ensures |r| <= |ids|
  {
    if ids == [] then []
    else
      assert ids == [ids[0]] + ids[1..];
      if ids[0] in users then [ids[0]] + Populate(ids[1..], users)
      else Populate(ids[1..], users)
  }

  /** GET /allUsers: every user but the caller and those the caller blocked. */
  function AllUsers(records: map<Id, FriendRecord>, users: seq<Id>, caller: Id): (r: Result<seq<Id>, HttpError>)
    ensures caller !in records ==> r == Err(RECORD_NOT_FOUND)
    ensures r.Ok? ==> forall x :: x in r.value <==>
      x in users && x != caller && x !in records[caller].blockedUsers
    ensures r.Ok? ==> forall x ::
      Count(r.value, x) == if x != caller && x !in records[caller].blockedUsers then Count(users, x) else 0
    ensures r.Ok? <==> (caller in records
      && exists i :: 0 <= i < |users| && users[i] != caller && users[i] !in records[caller].blockedUsers)
    ensures r.Err? && caller in records ==> r == Err(NO_USERS)
  {
    if caller !in records then Err(RECORD_NOT_FOUND)
    else
      var found := Without(users, [caller] + records[caller].blockedUsers);
      if found == [] then
        assert forall i :: 0 <= i < |users| ==> users[i] !in found;
        Err(NO_USERS)
      else
        assert found[0] in users;
        Ok(found)
  }

  /** GET /get-all-requests: the caller's pending list, populated. */
  function AllRequests(records: map<Id, FriendRecord>, users: seq<Id>, caller: Id): (r: Result<seq<Id>, HttpError>)
    ensures caller !in records ==> r == Err(RECORD_NOT_FOUND)
    ensures r.Ok? ==> r.value != [] && forall x :: x in r.value <==>
      x in records[caller].pendingRequests && x in users
    ensures r.Ok? ==> forall x ::
      Count(r.value, x) == if x in users then Count(records[caller].pendingRequests, x) else 0
    ensures r.Err? && caller in records ==> r == Err(NO_REQUESTS)
    ensures r.Ok? <==> caller in records && Populate(records[caller].pendingRequests, users) != []
  {
    if caller !in records then Err(RECORD_NOT_FOUND)
    else
      var pending := Populate(records[caller].pendingRequests, users);
      if |pending| == 0 then Err(NO_REQUESTS) else Ok(pending)
  }

  /** GET /get-all-friends: the caller's friends, populated, less the blocked ones. */
  function AllFriends(records: map<Id, FriendRecord>, users: seq<Id>, caller: Id): (r: Result<seq<Id>, HttpError>)
    ensures caller !in records ==> r == Err(RECORD_NOT_FOUND)
    ensures r.Ok? ==> r.value != [] && forall x :: x in r.value <==>
      x in records[caller].friends && x in users && x !in records[caller].blockedUsers
    ensures r.Ok? ==> forall x ::
      Count(r.value, x) == if x in users && x !in records[caller].blockedUsers then Count(records[caller].friends, x) else 0
    ensures r.Err? && caller in records ==> r == Err(NO_FRIENDS)
    ensures r.Ok? <==> caller in records && Without(Populate(records[caller].friends, users), records[caller].blockedUsers) != []
  {
    if caller !in records then Err(RECORD_NOT_FOUND)
    else
      var rec := records[caller];
      var friendsList := Without(Populate(rec.friends, users), rec.blockedUsers);
      if |friendsList| == 0 then Err(NO_FRIENDS) else Ok(friendsList)
  }

  // ---------------------------------------------------------------------
  // Properties of the relation

  /**
   * A request is stored on the sender's side only: the target's record, and
   * every other record but the sender's, is as before.
   */
  lemma RequestStaysWithSender(records: map<Id, FriendRecord>, users: seq<Id>, caller: Id,
                               userId: Option<string>, v: Id)
    requires v != caller
    ensures var after := Send(records, users, caller, userId).1;
      v in after <==> v in records
    ensures v in records ==> Send(records, users, caller, userId).1[v] == records[v]
  {
  }

  /**
   * So a request never reaches its target: after `a` asks `b`, `b` accepting
   * `a` is refused unless `b` had itself asked `a` before.
   */
  lemma TargetCannotAccept(records: map<Id, FriendRecord>, users: seq<Id>, a: Id, b: Id)
    requires a != b && a != ""
    requires a !in RecordOf(records, b).pendingRequests
    ensures var afterSend := Send(records, users, a, Some(b)).1;
      Accept(afterSend, b, Some(a)).0 == Err(NO_PENDING)
  {
    RequestStaysWithSender(records, users, a, Some(b), b);
  }

  /** An accepted request leaves each of the two users on the other's friends list and off the pending list. */
  lemma AcceptIsMutual(records: map<Id, FriendRecord>, caller: Id, u: Id)
    requires u != caller && u != ""
    requires u in RecordOf(records, caller).pendingRequests
    ensures var (r, after) := Accept(records, caller, Some(u));
      && r.Ok?
      && u in after[caller].friends && u !in after[caller].pendingRequests
      && caller in after[u].friends && caller !in after[u].pendingRequests
      && after[caller].blockedUsers == RecordOf(records, caller).blockedUsers
      && after[u].blockedUsers == RecordOf(records, u).blockedUsers
  {
  }

  /** accept pushes without checking: a user already on the friends list is listed once more. */
  lemma AcceptDuplicatesFriend(records: map<Id, FriendRecord>, caller: Id, u: Id)
    requires u != caller && u != ""
    requires u in RecordOf(records, caller).pendingRequests && u in RecordOf(records, caller).friends
    ensures Count(Accept(records, caller, Some(u)).1[caller].friends, u) >= 2
  {
    assert Count(RecordOf(records, caller).friends, u) >= 1;
  }

  /** A refused accept has still saved both records. */
  lemma RefusedAcceptCreatesRecords(records: map<Id, FriendRecord>, caller: Id, u: Id)
    requires u !in RecordOf(records, caller).pendingRequests && u != ""
    ensures var (r, after) := Accept(records, caller, Some(u));
      r == Err(NO_PENDING) && caller in after && u in after
  {
  }

  /** Under the no-self-request invariant nobody can accept themselves. */
  lemma SelfAcceptRefused(records: map<Id, FriendRecord>, caller: Id)
    requires NoSelfRequests(records) && caller != ""
    ensures Accept(records, caller, Some(caller)).0 == Err(NO_PENDING)
  {
  }

  /** Blocking twice is blocking once. */
  lemma BlockIdempotent(rec: FriendRecord, u: Id)
    ensures BlockIn(BlockIn(rec, u), u) == BlockIn(rec, u)
  {
    var once := BlockIn(rec, u);
    PullAbsent(once.pendingRequests, u);
    PullAbsent(once.friends, u);
  }

  /** Unblocking right after a block makes `u` a friend, not blocked and not pending. */
  lemma BlockThenUnblock(records: map<Id, FriendRecord>, caller: Id, u: Id)
    requires u != ""
    ensures var afterBlock := Block(records, caller, Some(u)).1;
      var (r, after) := Unblock(afterBlock, caller, Some(u));
      && r.Ok?
      && u in after[caller].friends && Count(after[caller].friends, u) == 1
      && u !in after[caller].blockedUsers && u !in after[caller].pendingRequests
  {
  }

  /** A blocked friend is hidden by get-all-friends even though it may stay in the caller's list. */
  lemma BlockedFriendHidden(records: map<Id, FriendRecord>, users: seq<Id>, caller: Id, u: Id)
    requires caller in records && u in records[caller].blockedUsers
    ensures var r := AllFriends(records, users, caller);
      r.Ok? ==> u !in r.value
  {
  }

  /** Blocked users never appear in allUsers, nor does the caller. */
  lemma AllUsersHidesBlocked(records: map<Id, FriendRecord>, users: seq<Id>, caller: Id, u: Id)
    requires caller in records && (u == caller || u in records[caller].blockedUsers)
    ensures var r := AllUsers(records, users, caller);
      r.Ok? ==> u !in r.value
  {
  }

  lemma SendKeepsNoSelfRequests(records: map<Id, FriendRecord>, users: seq<Id>, caller: Id, userId: Option<string>)
    requires NoSelfRequests(records)
    ensures NoSelfRequests(Send(records, users, caller, userId).1)
  {
  }

  lemma AcceptKeepsNoSelfRequests(records: map<Id, FriendRecord>, caller: Id, userId: Option<string>)
    requires NoSelfRequests(records)
    ensures NoSelfRequests(Accept(records, caller, userId).1)
  {
    if Truthy(userId) {
      var u := userId.value;
      var loaded := Ensure(Ensure(records, caller), u);
      assert NoSelfRequests(loaded);
      var mine, theirs := loaded[caller], loaded[u];
      if u in mine.pendingRequests {
        assert u != caller;
        var after := loaded[caller := Befriend(mine, u)][u := Befriend(theirs, caller)];
        assert Accept(records, caller, userId).1 == after;
        forall v | v in after
          ensures v !in after[v].pendingRequests
        {
          if v == caller {
            assert caller !in mine.pendingRequests;
          } else if v == u {
            assert u !in theirs.pendingRequests;
          }
        }
      }
    }
  }

  lemma BlockKeepsNoSelfRequests(records: map<Id, FriendRecord>, caller: Id, userId: Option<string>)
    requires NoSelfRequests(records)
    ensures NoSelfRequests(Block(records, caller, userId).1)
  {
  }

  lemma UnblockKeepsNoSelfRequests(records: map<Id, FriendRecord>, caller: Id, userId: Option<string>)
    requires NoSelfRequests(records)
    ensures NoSelfRequests(Unblock(records, caller, userId).1)
  {
  }

  // ---------------------------------------------------------------------
  // The collection the handlers mutate

  class FriendStore {
    /** The Friend collection, by `user`. */
    var records: map<Id, FriendRecord>

    ghost predicate Valid()
      reads this
    {
      NoSelfRequests(records)
    }

    constructor()
      ensures Valid() && records == map[]
    {
      records := map[];
    }

    /** POST /send-request: find or build the caller's record, refuse a repeat, push and save. */
    method SendRequest(caller: Id, userId: Option<string>, users: seq<Id>) returns (r: Reply)
      requires Valid()
      modifies this
      ensures Valid()
      ensures (r, records) == Send(old(records), users, caller, userId)
    {
      SendKeepsNoSelfRequests(records, users, caller, userId);
      if !Truthy(userId) {
        return Err(USER_ID_REQUIRED);
      }
      var target := userId.value;
      if caller == target {
        return Err(SELF_REQUEST);
      }
      if target !in users {
        return Err(TARGET_NOT_FOUND);
      }
      var friendRecord := if caller in records then records[caller] else EMPTY;
      if target in friendRecord.pendingRequests {
        return Err(ALREADY_SENT);
      }
      friendRecord := friendRecord.(pendingRequests := friendRecord.pendingRequests + [target]);
      records := records[caller := friendRecord];
      r := Ok(());
    }

    /**
     * POST /accept-request: find or create (and save) both records, check the
     * caller's own pending list, then update and save the caller's copy and
     * the target's copy in turn.
     */
    method AcceptRequest(caller: Id, userId: Option<string>) returns (r: Reply)
      requires Valid()
      modifies this
      ensures Valid()
      ensures (r, records) == Accept(old(records), caller, userId)
    {
      AcceptKeepsNoSelfRequests(records, caller, userId);
      if !Truthy(userId) {
        return Err(USER_ID_REQUIRED);
      }
      var u := userId.value;
      if caller !in records {
        records := records[caller := EMPTY];
      }
      var currentUserRecord := records[caller];
      if u !in records {
        records := records[u := EMPTY];
      }
      var targetUserRecord := records[u];
      if u !in currentUserRecord.pendingRequests {
        return Err(NO_PENDING);
      }
      currentUserRecord := currentUserRecord.(pendingRequests := Pull(currentUserRecord.pendingRequests, u));
      currentUserRecord := currentUserRecord.(friends := currentUserRecord.friends + [u]);
      records := records[caller := currentUserRecord];
      targetUserRecord := targetUserRecord.(pendingRequests := Pull(targetUserRecord.pendingRequests, caller));
      targetUserRecord := targetUserRecord.(friends := targetUserRecord.friends + [caller]);
      records := records[u := targetUserRecord];
      r := Ok(());
    }

    /** POST /block-friend: block once, pull from friends and pending, save. */
    method BlockFriend(caller: Id, userId: Option<string>) returns (r: Reply)
      requires Valid()
      modifies this
      ensures Valid()
      ensures (r, records) == Block(old(records), caller, userId)
    {
      BlockKeepsNoSelfRequests(records, caller, userId);
      if !Truthy(userId) {
        return Err(USER_ID_REQUIRED);
      }
      var u := userId.value;
      var currentUserRecord := if caller in records then records[caller] else EMPTY;
      if u !in currentUserRecord.blockedUsers {
        currentUserRecord := currentUserRecord.(blockedUsers := currentUserRecord.blockedUsers + [u]);
      }
      currentUserRecord := currentUserRecord.(friends := Pull(currentUserRecord.friends, u));
      currentUserRecord := currentUserRecord.(pendingRequests := Pull(currentUserRecord.pendingRequests, u));
      records := records[caller := currentUserRecord];
      r := Ok(());
    }

    /** POST /unblock-friend: pull from blocked, befriend once, pull from pending, save. */
    method UnblockFriend(caller: Id, userId: Option<string>) returns (r: Reply)
      requires Valid()
      modifies this
      ensures Valid()
      ensures (r, records) == Unblock(old(records), caller, userId)
    {
      UnblockKeepsNoSelfRequests(records, caller, userId);
      if !Truthy(userId) {
        return Err(USER_ID_REQUIRED);
      }
      var u := userId.value;
      if caller !in records {
        return Err(RECORD_NOT_FOUND);
      }
      var currentUserRecord := records[caller];
      if u !in currentUserRecord.blockedUsers {
        return Err(NOT_BLOCKED);
      }
      currentUserRecord := currentUserRecord.(blockedUsers := Pull(currentUserRecord.blockedUsers, u));
      if u !in currentUserRecord.friends {
        currentUserRecord := currentUserRecord.(friends := currentUserRecord.friends + [u]);
      }
      currentUserRecord := currentUserRecord.(pendingRequests := Pull(currentUserRecord.pendingRequests, u));
      records := records[caller := currentUserRecord];
      r := Ok(());
    }
  }
}
