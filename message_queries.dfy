/**
 * The Message collection queries routes/messenger.js issues, over the
 * collection as a map from ObjectId to record: the filters, `.sort(...)`,
 * the per-document decryption of the read routes, and the conditional
 * `updateMany` of PUT /messages/read.
 */
module MessageQueries {
  import opened Common
  import opened MessageModel
  import Cipher

  /** A record together with its `_id`, as a query returns it. */
  datatype Doc = Doc(id: Id, msg: Message)

  /**
   * The query filters:
   * Due          -- the sweep's `{scheduledAt: {$lte: now}, sent: false}`;
   * ScheduledFor -- `{recipient, $or: [scheduledAt <= now, scheduledAt null], sent: true}`;
   * NotLater     -- the conversation query, whose second `$or` key replaces the
   *                 sender/recipient pair, leaving `$or: [scheduledAt <= now, scheduledAt null]`.
   */
  datatype Filter = Due(now: int) | ScheduledFor(recipient: Id, now: int) | NotLater(now: int)

  /** `$lte` never matches null; `scheduledAt: null` matches only null. */
  predicate Matches(f: Filter, m: Message)
  {
    match f
    case Due(now) => m.scheduledAt.Some? && m.scheduledAt.value <= now && !m.sent
    case ScheduledFor(recipient, now) =>
      m.recipient == recipient && (m.scheduledAt.None? || m.scheduledAt.value <= now) && m.sent
    case NotLater(now) => m.scheduledAt.None? || m.scheduledAt.value <= now
  }

  /** The two sort orders used: `{scheduledAt: 1}` and `{createdAt: 1}`. */
  datatype SortKey = ByScheduledAt | ByCreatedAt

  /** Ascending order on the sort key; MongoDB puts null before every date. */
  predicate InOrder(a: Message, b: Message, k: SortKey)
  {
    match k
    case ByCreatedAt => a.createdAt <= b.createdAt
    case ByScheduledAt =>
      a.scheduledAt.None? || (b.scheduledAt.Some? && a.scheduledAt.value <= b.scheduledAt.value)
  }

  predicate Sorted(docs: seq<Doc>, k: SortKey)
  {
    forall i, j :: 0 <= i < j < |docs| ==> InOrder(docs[i].msg, docs[j].msg, k)
  }

  /** The documents of `ids`, read from the collection. */
  function Docs(store: map<Id, Message>, ids: seq<Id>): (docs: seq<Doc>)
    requires forall id :: id in ids ==> id in store
    ensures |docs| == |ids|
    ensures forall i :: 0 <= i < |ids| ==> docs[i] == Doc(ids[i], store[ids[i]])
  {
    seq(|ids|, i requires 0 <= i < |ids| => Doc(ids[i], store[ids[i]]))
  }

  /**
   * `find(filter)` without a sort: the ids of the matching records, each once.
   * The order is the collection's natural order, which the map does not fix.
   */
  method Select(store: map<Id, Message>, f: Filter) returns (ids: seq<Id>)
    ensures Distinct(ids)
    ensures forall id :: id in ids <==> id in store && Matches(f, store[id])
  {
    ids := [];
    var rest := store.Keys;
    while rest != {}
      invariant rest <= store.Keys
      invariant Distinct(ids)
      invariant forall id :: id in ids ==> id !in rest
      invariant forall id :: id in ids <==> id in store && id !in rest && Matches(f, store[id])
      decreases rest
    {
      var id :| id in rest;
      if Matches(f, store[id]) {
        ids := ids + [id];
      }
      rest := rest - {id};
    }
  }

  lemma InOrderTotal(a: Message, b: Message, k: SortKey)
    ensures InOrder(a, b, k) || InOrder(b, a, k)
  {
  }

  lemma InOrderTransitive(a: Message, b: Message, c: Message, k: SortKey)
    requires InOrder(a, b, k) && InOrder(b, c, k)
    ensures InOrder(a, c, k)
  {
  }

  /** Inserting before the first element not below `d`: exactly one element is added. */
  function Insert(d: Doc, docs: seq<Doc>, k: SortKey): (r: seq<Doc>)
    ensures multiset(r) == multiset(docs) + multiset{d}
    ensures |r| == |docs| + 1
  {
    if docs == [] then [d]
    else if InOrder(d.msg, docs[0].msg, k) then [d] + docs
    else
      assert docs == [docs[0]] + docs[1..];
      [docs[0]] + Insert(d, docs[1..], k)
  }

  /** A sorted sequence stays sorted under a new head that is in order with every element. */
  lemma ConsSorted(x: Doc, docs: seq<Doc>, k: SortKey)
    requires Sorted(docs, k)
    requires forall i :: 0 <= i < |docs| ==> InOrder(x.msg, docs[i].msg, k)
    ensures Sorted([x] + docs, k)
  {
    forall i, j | 0 <= i < j < |docs| + 1
      ensures InOrder(([x] + docs)[i].msg, ([x] + docs)[j].msg, k)
    {
      assert ([x] + docs)[j] == docs[j - 1];
      if i > 0 {
        assert ([x] + docs)[i] == docs[i - 1];
      }
    }
  }

  /** Every element of `Insert(d, docs)` is `d` or an element of `docs`. */
  lemma InsertElements(d: Doc, docs: seq<Doc>, k: SortKey, i: int)
    requires 0 <= i < |Insert(d, docs, k)|
    ensures Insert(d, docs, k)[i] == d || Insert(d, docs, k)[i] in docs
  {
    var r := Insert(d, docs, k);
    assert r[i] in multiset(r);
  }

  /** Inserting into a sorted sequence keeps it sorted. */
  lemma {:induction false} InsertKeepsSorted(d: Doc, docs: seq<Doc>, k: SortKey)
    requires Sorted(docs, k)
    ensures Sorted(Insert(d, docs, k), k)
  {
    if docs == [] {
    } else if InOrder(d.msg, docs[0].msg, k) {
      forall i | 0 <= i < |docs|
        ensures InOrder(d.msg, docs[i].msg, k)
      {
        if i > 0 {
          InOrderTransitive(d.msg, docs[0].msg, docs[i].msg, k);
        }
      }
      ConsSorted(d, docs, k);
    } else {
      var rest := docs[1..];
      var tail := Insert(d, rest, k);
      InsertKeepsSorted(d, rest, k);
      forall i | 0 <= i < |tail|
        ensures InOrder(docs[0].msg, tail[i].msg, k)
      {
        InsertElements(d, rest, k, i);
        if tail[i] == d {
          InOrderTotal(d.msg, docs[0].msg, k);
        }
      }
      ConsSorted(docs[0], tail, k);
    }
  }

  /** `.sort({key: 1})`: a sorted permutation of the query's documents. */
  method Sort(docs: seq<Doc>, k: SortKey) returns (r: seq<Doc>)
    ensures Sorted(r, k)
    ensures multiset(r) == multiset(docs)
  {
    r := [];
    for i := 0 to |docs|
      invariant Sorted(r, k)
      invariant multiset(r) == multiset(docs[..i])
    {
      assert docs[..i + 1] == docs[..i] + [docs[i]];
      InsertKeepsSorted(docs[i], r, k);
      r := Insert(docs[i], r, k);
    }
    assert docs[..|docs|] == docs;
  }

  lemma {:induction false} DistinctCount<T>(s: seq<T>, x: T)
    requires Distinct(s)
    ensures multiset(s)[x] <= 1
  {
    if s != [] {
      assert s == [s[0]] + s[1..];
      DistinctCount(s[1..], x);
      if s[0] == x {
        assert x !in s[1..];
      }
    }
  }

  lemma {:induction false} CountsDistinct<T>(t: seq<T>)
    requires forall x :: multiset(t)[x] <= 1
    ensures Distinct(t)
  {
    if t != [] {
      var rest := t[1..];
      assert t == [t[0]] + rest;
      forall x
        ensures multiset(rest)[x] <= 1
      {
        assert multiset(t)[x] == multiset([t[0]])[x] + multiset(rest)[x];
      }
      CountsDistinct(rest);
      assert multiset(t)[t[0]] == 1 + multiset(rest)[t[0]];
      assert t[0] !in rest;
      forall i, j | 0 <= i < j < |t|
        ensures t[i] != t[j]
      {
        if i > 0 {
          assert t[i] == rest[i - 1] && t[j] == rest[j - 1];
        } else {
          assert t[j] == rest[j - 1];
        }
      }
    }
  }

  /** A permutation of a sequence without repetitions has none either. */
  lemma PermutationDistinct<T>(s: seq<T>, t: seq<T>)
    requires Distinct(s) && multiset(s) == multiset(t)
    ensures Distinct(t)
  {
    forall x
      ensures multiset(t)[x] <= 1
    {
      DistinctCount(s, x);
    }
    CountsDistinct(t);
  }

  /**
   * `find(filter).sort({key: 1})`: exactly the matching records, each once,
   * in ascending key order.
   */
  method Query(store: map<Id, Message>, f: Filter, k: SortKey) returns (docs: seq<Doc>)
    ensures Sorted(docs, k)
    ensures forall i, j :: 0 <= i < j < |docs| ==> docs[i].id != docs[j].id
    ensures forall i :: 0 <= i < |docs| ==>
      docs[i].id in store && docs[i].msg == store[docs[i].id] && Matches(f, docs[i].msg)
    ensures forall id :: id in store && Matches(f, store[id]) ==> exists i :: 0 <= i < |docs| && docs[i].id == id
  {
    var ids := Select(store, f);
    var found := Docs(store, ids);
    docs := Sort(found, k);
    assert Distinct(found) by {
      forall i, j | 0 <= i < j < |found|
        ensures found[i] != found[j]
      {
        assert found[i].id == ids[i] && found[j].id == ids[j];
      }
    }
    PermutationDistinct(found, docs);
    forall i | 0 <= i < |docs|
      ensures docs[i].id in store && docs[i].msg == store[docs[i].id] && Matches(f, docs[i].msg)
    {
      assert docs[i] in multiset(found);
      var j :| 0 <= j < |found| && found[j] == docs[i];
      assert found[j] == Doc(ids[j], store[ids[j]]);
    }
    forall id | id in store && Matches(f, store[id])
      ensures exists i :: 0 <= i < |docs| && docs[i].id == id
    {
      var j :| 0 <= j < |ids| && ids[j] == id;
      assert found[j] in multiset(docs);
      var i :| 0 <= i < |docs| && docs[i] == found[j];
      assert docs[i].id == id;
    }
  }

  /** `msg.text = decryptMessage(msg.text, ...)` when the text is truthy; the thrown error otherwise. */
  function OpenText(p: Cipher.Primitives, m: Message): (r: Result<Message, string>)
    ensures r.Ok? ==> r.value == m.(text := r.value.text)
    ensures !Truthy(m.text) ==> r == Ok(m)
    ensures r.Err? ==> r.error == Cipher.DECRYPTION_FAILED
    ensures Truthy(m.text) ==> (r.Ok? <==> Cipher.DecryptMessage(p, m.text.value).Ok?)
    ensures Truthy(m.text) && r.Ok? ==> r.value.text == Some(Cipher.DecryptMessage(p, m.text.value).value)
  {
    if Truthy(m.text) then
      match Cipher.DecryptMessage(p, m.text.value)
      case Ok(plain) => Ok(m.(text := Some(plain)))
      case Err(e) => Err(e)
    else Ok(m)
  }

  /**
   * `messages.map(msg => { decrypt msg.text; return msg; })`: every document
   * decrypted in place; the first decryption that throws aborts the whole map.
   */
  function OpenAll(p: Cipher.Primitives, docs: seq<Doc>): (r: Result<seq<Doc>, string>)
    ensures r.Ok? <==> forall i :: 0 <= i < |docs| ==> OpenText(p, docs[i].msg).Ok?
    ensures r.Ok? ==> |r.value| == |docs|
    ensures r.Ok? ==> forall i :: 0 <= i < |docs| ==>
      r.value[i] == Doc(docs[i].id, OpenText(p, docs[i].msg).value)
  {
    if docs == [] then Ok([])
    else
      match OpenText(p, docs[0].msg)
      case Err(e) => Err(e)
      case Ok(m) =>
        match OpenAll(p, docs[1..])
        case Err(e) => Err(e)
        case Ok(rest) =>
          assert forall i :: 1 <= i < |docs| ==> docs[i] == docs[1..][i - 1];
          Ok([Doc(docs[0].id, m)] + rest)
  }

  /** The records the mark-read filter `{_id: {$in: ids}, recipient, read: false}` selects. */
  predicate MarkedByRead(store: map<Id, Message>, ids: seq<Id>, reader: Id, id: Id)
    requires id in store
  {
    id in ids && store[id].recipient == reader && store[id].read == Some(false)
  }

  /** `updateMany(filter, {$set: {read: true}})`: only selected records change, only in `read`. */
  function MarkRead(store: map<Id, Message>, ids: seq<Id>, reader: Id): (r: map<Id, Message>)
    ensures r.Keys == store.Keys
    ensures forall id :: id in store && !MarkedByRead(store, ids, reader, id) ==> r[id] == store[id]
    ensures forall id :: id in store && MarkedByRead(store, ids, reader, id) ==>
      r[id] == store[id].(read := Some(true))
  {
    map id | id in store :: if MarkedByRead(store, ids, reader, id) then store[id].(read := Some(true)) else store[id]
  }

  /** The update's modified count. */
  function ModifiedCount(store: map<Id, Message>, ids: seq<Id>, reader: Id): nat
  {
    |set id | id in store && MarkedByRead(store, ids, reader, id)|
  }

  /** No record the routes create carries a `read` field, and then mark-read is a no-op. */
  lemma MarkReadIsNoOpOnSchemaRecords(store: map<Id, Message>, ids: seq<Id>, reader: Id)
    requires forall id :: id in store ==> store[id].read.None?
    ensures MarkRead(store, ids, reader) == store
    ensures ModifiedCount(store, ids, reader) == 0
  {
    assert (set id | id in store && MarkedByRead(store, ids, reader, id)) == {};
  }

  /** Marking the same ids read twice changes nothing the second time. */
  lemma MarkReadIdempotent(store: map<Id, Message>, ids: seq<Id>, reader: Id)
    ensures MarkRead(MarkRead(store, ids, reader), ids, reader) == MarkRead(store, ids, reader)
  {
  }

  /** Every unscheduled message is in the conversation view, whoever its sender and recipient. */
  lemma ConversationIgnoresParticipants(m: Message, now: int)
    requires m.scheduledAt.None?
    ensures Matches(NotLater(now), m)
  {
  }
}
