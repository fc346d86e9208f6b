/**
 * routes/moments.js: uploading a moment (an image post), listing all moments,
 * deleting one's own moment and listing one's own moments.
 *
 * The Moment collection is `moments`, in insertion order, so `find` returns
 * documents in that order. The uploaded file is the name the disk storage
 * gave it; the clock and the new document's id are parameters.
 */
module Moments {
  import opened Common

  datatype Moment = Moment(
    id: Id,
    userId: Id,
    title: Option<string>,
    description: Option<string>,
    location: Option<string>,
    momentImage: string,
    date: int)

  /** The user details `populate('userId', 'name userName email profileImageUrl')` attaches. */
  datatype Owner = Owner(name: string, userName: Option<string>, email: string, profileImageUrl: Option<string>)

  /** A moment as GET /moments answers it: its owner's details, or null when the owner is gone. */
  datatype Listed = Listed(moment: Moment, owner: Option<Owner>)

  type Reply = Result<(), HttpError>

  /** The folder moment images are stored in. */
  const MOMENT_IMAGES := "moments-images"

  const IMAGE_REQUIRED := HttpError(400, "Moment image is required")
  const MOMENT_NOT_FOUND := HttpError(404, "Moment not found")
  const NOT_OWNER := HttpError(403, "You are not authorized to delete this moment")

  function MomentIdOf(m: Moment): Id { m.id }

  /** `Moment.findById(id)`. */
  function Find(moments: seq<Moment>, id: Id): Option<nat>
  {
    PositionOf(moments, MomentIdOf, id)
  }

  /** Every moment has its own ObjectId. */
  predicate UniqueIds(moments: seq<Moment>)
  {
    forall i, j :: 0 <= i < j < |moments| ==> moments[i].id != moments[j].id
  }

  /**
   * POST /upload-moment by `caller`: without a file, 400; otherwise the new
   * moment, with each falsy text field stored as null.
   */
  function Upload(caller: Id, title: Option<string>, description: Option<string>, location: Option<string>,
                  filename: Option<string>, protocol: string, host: string, newId: Id, now: int)
    : (r: Result<Moment, HttpError>)
    ensures r.Err? <==> filename.None?
    ensures r.Err? ==> r.error == IMAGE_REQUIRED
    ensures r.Ok? ==>
      && r.value.id == newId && r.value.userId == caller && r.value.date == now
      && r.value.title == (if Truthy(title) then title else None)
      && r.value.description == (if Truthy(description) then description else None)
      && r.value.location == (if Truthy(location) then location else None)
      && r.value.momentImage == UploadUrl(protocol, host, MOMENT_IMAGES, filename.value)
  {
    match filename
    case None => Err(IMAGE_REQUIRED)
    case Some(name) =>
      Ok(Moment(newId, caller, Or(title, None), Or(description, None), Or(location, None),
                UploadUrl(protocol, host, MOMENT_IMAGES, name), now))
  }

  /** `Moment.findByIdAndDelete(id)`: the collection without that moment, the rest in order. */
  function Remove(moments: seq<Moment>, id: Id): (r: seq<Moment>)
    ensures forall m :: m in r <==> m in moments && m.id != id
    ensures forall m :: multiset(r)[m] == if m.id != id then multiset(moments)[m] else 0
    ensures |r| <= |moments|
  {
    if moments == [] then []
    else
      assert moments == [moments[0]] + moments[1..];
      if moments[0].id == id then Remove(moments[1..], id)
      else [moments[0]] + Remove(moments[1..], id)
  }

  /** DELETE /delete-moment/:id by `caller`: 404 for an unknown id, 403 for someone else's moment. */
  function Delete(moments: seq<Moment>, caller: Id, momentId: Id): (out: (Reply, seq<Moment>))
    ensures Find(moments, momentId).None? ==> out == (Err(MOMENT_NOT_FOUND), moments)
    ensures Find(moments, momentId).Some? && moments[Find(moments, momentId).value].userId != caller
      ==> out == (Err(NOT_OWNER), moments)
    ensures out.0.Ok? <==> Find(moments, momentId).Some? && moments[Find(moments, momentId).value].userId == caller
    ensures out.0.Ok? ==> out.1 == Remove(moments, momentId)
  {
    match Find(moments, momentId)
    case None => (Err(MOMENT_NOT_FOUND), moments)
    case Some(i) =>
      if moments[i].userId != caller then (Err(NOT_OWNER), moments)
      else (Ok(()), Remove(moments, momentId))
  }

  /** GET /my-moments: the caller's moments, in collection order. */
  function MyMoments(moments: seq<Moment>, caller: Id): (r: seq<Moment>)
    ensures forall m :: m in r <==> m in moments && m.userId == caller
    ensures forall m :: multiset(r)[m] == if m.userId == caller then multiset(moments)[m] else 0
    ensures |r| <= |moments|
  {
    if moments == [] then []
    else
      assert moments == [moments[0]] + moments[1..];
      if moments[0].userId == caller then [moments[0]] + MyMoments(moments[1..], caller)
      else MyMoments(moments[1..], caller)
  }

  /**
   * GET /moments: every moment, in collection order, each with its owner's
   * details; it takes no caller, as the route has no auth middleware.
   */
  function AllMoments(moments: seq<Moment>, owners: map<Id, Owner>): (r: seq<Listed>)
    ensures |r| == |moments|
    ensures forall i :: 0 <= i < |r| ==> r[i].moment == moments[i]
    ensures forall i :: 0 <= i < |r| ==>
      r[i].owner == if moments[i].userId in owners then Some(owners[moments[i].userId]) else None
  {
    if moments == [] then []
    else
      var m := moments[0];
      [Listed(m, if m.userId in owners then Some(owners[m.userId]) else None)] + AllMoments(moments[1..], owners)
  }

  // ---------------------------------------------------------------------
  // Properties

  /** Deleting removes exactly the one moment: every other moment is still listed, for its owner too. */
  lemma DeleteKeepsOthers(moments: seq<Moment>, caller: Id, momentId: Id, owner: Id)
    requires Delete(moments, caller, momentId).0.Ok?
    ensures var after := Delete(moments, caller, momentId).1;
      forall m :: m in MyMoments(moments, owner) && m.id != momentId ==> m in MyMoments(after, owner)
    ensures Find(Delete(moments, caller, momentId).1, momentId).None?
  {
  }

  /** my-moments and delete agree on ownership: a listed moment can be deleted by the caller. */
  lemma OwnMomentDeletable(moments: seq<Moment>, caller: Id, m: Moment)
    requires UniqueIds(moments)
    requires m in MyMoments(moments, caller)
    ensures Delete(moments, caller, m.id).0.Ok?
  {
    var k :| 0 <= k < |moments| && moments[k] == m;
    var i := Find(moments, m.id).value;
    assert i == k;
  }

  /** An upload lands in the uploader's own listing. */
  lemma UploadListedAsMine(moments: seq<Moment>, caller: Id, title: Option<string>, description: Option<string>,
                           location: Option<string>, filename: string, protocol: string, host: string,
                           newId: Id, now: int)
    ensures var r := Upload(caller, title, description, location, Some(filename), protocol, host, newId, now);
      r.Ok? && r.value in MyMoments(moments + [r.value], caller)
  {
    var m := Upload(caller, title, description, location, Some(filename), protocol, host, newId, now).value;
    assert (moments + [m])[|moments|] == m;
  }

  lemma {:induction false} RemoveKeepsUniqueIds(moments: seq<Moment>, id: Id)
    requires UniqueIds(moments)
    ensures UniqueIds(Remove(moments, id))
    decreases |moments|
  {
    if moments != [] {
      RemoveKeepsUniqueIds(moments[1..], id);
      var rest := Remove(moments[1..], id);
      if moments[0].id != id {
        forall i, j | 0 <= i < j < |[moments[0]] + rest|
          ensures ([moments[0]] + rest)[i].id != ([moments[0]] + rest)[j].id
        {
          if i == 0 {
            assert ([moments[0]] + rest)[j] in moments[1..];
          }
        }
      }
    }
  }

  // ---------------------------------------------------------------------
  // The collection the handlers mutate

  class MomentStore {
    /** The Moment collection, in insertion order. */
    var moments: seq<Moment>

    ghost predicate Valid()
      reads this
    {
      UniqueIds(moments)
    }

    constructor()
      ensures Valid() && moments == []
    {
      moments := [];
    }

    /** POST /upload-moment: refuse a request without a file, otherwise build and save the moment. */
    method UploadMoment(caller: Id, title: Option<string>, description: Option<string>, location: Option<string>,
                        filename: Option<string>, protocol: string, host: string, newId: Id, now: int)
      returns (r: Result<Moment, HttpError>)
      requires Valid() && Find(moments, newId).None?
      modifies this
      ensures Valid()
      ensures r == Upload(caller, title, description, location, filename, protocol, host, newId, now)
      ensures moments == if r.Ok? then old(moments) + [r.value] else old(moments)
    {
      if filename.None? {
        return Err(IMAGE_REQUIRED);
      }
      var moment := Moment(newId, caller, Or(title, None), Or(description, None), Or(location, None),
                           UploadUrl(protocol, host, MOMENT_IMAGES, filename.value), now);
      moments := moments + [moment];
      r := Ok(moment);
    }

    /** DELETE /delete-moment/:id: find, check the owner, delete. */
    method DeleteMoment(caller: Id, momentId: Id) returns (r: Reply)
      requires Valid()
      modifies this
      ensures Valid()
      ensures (r, moments) == Delete(old(moments), caller, momentId)
    {
      var found := Find(moments, momentId);
      if found.None? {
        return Err(MOMENT_NOT_FOUND);
      }
      if moments[found.value].userId != caller {
        return Err(NOT_OWNER);
      }
      RemoveKeepsUniqueIds(moments, momentId);
      moments := Remove(moments, momentId);
      r := Ok(());
    }
  }
}
