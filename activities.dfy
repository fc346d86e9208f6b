/**
 * routes/activity.js: comments, likes, views and shares of a moment.
 *
 * The Activity collection is `activities`, in insertion order. Each stored
 * activity is announced by one call of `broadcast` from utils/broadcast.js;
 * the calls are recorded in `broadcasts`. The Moment collection is read
 * only, as the `moments` parameter. The caller is the user the auth
 * middleware resolved; the clock and the new document's id are parameters.
 */
module Activities {
  import opened Common
  import Moments

  datatype Kind = Like | Share | Comment | View

  datatype Activity = Activity(
    id: Id,
    userId: Id,
    momentId: Id,
    kind: Kind,
    comment: Option<string>,
    commentImage: Option<string>,
    timestamp: int)

  /** The `type` of a broadcast message. */
  datatype Tag = NewComment | NewLike | NewView | NewShare

  /** `broadcast({type, data})`. */
  datatype Event = Event(tag: Tag, data: Activity)

  /** The folder comment images are stored in. */
  const COMMENT_IMAGES := "comment-images"

  const MOMENT_ID_REQUIRED := HttpError(400, "Moment ID is required")
  const MOMENT_NOT_FOUND := HttpError(404, "Moment not found")
  const ALREADY_LIKED := HttpError(400, "You have already liked this moment")

  /** The tag each kind of activity is announced with. */
  function TagOf(k: Kind): (t: Tag)
    ensures k == Comment <==> t == NewComment
    ensures k == Like <==> t == NewLike
    ensures k == View <==> t == NewView
    ensures k == Share <==> t == NewShare
  {
    match k
    case Comment => NewComment
    case Like => NewLike
    case View => NewView
    case Share => NewShare
  }

  /** The `validateMomentId` middleware: a falsy `momentId` is refused before any lookup. */
  function ValidateMomentId(momentId: Option<string>): (r: Option<HttpError>)
    ensures r.Some? <==> !Truthy(momentId)
    ensures r.Some? ==> r.value == MOMENT_ID_REQUIRED
  {
    if !Truthy(momentId) then Some(MOMENT_ID_REQUIRED) else None
  }

  /** `Moment.findById(momentId)` finds a moment; an absent id finds none. */
  predicate MomentExists(moments: seq<Moments.Moment>, momentId: Option<string>)
  {
    momentId.Some? && Moments.Find(moments, momentId.value).Some?
  }

  /** `Activity.findOne({userId, momentId, type: 'like'})` finds a document. */
  predicate HasLiked(activities: seq<Activity>, userId: Id, momentId: Id)
  {
    exists a :: a in activities && a.kind == Like && a.userId == userId && a.momentId == momentId
  }

  /** No user likes the same moment twice. */
  predicate AtMostOneLike(activities: seq<Activity>)
  {
    forall i, j :: 0 <= i < j < |activities| && activities[i].kind == Like && activities[j].kind == Like ==>
      activities[i].userId != activities[j].userId || activities[i].momentId != activities[j].momentId
  }

  /**
   * POST /activity/comment: no `validateMomentId`, so a missing id is simply a
   * moment not found. The comment text and the image URL are null when absent.
   */
  function CommentOn(moments: seq<Moments.Moment>, caller: Id, momentId: Option<string>, comment: Option<string>,
                     filename: Option<string>, protocol: string, host: string, newId: Id, now: int)
    : (r: Result<Activity, HttpError>)
    ensures r.Ok? <==> MomentExists(moments, momentId)
    ensures r.Err? ==> r.error == MOMENT_NOT_FOUND
    ensures r.Ok? ==>
      && r.value.kind == Comment && r.value.userId == caller && r.value.momentId == momentId.value
      && r.value.id == newId && r.value.timestamp == now
      && r.value.comment == (if Truthy(comment) then comment else None)
      && (filename.None? <==> r.value.commentImage.None?)
      && (filename.Some? ==> r.value.commentImage == Some(UploadUrl(protocol, host, COMMENT_IMAGES, filename.value)))
  {
    if !MomentExists(moments, momentId) then Err(MOMENT_NOT_FOUND)
    else
      var image := match filename
        case None => None
        case Some(name) => Some(UploadUrl(protocol, host, COMMENT_IMAGES, name));
      Ok(Activity(newId, caller, momentId.value, Comment, Or(comment, None), image, now))
  }

  /** POST /activity/like: at most one like per user and moment. */
  function LikeOn(moments: seq<Moments.Moment>, activities: seq<Activity>, caller: Id, momentId: Option<string>,
                  newId: Id, now: int): (r: Result<Activity, HttpError>)
    ensures !Truthy(momentId) ==> r == Err(MOMENT_ID_REQUIRED)
    ensures Truthy(momentId) && !MomentExists(moments, momentId) ==> r == Err(MOMENT_NOT_FOUND)
    ensures r.Ok? <==> Truthy(momentId) && MomentExists(moments, momentId) && !HasLiked(activities, caller, momentId.value)
    ensures Truthy(momentId) && MomentExists(moments, momentId) && HasLiked(activities, caller, momentId.value) ==>
      r == Err(ALREADY_LIKED)
    ensures r.Ok? ==> r.value == Activity(newId, caller, momentId.value, Like, None, None, now)
  {
    match ValidateMomentId(momentId)
    case Some(e) => Err(e)
    case None =>
      if !MomentExists(moments, momentId) then Err(MOMENT_NOT_FOUND)
      else if HasLiked(activities, caller, momentId.value) then Err(ALREADY_LIKED)
      else Ok(Activity(newId, caller, momentId.value, Like, None, None, now))
  }

  /** POST /activity/view and /activity/share: validated, looked up, recorded every time. */
  function VisitOn(kind: Kind, moments: seq<Moments.Moment>, caller: Id, momentId: Option<string>,
                   newId: Id, now: int): (r: Result<Activity, HttpError>)
    ensures !Truthy(momentId) ==> r == Err(MOMENT_ID_REQUIRED)
    ensures r.Ok? <==> Truthy(momentId) && MomentExists(moments, momentId)
    ensures r.Err? && Truthy(momentId) ==> r.error == MOMENT_NOT_FOUND
    ensures r.Ok? ==> r.value == Activity(newId, caller, momentId.value, kind, None, None, now)
  {
    match ValidateMomentId(momentId)
    case Some(e) => Err(e)
    case None =>
      if !MomentExists(moments, momentId) then Err(MOMENT_NOT_FOUND)
      else Ok(Activity(newId, caller, momentId.value, kind, None, None, now))
  }

  // ---------------------------------------------------------------------
  // Properties

  /** A missing momentId: 400 from like, view and share before any lookup, but 404 from comment. */
  lemma MissingMomentId(moments: seq<Moments.Moment>, activities: seq<Activity>, caller: Id,
                        comment: Option<string>, filename: Option<string>, protocol: string, host: string,
                        newId: Id, now: int)
    ensures LikeOn(moments, activities, caller, None, newId, now) == Err(MOMENT_ID_REQUIRED)
    ensures VisitOn(View, moments, caller, None, newId, now) == Err(MOMENT_ID_REQUIRED)
    ensures VisitOn(Share, moments, caller, None, newId, now) == Err(MOMENT_ID_REQUIRED)
    ensures CommentOn(moments, caller, None, comment, filename, protocol, host, newId, now) == Err(MOMENT_NOT_FOUND)
  {
  }

  /** A second like of the same moment by the same user is refused. */
  lemma SecondLikeRefused(moments: seq<Moments.Moment>, activities: seq<Activity>, caller: Id, momentId: Option<string>,
                          newId: Id, laterId: Id, now: int, later: int)
    requires LikeOn(moments, activities, caller, momentId, newId, now).Ok?
    ensures var liked := activities + [LikeOn(moments, activities, caller, momentId, newId, now).value];
      LikeOn(moments, liked, caller, momentId, laterId, later) == Err(ALREADY_LIKED)
  {
    var a := LikeOn(moments, activities, caller, momentId, newId, now).value;
    assert a in activities + [a];
  }

  /** Views are not de-duplicated: viewing twice stores two records. */
  lemma ViewsAccumulate(moments: seq<Moments.Moment>, activities: seq<Activity>, caller: Id, momentId: string,
                        id1: Id, id2: Id, now: int, later: int)
    requires momentId != "" && Moments.Find(moments, momentId).Some?
    ensures var first := VisitOn(View, moments, caller, Some(momentId), id1, now);
      var second := VisitOn(View, moments, caller, Some(momentId), id2, later);
      first.Ok? && second.Ok? && first.value.userId == second.value.userId
      && first.value.momentId == second.value.momentId
  {
  }

  /** Appending an activity keeps at most one like per pair when it is not a repeated like. */
  lemma AppendKeepsAtMostOneLike(activities: seq<Activity>, a: Activity)
    requires AtMostOneLike(activities)
    requires a.kind == Like ==> !HasLiked(activities, a.userId, a.momentId)
    ensures AtMostOneLike(activities + [a])
  {
    var s := activities + [a];
    forall i, j | 0 <= i < j < |s| && s[i].kind == Like && s[j].kind == Like
      ensures s[i].userId != s[j].userId || s[i].momentId != s[j].momentId
    {
      if j == |activities| {
        assert s[i] in activities;
      } else {
        assert s[i] == activities[i] && s[j] == activities[j];
      }
    }
  }

  // ---------------------------------------------------------------------
  // The collection the handlers append to

  class ActivityLog {
    /** The Activity collection, in insertion order. */
    var activities: seq<Activity>
    /** The messages handed to `broadcast`, in order. */
    var broadcasts: seq<Event>

    ghost predicate Valid()
      reads this
    {
      AtMostOneLike(activities)
    }

    constructor()
      ensures Valid() && activities == [] && broadcasts == []
    {
      activities := [];
      broadcasts := [];
    }

    /** Save the activity, then broadcast it once under its kind's tag. */
    method Record(a: Activity)
      requires Valid()
      requires a.kind == Like ==> !HasLiked(activities, a.userId, a.momentId)
      modifies this
      ensures Valid()
      ensures activities == old(activities) + [a]
      ensures broadcasts == old(broadcasts) + [Event(TagOf(a.kind), a)]
    {
      AppendKeepsAtMostOneLike(activities, a);
      activities := activities + [a];
      broadcasts := broadcasts + [Event(TagOf(a.kind), a)];
    }

    /** POST /activity/comment. */
    method AddComment(moments: seq<Moments.Moment>, caller: Id, momentId: Option<string>, comment: Option<string>,
                      filename: Option<string>, protocol: string, host: string, newId: Id, now: int)
      returns (r: Result<Activity, HttpError>)
      requires Valid()
      modifies this
      ensures Valid()
      ensures r == CommentOn(moments, caller, momentId, comment, filename, protocol, host, newId, now)
      ensures activities == if r.Ok? then old(activities) + [r.value] else old(activities)
      ensures broadcasts == if r.Ok? then old(broadcasts) + [Event(NewComment, r.value)] else old(broadcasts)
    {
      if momentId.None? || Moments.Find(moments, momentId.value).None? {
        return Err(MOMENT_NOT_FOUND);
      }
      var commentImage := None;
      if filename.Some? {
        commentImage := Some(UploadUrl(protocol, host, COMMENT_IMAGES, filename.value));
      }
      var activity := Activity(newId, caller, momentId.value, Comment, Or(comment, None), commentImage, now);
      Record(activity);
      r := Ok(activity);
    }

    /** POST /activity/like. */
    method AddLike(moments: seq<Moments.Moment>, caller: Id, momentId: Option<string>, newId: Id, now: int)
      returns (r: Result<Activity, HttpError>)
      requires Valid()
      modifies this
      ensures Valid()
      ensures r == LikeOn(moments, old(activities), caller, momentId, newId, now)
      ensures activities == if r.Ok? then old(activities) + [r.value] else old(activities)
      ensures broadcasts == if r.Ok? then old(broadcasts) + [Event(NewLike, r.value)] else old(broadcasts)
    {
      var invalid := ValidateMomentId(momentId);
      if invalid.Some? {
        return Err(invalid.value);
      }
      if Moments.Find(moments, momentId.value).None? {
        return Err(MOMENT_NOT_FOUND);
      }
      if HasLiked(activities, caller, momentId.value) {
        return Err(ALREADY_LIKED);
      }
      var likeActivity := Activity(newId, caller, momentId.value, Like, None, None, now);
      Record(likeActivity);
      r := Ok(likeActivity);
    }

    /** POST /activity/view (`kind` View) and POST /activity/share (`kind` Share). */
    method AddVisit(kind: Kind, moments: seq<Moments.Moment>, caller: Id, momentId: Option<string>, newId: Id, now: int)
      returns (r: Result<Activity, HttpError>)
      requires Valid() && (kind == View || kind == Share)
      modifies this
      ensures Valid()
      ensures r == VisitOn(kind, moments, caller, momentId, newId, now)
      ensures activities == if r.Ok? then old(activities) + [r.value] else old(activities)
      ensures broadcasts == if r.Ok? then old(broadcasts) + [Event(TagOf(kind), r.value)] else old(broadcasts)
    {
      var invalid := ValidateMomentId(momentId);
      if invalid.Some? {
        return Err(invalid.value);
      }
      if Moments.Find(moments, momentId.value).None? {
        return Err(MOMENT_NOT_FOUND);
      }
      var activity := Activity(newId, caller, momentId.value, kind, None, None, now);
      Record(activity);
      r := Ok(activity);
    }
  }
}
