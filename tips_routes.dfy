/** The /community-tips routes: the listing with each author's name joined
    in, creating a tip, and liking one. */
module TipRoutes {
  import opened Base
  import opened Seqs
  import opened Entities
  import opened TipModel
  import opened Store

  /** What `populate('user_id', 'full_name')` leaves in a tip's `user_id`:
      the author's id and name. */
  datatype Author = Author(id: Id, fullName: Option<string>)

  /** A tip as the listing sends it; `author` is `null` when no user has
      the tip's `user_id`. */
  datatype TipView = TipView(
    id: Id,
    title: string,
    description: string,
    category: string,
    author: Option<Author>,
    likes: Option<int>,
    createdAt: nat,
    updatedAt: nat)

  function TipViewCreated(v: TipView): int { v.createdAt }

  /** The author of a tip, looked up among the users. */
  function AuthorOf(users: seq<User>, owner: Id): (r: Option<Author>)
    ensures r.Some? ==>
              r.value.id == owner && exists u :: u in users && u.id == owner && u.fullName == r.value.fullName
    ensures r.None? ==> forall u :: u in users ==> u.id != owner
  {
    match FindUser(users, owner)
    case Some(k) => Some(Author(owner, users[k].fullName))
    case None => None
  }

  /** A stored tip with its author joined in. */
  function Joined(t: CommunityTip, users: seq<User>): TipView
  {
    TipView(t.id, t.title, t.description, t.category, AuthorOf(users, t.owner), t.likes, t.createdAt, t.updatedAt)
  }

  function TipViews(tips: seq<CommunityTip>, users: seq<User>): seq<TipView>
  {
    var newest := NewestFirst(tips);
    seq(|newest|, i requires 0 <= i < |newest| => Joined(newest[i], users))
  }

  /** The listing has one view per stored tip, strictly newest first. */
  lemma TipViewsCorrect(tips: seq<CommunityTip>, users: seq<User>, next: nat)
    requires Chronological(tips, TipId, TipCreated, next)
    ensures |TipViews(tips, users)| == |tips|
    ensures forall v :: v in TipViews(tips, users) <==> exists t :: t in tips && v == Joined(t, users)
    ensures StrictlyDecreasing(TipViews(tips, users), TipViewCreated)
  {
    var newest := NewestFirst(tips);
    var views := TipViews(tips, users);
    NewestFirstIsSorted(tips, TipId, TipCreated, next);
    forall v ensures v in views <==> exists t :: t in tips && v == Joined(t, users) {
      if v in views {
        var k :| 0 <= k < |views| && views[k] == v;
        assert newest[k] in multiset(tips);
      }
      if exists t :: t in tips && v == Joined(t, users) {
        var t :| t in tips && v == Joined(t, users);
        assert t in multiset(newest);
        var k :| 0 <= k < |newest| && newest[k] == t;
        assert views[k] == v;
      }
    }
  }

  /** GET /: every tip, newest first, with its author's name. */
  method ListTips(db: Database) returns (res: Response<seq<TipView>>)
    requires db.Valid()
    ensures res.status == 200 && res.body.Json?
    ensures |res.body.value| == |db.tips|
    ensures forall v :: v in res.body.value <==> exists t :: t in db.tips && v == Joined(t, db.users)
    ensures StrictlyDecreasing(res.body.value, TipViewCreated)
  {
    TipViewsCorrect(db.tips, db.users, db.clock);
    res := Response(200, Json(TipViews(db.tips, db.users)));
  }

  /** POST /: the body's fields with `user_id` replaced by the caller. A
      document the schema rejects is a 500 and nothing is stored. */
  method CreateTip(db: Database, caller: Id, body: TipDoc) returns (res: Response<CommunityTip>)
    requires db.Valid()
    modifies db`tips, db`clock
    ensures db.Valid()
    ensures match NewTip(body.(userId := Some(caller)), old(db.clock), old(db.clock))
            case Created(t) =>
              && db.tips == old(db.tips) + [t] && db.clock == old(db.clock) + 1
              && res == Response(201, Json(t))
            case Rejected(errors) =>
              && db.tips == old(db.tips) && db.clock == old(db.clock)
              && res == Response(500, Invalid(errors))
    ensures res.status == 201 ==> res.body.Json? && res.body.value.owner == caller
  {
    match NewTip(body.(userId := Some(caller)), db.clock, db.clock)
    case Created(t) =>
      ChronologicalAppend(db.tips, TipId, TipCreated, db.clock, t);
      db.tips := db.tips + [t];
      db.clock := db.clock + 1;
      res := Response(201, Json(t));
    case Rejected(errors) =>
      res := Response(500, Invalid(errors));
  }

  /** One like saved at time `now`; a `null` count becomes 1. */
  function Liked(t: CommunityTip, now: nat): CommunityTip
  {
    t.(likes := Some(LikeCount(t.likes) + 1), updatedAt := now)
  }

  /** `n` likes in a row, saved at times `now`, `now + 1`, ... */
  function LikedTimes(t: CommunityTip, n: nat, now: nat): CommunityTip
    decreases n
  {
    if n == 0 then t else LikedTimes(Liked(t, now), n - 1, now + 1)
  }

  /** Likes are counted, not toggled: `n` likes add `n`, whoever sends them,
      and change nothing but the counter and the update time. */
  lemma {:induction false} LikesAddUp(t: CommunityTip, n: nat, now: nat)
    ensures n > 0 ==> LikedTimes(t, n, now).likes == Some(LikeCount(t.likes) + n)
    ensures LikeCount(LikedTimes(t, n, now).likes) == LikeCount(t.likes) + n
    ensures LikedTimes(t, n, now) == t.(likes := LikedTimes(t, n, now).likes, updatedAt := LikedTimes(t, n, now).updatedAt)
    ensures n > 0 ==> LikedTimes(t, n, now).updatedAt == now + n - 1
    decreases n
  {
    if n > 0 {
      LikesAddUp(Liked(t, now), n - 1, now + 1);
    }
  }

  /** PUT /:id/like: one more like on the tip with that id; 404 when no tip
      has it. Any signed-in caller may like any tip, any number of times. */
  method LikeTip(db: Database, id: Id) returns (res: Response<CommunityTip>)
    requires db.Valid()
    modifies db`tips, db`clock
    ensures db.Valid()
    ensures match FindTip(old(db.tips), id)
            case Some(k) =>
              && db.tips == old(db.tips)[k := Liked(old(db.tips)[k], old(db.clock))]
              && db.clock == old(db.clock) + 1
              && res == Response(200, Json(db.tips[k]))
            case None =>
              && db.tips == old(db.tips) && db.clock == old(db.clock)
              && res == Response(404, Message("Tip not found"))
    ensures res.status == 200 ==>
              && res.body.Json? && res.body.value.id == id
              && exists t :: t in old(db.tips) && t.id == id && res.body.value.likes == Some(LikeCount(t.likes) + 1)
    ensures res.status == 404 <==> forall t :: t in old(db.tips) ==> t.id != id
  {
    match FindTip(db.tips, id)
    case Some(k) =>
      var t := Liked(db.tips[k], db.clock);
      ChronologicalUpdate(db.tips, TipId, TipCreated, db.clock, db.clock + 1, k, t);
      db.tips := db.tips[k := t];
      db.clock := db.clock + 1;
      res := Response(200, Json(t));
    case None =>
      res := Response(404, Message("Tip not found"));
  }
}
