/** The /opportunities routes: listing and creating opportunities, and a
    user's signups for them. Every handler that needs an identity receives
    the caller's id, which the token middleware resolved. */
module OpportunityRoutes {
  import opened Base
  import opened Seqs
  import opened Entities
  import opened SignupModel
  import opened Store

  /** What `populate('opportunity_id')` leaves in a signup's
      `opportunity_id`: the id itself when not populated, else the
      opportunity document, or `null` when no opportunity has that id. */
  datatype OpportunityRef = ById(id: Id) | Populated(doc: Option<Opportunity>)

  /** A signup as the signups listing sends it. */
  datatype SignupView = SignupView(
    id: Id,
    owner: Id,
    opportunity: OpportunityRef,
    status: SignupStatus,
    createdAt: nat,
    updatedAt: nat)

  function ViewCreated(v: SignupView): int { v.createdAt }

  /** The opportunity with the given id, if any. */
  function LookupOpportunity(opportunities: seq<Opportunity>, id: Id): (r: Option<Opportunity>)
    ensures r.Some? ==> r.value in opportunities && r.value.id == id
    ensures r.None? ==> forall o :: o in opportunities ==> o.id != id
  {
    var k := FindFirst(opportunities, (o: Opportunity) => o.id == id);
    if k.Some? then Some(opportunities[k.value]) else None
  }

  /** A stored signup with its opportunity joined in. */
  function Populate(s: VolunteerSignup, opportunities: seq<Opportunity>): SignupView
  {
    SignupView(s.id, s.owner, Populated(LookupOpportunity(opportunities, s.opportunity)),
               s.status, s.createdAt, s.updatedAt)
  }

  /** The caller's signups, newest first. */
  function SignupsOf(signups: seq<VolunteerSignup>, user: Id): seq<VolunteerSignup>
  {
    Filter(NewestFirst(signups), (s: VolunteerSignup) => s.owner == user)
  }

  /** Some signup, of any status, pairs the user with the opportunity. */
  predicate SignedUp(signups: seq<VolunteerSignup>, user: Id, opportunity: Id)
  {
    exists i :: 0 <= i < |signups| && signups[i].owner == user && signups[i].opportunity == opportunity
  }

  /** GET /: every opportunity, earliest date first. */
  method ListOpportunities(db: Database) returns (res: Response<seq<Opportunity>>)
    ensures res.status == 200 && res.body.Json?
    ensures NonDecreasing(res.body.value, OpportunityDate)
    ensures multiset(res.body.value) == multiset(db.opportunities)
  {
    SortByCorrect(db.opportunities, OpportunityDate);
    res := Response(200, Json(SortBy(db.opportunities, OpportunityDate)));
  }

  /** POST /: the body's fields with `user_id` replaced by the caller. A
      document the schema rejects is a 500 and nothing is stored. */
  method CreateOpportunity(db: Database, caller: Id, body: OpportunityDoc) returns (res: Response<Opportunity>)
    requires db.Valid()
    modifies db`opportunities, db`clock
    ensures db.Valid()
    ensures match NewOpportunity(body.(userId := Some(caller)), old(db.clock), old(db.clock))
            case Created(o) =>
              && db.opportunities == old(db.opportunities) + [o] && db.clock == old(db.clock) + 1
              && res == Response(201, Json(o))
            case Rejected(errors) =>
              && db.opportunities == old(db.opportunities) && db.clock == old(db.clock)
              && res == Response(500, Invalid(errors))
    ensures res.status == 201 ==> res.body.Json? && res.body.value.owner == caller
  {
    match NewOpportunity(body.(userId := Some(caller)), db.clock, db.clock)
    case Created(o) =>
      ChronologicalAppend(db.opportunities, OpportunityId, OpportunityCreated, db.clock, o);
      db.opportunities := db.opportunities + [o];
      db.clock := db.clock + 1;
      res := Response(201, Json(o));
    case Rejected(errors) =>
      res := Response(500, Invalid(errors));
  }

  /** The caller's signups, newest first, each with its opportunity joined in. */
  function SignupViews(signups: seq<VolunteerSignup>, opportunities: seq<Opportunity>, user: Id): seq<SignupView>
  {
    var mine := SignupsOf(signups, user);
    seq(|mine|, i requires 0 <= i < |mine| => Populate(mine[i], opportunities))
  }

  /** The listing holds exactly the user's signups. */
  lemma SignupViewsMembers(signups: seq<VolunteerSignup>, opportunities: seq<Opportunity>, user: Id)
    ensures forall v :: v in SignupViews(signups, opportunities, user) ==>
              exists s :: s in signups && s.owner == user && v == Populate(s, opportunities)
    ensures forall s :: s in signups && s.owner == user ==> Populate(s, opportunities) in SignupViews(signups, opportunities, user)
  {
    var mine := SignupsOf(signups, user);
    var views := SignupViews(signups, opportunities, user);
    ReverseIsPermutation(signups);
    assert forall s :: s in signups <==> s in NewestFirst(signups) by {
      forall s ensures s in signups <==> s in NewestFirst(signups) {
        assert s in signups <==> s in multiset(signups);
        assert s in NewestFirst(signups) <==> s in multiset(NewestFirst(signups));
      }
    }
    forall s | s in signups && s.owner == user ensures Populate(s, opportunities) in views {
      var k :| 0 <= k < |mine| && mine[k] == s;
      assert views[k] == Populate(s, opportunities);
    }
    forall v | v in views
      ensures exists s :: s in signups && s.owner == user && v == Populate(s, opportunities)
    {
      var k :| 0 <= k < |views| && views[k] == v;
      assert mine[k] in mine;
    }
  }

  /** Over a collection in creation order the listing is strictly newest first. */
  lemma SignupViewsNewestFirst(signups: seq<VolunteerSignup>, opportunities: seq<Opportunity>, user: Id, next: nat)
    requires Chronological(signups, SignupId, SignupCreated, next)
    ensures StrictlyDecreasing(SignupViews(signups, opportunities, user), ViewCreated)
  {
    var mine := SignupsOf(signups, user);
    NewestFirstIsSorted(signups, SignupId, SignupCreated, next);
    FilterIsSubsequence(NewestFirst(signups), (s: VolunteerSignup) => s.owner == user);
    SubsequenceKeepsDecreasing(mine, NewestFirst(signups), SignupCreated);
  }

  /** GET /signups: exactly the caller's signups, newest first, each with
      its opportunity joined in. */
  method MySignups(db: Database, caller: Id) returns (res: Response<seq<SignupView>>)
    requires db.Valid()
    ensures res.status == 200 && res.body.Json?
    ensures forall v :: v in res.body.value ==>
              exists s :: s in db.signups && s.owner == caller && v == Populate(s, db.opportunities)
    ensures forall s :: s in db.signups && s.owner == caller ==> Populate(s, db.opportunities) in res.body.value
    ensures StrictlyDecreasing(res.body.value, ViewCreated)
  {
    SignupViewsMembers(db.signups, db.opportunities, caller);
    SignupViewsNewestFirst(db.signups, db.opportunities, caller, db.clock);
    res := Response(200, Json(SignupViews(db.signups, db.opportunities, caller)));
  }

  /** POST /signup: refused with 400 when the caller already has a signup
      for the opportunity, whatever its status; otherwise one pending
      signup is added. The opportunity's existence is not checked. */
  method SignUp(db: Database, caller: Id, opportunityId: Id) returns (res: Response<VolunteerSignup>)
    requires db.Valid()
    modifies db`signups, db`clock
    ensures db.Valid()
    ensures SignedUp(old(db.signups), caller, opportunityId) ==>
              && res == Response(400, Message("Already signed up for this opportunity"))
              && db.signups == old(db.signups) && db.clock == old(db.clock)
    ensures !SignedUp(old(db.signups), caller, opportunityId) ==>
              var s := VolunteerSignup(old(db.clock), caller, opportunityId, Pending, old(db.clock), old(db.clock));
              && db.signups == old(db.signups) + [s] && db.clock == old(db.clock) + 1
              && res == Response(201, Json(s))
  {
    var existing := FindSignupFor(db.signups, caller, opportunityId);
    FindSignupForFindsPair(db.signups, caller, opportunityId);
    if existing.Some? {
      res := Response(400, Message("Already signed up for this opportunity"));
    } else {
      var outcome := NewSignup(SignupDoc(Some(caller), Some(opportunityId), Some("pending")), db.clock, db.clock);
      assert outcome.Created?;
      var s := outcome.value;
      ChronologicalAppend(db.signups, SignupId, SignupCreated, db.clock, s);
      OneSignupPerPairAppend(db.signups, s);
      db.signups := db.signups + [s];
      db.clock := db.clock + 1;
      res := Response(201, Json(s));
    }
  }

  /** DELETE /signup/:id: removes the signup only when it has that id and
      belongs to the caller. Someone else's signup and an unknown id both
      give the same 404. */
  method CancelSignup(db: Database, caller: Id, id: Id) returns (res: Response<()>)
    requires db.Valid()
    modifies db`signups
    ensures db.Valid()
    ensures match FindOwnedSignup(old(db.signups), id, caller)
            case Some(k) =>
              db.signups == RemoveAt(old(db.signups), k) && res == Response(200, Message("Signup cancelled"))
            case None =>
              db.signups == old(db.signups) && res == Response(404, Message("Signup not found"))
    ensures res.status == 200 <==>
              exists s :: s in old(db.signups) && s.id == id && s.owner == caller
    ensures forall s :: s in db.signups <==> s in old(db.signups) && !(s.id == id && s.owner == caller)
  {
    var found := FindOwnedSignup(db.signups, id, caller);
    match found
    case Some(k) =>
      ChronologicalRemoveMembers(db.signups, SignupId, SignupCreated, db.clock, k);
      ChronologicalRemove(db.signups, SignupId, SignupCreated, db.clock, k);
      OneSignupPerPairRemove(db.signups, k);
      db.signups := RemoveAt(db.signups, k);
      res := Response(200, Message("Signup cancelled"));
    case None =>
      res := Response(404, Message("Signup not found"));
  }

  /** The duplicate check finds a signup exactly when the pair has one. */
  lemma FindSignupForFindsPair(signups: seq<VolunteerSignup>, user: Id, opportunity: Id)
    ensures FindSignupFor(signups, user, opportunity).Some? <==> SignedUp(signups, user, opportunity)
  {
    if SignedUp(signups, user, opportunity) {
      var i :| 0 <= i < |signups| && signups[i].owner == user && signups[i].opportunity == opportunity;
    }
  }

  /** A signup for a pair that has none keeps at most one signup per pair. */
  lemma OneSignupPerPairAppend(signups: seq<VolunteerSignup>, s: VolunteerSignup)
    requires OneSignupPerPair(signups) && !SignedUp(signups, s.owner, s.opportunity)
    ensures OneSignupPerPair(signups + [s])
  {
    var t := signups + [s];
    forall i, j | 0 <= i < j < |t| ensures t[i].owner != t[j].owner || t[i].opportunity != t[j].opportunity {
      if j == |signups| {
        assert t[i] == signups[i];
      } else {
        assert t[i] == signups[i] && t[j] == signups[j];
      }
    }
  }

  /** How many signups pair the user with the opportunity. */
  function PairCount(signups: seq<VolunteerSignup>, user: Id, opportunity: Id): nat
  {
    if signups == [] then 0
    else (if signups[0].owner == user && signups[0].opportunity == opportunity then 1 else 0)
         + PairCount(signups[1..], user, opportunity)
  }

  /** Under the store's invariant a pair has at most one signup, and it has
      one exactly when the duplicate check finds it. */
  lemma {:induction false} AtMostOneSignupPerPair(signups: seq<VolunteerSignup>, user: Id, opportunity: Id)
    requires OneSignupPerPair(signups)
    ensures PairCount(signups, user, opportunity) <= 1
    ensures PairCount(signups, user, opportunity) == 1 <==> SignedUp(signups, user, opportunity)
  {
    if signups != [] {
      var tail := signups[1..];
      assert OneSignupPerPair(tail) by {
        forall i, j | 0 <= i < j < |tail| ensures tail[i].owner != tail[j].owner || tail[i].opportunity != tail[j].opportunity {
          assert tail[i] == signups[i + 1] && tail[j] == signups[j + 1];
        }
      }
      AtMostOneSignupPerPair(tail, user, opportunity);
      if signups[0].owner == user && signups[0].opportunity == opportunity {
        forall i | 0 <= i < |tail| ensures tail[i].owner != user || tail[i].opportunity != opportunity {
          assert tail[i] == signups[i + 1];
        }
      } else {
        if SignedUp(signups, user, opportunity) {
          var i :| 0 <= i < |signups| && signups[i].owner == user && signups[i].opportunity == opportunity;
          assert i > 0 && tail[i - 1] == signups[i];
        }
        if SignedUp(tail, user, opportunity) {
          var i :| 0 <= i < |tail| && tail[i].owner == user && tail[i].opportunity == opportunity;
          assert signups[i + 1] == tail[i];
        }
      }
    }
  }
}
