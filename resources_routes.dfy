/** The /resources routes: the public listing, the caller's own listing,
    creating a resource and deleting one's own. */
module ResourceRoutes {
  import opened Base
  import opened Seqs
  import opened ResourceModel
  import opened Store

  /** The user's resources, newest first. */
  function ResourcesOf(resources: seq<Resource>, user: Id): seq<Resource>
  {
    Filter(NewestFirst(resources), (r: Resource) => r.owner == user)
  }

  /** A newest-first listing holds the same records as the collection. */
  lemma NewestFirstMembers(resources: seq<Resource>)
    ensures forall r :: r in NewestFirst(resources) <==> r in resources
  {
    ReverseIsPermutation(resources);
    forall r ensures r in NewestFirst(resources) <==> r in resources {
      assert r in resources <==> r in multiset(resources);
      assert r in NewestFirst(resources) <==> r in multiset(NewestFirst(resources));
    }
  }

  /** The user's own listing is the public listing with everyone else's
      resources left out: exactly the user's resources, in the same order. */
  lemma ResourcesOfIsSublisting(resources: seq<Resource>, user: Id, next: nat)
    requires Chronological(resources, ResourceId, ResourceCreated, next)
    ensures IsSubsequence(ResourcesOf(resources, user), NewestFirst(resources))
    ensures forall r :: r in ResourcesOf(resources, user) <==> r in resources && r.owner == user
    ensures StrictlyDecreasing(ResourcesOf(resources, user), ResourceCreated)
  {
    NewestFirstMembers(resources);
    NewestFirstIsSorted(resources, ResourceId, ResourceCreated, next);
    FilterIsSubsequence(NewestFirst(resources), (r: Resource) => r.owner == user);
    SubsequenceKeepsDecreasing(ResourcesOf(resources, user), NewestFirst(resources), ResourceCreated);
  }

  /** GET /: every resource, newest first. */
  method ListResources(db: Database) returns (res: Response<seq<Resource>>)
    requires db.Valid()
    ensures res == Response(200, Json(NewestFirst(db.resources)))
    ensures StrictlyDecreasing(res.body.value, ResourceCreated)
    ensures multiset(res.body.value) == multiset(db.resources)
  {
    NewestFirstIsSorted(db.resources, ResourceId, ResourceCreated, db.clock);
    res := Response(200, Json(NewestFirst(db.resources)));
  }

  /** GET /my-resources: exactly the caller's resources, newest first. */
  method MyResources(db: Database, caller: Id) returns (res: Response<seq<Resource>>)
    requires db.Valid()
    ensures res.status == 200 && res.body.Json?
    ensures forall r :: r in res.body.value <==> r in db.resources && r.owner == caller
    ensures StrictlyDecreasing(res.body.value, ResourceCreated)
    ensures IsSubsequence(res.body.value, NewestFirst(db.resources))
  {
    ResourcesOfIsSublisting(db.resources, caller, db.clock);
    res := Response(200, Json(ResourcesOf(db.resources, caller)));
  }

  /** POST /: the body's fields with `user_id` replaced by the caller. A
      document the schema rejects is a 500 and nothing is stored. */
  method CreateResource(db: Database, caller: Id, body: ResourceDoc) returns (res: Response<Resource>)
    requires db.Valid()
    modifies db`resources, db`clock
    ensures db.Valid()
    ensures match NewResource(body.(userId := Some(caller)), old(db.clock), old(db.clock))
            case Created(r) =>
              && db.resources == old(db.resources) + [r] && db.clock == old(db.clock) + 1
              && res == Response(201, Json(r))
            case Rejected(errors) =>
              && db.resources == old(db.resources) && db.clock == old(db.clock)
              && res == Response(500, Invalid(errors))
    ensures res.status == 201 ==> res.body.Json? && res.body.value.owner == caller
  {
    match NewResource(body.(userId := Some(caller)), db.clock, db.clock)
    case Created(r) =>
      ChronologicalAppend(db.resources, ResourceId, ResourceCreated, db.clock, r);
      db.resources := db.resources + [r];
      db.clock := db.clock + 1;
      res := Response(201, Json(r));
    case Rejected(errors) =>
      res := Response(500, Invalid(errors));
  }

  /** DELETE /:id: removes the resource only when it has that id and
      belongs to the caller. Someone else's resource and an unknown id both
      give the same 404. */
  method DeleteResource(db: Database, caller: Id, id: Id) returns (res: Response<()>)
    requires db.Valid()
    modifies db`resources
    ensures db.Valid()
    ensures match FindOwnedResource(old(db.resources), id, caller)
            case Some(k) =>
              db.resources == RemoveAt(old(db.resources), k) && res == Response(200, Message("Resource removed"))
            case None =>
              db.resources == old(db.resources) && res == Response(404, Message("Resource not found"))
    ensures res.status == 200 <==>
              exists r :: r in old(db.resources) && r.id == id && r.owner == caller
    ensures forall r :: r in db.resources <==> r in old(db.resources) && !(r.id == id && r.owner == caller)
  {
    match FindOwnedResource(db.resources, id, caller)
    case Some(k) =>
      ChronologicalRemoveMembers(db.resources, ResourceId, ResourceCreated, db.clock, k);
      ChronologicalRemove(db.resources, ResourceId, ResourceCreated, db.clock, k);
      db.resources := RemoveAt(db.resources, k);
      res := Response(200, Message("Resource removed"));
    case None =>
      res := Response(404, Message("Resource not found"));
  }
}
