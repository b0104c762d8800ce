/** The document store the route handlers share: one collection per model,
    each kept in the order its records were created, and a counter from
    which new ObjectIds and timestamps are drawn. */
module Store {
  import opened Base
  import opened Seqs
  import opened Entities
  import opened ResourceModel
  import opened SignupModel
  import opened TipModel

  /** No two signups pair the same user with the same opportunity. */
  predicate OneSignupPerPair(s: seq<VolunteerSignup>)
  {
    forall i, j :: 0 <= i < j < |s| ==> s[i].owner != s[j].owner || s[i].opportunity != s[j].opportunity
  }

  /** No two users share an email address. */
  predicate UniqueEmails(users: seq<User>)
  {
    forall i, j :: 0 <= i < j < |users| ==> users[i].email != users[j].email
  }

  predicate DistinctUserIds(users: seq<User>, next: nat)
  {
    && (forall i :: 0 <= i < |users| ==> users[i].id < next)
    && (forall i, j :: 0 <= i < j < |users| ==> users[i].id != users[j].id)
  }

  class Database {
    var users: seq<User>
    var opportunities: seq<Opportunity>
    var signups: seq<VolunteerSignup>
    var resources: seq<Resource>
    var tips: seq<CommunityTip>
    /** The next ObjectId, and the current time. */
    var clock: nat

    ghost predicate Valid()
      reads this
    {
      && DistinctUserIds(users, clock)
      && UniqueEmails(users)
      && Chronological(opportunities, OpportunityId, OpportunityCreated, clock)
      && Chronological(signups, SignupId, SignupCreated, clock)
      && OneSignupPerPair(signups)
      && Chronological(resources, ResourceId, ResourceCreated, clock)
      && Chronological(tips, TipId, TipCreated, clock)
    }

    constructor ()
      ensures Valid()
      ensures users == [] && opportunities == [] && signups == [] && resources == [] && tips == []
      ensures clock == 0
    {
      users, opportunities, signups, resources, tips := [], [], [], [], [];
      clock := 0;
    }
  }

  /** The index of the first element that passes `p`: what `findOne` returns
      from a collection kept in insertion order. */
  function FindFirst<T>(s: seq<T>, p: T -> bool): (r: Option<nat>)
    ensures r.Some? ==> r.value < |s| && p(s[r.value]) && forall j :: 0 <= j < r.value ==> !p(s[j])
    ensures r.None? ==> forall j :: 0 <= j < |s| ==> !p(s[j])
  {
    if s == [] then None
    else if p(s[0]) then Some(0)
    else
      var r := FindFirst(s[1..], p);
      if r.Some? then Some(r.value + 1) else None
  }

  /** `User.findById(id)`. */
  function FindUser(users: seq<User>, id: Id): Option<nat>
  {
    FindFirst(users, (u: User) => u.id == id)
  }

  /** `User.findOne({ email })`. */
  function FindUserByEmail(users: seq<User>, email: string): Option<nat>
  {
    FindFirst(users, (u: User) => u.email == email)
  }

  /** `CommunityTip.findById(id)`. */
  function FindTip(tips: seq<CommunityTip>, id: Id): Option<nat>
  {
    FindFirst(tips, (t: CommunityTip) => t.id == id)
  }

  /** `VolunteerSignup.findOne({ user_id, opportunity_id })`. */
  function FindSignupFor(signups: seq<VolunteerSignup>, user: Id, opportunity: Id): Option<nat>
  {
    FindFirst(signups, (s: VolunteerSignup) => s.owner == user && s.opportunity == opportunity)
  }

  /** `VolunteerSignup.findOne({ _id, user_id })`. */
  function FindOwnedSignup(signups: seq<VolunteerSignup>, id: Id, user: Id): Option<nat>
  {
    FindFirst(signups, (s: VolunteerSignup) => s.id == id && s.owner == user)
  }

  /** `Resource.findOne({ _id, user_id })`. */
  function FindOwnedResource(resources: seq<Resource>, id: Id, user: Id): Option<nat>
  {
    FindFirst(resources, (r: Resource) => r.id == id && r.owner == user)
  }

  /** A `.find().sort({ createdAt: -1 })` listing: the collection is kept in
      creation order, so newest-first is its reverse. */
  function NewestFirst<T>(s: seq<T>): seq<T>
  {
    Reverse(s)
  }

  /** Over a collection in creation order, the newest-first listing holds
      the same records, strictly newest first. */
  lemma NewestFirstIsSorted<T(!new)>(s: seq<T>, id: T -> int, created: T -> int, next: nat)
    requires Chronological(s, id, created, next)
    ensures StrictlyDecreasing(NewestFirst(s), created)
    ensures multiset(NewestFirst(s)) == multiset(s)
  {
    ReverseOfIncreasing(s, created);
    ReverseIsPermutation(s);
  }

  /** Removing one signup keeps at most one signup per pair. */
  lemma OneSignupPerPairRemove(s: seq<VolunteerSignup>, i: nat)
    requires i < |s| && OneSignupPerPair(s)
    ensures OneSignupPerPair(RemoveAt(s, i))
  {
    var r := RemoveAt(s, i);
    forall a, b | 0 <= a < b < |r|
      ensures r[a].owner != r[b].owner || r[a].opportunity != r[b].opportunity
    {
      var a' := if a < i then a else a + 1;
      var b' := if b < i then b else b + 1;
      assert r[a] == s[a'] && r[b] == s[b'] && a' < b';
    }
  }
}
