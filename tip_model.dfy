/** The CommunityTip schema: a titled piece of advice in a category, owned by
    its author, with a like counter and creation and update times. */
module TipModel {
  import opened Base

  /** A stored tip; `likes` is `None` when the create body sent `null`. */
  datatype CommunityTip = CommunityTip(
    id: Id,
    title: string,
    description: string,
    category: string,
    owner: Id,
    likes: Option<int>,
    createdAt: nat,
    updatedAt: nat)

  /** The document handed to `CommunityTip.create`. `likes` is a path of the
      schema, so a value the request supplies, `null` included, is kept. */
  datatype TipDoc = TipDoc(
    title: Option<string>,
    description: Option<string>,
    category: Option<string>,
    likes: NumberField,
    userId: Option<Id>)

  function TipId(t: CommunityTip): int { t.id }
  function TipCreated(t: CommunityTip): int { t.createdAt }

  /** The validation errors of a document, in schema order. */
  function TipErrors(doc: TipDoc): seq<ValidationError>
  {
    (if Filled(doc.title) then [] else [Required("title")])
    + (if Filled(doc.description) then [] else [Required("description")])
    + (if Filled(doc.category) then [] else [Required("category")])
    + (if doc.userId.Some? then [] else [Required("user_id")])
  }

  /** The `likes` value stored for a document: the default 0 when left out,
      `null` when sent as `null`. */
  function StoredLikes(likes: NumberField): Option<int>
  {
    match likes
    case Absent => Some(0)
    case Null => None
    case Number(n) => Some(n)
  }

  /** The number `tip.likes += 1` adds to: JavaScript arithmetic reads `null` as 0. */
  function LikeCount(likes: Option<int>): int
  {
    WithDefault(likes, 0)
  }

  /** `CommunityTip.create(doc)` with the next id and the current time. */
  function NewTip(doc: TipDoc, id: Id, now: nat): (r: Outcome<CommunityTip>)
    ensures r.Created? <==>
              Filled(doc.title) && Filled(doc.description) && Filled(doc.category) && doc.userId.Some?
    ensures r.Created? ==>
              && Some(r.value.title) == doc.title
              && Some(r.value.description) == doc.description
              && Some(r.value.category) == doc.category
              && Some(r.value.owner) == doc.userId
              && r.value.id == id && r.value.createdAt == now && r.value.updatedAt == now
    ensures r.Created? && doc.likes.Absent? ==> r.value.likes == Some(0)
    ensures r.Created? && doc.likes.Null? ==> r.value.likes == None
    ensures r.Created? && doc.likes.Number? ==> r.value.likes == Some(doc.likes.n)
    ensures r.Rejected? ==> r.errors != []
    ensures r.Rejected? && !Filled(doc.title) ==> Required("title") in r.errors
    ensures r.Rejected? && !Filled(doc.description) ==> Required("description") in r.errors
    ensures r.Rejected? && !Filled(doc.category) ==> Required("category") in r.errors
    ensures r.Rejected? && doc.userId.None? ==> Required("user_id") in r.errors
  {
    var errors := TipErrors(doc);
    if errors != [] then Rejected(errors)
    else
      Created(CommunityTip(
        id, doc.title.value, doc.description.value, doc.category.value,
        doc.userId.value, StoredLikes(doc.likes), now, now))
  }

  /** `likes` is an ordinary path, so the create body can set it to any
      number, negative ones included: the count starts where the client says. */
  lemma ClientSetsInitialLikes(doc: TipDoc, id: Id, now: nat, n: int)
    requires Filled(doc.title) && Filled(doc.description) && Filled(doc.category) && doc.userId.Some?
    requires doc.likes == Number(n)
    ensures NewTip(doc, id, now).Created? && NewTip(doc, id, now).value.likes == Some(n)
  {
  }
}
