/** The Resource schema: an offer or a request for some quantity of a named
    thing, owned by the user who listed it, with creation and update times. */
module ResourceModel {
  import opened Base

  datatype ResourceType = Offer | Request

  /** The string stored for each `type` value. */
  function TypeName(t: ResourceType): string
  {
    match t
    case Offer => "offer"
    case Request => "request"
  }

  /** The `enum: ['offer', 'request']` check. */
  function ParseType(s: string): (r: Option<ResourceType>)
    ensures r.Some? <==> s == "offer" || s == "request"
    ensures r.Some? ==> TypeName(r.value) == s
  {
    if s == "offer" then Some(Offer) else if s == "request" then Some(Request) else None
  }

  datatype Resource = Resource(
    id: Id,
    rtype: ResourceType,
    resourceName: string,
    quantity: int,
    location: string,
    description: string,
    owner: Id,
    createdAt: nat,
    updatedAt: nat)

  /** The document handed to `Resource.create`: the schema's paths as the
      request supplied them (`type` is any string the client sent). */
  datatype ResourceDoc = ResourceDoc(
    rtype: Option<string>,
    resourceName: Option<string>,
    quantity: NumberField,
    location: Option<string>,
    description: Option<string>,
    userId: Option<Id>)

  function ResourceId(r: Resource): int { r.id }
  function ResourceCreated(r: Resource): int { r.createdAt }

  /** The validation errors of a document, in schema order: a path's
      `required` check comes before its `enum` check. A `quantity` left out
      takes its default, so only a `null` one fails `required`. */
  function ResourceErrors(doc: ResourceDoc): seq<ValidationError>
  {
    (if !Filled(doc.rtype) then [Required("type")]
     else if ParseType(doc.rtype.value).None? then [NotInEnum("type", doc.rtype.value)]
     else [])
    + (if Filled(doc.resourceName) then [] else [Required("resource_name")])
    + (if doc.quantity.Null? then [Required("quantity")] else [])
    + (if Filled(doc.location) then [] else [Required("location")])
    + (if Filled(doc.description) then [] else [Required("description")])
    + (if doc.userId.Some? then [] else [Required("user_id")])
  }

  /** `Resource.create(doc)` with the next id and the current time. */
  function NewResource(doc: ResourceDoc, id: Id, now: nat): (r: Outcome<Resource>)
    ensures r.Created? <==>
              && (doc.rtype == Some("offer") || doc.rtype == Some("request"))
              && Filled(doc.resourceName) && !doc.quantity.Null?
              && Filled(doc.location) && Filled(doc.description) && doc.userId.Some?
    ensures r.Created? ==>
              && TypeName(r.value.rtype) == doc.rtype.value
              && Some(r.value.resourceName) == doc.resourceName
              && Some(r.value.location) == doc.location
              && Some(r.value.description) == doc.description
              && Some(r.value.owner) == doc.userId
              && r.value.id == id && r.value.createdAt == now && r.value.updatedAt == now
    ensures r.Created? && doc.quantity.Number? ==> r.value.quantity == doc.quantity.n
    ensures r.Created? && doc.quantity.Absent? ==> r.value.quantity == 1
    ensures r.Rejected? ==> r.errors != []
    ensures r.Rejected? && !Filled(doc.rtype) ==> Required("type") in r.errors
    ensures r.Rejected? && Filled(doc.rtype) && ParseType(doc.rtype.value).None? ==>
              NotInEnum("type", doc.rtype.value) in r.errors
    ensures r.Rejected? && doc.quantity.Null? ==> Required("quantity") in r.errors
    ensures r.Rejected? && !Filled(doc.resourceName) ==> Required("resource_name") in r.errors
    ensures r.Rejected? && !Filled(doc.location) ==> Required("location") in r.errors
    ensures r.Rejected? && !Filled(doc.description) ==> Required("description") in r.errors
    ensures r.Rejected? && doc.userId.None? ==> Required("user_id") in r.errors
  {
    var errors := ResourceErrors(doc);
    if errors != [] then Rejected(errors)
    else
      Created(Resource(
        id, ParseType(doc.rtype.value).value, doc.resourceName.value,
        if doc.quantity.Number? then doc.quantity.n else 1, doc.location.value, doc.description.value,
        doc.userId.value, now, now))
  }

  /** The schema sets no lower bound on `quantity`: zero and negative values are stored. */
  lemma QuantityHasNoLowerBound(doc: ResourceDoc, id: Id, now: nat, q: int)
    requires doc.rtype == Some("offer") && doc.quantity == Number(q)
    requires Filled(doc.resourceName) && Filled(doc.location) && Filled(doc.description)
    requires doc.userId.Some?
    ensures NewResource(doc, id, now).Created? && NewResource(doc, id, now).value.quantity == q
  {
  }
}
