/** The User and Opportunity documents and the identity token. Their schema
    files (server/models/User.js, server/models/Opportunity.js) and the token
    code (server/middleware/auth.js) are not part of this model: the fields
    below are the ones the routes and pages read and write. */
module Entities {
  import opened Base

  /** A stored user. `password` is the digest the User model's save hook
      computed; the plaintext is never stored. */
  datatype User = User(
    id: Id,
    email: string,
    password: string,
    fullName: Option<string>,
    location: Option<string>,
    skills: Option<seq<string>>,
    interests: Option<seq<string>>,
    avatarUrl: Option<string>)

  /** A signed identity assertion for a user id. Signing, the secret and the
      expiry are outside the model; the token carries its subject. */
  datatype Token = Token(subject: Id)

  /** `generateToken(id)`. */
  function GenerateToken(id: Id): (t: Token)
    ensures t.subject == id
  {
    Token(id)
  }

  datatype Opportunity = Opportunity(
    id: Id,
    title: string,
    description: string,
    category: string,
    location: string,
    date: int,
    contact: string,
    owner: Id,
    createdAt: nat,
    updatedAt: nat)

  /** The document handed to `Opportunity.create`; `date` is the instant the
      client's date string denotes. */
  datatype OpportunityDoc = OpportunityDoc(
    title: Option<string>,
    description: Option<string>,
    category: Option<string>,
    location: Option<string>,
    date: Option<int>,
    contact: Option<string>,
    userId: Option<Id>)

  function OpportunityId(o: Opportunity): int { o.id }
  function OpportunityCreated(o: Opportunity): int { o.createdAt }
  function OpportunityDate(o: Opportunity): int { o.date }

  /** The validation errors of an opportunity document. Opportunity.js is not
      part of this model; the model requires title, description, category,
      location, date, contact and the owner. */
  function OpportunityErrors(doc: OpportunityDoc): seq<ValidationError>
  {
    (if Filled(doc.title) then [] else [Required("title")])
    + (if Filled(doc.description) then [] else [Required("description")])
    + (if Filled(doc.category) then [] else [Required("category")])
    + (if Filled(doc.location) then [] else [Required("location")])
    + (if doc.date.Some? then [] else [Required("date")])
    + (if Filled(doc.contact) then [] else [Required("contact")])
    + (if doc.userId.Some? then [] else [Required("user_id")])
  }

  /** `Opportunity.create(doc)` with the next id and the current time. */
  function NewOpportunity(doc: OpportunityDoc, id: Id, now: nat): (r: Outcome<Opportunity>)
    ensures r.Created? <==>
              && Filled(doc.title) && Filled(doc.description) && Filled(doc.category)
              && Filled(doc.location) && doc.date.Some? && Filled(doc.contact) && doc.userId.Some?
    ensures r.Created? ==>
              && Some(r.value.title) == doc.title && Some(r.value.description) == doc.description
              && Some(r.value.category) == doc.category && Some(r.value.location) == doc.location
              && Some(r.value.date) == doc.date && Some(r.value.contact) == doc.contact
              && Some(r.value.owner) == doc.userId
              && r.value.id == id && r.value.createdAt == now && r.value.updatedAt == now
    ensures r.Rejected? ==> r.errors != []
  {
    var errors := OpportunityErrors(doc);
    if errors != [] then Rejected(errors)
    else
      Created(Opportunity(
        id, doc.title.value, doc.description.value, doc.category.value, doc.location.value,
        doc.date.value, doc.contact.value, doc.userId.value, now, now))
  }
}
