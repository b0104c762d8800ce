/** The VolunteerSignup schema: a user's signup for an opportunity, with a
    status and creation and update times. */
module SignupModel {
  import opened Base

  datatype SignupStatus = Pending | Confirmed | Cancelled

  /** The string stored for each `status` value. */
  function StatusName(s: SignupStatus): string
  {
    match s
    case Pending => "pending"
    case Confirmed => "confirmed"
    case Cancelled => "cancelled"
  }

  /** The `enum: ['pending', 'confirmed', 'cancelled']` check. */
  function ParseStatus(s: string): (r: Option<SignupStatus>)
    ensures r.Some? <==> s == "pending" || s == "confirmed" || s == "cancelled"
    ensures r.Some? ==> StatusName(r.value) == s
  {
    if s == "pending" then Some(Pending)
    else if s == "confirmed" then Some(Confirmed)
    else if s == "cancelled" then Some(Cancelled)
    else None
  }

  datatype VolunteerSignup = VolunteerSignup(
    id: Id,
    owner: Id,
    opportunity: Id,
    status: SignupStatus,
    createdAt: nat,
    updatedAt: nat)

  /** The document handed to `VolunteerSignup.create`. */
  datatype SignupDoc = SignupDoc(userId: Option<Id>, opportunityId: Option<Id>, status: Option<string>)

  function SignupId(s: VolunteerSignup): int { s.id }
  function SignupCreated(s: VolunteerSignup): int { s.createdAt }

  /** The validation errors of a document, in schema order. `status` is not
      required: an absent status takes the default, but a present one, even
      "", must be one of the three values. */
  function SignupErrors(doc: SignupDoc): seq<ValidationError>
  {
    (if doc.userId.Some? then [] else [Required("user_id")])
    + (if doc.opportunityId.Some? then [] else [Required("opportunity_id")])
    + (if doc.status.Some? && ParseStatus(doc.status.value).None? then [NotInEnum("status", doc.status.value)] else [])
  }

  /** `VolunteerSignup.create(doc)` with the next id and the current time. */
  function NewSignup(doc: SignupDoc, id: Id, now: nat): (r: Outcome<VolunteerSignup>)
    ensures r.Created? <==>
              && doc.userId.Some? && doc.opportunityId.Some?
              && (doc.status.None? || doc.status.value in {"pending", "confirmed", "cancelled"})
    ensures r.Created? ==>
              && Some(r.value.owner) == doc.userId
              && Some(r.value.opportunity) == doc.opportunityId
              && r.value.id == id && r.value.createdAt == now && r.value.updatedAt == now
    ensures r.Created? && doc.status.None? ==> r.value.status == Pending
    ensures r.Created? && doc.status.Some? ==> StatusName(r.value.status) == doc.status.value
    ensures r.Rejected? ==> r.errors != []
  {
    var errors := SignupErrors(doc);
    if errors != [] then Rejected(errors)
    else
      var status := if doc.status.Some? then ParseStatus(doc.status.value).value else Pending;
      Created(VolunteerSignup(id, doc.userId.value, doc.opportunityId.value, status, now, now))
  }
}
