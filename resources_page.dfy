/** The Resources page: the search and type filter over the listing, the
    quantity field's coercion, and the create-listing form. */
module ResourcesPage {
  import opened Base
  import opened Seqs
  import opened Text
  import opened ResourceModel

  /** The type buttons: 'all', 'offer' or 'request'. */
  datatype TypeFilter = AllTypes | OnlyType(rtype: ResourceType)

  /** The lower-cased search term occurs in the lower-cased name, description or location. */
  predicate MatchesSearch(r: Resource, term: string)
  {
    var q := Lower(term);
    Includes(Lower(r.resourceName), q) || Includes(Lower(r.description), q) || Includes(Lower(r.location), q)
  }

  predicate MatchesType(r: Resource, selected: TypeFilter)
  {
    selected.AllTypes? || r.rtype == selected.rtype
  }

  predicate ShowResource(r: Resource, term: string, selected: TypeFilter)
  {
    MatchesSearch(r, term) && MatchesType(r, selected)
  }

  /** `filteredResources`. */
  function FilterResources(resources: seq<Resource>, term: string, selected: TypeFilter): seq<Resource>
  {
    Filter(resources, (r: Resource) => ShowResource(r, term, selected))
  }

  /** The shown resources are the listing with the rest left out, in order;
      a resource is shown iff the term occurs in one of its three text
      fields and its type is the selected one or the selection is 'all'. */
  lemma FilterResourcesCorrect(resources: seq<Resource>, term: string, selected: TypeFilter)
    ensures IsSubsequence(FilterResources(resources, term, selected), resources)
    ensures forall r :: r in FilterResources(resources, term, selected) <==>
              && r in resources
              && (|| Includes(Lower(r.resourceName), Lower(term))
                  || Includes(Lower(r.description), Lower(term))
                  || Includes(Lower(r.location), Lower(term)))
              && (selected == AllTypes || selected == OnlyType(r.rtype))
  {
    FilterIsSubsequence(resources, (r: Resource) => ShowResource(r, term, selected));
  }

  /** The empty string occurs in every string. */
  lemma EmptyIsIncluded(s: string)
    ensures Includes(s, "")
  {
  }

  /** With no search term and type 'all', every resource is shown. */
  lemma EmptySearchShowsAll(resources: seq<Resource>)
    ensures FilterResources(resources, "", AllTypes) == resources
  {
    forall i | 0 <= i < |resources| ensures ShowResource(resources[i], "", AllTypes) {
      EmptyIsIncluded(Lower(resources[i].resourceName));
    }
    FilterKeepsAll(resources, (r: Resource) => ShowResource(r, "", AllTypes));
  }

  /** `parseInt(value) || 1`: `NaN` and 0 are falsy and become 1. */
  function QuantityInput(value: string): (q: int)
    ensures q != 0
    ensures ParseInt(value).Some? && ParseInt(value).value != 0 ==> q == ParseInt(value).value
  {
    match ParseInt(value)
    case Some(n) => if n != 0 then n else 1
    case None => 1
  }

  /** Whatever number the field shows comes back unchanged, negative ones
      included, except 0, which becomes 1; a field with no digits gives 1. */
  lemma QuantityInputOfNumber(n: int)
    ensures QuantityInput(NumberToString(n)) == (if n == 0 then 1 else n)
  {
    ParseIntOfNumberString(n);
  }

  lemma QuantityInputWithoutDigits(value: string)
    requires ParseDigits(value) == ""
    ensures QuantityInput(value) == 1
  {
  }

  /** The `newResource` form state. `rtype` is the select's string value. */
  datatype ResourceForm = ResourceForm(
    rtype: string,
    resourceName: string,
    quantity: int,
    location: string,
    description: string)

  /** The inputs of the form, by their `name` attribute. */
  datatype FormField = TypeField | NameField | QuantityField | LocationField | DescriptionField

  /** The form's initial and reset value. */
  function EmptyForm(): ResourceForm
  {
    ResourceForm("offer", "", 1, "", "")
  }

  /** The body the form posts, as the create route receives it. */
  function FormDoc(f: ResourceForm): ResourceDoc
  {
    ResourceDoc(Some(f.rtype), Some(f.resourceName), Number(f.quantity), Some(f.location), Some(f.description), None)
  }

  /** A form with a valid type and every text field filled is stored by the
      create route, with the caller as owner and the form's values. */
  lemma FilledFormIsAccepted(f: ResourceForm, caller: Id, id: Id, now: nat)
    requires f.rtype == "offer" || f.rtype == "request"
    requires f.resourceName != "" && f.location != "" && f.description != ""
    ensures var r := NewResource(FormDoc(f).(userId := Some(caller)), id, now);
            && r.Created? && r.value.owner == caller && r.value.quantity == f.quantity
            && TypeName(r.value.rtype) == f.rtype && r.value.resourceName == f.resourceName
  {
  }

  /** The untouched form is refused: its name, location and description are empty. */
  lemma EmptyFormIsRejected(caller: Id, id: Id, now: nat)
    ensures var r := NewResource(FormDoc(EmptyForm()).(userId := Some(caller)), id, now);
            && r.Rejected?
            && Required("resource_name") in r.errors && Required("location") in r.errors
            && Required("description") in r.errors
  {
  }

  class ResourcesPage {
    var newResource: ResourceForm
    var isCreating: bool

    constructor ()
      ensures newResource == EmptyForm() && !isCreating
    {
      newResource := EmptyForm();
      isCreating := false;
    }

    /** `handleInputChange`: the quantity field is coerced, every other
        field takes the value as typed. */
    method HandleInputChange(field: FormField, value: string)
      modifies this`newResource
      ensures newResource == match field
        case TypeField => old(newResource).(rtype := value)
        case NameField => old(newResource).(resourceName := value)
        case QuantityField => old(newResource).(quantity := QuantityInput(value))
        case LocationField => old(newResource).(location := value)
        case DescriptionField => old(newResource).(description := value)
    {
      match field
      case TypeField => newResource := newResource.(rtype := value);
      case NameField => newResource := newResource.(resourceName := value);
      case QuantityField => newResource := newResource.(quantity := QuantityInput(value));
      case LocationField => newResource := newResource.(location := value);
      case DescriptionField => newResource := newResource.(description := value);
    }

    /** `handleCreateResource`: with no signed-in user nothing is posted and
        nothing changes. Otherwise the form is posted; when the post
        succeeds the form closes and resets, and when it fails the form
        stays as it was. */
    method HandleCreateResource(signedIn: bool, succeeded: bool) returns (posted: Option<ResourceDoc>)
      modifies this`newResource, this`isCreating
      ensures !signedIn ==> posted == None && newResource == old(newResource) && isCreating == old(isCreating)
      ensures signedIn ==> posted == Some(FormDoc(old(newResource)))
      ensures signedIn && succeeded ==> newResource == EmptyForm() && !isCreating
      ensures signedIn && !succeeded ==> newResource == old(newResource) && isCreating == old(isCreating)
    {
      if !signedIn {
        return None;
      }
      posted := Some(FormDoc(newResource));
      if succeeded {
        isCreating := false;
        newResource := EmptyForm();
      }
    }
  }
}
