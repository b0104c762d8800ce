/** The Opportunities page: the search and category filter, the
    already-signed-up test, and the sign-up and create-opportunity
    handlers. */
module OpportunitiesPage {
  import opened Base
  import opened Seqs
  import opened Text
  import opened Entities
  import opened OpportunityRoutes

  /** The category buttons, 'All Categories' first. */
  function Categories(): seq<string>
  {
    ["All Categories", "Education", "Health", "Environment", "Technology", "Arts", "Community"]
  }

  function NotAll(c: string): bool { c != "All Categories" }

  /** The create form's category options. */
  function FormCategories(): seq<string>
  {
    Filter(Categories(), NotAll)
  }

  lemma FirstCategoryIsDropped()
    ensures FormCategories() == Filter(Categories()[1..], NotAll)
  {
    assert !NotAll(Categories()[0]);
  }

  lemma OtherCategoriesAreKept()
    ensures forall i :: 0 <= i < |Categories()[1..]| ==> NotAll(Categories()[1..][i])
  {
    var c := Categories();
    forall i | 0 <= i < |c[1..]| ensures NotAll(c[1..][i]) {
      assert |c[1..][i]| < 14;
    }
  }

  /** The options are every category but 'All Categories', in the same order. */
  lemma FormCategoriesAreTheRest()
    ensures FormCategories() == Categories()[1..]
    ensures "All Categories" !in FormCategories()
  {
    FirstCategoryIsDropped();
    OtherCategoriesAreKept();
    FilterKeepsAll(Categories()[1..], NotAll);
  }

  predicate MatchesSearch(o: Opportunity, term: string)
  {
    var q := Lower(term);
    Includes(Lower(o.title), q) || Includes(Lower(o.description), q) || Includes(Lower(o.location), q)
  }

  predicate ShowOpportunity(o: Opportunity, term: string, category: string)
  {
    MatchesSearch(o, term) && (category == "All Categories" || o.category == category)
  }

  /** `filteredOpportunities`. */
  function FilterOpportunities(opportunities: seq<Opportunity>, term: string, category: string): seq<Opportunity>
  {
    Filter(opportunities, (o: Opportunity) => ShowOpportunity(o, term, category))
  }

  /** The shown opportunities keep their order; one is shown iff the term
      occurs in its title, description or location and the category is
      'All Categories' or its own. */
  lemma FilterOpportunitiesCorrect(opportunities: seq<Opportunity>, term: string, category: string)
    ensures IsSubsequence(FilterOpportunities(opportunities, term, category), opportunities)
    ensures forall o :: o in FilterOpportunities(opportunities, term, category) <==>
              && o in opportunities
              && (|| Includes(Lower(o.title), Lower(term))
                  || Includes(Lower(o.description), Lower(term))
                  || Includes(Lower(o.location), Lower(term)))
              && (category == "All Categories" || o.category == category)
  {
    FilterIsSubsequence(opportunities, (o: Opportunity) => ShowOpportunity(o, term, category));
  }

  /** `signup.opportunity_id === opportunityId`: strict equality holds only
      for an unpopulated id; an object or `null` never equals an id. */
  predicate RefIs(r: OpportunityRef, id: Id)
  {
    r.ById? && r.id == id
  }

  /** `isSignedUp(id)`, and the membership check in `handleSignUp`. */
  predicate IsSignedUp(signups: seq<SignupView>, id: Id)
  {
    exists i :: 0 <= i < |signups| && RefIs(signups[i].opportunity, id)
  }

  /** The signups listing always populates `opportunity_id`, so on the data
      the server sends the test is false for every id. */
  lemma PopulatedSignupsNeverMatch(signups: seq<SignupView>, id: Id)
    requires forall i :: 0 <= i < |signups| ==> signups[i].opportunity.Populated?
    ensures !IsSignedUp(signups, id)
  {
  }

  /** The create form, as `newOpportunity` holds it: every field is the
      text typed into its input. */
  datatype OpportunityForm = OpportunityForm(
    title: string,
    description: string,
    category: string,
    location: string,
    date: string,
    contact: string)

  datatype FormField = TitleField | DescriptionField | CategoryField | LocationField | DateField | ContactField

  /** The form's initial and reset value. */
  function EmptyForm(): OpportunityForm
  {
    OpportunityForm("", "", "Community", "", "", "")
  }

  class OpportunitiesPage {
    var signups: seq<SignupView>
    var newOpportunity: OpportunityForm
    var isCreating: bool

    constructor ()
      ensures signups == [] && newOpportunity == EmptyForm() && !isCreating
    {
      signups := [];
      newOpportunity := EmptyForm();
      isCreating := false;
    }

    /** `handleSignUp`: the id posted, if any. Nothing is posted without a
        signed-in user, or when a loaded signup already has that id. */
    method HandleSignUp(signedIn: bool, opportunityId: Id) returns (posted: Option<Id>)
      ensures posted.Some? <==> signedIn && !IsSignedUp(signups, opportunityId)
      ensures posted.Some? ==> posted.value == opportunityId
    {
      if !signedIn {
        return None;
      }
      if IsSignedUp(signups, opportunityId) {
        return None;
      }
      posted := Some(opportunityId);
    }

    /** `handleInputChange`: the field takes the value as typed. */
    method HandleInputChange(field: FormField, value: string)
      modifies this`newOpportunity
      ensures newOpportunity == match field
        case TitleField => old(newOpportunity).(title := value)
        case DescriptionField => old(newOpportunity).(description := value)
        case CategoryField => old(newOpportunity).(category := value)
        case LocationField => old(newOpportunity).(location := value)
        case DateField => old(newOpportunity).(date := value)
        case ContactField => old(newOpportunity).(contact := value)
    {
      match field
      case TitleField => newOpportunity := newOpportunity.(title := value);
      case DescriptionField => newOpportunity := newOpportunity.(description := value);
      case CategoryField => newOpportunity := newOpportunity.(category := value);
      case LocationField => newOpportunity := newOpportunity.(location := value);
      case DateField => newOpportunity := newOpportunity.(date := value);
      case ContactField => newOpportunity := newOpportunity.(contact := value);
    }

    /** `handleCreateOpportunity`: with no signed-in user nothing is posted
        and nothing changes. Otherwise the form is posted; a successful post
        closes the form and resets it, a failed one leaves it as it was. */
    method HandleCreateOpportunity(signedIn: bool, succeeded: bool) returns (posted: Option<OpportunityForm>)
      modifies this`newOpportunity, this`isCreating
      ensures !signedIn ==> posted == None && newOpportunity == old(newOpportunity) && isCreating == old(isCreating)
      ensures signedIn ==> posted == Some(old(newOpportunity))
      ensures signedIn && succeeded ==> newOpportunity == EmptyForm() && !isCreating
      ensures signedIn && !succeeded ==> newOpportunity == old(newOpportunity) && isCreating == old(isCreating)
    {
      if !signedIn {
        return None;
      }
      posted := Some(newOpportunity);
      if succeeded {
        isCreating := false;
        newOpportunity := EmptyForm();
      }
    }
  }
}
