/** The Dashboard's helpers: reshaping the loaded signups, the three-item
    previews with their "+N more" line, and the badges' labels and colours. */
module Dashboard {
  import opened Base
  import opened Text
  import opened Entities
  import opened SignupModel
  import opened ResourceModel
  import opened OpportunityRoutes

  /** A signup as the dashboard keeps it. `opportunityId` is what
      `opportunity_id._id` reads: the populated opportunity's id, or
      nothing when `opportunity_id` was left as a bare id. */
  datatype DashboardSignup = DashboardSignup(
    id: Id,
    owner: Id,
    opportunityId: Option<Id>,
    status: string,
    opportunity: OpportunityRef)

  /** `opportunity_id._id` throws on a `null` opportunity, which sends the
      whole load to its error branch: `None` then, and `setSignups` is not
      called, so the dashboard's signups stay as they were. */
  function Reshape(v: SignupView): Option<DashboardSignup>
  {
    match v.opportunity
    case Populated(Some(o)) => Some(DashboardSignup(v.id, v.owner, Some(o.id), StatusName(v.status), v.opportunity))
    case Populated(None) => None
    case ById(_) => Some(DashboardSignup(v.id, v.owner, None, StatusName(v.status), v.opportunity))
  }

  /** `signupsData.map(...)`. */
  function ReshapeSignups(views: seq<SignupView>): (r: Option<seq<DashboardSignup>>)
    ensures r.Some? <==> forall i :: 0 <= i < |views| ==> views[i].opportunity != Populated(None)
    ensures r.Some? ==> |r.value| == |views|
    ensures r.Some? ==> forall i :: 0 <= i < |views| ==> Some(r.value[i]) == Reshape(views[i])
  {
    if views == [] then Some([])
    else
      var head := Reshape(views[0]);
      var rest := ReshapeSignups(views[1..]);
      if head.Some? && rest.Some? then Some([head.value] + rest.value) else None
  }

  /** Each reshaped signup keeps its id, owner and status, and carries the
      populated opportunity both as `opportunity` and through its id. */
  lemma ReshapedSignupsCarryOpportunity(views: seq<SignupView>)
    requires ReshapeSignups(views).Some?
    ensures forall i :: 0 <= i < |views| ==>
              var d := ReshapeSignups(views).value[i];
              && d.id == views[i].id && d.owner == views[i].owner
              && d.status == StatusName(views[i].status)
              && d.opportunity == views[i].opportunity
              && (views[i].opportunity.Populated? ==>
                    d.opportunityId == Some(views[i].opportunity.doc.value.id))
  {
  }

  /** `list.slice(0, 3)`. */
  function Preview<T>(s: seq<T>): (r: seq<T>)
    ensures |r| == if |s| < 3 then |s| else 3
    ensures forall i :: 0 <= i < |r| ==> r[i] == s[i]
  {
    if |s| <= 3 then s else s[..3]
  }

  /** The "+ N more" line: shown iff the list is longer than three. */
  function MoreCount(n: nat): (r: Option<nat>)
    ensures r.Some? <==> n > 3
    ensures r.Some? ==> r.value == n - 3
  {
    if n > 3 then Some(n - 3) else None
  }

  /** The preview and the "+ N more" line together account for every item. */
  lemma PreviewAndMoreCoverAll<T>(s: seq<T>)
    ensures |Preview(s)| + WithDefault(MoreCount(|s|), 0) == |s|
    ensures MoreCount(|s|).Some? ==> |Preview(s)| == 3
  {
  }

  datatype Colour = Green | Yellow | Gray | Teal | Orange

  /** The status badge: green for 'confirmed', yellow for 'pending', gray otherwise. */
  function StatusColour(status: string): Colour
  {
    if status == "confirmed" then Green else if status == "pending" then Yellow else Gray
  }

  /** On the three statuses the schema allows, each gets its own colour and
      a capitalised label. */
  lemma StatusBadges()
    ensures StatusColour(StatusName(Confirmed)) == Green && Capitalize(StatusName(Confirmed)) == "Confirmed"
    ensures StatusColour(StatusName(Pending)) == Yellow && Capitalize(StatusName(Pending)) == "Pending"
    ensures StatusColour(StatusName(Cancelled)) == Gray && Capitalize(StatusName(Cancelled)) == "Cancelled"
  {
    assert Capitalize("confirmed") == [UpperChar('c')] + "onfirmed";
    assert Capitalize("pending") == [UpperChar('p')] + "ending";
    assert Capitalize("cancelled") == [UpperChar('c')] + "ancelled";
  }

  /** The type badge: teal for 'offer', orange otherwise. */
  function TypeColour(rtype: string): Colour
  {
    if rtype == "offer" then Teal else Orange
  }

  lemma TypeBadges()
    ensures TypeColour(TypeName(Offer)) == Teal && Capitalize(TypeName(Offer)) == "Offer"
    ensures TypeColour(TypeName(Request)) == Orange && Capitalize(TypeName(Request)) == "Request"
  {
    assert Capitalize("offer") == [UpperChar('o')] + "ffer";
    assert Capitalize("request") == [UpperChar('r')] + "equest";
  }
}
