/** The Community Tips page: the category filter, the random featured tip,
    and the built-in tips shown when the listing cannot be loaded. */
module TipsPage {
  import opened Base
  import opened Seqs

  /** A tip as the page reads it. */
  datatype ClientTip = ClientTip(id: int, text: string, category: string)

  /** The category buttons, 'All Categories' first. */
  function TipCategories(): seq<string>
  {
    ["All Categories", "Volunteering Basics", "Resource Sharing", "Community Building",
     "Safety", "Communication", "Leadership"]
  }

  /** `filteredTips`: every tip for 'All Categories', else those of the category. */
  function FilterTips(tips: seq<ClientTip>, category: string): seq<ClientTip>
  {
    if category == "All Categories" then tips
    else Filter(tips, (t: ClientTip) => t.category == category)
  }

  /** The shown tips keep their order; for a category other than 'All
      Categories' they are exactly the tips of that category. */
  lemma FilterTipsCorrect(tips: seq<ClientTip>, category: string)
    ensures category == "All Categories" ==> FilterTips(tips, category) == tips
    ensures IsSubsequence(FilterTips(tips, category), tips)
    ensures category != "All Categories" ==>
              forall t :: t in FilterTips(tips, category) <==> t in tips && t.category == category
  {
    if category == "All Categories" {
      FilterKeepsAll(tips, (t: ClientTip) => true);
      FilterIsSubsequence(tips, (t: ClientTip) => true);
    } else {
      FilterIsSubsequence(tips, (t: ClientTip) => t.category == category);
    }
  }

  /** The text of the built-in tip at position `i`. */
  function FallbackText(i: nat): string
    requires i < 10
  {
    if i == 0 then "Always confirm the details of a volunteer opportunity before committing to ensure it aligns with your schedule and skills."
    else if i == 1 then "When sharing resources, provide clear photos and detailed descriptions to ensure recipients know exactly what they're receiving."
    else if i == 2 then "Meet in public places when exchanging resources for the first time with someone you don't know."
    else if i == 3 then "Start small with your volunteer commitments and gradually increase as you become more comfortable with the process."
    else if i == 4 then "Consider organizing community events that bring together volunteers and resource providers to strengthen local connections."
    else if i == 5 then "Always communicate clearly and promptly with both volunteer coordinators and resource recipients to maintain trust."
    else if i == 6 then "Document your volunteer hours and impacts - they may be useful for resumes, college applications, or personal growth tracking."
    else if i == 7 then "Before requesting resources, check if you might be able to find what you need through existing community programs."
    else if i == 8 then "When leading volunteer groups, delegate tasks based on individual strengths and interests for maximum effectiveness."
    else "Share your positive experiences to inspire others to join volunteer efforts in your community."
  }

  /** The category of the built-in tip at position `i`. */
  function FallbackCategory(i: nat): string
    requires i < 10
  {
    if i == 0 then "Volunteering Basics"
    else if i == 1 then "Resource Sharing"
    else if i == 2 then "Safety"
    else if i == 3 then "Volunteering Basics"
    else if i == 4 then "Community Building"
    else if i == 5 then "Communication"
    else if i == 6 then "Volunteering Basics"
    else if i == 7 then "Resource Sharing"
    else if i == 8 then "Leadership"
    else "Community Building"
  }

  /** `getFallbackTips()`: the tip at position `i` has id `i + 1`. */
  function FallbackTips(): seq<ClientTip>
  {
    seq(10, i requires 0 <= i < 10 => ClientTip(i + 1, FallbackText(i), FallbackCategory(i)))
  }

  /** Ten built-in tips with distinct ids 1 to 10 in order, each in one of
      the page's categories other than 'All Categories'. */
  lemma FallbackTipsShape()
    ensures |FallbackTips()| == 10
    ensures forall i :: 0 <= i < 10 ==> FallbackTips()[i].id == i + 1
    ensures forall i, j :: 0 <= i < j < 10 ==> FallbackTips()[i].id != FallbackTips()[j].id
    ensures forall i :: 0 <= i < 10 ==> FallbackTips()[i].category in TipCategories()[1..]
  {
    var c := TipCategories()[1..];
    forall i | 0 <= i < 10 ensures FallbackCategory(i) in c {
      var k := if i == 0 || i == 3 || i == 6 then 0
               else if i == 1 || i == 7 then 1
               else if i == 4 || i == 9 then 2
               else if i == 2 then 3
               else if i == 5 then 4
               else 5;
      assert c[k] == FallbackCategory(i);
    }
  }

  /** What the listing request gave: a failure, or the response's `data`,
      which may be absent. */
  datatype TipsResponse = RequestFailed | Received(data: Option<seq<ClientTip>>)

  class CommunityTipsPage {
    var tips: seq<ClientTip>
    var loading: bool
    var selectedCategory: string
    var randomTip: Option<ClientTip>

    constructor ()
      ensures tips == [] && loading && selectedCategory == "All Categories" && randomTip == None
    {
      tips := [];
      loading := true;
      selectedCategory := "All Categories";
      randomTip := None;
    }

    /** `fetchTips`: the loaded tips, or the built-in ones when the request
        fails; a featured tip is drawn from them when there is one, and
        kept as it was otherwise. `Math.random` is a free choice of index. */
    method FetchTips(response: TipsResponse)
      modifies this`tips, this`loading, this`randomTip
      ensures response.RequestFailed? ==> tips == FallbackTips()
      ensures response == Received(None) ==> tips == []
      ensures response.Received? && response.data.Some? ==> tips == response.data.value
      ensures |tips| > 0 ==> randomTip.Some? && randomTip.value in tips
      ensures |tips| == 0 ==> randomTip == old(randomTip)
      ensures !loading
    {
      loading := true;
      match response {
      case Received(data) =>
        tips := WithDefault(data, []);
        if data.Some? && |data.value| > 0 {
          var i :| 0 <= i < |data.value|;
          randomTip := Some(data.value[i]);
        }
      case RequestFailed =>
        var fallback := FallbackTips();
        tips := fallback;
        if |fallback| > 0 {
          var i :| 0 <= i < |fallback|;
          randomTip := Some(fallback[i]);
        }
      }
      loading := false;
    }

    /** A category button. */
    method SelectCategory(category: string)
      modifies this`selectedCategory
      ensures selectedCategory == category
    {
      selectedCategory := category;
    }

    /** `getNewRandomTip`: a tip drawn from the shown ones, so of the
        selected category unless that is 'All Categories'; with none shown
        the featured tip stays. */
    method GetNewRandomTip()
      modifies this`randomTip
      ensures |FilterTips(tips, selectedCategory)| == 0 ==> randomTip == old(randomTip)
      ensures |FilterTips(tips, selectedCategory)| > 0 ==>
                randomTip.Some? && randomTip.value in FilterTips(tips, selectedCategory)
      ensures |FilterTips(tips, selectedCategory)| > 0 && selectedCategory != "All Categories" ==>
                randomTip.value.category == selectedCategory
    {
      var shown := FilterTips(tips, selectedCategory);
      FilterTipsCorrect(tips, selectedCategory);
      if |shown| > 0 {
        var i :| 0 <= i < |shown|;
        randomTip := Some(shown[i]);
      }
    }
  }
}
