/** The Profile page: the comma-separated skills and interests fields, the
    form filled from the loaded profile, and the update it submits. */
module ProfilePage {
  import opened Base
  import opened Seqs
  import opened Text
  import opened Entities
  import opened UserRoutes

  /** `.map((x) => x.trim())`. */
  function TrimAll(xs: seq<string>): (r: seq<string>)
    ensures |r| == |xs|
    ensures forall i :: 0 <= i < |xs| ==> r[i] == Trim(xs[i])
  {
    if xs == [] then [] else [Trim(xs[0])] + TrimAll(xs[1..])
  }

  /** `.filter((x) => x)` on strings: "" is falsy. */
  function NonEmpty(x: string): bool { x != "" }

  /** A skills or interests field as submitted: split on ',', each piece
      trimmed, empty pieces dropped. */
  function ParseList(s: string): seq<string>
  {
    Filter(TrimAll(Split(s, ',')), NonEmpty)
  }

  /** A list as the form shows it: joined with ", "; a missing list is "". */
  function JoinList(o: Option<seq<string>>): string
  {
    if o.Some? then Join(o.value, ", ") else ""
  }

  /** What a parsed item may be: non-empty, trimmed and free of commas. */
  predicate CleanItem(x: string)
  {
    x != "" && Trimmed(x) && ',' !in x
  }

  /** Trimming only drops characters. */
  lemma TrimIsInfix(s: string)
    ensures forall c :: c in Trim(s) ==> c in s
  {
    var t := TrimStart(s);
    var r := TrimEnd(t);
    forall c | c in r ensures c in s {
      var k :| 0 <= k < |r| && r[k] == c;
      assert t[k] == c;
      assert s[|s| - |t| + k] == c;
    }
  }

  /** Every parsed item is non-empty, its own trim, and comma-free. */
  lemma ParsedItemsAreClean(s: string)
    ensures forall x :: x in ParseList(s) ==> CleanItem(x) && Trim(x) == x
  {
    var pieces := Split(s, ',');
    var trimmed := TrimAll(pieces);
    forall x | x in ParseList(s) ensures CleanItem(x) && Trim(x) == x {
      var k :| 0 <= k < |trimmed| && trimmed[k] == x;
      TrimIsTrimmed(pieces[k]);
      TrimIsTrimmed(x);
      TrimIsInfix(pieces[k]);
    }
  }

  /** A space after a separator makes no difference once pieces are trimmed. */
  lemma TrimAllSkipsLeadingSpace(j: string)
    ensures TrimAll(Split(" " + j, ',')) == TrimAll(Split(j, ','))
  {
    var s := " " + j;
    assert s[1..] == j;
    var rest := Split(j, ',');
    assert Split(s, ',') == [[' '] + rest[0]] + rest[1..];
    TrimSkipsLeadingSpace(' ', rest[0]);
  }

  lemma TrimAllCons(x: string, xs: seq<string>)
    ensures TrimAll([x] + xs) == [Trim(x)] + TrimAll(xs)
  {
    assert ([x] + xs)[1..] == xs;
  }

  /** Once the pieces are trimmed, splitting `x + ", " + j` yields the
      trimmed, comma-free `x` followed by the pieces of `j`. */
  lemma PiecesAfterSeparator(x: string, j: string)
    requires ',' !in x && Trimmed(x)
    ensures TrimAll(Split(x + [','] + (" " + j), ',')) == [x] + TrimAll(Split(j, ','))
  {
    SplitAfterPiece(x, ',', " " + j);
    TrimAllCons(x, Split(" " + j, ','));
    TrimAllSkipsLeadingSpace(j);
    TrimIsTrimmed(x);
  }

  /** Parsing what the form shows gives back the list, for items that are
      non-empty, trimmed and free of commas. */
  lemma {:induction false} ParseJoinRoundTrip(xs: seq<string>)
    requires forall i :: 0 <= i < |xs| ==> CleanItem(xs[i])
    ensures ParseList(Join(xs, ", ")) == xs
  {
    if |xs| == 0 {
      assert TrimAll(Split("", ',')) == [""];
    } else if |xs| == 1 {
      SplitWithoutSeparator(xs[0], ',');
      TrimIsTrimmed(xs[0]);
      assert TrimAll([xs[0]]) == [xs[0]];
    } else {
      var j := Join(xs[1..], ", ");
      assert Join(xs, ", ") == xs[0] + [','] + (" " + j);
      PiecesAfterSeparator(xs[0], j);
      var t := TrimAll(Split(j, ','));
      assert ([xs[0]] + t)[1..] == t;
      ParseJoinRoundTrip(xs[1..]);
    }
  }

  /** The form the page edits; each field is the text of its input. */
  datatype ProfileForm = ProfileForm(fullName: string, location: string, skills: string, interests: string)

  datatype FormField = NameField | LocationField | SkillsField | InterestsField

  /** The form filled from a loaded profile. */
  function FormOf(p: Profile): ProfileForm
  {
    ProfileForm(WithDefault(p.fullName, ""), WithDefault(p.location, ""), JoinList(p.skills), JoinList(p.interests))
  }

  /** The body `handleSubmit` sends; it never carries an avatar. */
  function UpdateOf(f: ProfileForm): ProfileUpdate
  {
    ProfileUpdate(Some(f.fullName), Some(f.location), Some(ParseList(f.skills)), Some(ParseList(f.interests)), None)
  }

  /** Loading a profile and saving the form untouched leaves the user as
      stored, when the stored lists are present and made of clean items. */
  lemma UntouchedFormKeepsUser(u: User)
    requires u.skills.Some? && forall i :: 0 <= i < |u.skills.value| ==> CleanItem(u.skills.value[i])
    requires u.interests.Some? && forall i :: 0 <= i < |u.interests.value| ==> CleanItem(u.interests.value[i])
    ensures Updated(u, UpdateOf(FormOf(ProfileOf(u)))) == u
  {
    ParseJoinRoundTrip(u.skills.value);
    ParseJoinRoundTrip(u.interests.value);
  }

  /** A user without skills or interests gets an empty list for them from an
      untouched save: the form shows "", which parses to `[]`, and `[]` is
      truthy, so it replaces the missing list. */
  lemma UntouchedFormFillsMissingLists(u: User)
    ensures u.skills.None? ==> Updated(u, UpdateOf(FormOf(ProfileOf(u)))).skills == Some([])
    ensures u.interests.None? ==> Updated(u, UpdateOf(FormOf(ProfileOf(u)))).interests == Some([])
  {
    var body := UpdateOf(FormOf(ProfileOf(u)));
    assert body.skills == Some(ParseList(JoinList(u.skills)));
    assert body.interests == Some(ParseList(JoinList(u.interests)));
    MissingListSubmitsEmpty(u.skills);
    MissingListSubmitsEmpty(u.interests);
  }

  /** The form shows a missing list as "", which submits `[]`. */
  lemma MissingListSubmitsEmpty(o: Option<seq<string>>)
    ensures o.None? ==> OrArray(Some(ParseList(JoinList(o))), o) == Some([])
  {
    EmptyFieldParsesToNothing();
  }

  /** An empty list field submits no items. */
  lemma EmptyFieldParsesToNothing()
    ensures ParseList("") == []
  {
    assert Split("", ',') == [""];
    assert Trim("") == "";
    assert TrimAll([""]) == [""];
  }

  class ProfilePage {
    var profile: Option<Profile>
    var formData: ProfileForm
    var isEditing: bool
    var loading: bool

    constructor ()
      ensures profile == None && formData == ProfileForm("", "", "", "") && !isEditing && loading
    {
      profile := None;
      formData := ProfileForm("", "", "", "");
      isEditing := false;
      loading := true;
    }

    /** `fetchProfile`: nothing happens without a signed-in user. Otherwise
        a returned profile is kept and fills the form; `data` is `None` when
        the request failed or returned nothing. Loading ends either way. */
    method FetchProfile(signedIn: bool, data: Option<Profile>)
      modifies this`profile, this`formData, this`loading
      ensures !signedIn ==> profile == old(profile) && formData == old(formData) && loading == old(loading)
      ensures signedIn && data.Some? ==> profile == data && formData == FormOf(data.value) && !loading
      ensures signedIn && data.None? ==> profile == old(profile) && formData == old(formData) && !loading
    {
      if !signedIn {
        return;
      }
      loading := true;
      if data.Some? {
        profile := data;
        formData := FormOf(data.value);
      }
      loading := false;
    }

    /** `handleInputChange`: the field takes the value as typed. */
    method HandleInputChange(field: FormField, value: string)
      modifies this`formData
      ensures formData == match field
        case NameField => old(formData).(fullName := value)
        case LocationField => old(formData).(location := value)
        case SkillsField => old(formData).(skills := value)
        case InterestsField => old(formData).(interests := value)
    {
      match field
      case NameField => formData := formData.(fullName := value);
      case LocationField => formData := formData.(location := value);
      case SkillsField => formData := formData.(skills := value);
      case InterestsField => formData := formData.(interests := value);
    }

    /** `handleSubmit`: nothing is sent without a signed-in user. Otherwise
        the parsed form is sent. Whatever the server replies, the statement
        after the request refers to an undeclared `error` and throws, so the
        editor is never closed; loading ends. */
    method HandleSubmit(signedIn: bool) returns (sent: Option<ProfileUpdate>)
      modifies this`loading
      ensures !signedIn ==> sent == None && loading == old(loading)
      ensures signedIn ==> sent == Some(UpdateOf(formData)) && !loading
    {
      if !signedIn {
        return None;
      }
      loading := true;
      sent := Some(UpdateOf(formData));
      loading := false;
    }
  }
}
