/**
 * The project page at `/project/{index}`: which pet project the route names,
 * whether it exists, the Previous/Next buttons and the author shown.
 */
module ProjectDetail {
  import opened Wrappers
  import opened Json
  import opened JsNumber
  import opened EditModeContext
  import opened PetProjects

  /** The route prefix of a project page. */
  const RoutePrefix: string := "/project/"

  /** `parseInt(projectId || "0")`: a missing or empty parameter reads as `"0"`. */
  function ProjectIndex(projectId: Option<string>): (p: Parsed)
    ensures projectId.None? || projectId.value == "" ==> p == ParseInt("0")
    ensures projectId.Some? && projectId.value != "" ==> p == ParseInt(projectId.value)
  {
    var id := if projectId.None? || projectId.value == "" then "0" else projectId.value;
    ParseInt(id)
  }

  /** What the page shows: the not-found view, or the project at a position of the list. */
  datatype View = NotFound | Found(index: int, project: Json)

  /** `projects[projectIndex]`, and the not-found view when that is not a truthy value. */
  function Lookup(projects: seq<Json>, index: Parsed): (v: View)
    ensures v.Found? <==> index.Num? && 0 <= index.n < |projects| && Truthy(projects[index.n])
    ensures v.Found? ==> v.index == index.n && v.project == projects[index.n]
  {
    if index.Num? && 0 <= index.n < |projects| && Truthy(projects[index.n]) then Found(index.n, projects[index.n])
    else NotFound
  }

  /** The page for a route parameter over a document whose pet projects are a list. */
  function Resolve(doc: Doc, projectId: Option<string>): (v: View)
    requires PetProjectsOrEmpty(doc).Some?
    ensures var projects := PetProjectsOrEmpty(doc).value; var p := ProjectIndex(projectId);
      v.Found? <==> p.Num? && 0 <= p.n < |projects| && Truthy(projects[p.n])
    ensures v.Found? ==> 0 <= v.index < |PetProjectsOrEmpty(doc).value| && v.project == PetProjectsOrEmpty(doc).value[v.index]
  {
    Lookup(PetProjectsOrEmpty(doc).value, ProjectIndex(projectId))
  }

  /** "Previous" is offered past the first position. */
  predicate ShowPrevious(index: int) { index > 0 }

  /** "Next" is offered before the last position. */
  predicate ShowNext(projects: seq<Json>, index: int) { index < |projects| - 1 }

  /** The route the buttons navigate to. */
  function Route(index: int): string {
    RoutePrefix + NumberToString(index)
  }

  /** The characters of `s` before its first `/`. */
  function FirstSegment(s: string): (seg: string)
    ensures |seg| <= |s| && seg == s[..|seg|]
    ensures '/' !in seg
    ensures |seg| < |s| ==> s[|seg|] == '/'
  {
    if s == [] || s[0] == '/' then [] else [s[0]] + FirstSegment(s[1..])
  }

  predicate AllSlashes(s: string) {
    forall i :: 0 <= i < |s| ==> s[i] == '/'
  }

  /**
   * `route` is the project route for the parameter `seg`: the prefix, the
   * parameter, then nothing but (ignored) trailing slashes.
   */
  ghost predicate RouteOf(route: string, seg: string) {
    && |RoutePrefix| + |seg| <= |route|
    && route[..|RoutePrefix| + |seg|] == RoutePrefix + seg
    && AllSlashes(route[|RoutePrefix| + |seg|..])
  }

  /**
   * The parameter the router extracts for `/project/:projectId`: one
   * non-empty path segment after the prefix, which may be followed by
   * trailing slashes only. Any other route falls through to the catch-all
   * not-found page.
   */
  function RouteParam(route: string): (p: Option<string>)
    ensures p.Some? ==> p.value != [] && '/' !in p.value && RouteOf(route, p.value)
    ensures forall seg {:trigger RouteOf(route, seg)} :: seg != [] && '/' !in seg && RouteOf(route, seg) ==> p == Some(seg)
  {
    if |RoutePrefix| <= |route| && route[..|RoutePrefix|] == RoutePrefix then
      var rest := route[|RoutePrefix|..];
      var seg := FirstSegment(rest);
      RouteOfRest(route, seg);
      assert forall other {:trigger RouteOf(route, other)} :: other != [] && '/' !in other && RouteOf(route, other) ==> other == seg by {
        forall other | other != [] && '/' !in other && RouteOf(route, other)
          ensures other == seg
        {
          RouteOfRest(route, other);
          OnlySegment(rest, other, seg);
        }
      }
      if seg != [] && AllSlashes(rest[|seg|..]) then Some(seg) else None
    else None
  }

  /** Two slash-free prefixes that each end at a `/` or at the end of `s` are the same. */
  lemma OnlySegment(s: string, a: string, b: string)
    requires |a| <= |s| && a == s[..|a|] && '/' !in a && (|a| < |s| ==> s[|a|] == '/')
    requires |b| <= |s| && b == s[..|b|] && '/' !in b && (|b| < |s| ==> s[|b|] == '/')
    ensures a == b
  {
  }

  /** Past the prefix, a route matches a parameter exactly when its rest starts with it and then has only slashes. */
  lemma RouteOfRest(route: string, seg: string)
    requires |RoutePrefix| <= |route| && route[..|RoutePrefix|] == RoutePrefix
    ensures var rest := route[|RoutePrefix|..];
      RouteOf(route, seg) <==> |seg| <= |rest| && rest[..|seg|] == seg && AllSlashes(rest[|seg|..])
  {
    var rest := route[|RoutePrefix|..];
    if |seg| <= |rest| {
      assert route[|RoutePrefix| + |seg|..] == rest[|seg|..];
      if rest[..|seg|] == seg {
        assert route[..|RoutePrefix| + |seg|] == route[..|RoutePrefix|] + rest[..|seg|];
      }
      if route[..|RoutePrefix| + |seg|] == RoutePrefix + seg {
        assert rest[..|seg|] == (RoutePrefix + seg)[|RoutePrefix|..];
      }
    }
  }

  /** The bare prefix `/project/` has no parameter, so it is not a project route. */
  lemma BarePrefixIsNotAProjectRoute()
    ensures RouteParam(RoutePrefix) == None
    ensures RouteParam(RoutePrefix + "/") == None
  {
  }

  /** A route built for an index reads back as that index. */
  lemma RouteReadsBack(index: int)
    ensures RouteParam(Route(index)) == Some(NumberToString(index))
    ensures ProjectIndex(RouteParam(Route(index))) == Num(index)
  {
    var route := Route(index);
    var seg := NumberToString(index);
    assert '/' !in seg by {
      forall i | 0 <= i < |seg| ensures seg[i] != '/' { }
    }
    assert route[..|RoutePrefix| + |seg|] == RoutePrefix + seg;
    assert route[|RoutePrefix| + |seg|..] == [];
    assert RouteOf(route, seg);
    ParseIntOfNumberToString(index);
  }

  /**
   * On a project page, each button that is shown leads to a position inside
   * the list, and its route reads back as that position.
   */
  lemma NavigationInBounds(projects: seq<Json>, projectId: Option<string>)
    requires Lookup(projects, ProjectIndex(projectId)).Found?
    ensures var i := Lookup(projects, ProjectIndex(projectId)).index;
      && (ShowPrevious(i) ==> 0 <= i - 1 < |projects| && ProjectIndex(RouteParam(Route(i - 1))) == Num(i - 1))
      && (ShowNext(projects, i) ==> 0 <= i + 1 < |projects| && ProjectIndex(RouteParam(Route(i + 1))) == Num(i + 1))
  {
    var i := Lookup(projects, ProjectIndex(projectId)).index;
    RouteReadsBack(i - 1);
    RouteReadsBack(i + 1);
  }

  /** The author shown in the header and byline: a truthy `hero.name`, or the owner's name. */
  function AuthorName(doc: Doc): (name: Json)
    ensures Truthy(name)
    ensures "hero" in doc && doc["hero"].JObj? && "name" in doc["hero"].fields && Truthy(doc["hero"].fields["name"])
      ==> name == doc["hero"].fields["name"]
    ensures !("hero" in doc && doc["hero"].JObj? && "name" in doc["hero"].fields && Truthy(doc["hero"].fields["name"]))
      ==> name == JStr(OwnerName)
  {
    if "hero" in doc && doc["hero"].JObj? && "name" in doc["hero"].fields && Truthy(doc["hero"].fields["name"])
    then doc["hero"].fields["name"]
    else JStr(OwnerName)
  }

  /** The default document shows the owner's name. */
  lemma DefaultAuthor()
    ensures AuthorName(DefaultProfileData()) == JStr(OwnerName)
  {
    DefaultHeroName();
  }

  /**
   * Whether the features list is rendered: `features` must be truthy with a
   * positive `length`. A non-empty array is listed; a non-empty string passes
   * that test but has no `map`, so rendering the page fails (`None`).
   */
  function FeaturesShown(project: Json): (shown: Option<bool>)
    ensures shown == Some(true) <==>
      project.JObj? && "features" in project.fields && project.fields["features"].JArr? && project.fields["features"].items != []
    ensures shown.None? <==>
      project.JObj? && "features" in project.fields && project.fields["features"].JStr? && project.fields["features"].s != []
  {
    if project.JObj? && "features" in project.fields then
      match project.fields["features"]
      case JArr(items) => Some(|items| > 0)
      case JStr(s) => if |s| > 0 then None else Some(false)
      case _ => Some(false)
    else Some(false)
  }

  /** The default document has no pet projects, so every project route on it shows the not-found view. */
  lemma DefaultHasNoProjectPages(projectId: Option<string>)
    ensures PetProjectsOrEmpty(DefaultProfileData()).Some?
    ensures Resolve(DefaultProfileData(), projectId) == NotFound
  {
    FirstVisitShowsNone();
  }
}
