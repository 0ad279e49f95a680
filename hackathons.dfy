/**
 * The hackathons section: its list read from the document with an empty
 * default, its points rendered as bullets, and its edits saved through the
 * generic list editor under the one key `hackathons`.
 */
module Hackathons {
  import opened Wrappers
  import opened JsString
  import opened Seqs
  import opened Json
  import opened ListText
  import opened ArrayEditDialog
  import opened EditModeContext

  const SectionKey: string := "hackathons"

  /** The bullet character a rendered point starts with (U+2022). */
  const Bullet: char := '•'

  /**
   * A point as rendered: kept as it is when it already starts with the
   * bullet, otherwise prefixed with the bullet and a space. The experience
   * section renders its points by the same rule.
   */
  function BulletPoint(point: string): (r: string)
    ensures StartsWith(r, [Bullet])
    ensures EndsWith(r, point)
  {
    if StartsWith(point, [Bullet]) then point else [Bullet, ' '] + point
  }

  /** A point is left unchanged exactly when it already starts with the bullet. */
  lemma BulletPointUnchangedIff(point: string)
    ensures BulletPoint(point) == point <==> StartsWith(point, [Bullet])
  {
    if !StartsWith(point, [Bullet]) {
      assert |BulletPoint(point)| == |point| + 2;
    }
  }

  /** Rendering a rendered point again changes nothing. */
  lemma BulletPointIdempotent(point: string)
    ensures BulletPoint(BulletPoint(point)) == BulletPoint(point)
  {
    BulletPointUnchangedIff(BulletPoint(point));
  }

  /** The fields the editor is configured with: three text fields and the points, one per line. */
  const HackathonFields: seq<Field> := [
    Field("year", "Year/Period", Text),
    Field("title", "Title", Text),
    Field("organization", "Organization", Text),
    Field("points", "Key Points (one per line)", Array)]

  /** "Add" in the editor creates a hackathon with empty year, title and organization and no points. */
  lemma NewHackathon()
    ensures NewItem(HackathonFields) ==
      map["year" := JStr(""), "title" := JStr(""), "organization" := JStr(""), "points" := JArr([])]
  {
    var fs := HackathonFields;
    var item := NewItem(fs);
    assert fs[3].name == "points" && LastWithName(fs, 3);
    assert fs[2].name == "organization" && LastWithName(fs, 2);
    assert fs[1].name == "title" && LastWithName(fs, 1);
    assert fs[0].name == "year" && LastWithName(fs, 0);
    forall n | n in item ensures n in {"year", "title", "organization", "points"} {
      NamesOnly(fs, n);
    }
  }

  /**
   * The points of one hackathon as rendered, or `None` where the source fails:
   * the record is not an object, or its `points` is missing, not an array or
   * holds a value that is not a string.
   */
  function RenderedPoints(hack: Json): (r: Option<seq<string>>)
    ensures r.Some? <==>
      hack.JObj? && "points" in hack.fields && hack.fields["points"].JArr? && AllStrings(hack.fields["points"].items)
    ensures r.Some? ==>
      |r.value| == |hack.fields["points"].items| &&
      forall i :: 0 <= i < |r.value| ==> r.value[i] == BulletPoint(hack.fields["points"].items[i].s)
  {
    if hack.JObj? && "points" in hack.fields && hack.fields["points"].JArr? && AllStrings(hack.fields["points"].items)
    then Some(Map(StringsOf(hack.fields["points"].items), BulletPoint))
    else None
  }

  /** After the points are typed into the editor, each non-blank line is rendered as one bullet. */
  lemma EditedPointsRender(item: Doc, text: string)
    ensures RenderedPoints(JObj(item["points" := ArrayFieldValue(text)])) == Some(Map(ParseLines(text), BulletPoint))
  {
    var lines := ParseLines(text);
    assert ArrayFieldValue(text).items == Strs(lines);
    assert StringsOf(Strs(lines)) == lines;
  }

  /** A new hackathon renders no points. */
  lemma NewHackathonRendersNoPoints()
    ensures RenderedPoints(JObj(NewItem(HackathonFields))) == Some([])
  {
    NewHackathon();
  }

  /** A first visit has no hackathons: the list reads as empty instead of failing. */
  lemma DefaultHasNoHackathons()
    ensures ListOrEmpty(DefaultProfileData(), SectionKey) == Some([])
  {
    DefaultLacksSections();
  }

  /** The editor's save: the list goes under `hackathons`, and no other key changes. */
  method HandleSave(provider: EditModeProvider, data: seq<Json>)
    modifies provider
    ensures provider.profileData == SaveSection(old(provider.profileData), SectionKey, data)
    ensures provider.Valid() && provider.isEditMode == old(provider.isEditMode)
    ensures provider.storage == old(provider.storage)[CacheKey := provider.profileData]
  {
    provider.UpdateProfileData(SaveSection(provider.profileData, SectionKey, data));
  }

  /** Reading the section back after a save gives exactly the saved list. */
  lemma SavedHackathonsReadBack(doc: Doc, data: seq<Json>)
    ensures ListOrEmpty(SaveSection(doc, SectionKey, data), SectionKey) == Some(data)
    ensures forall k :: k in doc && k != SectionKey ==> SaveSection(doc, SectionKey, data)[k] == doc[k]
  {
  }
}
