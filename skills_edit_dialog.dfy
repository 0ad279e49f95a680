/**
 * The skills editor: both skill lists are shown as comma lists, edited as
 * text, and read back into the document under their two keys.
 */
module SkillsEditDialog {
  import opened Wrappers
  import opened Json
  import opened ListText

  const TechnicalKey: string := "technicalSkills"
  const SoftKey: string := "softSkills"

  /**
   * The starting text for one list, `profileData[key].join(', ')`; `None`
   * when the key is missing or does not hold an array (the source fails there).
   */
  function InitialText(doc: Doc, key: string): (t: Option<string>)
    ensures t.Some? <==> key in doc && doc[key].JArr?
    ensures t.Some? ==> t.value == JoinValues(doc[key].items, ", ")
  {
    if key in doc && doc[key].JArr? then Some(JoinValues(doc[key].items, ", ")) else None
  }

  /** The list stored for the text of one input. */
  function SkillsValue(text: string): (v: Json)
    ensures v.JArr? && AllStrings(v.items)
  {
    var skills := ParseCommaList(text);
    JArr(Strs(skills))
  }

  /** Every stored skill is trimmed, non-empty and comma-free. */
  lemma SkillsAreClean(text: string)
    ensures forall i :: 0 <= i < |SkillsValue(text).items| ==> CleanCommaItem(SkillsValue(text).items[i].s)
  {
    var skills := ParseCommaList(text);
    assert forall i :: 0 <= i < |skills| ==> SkillsValue(text).items[i].s == skills[i];
  }

  /** Save: both lists are replaced from their texts; every other key is kept. */
  function SaveSkills(doc: Doc, technical: string, soft: string): (r: Doc)
    ensures r.Keys == doc.Keys + {TechnicalKey, SoftKey}
    ensures r[TechnicalKey] == SkillsValue(technical) && r[SoftKey] == SkillsValue(soft)
    ensures forall k :: k in doc && k != TechnicalKey && k != SoftKey ==> r[k] == doc[k]
  {
    WithKey(WithKey(doc, TechnicalKey, SkillsValue(technical)), SoftKey, SkillsValue(soft))
  }

  /** A list of clean skills, stored as JSON strings. */
  predicate CleanSkills(v: Json) {
    v.JArr? && AllStrings(v.items) && forall i :: 0 <= i < |v.items| ==> CleanCommaItem(v.items[i].s)
  }

  /** Showing a clean list and reading its text back gives the list again. */
  lemma CleanSkillsRoundTrip(v: Json)
    requires CleanSkills(v)
    ensures SkillsValue(JoinValues(v.items, ", ")) == v
  {
    var skills := StringsOf(v.items);
    JoinStrs(skills, ", ");
    CommaRoundTrip(skills);
  }

  /** Opening the dialog and saving without edits leaves a document with clean skill lists as it was. */
  lemma SaveWithoutEdits(doc: Doc)
    requires TechnicalKey in doc && CleanSkills(doc[TechnicalKey])
    requires SoftKey in doc && CleanSkills(doc[SoftKey])
    ensures InitialText(doc, TechnicalKey).Some? && InitialText(doc, SoftKey).Some?
    ensures SaveSkills(doc, InitialText(doc, TechnicalKey).value, InitialText(doc, SoftKey).value) == doc
  {
    ShownReadsBack(doc, TechnicalKey);
    ShownReadsBack(doc, SoftKey);
    SaveSame(doc, InitialText(doc, TechnicalKey).value, InitialText(doc, SoftKey).value);
  }

  lemma ShownReadsBack(doc: Doc, key: string)
    requires key in doc && CleanSkills(doc[key])
    ensures InitialText(doc, key).Some? && SkillsValue(InitialText(doc, key).value) == doc[key]
  {
    CleanSkillsRoundTrip(doc[key]);
  }

  lemma SaveSame(doc: Doc, technical: string, soft: string)
    requires TechnicalKey in doc && SkillsValue(technical) == doc[TechnicalKey]
    requires SoftKey in doc && SkillsValue(soft) == doc[SoftKey]
    ensures SaveSkills(doc, technical, soft) == doc
  {
    WithKeySame(doc, TechnicalKey);
    WithKeySame(doc, SoftKey);
  }

  /** Whatever was typed, saving, reopening and saving again changes nothing more. */
  lemma SaveIdempotent(doc: Doc, technical: string, soft: string)
    ensures var saved := SaveSkills(doc, technical, soft);
      && InitialText(saved, TechnicalKey).Some? && InitialText(saved, SoftKey).Some?
      && SaveSkills(saved, InitialText(saved, TechnicalKey).value, InitialText(saved, SoftKey).value) == saved
  {
    SkillsAreClean(technical);
    SkillsAreClean(soft);
    SaveWithoutEdits(SaveSkills(doc, technical, soft));
  }
}
