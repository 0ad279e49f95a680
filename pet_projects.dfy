/**
 * Reading the `petProjects` section of the document, as the pet-projects
 * list writes it and as the project pages do.
 */
module PetProjects {
  import opened Wrappers
  import opened Json
  import opened EditModeContext

  const SectionKey: string := "petProjects"

  /**
   * The list as written: the section is read with no default, so a missing
   * section (or any value that is not an array) makes `projects.map` throw a
   * `TypeError`, shown here as `None`.
   */
  function PetProjectsAsWritten(doc: Doc): (r: Option<seq<Json>>)
    ensures r.Some? <==> SectionKey in doc && doc[SectionKey].JArr?
    ensures r.Some? ==> r.value == doc[SectionKey].items
  {
    if SectionKey in doc && doc[SectionKey].JArr? then Some(doc[SectionKey].items) else None
  }

  /** On a first visit the document is the default one, and the list as written fails. */
  lemma FirstVisitFails()
    ensures PetProjectsAsWritten(DefaultProfileData()).None?
  {
    DefaultLacksSections();
  }

  /**
   * The list read with a default, `profileData?.petProjects || []`: `None`
   * only for a truthy value that is not an array.
   */
  function PetProjectsOrEmpty(doc: Doc): (r: Option<seq<Json>>)
    ensures SectionKey !in doc ==> r == Some([])
    ensures PetProjectsAsWritten(doc).Some? ==> r == PetProjectsAsWritten(doc)
  {
    ListOrEmpty(doc, SectionKey)
  }

  /** With the default, a first visit shows an empty list instead of failing. */
  lemma FirstVisitShowsNone()
    ensures PetProjectsOrEmpty(DefaultProfileData()) == Some([])
  {
    DefaultLacksSections();
  }
}
