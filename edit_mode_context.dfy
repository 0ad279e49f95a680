/**
 * The edit-mode provider: one profile document shared by the whole site, an
 * edit-mode flag, and the browser cache entry that mirrors the document.
 */
module EditModeContext {
  import opened Wrappers
  import opened Json

  /** The cache key the document is stored under. */
  const CacheKey: string := "profileData"

  /** The owner's name, also the fallback author shown on project pages. */
  const OwnerName: string := "Muhammad Zeeshan"

  const NoProviderMessage: string := "useEditMode must be used within an EditModeProvider"

  /** The top-level sections of the default document. */
  const DefaultKeys: set<string> := {"hero", "experiences", "projects", "technicalSkills", "softSkills", "certifications", "education"}

  /** The document the site shows before anything was edited. */
  function DefaultProfileData(): (d: Doc)
    ensures d.Keys == DefaultKeys
    ensures d["hero"] == DefaultHero
  {
    map[
      "hero" := DefaultHero,
      "experiences" := DefaultExperiences,
      "projects" := DefaultProjects,
      "technicalSkills" := DefaultTechnicalSkills,
      "softSkills" := DefaultSoftSkills,
      "certifications" := DefaultCertifications,
      "education" := DefaultEducation
    ]
  }

  /** The default document has no pet projects, hackathons, special events or testimonials. */
  lemma DefaultLacksSections()
    ensures var d := DefaultProfileData();
      "petProjects" !in d && "hackathons" !in d && "specialEvents" !in d && "testimonials" !in d
  {
    assert "petProjects" !in DefaultKeys && "hackathons" !in DefaultKeys;
    assert "specialEvents" !in DefaultKeys && "testimonials" !in DefaultKeys;
  }

  lemma DefaultHeroName()
    ensures DefaultHero.JObj? && "name" in DefaultHero.fields && DefaultHero.fields["name"] == JStr(OwnerName)
  {
  }

  const DefaultHero: Json := JObj(map[
    "name" := JStr(OwnerName),
    "location" := JStr("Bahawalpur, Pakistan"),
    "email" := JStr("malikzeeshan3.1417@gmail.com"),
    "linkedin" := JStr("https://www.linkedin.com/in/muhammadzeeshan007/"),
    "summary" := JStr("Machine Learning Expert with over 2 years of experience in machine learning, deep learning and Python programming. Passionate about using statistical analysis, data management, and visualizations to drive informed decision-making and tangible business value. Proactive team player and effective communicator, who thrives in collaborative, high-performing team cultures.")
  ])

  const DefaultExperiences: Json := JArr([
    JObj(map[
      "year" := JStr("June 2023 - June 2024"),
      "title" := JStr("Certificate in Artificial Intelligence Program"),
      "organization" := JStr("Deep Embed Lab | Pak AI Vision Group, Silicon Valley, USA"),
      "points" := JArr([JStr("Completed 1600+ hours of training in data science, mastering machine learning (Linear & logistic regression, Random Forest, K-Means, PCA, SVM) and deep learning (CNNs, LSTMs, GANs, Autoencoders) algorithms."), JStr("Executed multiple data-centric projects, enhancing proficiency in Python, SQL, and machine learning libraries (scikit-learn, TensorFlow).")])
    ]),
    JObj(map[
      "year" := JStr("March 2023 - Sep 2023"),
      "title" := JStr("Artificial Intelligence (ML, DL, Microsoft Azure)"),
      "organization" := JStr("NAVCTT | BWP, Pakistan"),
      "points" := JArr([JStr("Participating in Prime Minister's Youth Skills Development Program, NAVTTC"), JStr("Gaining comprehensive expertise in AI, ML, and DL")])
    ])
  ])

  const DefaultProjects: Json := JArr([
    JObj(map[
      "title" := JStr("Applied Data Science SpaceX Falcon 9 Prediction"),
      "description" := JStr("Capstone project for predictive modeling and analysis"),
      "points" := JArr([JStr("Predictive Modeling: Forecasted SpaceX's first stage landing success"), JStr("Data Wrangling: Collected and processed data from SpaceX API"), JStr("Interactive Visual Analytics: Created dashboards with Folium and Plotly")])
    ])
  ])

  const DefaultTechnicalSkills: Json := JArr([JStr("Python"), JStr("SQL"), JStr("Tableau"), JStr("TensorFlow"), JStr("Deep Learning")])

  const DefaultSoftSkills: Json := JArr([JStr("Research"), JStr("Communication"), JStr("Collaboration")])

  const DefaultCertifications: Json := JArr([
    JObj(map["name" := JStr("Microsoft Certified Azure AI"), "year" := JStr("2023")]),
    JObj(map["name" := JStr("Google Data Analytics"), "year" := JStr("2023")])
  ])

  const DefaultEducation: Json := JArr([
    JObj(map[
      "degree" := JStr("Bachelor of Computer Science, Artificial Intelligence"),
      "institution" := JStr("Islamia University Bahawalpur, Pakistan"),
      "period" := JStr("2022 \U{2013} 2026"),
      "details" := JNull
    ])
  ])

  /** The document the provider starts with: the cached one if there is one, else the default. */
  function InitialProfileData(storage: map<string, Doc>): (d: Doc)
    ensures CacheKey in storage ==> d == storage[CacheKey]
    ensures CacheKey !in storage ==> d == DefaultProfileData()
  {
    if CacheKey in storage then storage[CacheKey] else DefaultProfileData()
  }

  /**
   * The provider's state. `storage` is the browser's local storage, keyed by
   * entry name; the effect on `profileData` keeps its `CacheKey` entry equal
   * to the document.
   */
  class EditModeProvider {
    var isEditMode: bool
    var profileData: Doc
    var storage: map<string, Doc>

    /** The cache effect has run for the current document. */
    predicate Valid()
      reads this
    {
      CacheKey in storage && storage[CacheKey] == profileData
    }

    /** Mounting: seed the document from the cache or the default, then run the cache effect once. */
    constructor(storage0: map<string, Doc>)
      ensures !isEditMode
      ensures profileData == InitialProfileData(storage0)
      ensures storage == storage0[CacheKey := profileData]
      ensures Valid()
    {
      isEditMode := false;
      var initial := InitialProfileData(storage0);
      profileData := initial;
      storage := storage0[CacheKey := initial];
    }

    /** Flip the edit-mode flag; the document, and so the cache, are untouched. */
    method ToggleEditMode()
      requires Valid()
      modifies this
      ensures isEditMode == !old(isEditMode)
      ensures profileData == old(profileData) && storage == old(storage)
      ensures Valid()
    {
      isEditMode := !isEditMode;
    }

    /** Replace the whole document (no merge), then mirror it into the cache. */
    method UpdateProfileData(data: Doc)
      modifies this
      ensures profileData == data
      ensures isEditMode == old(isEditMode)
      ensures storage == old(storage)[CacheKey := data]
      ensures Valid()
    {
      profileData := data;
      storage := storage[CacheKey := profileData];
    }
  }

  /** Toggling twice restores the flag and never touches the document or the cache. */
  method ToggleTwice(p: EditModeProvider)
    requires p.Valid()
    modifies p
    ensures p.isEditMode == old(p.isEditMode)
    ensures p.profileData == old(p.profileData) && p.storage == old(p.storage)
    ensures p.Valid()
  {
    p.ToggleEditMode();
    p.ToggleEditMode();
  }

  /** A fresh provider on an empty cache shows the default document and caches it. */
  method FirstVisit() returns (p: EditModeProvider)
    ensures !p.isEditMode
    ensures p.profileData == DefaultProfileData()
    ensures p.storage == map[CacheKey := DefaultProfileData()]
  {
    p := new EditModeProvider(map[]);
  }

  /** A later visit shows whatever document was last cached. */
  method ReturnVisit(storage: map<string, Doc>, saved: Doc) returns (p: EditModeProvider)
    requires CacheKey in storage && storage[CacheKey] == saved
    ensures p.profileData == saved
    ensures p.storage == storage
  {
    p := new EditModeProvider(storage);
  }

  /** `useEditMode`: the provider's value, or the error thrown outside any provider. */
  function UseEditMode<C>(context: Option<C>): (r: Result<C, string>)
    ensures context == None <==> r.Err?
    ensures r.Err? ==> r.error == NoProviderMessage
    ensures context.Some? ==> r == Ok(context.value)
  {
    match context
    case None => Err(NoProviderMessage)
    case Some(c) => Ok(c)
  }
}
