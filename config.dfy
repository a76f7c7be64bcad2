/**
 * The configuration constants: the default models per provider, the models
 * the analysis stages use, and the subject taxonomy (category name to its
 * subcategories, in declaration order).
 */
module Config {
  import opened Text
  import opened Dicts

  const DefaultProvider: string := "openai"

  /** `DICT_DEFAULT_MODEL`. */
  const DictDefaultModel: map<string, string> := map["openai" := "gpt-4o-mini", "ollama" := "deepseek-r1:latest"]

  const ThemeAnalysisModel: string := DictDefaultModel["openai"]
  const DifficultyAnalysisModel: string := DictDefaultModel["openai"]

  /** The category names of `DICT_CATEGORIES`, in declaration order. */
  const CategoryNames: seq<string> := [
    "programming", "database", "machine learning", "LLM", "MLOps", "DevOps", "bash", "SQL",
    "physics", "chemistry", "mathematics", "history", "culture", "history of science",
    "psychology", "medicine", "other"
  ]

  // The subcategory lists, one per category.
  const ProgrammingSubcategories: seq<string> := ["python", "rust", "c++", "frontend", "algorithms", "backend"]
  const DatabaseSubcategories: seq<string> := ["sql", "nosql", "relational", "document", "graph"]
  const MachineLearningSubcategories: seq<string> := ["supervised", "unsupervised", "reinforcement", "deep learning", "nlp"]
  const LlmSubcategories: seq<string> := ["transformers", "fine-tuning", "prompting", "evaluation", "deployment"]
  const MlOpsSubcategories: seq<string> := ["experiment tracking", "model registry", "pipeline automation", "monitoring", "serving"]
  const DevOpsSubcategories: seq<string> := ["ci/cd", "containerization", "infrastructure", "monitoring", "cloud"]
  const BashSubcategories: seq<string> := ["scripting", "tools", "automation", "system admin"]
  const SqlSubcategories: seq<string> := ["queries", "optimization", "schema design", "stored procedures", "indexes"]
  const PhysicsSubcategories: seq<string> := ["mechanics", "electromagnetism", "thermodynamics", "quantum", "relativity"]
  const ChemistrySubcategories: seq<string> := ["organic", "inorganic", "analytical", "physical", "biochemistry"]
  const MathematicsSubcategories: seq<string> := ["calculus", "linear algebra", "statistics", "discrete math", "number theory"]
  const HistorySubcategories: seq<string> := ["ancient", "medieval", "modern", "contemporary", "regional"]
  const CultureSubcategories: seq<string> := ["literature", "art", "music", "philosophy", "sociology"]
  const HistoryOfScienceSubcategories: seq<string> := ["scientific revolution", "industrial revolution", "information age", "famous scientists"]
  const PsychologySubcategories: seq<string> := ["cognitive", "behavioral", "developmental", "clinical", "social"]
  const MedicineSubcategories: seq<string> := ["anatomy", "physiology", "pathology", "pharmacology", "surgery"]
  const OtherSubcategories: seq<string> := ["not yet classified"]

  /** `DICT_CATEGORIES`. */
  const DictCategories: Dict<seq<string>> := Dict(CategoryNames, map[
    "programming" := ProgrammingSubcategories,
    "database" := DatabaseSubcategories,
    "machine learning" := MachineLearningSubcategories,
    "LLM" := LlmSubcategories,
    "MLOps" := MlOpsSubcategories,
    "DevOps" := DevOpsSubcategories,
    "bash" := BashSubcategories,
    "SQL" := SqlSubcategories,
    "physics" := PhysicsSubcategories,
    "chemistry" := ChemistrySubcategories,
    "mathematics" := MathematicsSubcategories,
    "history" := HistorySubcategories,
    "culture" := CultureSubcategories,
    "history of science" := HistoryOfScienceSubcategories,
    "psychology" := PsychologySubcategories,
    "medicine" := MedicineSubcategories,
    "other" := OtherSubcategories
  ])

  /** Both analysis models are the OpenAI default, `gpt-4o-mini`. */
  lemma AnalysisModels()
    ensures ThemeAnalysisModel == DifficultyAnalysisModel == "gpt-4o-mini"
  {
  }

  /** The listed names are exactly the keys of the taxonomy, each once. */
  lemma CategoriesValid()
    ensures DictCategories.Valid()
  {
  }

  /** `"other"` is a category of its own, whose one subcategory is "not yet classified". */
  lemma OtherIsCategory()
    ensures "other" in CategoryNames && "other" in DictCategories.entries
    ensures DictCategories.entries["other"] == ["not yet classified"]
  {
  }

  /** No category has an empty subcategory list. */
  lemma SubcategoriesNonEmpty()
    ensures forall k :: k in DictCategories.entries ==> DictCategories.entries[k] != []
  {
  }

  /** Four category names hold upper-case letters. */
  lemma UpperCaseCategories()
    ensures forall k :: k in ["LLM", "MLOps", "DevOps", "SQL"] ==> k in DictCategories.entries && HasUpper(k)
  {
    assert IsUpper("LLM"[0]) && IsUpper("MLOps"[0]) && IsUpper("DevOps"[0]) && IsUpper("SQL"[0]);
  }

  /** "monitoring" is a subcategory of two categories. */
  lemma MonitoringShared()
    ensures "monitoring" in DictCategories.entries["MLOps"] && "monitoring" in DictCategories.entries["DevOps"]
  {
  }

  /** "unknown" is no subcategory of any category. */
  lemma UnknownIsNoSubcategory()
    ensures forall k :: k in DictCategories.entries ==> "unknown" !in DictCategories.entries[k]
  {
  }

  lemma ProgrammingLowerCase() ensures forall s :: s in ProgrammingSubcategories ==> !HasUpper(s) {}
  lemma DatabaseLowerCase() ensures forall s :: s in DatabaseSubcategories ==> !HasUpper(s) {}
  lemma MachineLearningLowerCase() ensures forall s :: s in MachineLearningSubcategories ==> !HasUpper(s) {}
  lemma LlmLowerCase() ensures forall s :: s in LlmSubcategories ==> !HasUpper(s) {}
  lemma MlOpsLowerCase() ensures forall s :: s in MlOpsSubcategories ==> !HasUpper(s) {}
  lemma DevOpsLowerCase() ensures forall s :: s in DevOpsSubcategories ==> !HasUpper(s) {}
  lemma BashLowerCase() ensures forall s :: s in BashSubcategories ==> !HasUpper(s) {}
  lemma SqlLowerCase() ensures forall s :: s in SqlSubcategories ==> !HasUpper(s) {}
  lemma PhysicsLowerCase() ensures forall s :: s in PhysicsSubcategories ==> !HasUpper(s) {}
  lemma ChemistryLowerCase() ensures forall s :: s in ChemistrySubcategories ==> !HasUpper(s) {}
  lemma MathematicsLowerCase() ensures forall s :: s in MathematicsSubcategories ==> !HasUpper(s) {}
  lemma HistoryLowerCase() ensures forall s :: s in HistorySubcategories ==> !HasUpper(s) {}
  lemma CultureLowerCase() ensures forall s :: s in CultureSubcategories ==> !HasUpper(s) {}
  lemma HistoryOfScienceLowerCase() ensures forall s :: s in HistoryOfScienceSubcategories ==> !HasUpper(s) {}
  lemma PsychologyLowerCase() ensures forall s :: s in PsychologySubcategories ==> !HasUpper(s) {}
  lemma MedicineLowerCase() ensures forall s :: s in MedicineSubcategories ==> !HasUpper(s) {}
  lemma OtherLowerCase() ensures forall s :: s in OtherSubcategories ==> !HasUpper(s) {}

  /** Every subcategory name is written in lower case. */
  lemma SubcategoriesLowerCase()
    ensures forall k, s :: k in DictCategories.entries && s in DictCategories.entries[k] ==> !HasUpper(s)
  {
    ProgrammingLowerCase();
    DatabaseLowerCase();
    MachineLearningLowerCase();
    LlmLowerCase();
    MlOpsLowerCase();
    DevOpsLowerCase();
    BashLowerCase();
    SqlLowerCase();
    PhysicsLowerCase();
    ChemistryLowerCase();
    MathematicsLowerCase();
    HistoryLowerCase();
    CultureLowerCase();
    HistoryOfScienceLowerCase();
    PsychologyLowerCase();
    MedicineLowerCase();
    OtherLowerCase();
  }
}
