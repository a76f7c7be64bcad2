/**
 * The question-handling cascade of the web endpoint: with a known provider,
 * answer the question and then classify it (theme, subtheme within that
 * theme, error flag, difficulty); with an unknown one, fixed placeholders.
 * The result is the answer shown to the user, the row written to the
 * `questions` table, and the requests sent to the chat endpoint, in order.
 */
module Cascade {
  import opened Wrappers
  import opened Text
  import opened Dicts
  import Config
  import opened OpenAIProvider

  /** The two analysis models the endpoint module defines for itself. */
  const ThemeAnalysisModel: string := "gpt-4o-mini"
  const DifficultyAnalysisModel: string := "gpt-4o-mini"

  /** The names in `providers`. */
  const Providers: set<string> := {"openai"}

  const UnavailableAnswer: string := "Selected provider not available."

  /** A row of the `questions` table, in column order. */
  datatype Record = Record(
    question: string, timestamp: string, theme: string, subtheme: string, provider: string, model: string,
    isError: bool, difficulty: string, isErrorMsg: bool, helpful: Option<bool>)

  /** The answer for the page, the row written, and the requests sent, oldest first. */
  datatype Outcome = Outcome(answer: Option<string>, record: Record, calls: seq<Request>)

  /**
   * What the cascade relies on of the taxonomy: its listed names are its keys,
   * each once, and "other" is one of them. `SUBJECT_CATEGORIES` is `keys`.
   */
  predicate Taxonomy(taxonomy: Dict<seq<string>>) {
    taxonomy.Valid() && "other" in taxonomy.entries
  }

  /**
   * `handle_question` up to the database insert, over a taxonomy. With a
   * known provider it sends the answer, theme, subtheme, error-check and
   * difficulty requests in that order (the subtheme one only when the theme
   * has subcategories); the classification requests go to the analysis models
   * and the answer request to the chosen one. The lookup of the theme's
   * subcategories is always defined.
   */
  function HandleQuestionIn(taxonomy: Dict<seq<string>>, client: Client, question: string, timestamp: string,
                            provider: string, model: string): (o: Outcome)
    requires Taxonomy(taxonomy)
    ensures provider in Providers ==> o.record.theme in taxonomy.entries
    ensures provider in Providers && taxonomy.entries[o.record.theme] != [] ==>
              o.calls == [Request(ModelOr(Some(model)), AnswerCall(question)),
                          Request(ThemeAnalysisModel, ThemeCall(question, taxonomy.keys)),
                          Request(ThemeAnalysisModel, SubthemeCall(question, o.record.theme, taxonomy.entries[o.record.theme])),
                          Request(ThemeAnalysisModel, ErrorCheckCall(question)),
                          Request(DifficultyAnalysisModel, DifficultyCall(question))]
    ensures provider in Providers && taxonomy.entries[o.record.theme] == [] ==>
              o.calls == [Request(ModelOr(Some(model)), AnswerCall(question)),
                          Request(ThemeAnalysisModel, ThemeCall(question, taxonomy.keys)),
                          Request(ThemeAnalysisModel, ErrorCheckCall(question)),
                          Request(DifficultyAnalysisModel, DifficultyCall(question))]
    ensures provider !in Providers ==> o.calls == []
  {
    if provider in Providers then
      var answer := GetResponse(client, question, Some(model));
      var theme := ClassifyTheme(client, question, taxonomy.keys, Some(ThemeAnalysisModel));
      var subcategories := taxonomy.entries[theme];
      var subtheme := ClassifySubtheme(client, question, theme, subcategories, Some(ThemeAnalysisModel));
      var isErrorMsg := IsErrorMessage(client, question, Some(ThemeAnalysisModel));
      var difficulty := JudgeDifficultyLevel(client, question, Some(DifficultyAnalysisModel));
      var answerCall := Request(ModelOr(Some(model)), AnswerCall(question));
      var themeCall := Request(ThemeAnalysisModel, ThemeCall(question, taxonomy.keys));
      var errorCall := Request(ThemeAnalysisModel, ErrorCheckCall(question));
      var difficultyCall := Request(DifficultyAnalysisModel, DifficultyCall(question));
      Outcome(answer,
              Record(question, timestamp, theme, subtheme, provider, model, isErrorMsg, difficulty, isErrorMsg, None),
              if subcategories == [] then [answerCall, themeCall, errorCall, difficultyCall]
              else [answerCall, themeCall, Request(ThemeAnalysisModel, SubthemeCall(question, theme, subcategories)),
                    errorCall, difficultyCall])
    else
      Outcome(Some(UnavailableAnswer),
              Record(question, timestamp, "other", "unknown", provider, model, false, "unknown", false, None), [])
  }

  /** On the known-provider path every classification lies in its closed set. */
  lemma KnownProviderClosed(taxonomy: Dict<seq<string>>, client: Client, question: string, timestamp: string,
                            provider: string, model: string)
    requires Taxonomy(taxonomy) && provider in Providers
    ensures var r := HandleQuestionIn(taxonomy, client, question, timestamp, provider, model).record;
            (r.theme in taxonomy.keys || r.theme == "other")
            && r.theme in taxonomy.entries
            && (r.subtheme in taxonomy.entries[r.theme] || r.subtheme == "other")
            && r.difficulty in DifficultyLevels
  {
  }

  /** Each stored field is the classifier's reading of the reply to its own request. */
  lemma KnownProviderFields(taxonomy: Dict<seq<string>>, client: Client, question: string, timestamp: string,
                            provider: string, model: string)
    requires Taxonomy(taxonomy) && provider in Providers && taxonomy.entries.Values !! {[]}
    ensures var o := HandleQuestionIn(taxonomy, client, question, timestamp, provider, model);
            var r := o.record;
            |o.calls| == 5
            && o.answer == GetResponse(client, question, Some(model))
            && r.theme == Closed(client(o.calls[1]), taxonomy.keys, "other")
            && r.subtheme == Closed(client(o.calls[2]), taxonomy.entries[r.theme], "other")
            && r.isErrorMsg == (Normalised(client(o.calls[3])) == Some("error"))
            && r.difficulty == Closed(client(o.calls[4]), DifficultyLevels, "intermediate")
  {
    var o := HandleQuestionIn(taxonomy, client, question, timestamp, provider, model);
    assert taxonomy.entries[o.record.theme] in taxonomy.entries.Values;
  }

  /** A theme without subcategories is stored with subtheme "other", and no subtheme request is sent. */
  lemma KnownProviderNoSubcategories(taxonomy: Dict<seq<string>>, client: Client, question: string, timestamp: string,
                                     provider: string, model: string)
    requires Taxonomy(taxonomy) && provider in Providers
    requires var o := HandleQuestionIn(taxonomy, client, question, timestamp, provider, model);
             taxonomy.entries[o.record.theme] == []
    ensures var o := HandleQuestionIn(taxonomy, client, question, timestamp, provider, model);
            o.record.subtheme == "other"
            && o.calls == [Request(ModelOr(Some(model)), AnswerCall(question)),
                           Request(ThemeAnalysisModel, ThemeCall(question, taxonomy.keys)),
                           Request(ThemeAnalysisModel, ErrorCheckCall(question)),
                           Request(DifficultyAnalysisModel, DifficultyCall(question))]
  {
  }

  /** An unknown provider sends nothing and stores the fixed placeholders. */
  lemma UnknownProvider(taxonomy: Dict<seq<string>>, client: Client, question: string, timestamp: string,
                        provider: string, model: string)
    requires Taxonomy(taxonomy) && provider !in Providers
    ensures var o := HandleQuestionIn(taxonomy, client, question, timestamp, provider, model);
            o.calls == [] && o.answer == Some("Selected provider not available.")
            && o.record.theme == "other" && o.record.subtheme == "unknown" && o.record.difficulty == "unknown"
            && !o.record.isErrorMsg
  {
  }

  /** The row repeats the error flag in both error columns, leaves `helpful` empty and keeps the inputs. */
  lemma RecordShape(taxonomy: Dict<seq<string>>, client: Client, question: string, timestamp: string,
                    provider: string, model: string)
    requires Taxonomy(taxonomy)
    ensures var r := HandleQuestionIn(taxonomy, client, question, timestamp, provider, model).record;
            r.isError == r.isErrorMsg && r.helpful.None?
            && r.question == question && r.timestamp == timestamp && r.provider == provider && r.model == model
  {
  }

  // ---------------------------------------------------------------------------
  // The cascade over the configured taxonomy
  // ---------------------------------------------------------------------------

  /** `SUBJECT_CATEGORIES`. */
  const SubjectCategories: seq<string> := Config.DictCategories.keys

  /** The configured taxonomy meets what the cascade relies on, and no category is without subcategories. */
  lemma ConfiguredTaxonomy()
    ensures Taxonomy(Config.DictCategories)
    ensures Config.DictCategories.entries.Values !! {[]}
  {
    Config.CategoriesValid();
    Config.OtherIsCategory();
    Config.SubcategoriesNonEmpty();
  }

  /** `handle_question` as the endpoint runs it, over `DICT_CATEGORIES`. */
  function HandleQuestion(client: Client, question: string, timestamp: string, provider: string, model: string): (o: Outcome)
    ensures provider in Providers ==> o.record.theme in Config.DictCategories.entries
  {
    ConfiguredTaxonomy();
    HandleQuestionIn(Config.DictCategories, client, question, timestamp, provider, model)
  }

  /**
   * With the configured taxonomy a known provider always sends exactly five
   * requests, the subtheme one for the theme's own subcategory list.
   */
  lemma KnownProviderOrder(client: Client, question: string, timestamp: string, provider: string, model: string)
    requires provider in Providers
    ensures var o := HandleQuestion(client, question, timestamp, provider, model);
            o.calls == [Request(ModelOr(Some(model)), AnswerCall(question)),
                        Request(ThemeAnalysisModel, ThemeCall(question, SubjectCategories)),
                        Request(ThemeAnalysisModel,
                                SubthemeCall(question, o.record.theme, Config.DictCategories.entries[o.record.theme])),
                        Request(ThemeAnalysisModel, ErrorCheckCall(question)),
                        Request(DifficultyAnalysisModel, DifficultyCall(question))]
  {
    ConfiguredTaxonomy();
    var o := HandleQuestion(client, question, timestamp, provider, model);
    assert Config.DictCategories.entries[o.record.theme] in Config.DictCategories.entries.Values;
  }

  /** The placeholders "unknown" are outside the sets the classifiers guarantee. */
  lemma UnknownOutsideClosedSets()
    ensures "unknown" !in DifficultyLevels && "unknown" != "other"
    ensures forall k :: k in Config.DictCategories.entries ==> "unknown" !in Config.DictCategories.entries[k]
  {
    Config.UnknownIsNoSubcategory();
  }
}
