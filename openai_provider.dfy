/**
 * The OpenAI provider: one chat-completion request per operation, then the
 * reply is stripped and lower-cased and checked against a closed set, with a
 * fixed fallback for an unexpected reply and for a failed call. The chat
 * client is a function from request to completion.
 */
module OpenAIProvider {
  import opened Wrappers
  import opened Text

  datatype Message = Message(role: string, content: string)

  /**
   * Which operation issues a chat-completion call, with the arguments its
   * prompt is built from. `Messages`, `MaxTokens` and `Temperature` render the
   * exact wire arguments of each kind of call.
   */
  datatype Call =
    | AnswerCall(question: string)
    | ThemeCall(question: string, categories: seq<string>)
    | SubthemeCall(question: string, mainTheme: string, subcategories: seq<string>)
    | DifficultyCall(question: string)
    | ErrorCheckCall(prompt: string)

  /** One call of `chat.completions.create`: the model and what is asked of it. */
  datatype Request = Request(model: string, call: Call)

  /**
   * What a call yields: the first choice's message content, a `None` content
   * (on which `.strip()` raises), or an exception with its message.
   */
  datatype Completion = Content(text: string) | NullContent | Raised(message: string)

  /**
   * The chat endpoint. It sees the whole request, so every client of the
   * rendered wire arguments is one of these.
   */
  type Client = Request -> Completion

  const DefaultModel: string := "gpt-4o-mini"

  /** `self.models`, as returned by `get_available_models`. */
  const Models: map<string, string> := map[
    "chatgpt-4o-latest" := "chatgpt-4o-latest", "o1-mini" := "o1-mini", "gpt-4o-mini" := "gpt-4o-mini"
  ]

  const ErrorPrefix: string := "Error from OpenAI API: "

  /** `if not model: model = self.default_model`: `None` and `""` are falsy. */
  function ModelOr(model: Option<string>): (m: string)
    ensures m != ""
    ensures m == DefaultModel <==> model.None? || model.value == "" || model.value == DefaultModel
    ensures m != DefaultModel ==> model == Some(m)
  {
    if model.Some? && model.value != "" then model.value else DefaultModel
  }

  // ---------------------------------------------------------------------------
  // The wire arguments of each call
  // ---------------------------------------------------------------------------

  function User(content: string): Message { Message("user", content) }
  function System(content: string): Message { Message("system", content) }

  const ThemeSystemPrompt: string := "You are a classifier that categorizes questions."
  const SubthemeSystemPrompt: string := "You are a classifier that categorizes questions into subcategories."
  const DifficultySystemPrompt: string := "You are an expert at evaluating the difficulty level of programming questions."

  /** The indentation the triple-quoted prompts carry on their continuation lines. */
  const Indent: string := "\n        "

  function ThemeLead(categories: seq<string>): string {
    "Classify the following question into exactly one of these categories: " + Join(", ", categories) + "."
    + Indent + "Only respond with the category name, nothing else." + Indent + Indent + "Question: "
  }

  function SubthemeLead(mainTheme: string, subcategories: seq<string>): string {
    "For a question that belongs to the '" + mainTheme
    + "' category, classify it into exactly one of these subcategories: " + Join(", ", subcategories) + "."
    + Indent + "Only respond with the subcategory name, nothing else." + Indent + Indent + "Question: "
  }

  const DifficultyLead: string :=
    "Analyze the following question or error message and determine if it's a beginner, intermediate, "
    + "or advanced level programming question."
    + Indent + "Consider the following factors:"
    + Indent + "- Beginner: Basic syntax, simple concepts, common errors, fundamental programming ideas"
    + Indent + "- Intermediate: Some experience required, involves multiple concepts, framework-specific issues, "
    + "moderate complexity"
    + Indent + "- Advanced: Complex algorithms, system design, performance optimization, advanced debugging, "
    + "deep technical knowledge"
    + Indent + Indent + "Only respond with one word: \"beginner\", \"intermediate\", or \"advanced\"."
    + Indent + Indent + "Question/Error: "

  const ErrorCheckLead: string :=
    "Analyze the following text and determine if it contains an error message or is a regular question."
    + Indent + "Error messages typically include stack traces, error codes, exception details, "
    + "or explicit error statements."
    + Indent + Indent + "Only respond with \"error\" or \"question\" - nothing else."
    + Indent + Indent + "Text: "

  function ThemePrompt(question: string, categories: seq<string>): string { ThemeLead(categories) + question }

  function SubthemePrompt(question: string, mainTheme: string, subcategories: seq<string>): string {
    SubthemeLead(mainTheme, subcategories) + question
  }

  function DifficultyPrompt(question: string): string { DifficultyLead + question }

  function ErrorCheckPrompt(prompt: string): string { ErrorCheckLead + prompt }

  /** The `messages` argument. */
  function Messages(call: Call): seq<Message> {
    match call
    case AnswerCall(question) => [User(question)]
    case ThemeCall(question, categories) => [System(ThemeSystemPrompt), User(ThemePrompt(question, categories))]
    case SubthemeCall(question, mainTheme, subcategories) =>
      [System(SubthemeSystemPrompt), User(SubthemePrompt(question, mainTheme, subcategories))]
    case DifficultyCall(question) => [System(DifficultySystemPrompt), User(DifficultyPrompt(question))]
    case ErrorCheckCall(prompt) => [User(ErrorCheckPrompt(prompt))]
  }

  /** The `max_tokens` argument; `None` when it is not passed. */
  function MaxTokens(call: Call): Option<nat> {
    match call
    case AnswerCall(_) => None
    case ErrorCheckCall(_) => Some(20)
    case _ => Some(50)
  }

  /** The `temperature` argument; `None` when it is not passed. */
  function Temperature(call: Call): Option<real> {
    match call
    case AnswerCall(_) => None
    case ErrorCheckCall(_) => Some(0.1)
    case _ => Some(0.3)
  }

  lemma EndsWith(lead: string, subject: string)
    ensures |subject| <= |lead + subject| && (lead + subject)[|lead + subject| - |subject|..] == subject
  {
  }

  // Each prompt ends with the text it is about, copied verbatim.

  lemma ThemePromptEndsWithQuestion(question: string, categories: seq<string>)
    ensures var p := ThemePrompt(question, categories); |question| <= |p| && p[|p| - |question|..] == question
  {
    EndsWith(ThemeLead(categories), question);
  }

  lemma SubthemePromptEndsWithQuestion(question: string, mainTheme: string, subcategories: seq<string>)
    ensures var p := SubthemePrompt(question, mainTheme, subcategories); |question| <= |p| && p[|p| - |question|..] == question
  {
    EndsWith(SubthemeLead(mainTheme, subcategories), question);
  }

  lemma DifficultyPromptEndsWithQuestion(question: string)
    ensures var p := DifficultyPrompt(question); |question| <= |p| && p[|p| - |question|..] == question
  {
    EndsWith(DifficultyLead, question);
  }

  lemma ErrorCheckPromptEndsWithText(prompt: string)
    ensures var p := ErrorCheckPrompt(prompt); |prompt| <= |p| && p[|p| - |prompt|..] == prompt
  {
    EndsWith(ErrorCheckLead, prompt);
  }

  /** The answer call sends the question alone, with no system message and no sampling arguments. */
  lemma AnswerCallArguments(question: string)
    ensures Messages(AnswerCall(question)) == [Message("user", question)]
    ensures MaxTokens(AnswerCall(question)).None? && Temperature(AnswerCall(question)).None?
  {
  }

  // ---------------------------------------------------------------------------
  // get_response
  // ---------------------------------------------------------------------------

  /** `get_response`: the reply content (`None` when the content is `None`), or the error text when the call raises. */
  function GetResponse(client: Client, question: string, model: Option<string>): Option<string> {
    match client(Request(ModelOr(model), AnswerCall(question)))
    case Content(text) => Some(text)
    case NullContent => None
    case Raised(message) => Some(ErrorPrefix + message)
  }

  /** The reply is passed through unchanged, and the call goes to the given model or the default one. */
  lemma GetResponseContent(client: Client, question: string, model: Option<string>)
    ensures model.None? || model.value == "" ==> GetResponse(client, question, model) == GetResponse(client, question, Some(DefaultModel))
    ensures forall text :: client(Request(ModelOr(model), AnswerCall(question))) == Content(text)
              ==> GetResponse(client, question, model) == Some(text)
  {
  }

  /** A failed call is reported as an ordinary reply starting with the error prefix, never as a failure. */
  lemma GetResponseRaised(client: Client, question: string, model: Option<string>, message: string)
    requires client(Request(ModelOr(model), AnswerCall(question))) == Raised(message)
    ensures GetResponse(client, question, model) == Some(ErrorPrefix + message)
    ensures |ErrorPrefix| <= |GetResponse(client, question, model).value|
    ensures GetResponse(client, question, model).value[..|ErrorPrefix|] == ErrorPrefix
  {
  }

  // ---------------------------------------------------------------------------
  // Normalisation shared by the classifiers
  // ---------------------------------------------------------------------------

  /**
   * `response.choices[0].message.content.strip().lower()`; `None` when the call
   * raised or the content was `None` (its `.strip()` raises inside the same `try`).
   */
  function Normalised(c: Completion): (r: Option<string>)
    ensures r.Some? <==> c.Content?
    ensures r.Some? ==> r.value == Lower(Strip(c.text)) && !HasUpper(r.value)
  {
    if c.Content? then
      LowerHasNoUpper(Strip(c.text));
      Some(Lower(Strip(c.text)))
    else None
  }

  /** The normalised reply when it is one of `allowed`, otherwise `fallback`. */
  function Closed(c: Completion, allowed: seq<string>, fallback: string): (r: string)
    ensures r in allowed || r == fallback
    ensures c.Content? && Lower(Strip(c.text)) in allowed ==> r == Lower(Strip(c.text))
    ensures !(c.Content? && Lower(Strip(c.text)) in allowed) ==> r == fallback
  {
    var n := Normalised(c);
    if n.Some? && n.value in allowed then n.value else fallback
  }

  // ---------------------------------------------------------------------------
  // classify_theme
  // ---------------------------------------------------------------------------

  /**
   * `classify_theme`: the theme is a category or "other"; it is the normalised
   * reply when that is a category, and "other" otherwise, including when the
   * call fails.
   */
  function ClassifyTheme(client: Client, question: string, categories: seq<string>, model: Option<string>): (theme: string)
    ensures theme in categories || theme == "other"
    ensures var c := client(Request(ModelOr(model), ThemeCall(question, categories)));
            (c.Content? && Lower(Strip(c.text)) in categories ==> theme == Lower(Strip(c.text)))
            && (!c.Content? || Lower(Strip(c.text)) !in categories ==> theme == "other")
  {
    Closed(client(Request(ModelOr(model), ThemeCall(question, categories))), categories, "other")
  }

  lemma OtherHasNoUpper()
    ensures !HasUpper("other")
  {
    assert !IsUpper("other"[0]) && !IsUpper("other"[1]) && !IsUpper("other"[2]) && !IsUpper("other"[3]) && !IsUpper("other"[4]);
  }

  /** A category name holding an upper-case letter is never the theme. */
  lemma ThemeNeverUpperCase(client: Client, question: string, categories: seq<string>, model: Option<string>, k: string)
    requires HasUpper(k)
    ensures ClassifyTheme(client, question, categories, model) != k
  {
    var c := client(Request(ModelOr(model), ThemeCall(question, categories)));
    if c.Content? {
      LowerHasNoUpper(Strip(c.text));
    }
    OtherHasNoUpper();
  }

  // ---------------------------------------------------------------------------
  // classify_subtheme
  // ---------------------------------------------------------------------------

  /**
   * `classify_subtheme`: an empty list answers "other" before any call;
   * otherwise the subtheme is the normalised reply when that is one of the
   * subcategories, and "other" otherwise, including when the call fails.
   */
  function ClassifySubtheme(client: Client, question: string, mainTheme: string, subcategories: seq<string>,
                            model: Option<string>): (sub: string)
    ensures sub in subcategories || sub == "other"
    ensures subcategories == [] ==> sub == "other"
    ensures var c := client(Request(ModelOr(model), SubthemeCall(question, mainTheme, subcategories)));
            (c.Content? && Lower(Strip(c.text)) in subcategories ==> sub == Lower(Strip(c.text)))
            && (!c.Content? || Lower(Strip(c.text)) !in subcategories ==> sub == "other")
  {
    if subcategories == [] then "other"
    else Closed(client(Request(ModelOr(model), SubthemeCall(question, mainTheme, subcategories))), subcategories, "other")
  }

  /** With no subcategories the answer does not depend on the client at all. */
  lemma ClassifySubthemeEmpty(client: Client, other: Client, question: string, mainTheme: string, model: Option<string>)
    ensures ClassifySubtheme(client, question, mainTheme, [], model) == ClassifySubtheme(other, question, mainTheme, [], model)
  {
  }

  // ---------------------------------------------------------------------------
  // judge_difficulty_level
  // ---------------------------------------------------------------------------

  const DifficultyLevels: seq<string> := ["beginner", "intermediate", "advanced"]

  /**
   * `judge_difficulty_level`: always beginner, intermediate or advanced; any
   * other reply, or a failed call, reads as intermediate.
   */
  function JudgeDifficultyLevel(client: Client, question: string, model: Option<string>): (level: string)
    ensures level in DifficultyLevels
    ensures var c := client(Request(ModelOr(model), DifficultyCall(question)));
            (c.Content? && Lower(Strip(c.text)) in DifficultyLevels ==> level == Lower(Strip(c.text)))
            && (!c.Content? || Lower(Strip(c.text)) !in DifficultyLevels ==> level == "intermediate")
  {
    Closed(client(Request(ModelOr(model), DifficultyCall(question))), DifficultyLevels, "intermediate")
  }

  // ---------------------------------------------------------------------------
  // is_error_message
  // ---------------------------------------------------------------------------

  /**
   * `is_error_message`: true exactly when the call succeeds and its reply,
   * stripped and lower-cased, is "error"; a failed call reads as a question.
   */
  function IsErrorMessage(client: Client, prompt: string, model: Option<string>): (isError: bool)
    ensures var c := client(Request(ModelOr(model), ErrorCheckCall(prompt)));
            isError <==> c.Content? && Lower(Strip(c.text)) == "error"
  {
    Normalised(client(Request(ModelOr(model), ErrorCheckCall(prompt)))) == Some("error")
  }
}
