# my-progress-tracking: a verified model of its prompt and text-processing core

The system lets a user ask a language model questions and keeps a record of
them. Each answer is classified by theme, subtheme, error flag and
difficulty, and the results are stored and charted week by week. Around the
model calls sits deterministic string and decision code, and this project
models that code in Dafny and proves its properties. The model calls stay
abstract: each one is a function parameter.

The model covers these parts:

- **Few-shot prompts** (`FewShots`). A `FewShotPrompt` class holds an
  ordered list of input/output examples that is edited in place, and builds
  its prompt with an exact layout. A `FewShotManager` class is a name-to-prompt
  registry that keeps first-insertion order.
- **Zero-shot tasks** (`PromptTemplates`, `ZeroShotDefaults`,
  `ZeroShotTemplates`, `ZeroShot`).
  - Python's `str.format` with keyword arguments, written as a scan.
  - The three default templates: classification, question answering and
    extraction.
  - The reply parsers: the single-label search, the multi-label JSON or comma
    filter, the stripped answer, and extraction by JSON or by a line scan.
  - The prompter's create, ask and parse pipeline at fixed temperatures.
- **Closed-set classification** (`Config`, `OpenAIProvider`, `Cascade`).
  - The subject taxonomy and the model constants.
  - The provider's reply normalisation (strip, then lower-case) and its
    fallbacks for unexpected replies and failed calls.
  - The question-handling cascade of the web endpoint. It returns the
    answer, the row it stores and the requests it sends, in order.
- **Retrieval** (`Embeddings`, `VectorIndex`). The cosine score, the stable
  descending ranking, and the top-N selection over the vector database.
- **Weekly statistics** (`DataValidation`, `DataAggregation`,
  `Visualization`).
  - Metadata validation, which clamps the difficulty into [0, 10].
  - Bucketing of rows by their `"week-year"` key.
  - The per-week sum, count and rounded mean of difficulties.
  - Sorting of the chart's week keys by the `(year, week)` pair read back
    from each key.
- **Code formatting** (`Formatting`). Markdown fenced blocks and inline code
  spans rewritten as HTML by two left-to-right scanners.
- **Prompt chains** (`PromptChaining`), from the TypeScript sources.
  - `{{key}}` placeholder replacement.
  - A `PromptChain` class whose prompt list only grows and runs in insertion
    order, threading an outputs dictionary from prompt to prompt.
  - The canned example executor, and the three-step example chain.

Several helper modules support these parts:

- `Wrappers`: `Option` and `Result`.
- `Text`: Python's `strip`, `lower`, `find`, `split`, `join` and `in`, and
  decimal numerals.
- `Dicts`: an insertion-ordered dictionary, a key list plus a map.
- `Json`: decoded JSON values, objects as ordered `Dicts.Dict`s, with the decoder `Loads` as a function type.

The model follows the code wherever the code's comments or docstrings
disagree with it:

- `cosine_similarity` has no guard against a zero norm, so a zero vector
  raises a division error (`Embeddings.ZeroVectorRaises`).
- `validate_metadata` can return a decoded string or list that holds no
  `"difficulty"`, although its annotation promises a dictionary
  (`DataValidation.CheckDifficulty`).
- The comment at `utils/data_validation.py:28` speaks of a 1-10 scale, but
  the code clamps into [0, 10].

Files that lie outside the modelled core:

- `main.py:18` imports `DEFAULT_MODEL` from `config.py`, but `config.py`
  defines no such name. That import is outside the modelled fragment of
  `handle_question`.
- `llm_providers/base.py`, which `openai_provider.py` imports, is not part
  of this model.

## Model

| member | source | states |
|---|---|---|
| FewShots.FormatExampleLines | prompting/few_shots.py:8-10 | Without line breaks in the parts, a formatted example splits into exactly two lines: the prefixed input and the prefixed output. |
| FewShots.FormatExampleNonEmpty | prompting/few_shots.py:8-10 | A formatted example always holds its line break, so it is never empty. |
| FewShots.FormatExample | prompting/few_shots.py:8-10 | Reference definition of `FewShotExample.format`. Its properties are `FormatExampleLines` and `FormatExampleNonEmpty`. |
| FewShots.FormatAll | prompting/few_shots.py:50-54 | One formatted text per example, in list order. |
| FewShots.BlockEmptyIff | prompting/few_shots.py:50-54 | The examples block is empty exactly when there are no examples. |
| FewShots.BlockSnoc | prompting/few_shots.py:50-54 | Appending an example appends the separator and that example's formatted text to the block. |
| FewShots.LayoutEndsWithOutputPrefix | prompting/few_shots.py:68-72 | With a query, even an empty one, the prompt ends with a line break and the output prefix, placed after the prefixed query line. |
| FewShots.LayoutEmptyIff | prompting/few_shots.py:56-74 | The prompt is empty exactly when the instruction is empty, there are no examples and there is no query. |
| FewShots.LayoutStartsWithInstruction | prompting/few_shots.py:58-61 | A non-empty instruction opens the prompt. |
| FewShots.LeadComponentsJoin | prompting/few_shots.py:58-67 | The instruction and the examples block, with a blank line between them when both are present, join into the prompt without a query. The list is empty exactly when that prompt is empty. |
| FewShots.QueryComponentsJoin | prompting/few_shots.py:68-74 | The query components are a blank line (only when something precedes), the prefixed query and the output prefix, and they join onto the lead as the layout says. |
| FewShots.PromptLayout | prompting/few_shots.py:56-74 | Independent reference definition of the built prompt, written as the layout of its parts. `FewShotPrompt.BuildPrompt` is proved equal to it; its properties are the `Layout...` rows. |
| FewShots.FewShotPrompt.constructor | prompting/few_shots.py:18-24 | Stores the instruction, the examples (`examples or []`: a missing list is empty), both prefixes and the separator. |
| FewShots.FewShotPrompt.AddExample | prompting/few_shots.py:26-32 | Appends exactly one example at the end, either a ready example or one built from the input and output texts. The earlier examples and their order are unchanged, and the prompt itself is returned. |
| FewShots.FewShotPrompt.RemoveExample | prompting/few_shots.py:34-38 | For `0 <= index < len`, removes exactly the element at `index`. Any other index, including a negative one, changes nothing. |
| FewShots.FewShotPrompt.ClearExamples | prompting/few_shots.py:40-43 | Empties the example list and returns the prompt. |
| FewShots.FewShotPrompt.SetInstruction | prompting/few_shots.py:45-48 | Replaces the instruction and returns the prompt. |
| FewShots.FewShotPrompt.FormatExamples | prompting/few_shots.py:50-54 | Empty exactly when there are no examples. |
| FewShots.FewShotPrompt.BuildPrompt | prompting/few_shots.py:56-74 | The `"\n"`-join of the collected components equals the prompt layout of the current instruction, examples block, query and prefixes. |
| FewShots.FewShotManager.constructor | prompting/few_shots.py:82-83 | The registry starts empty. |
| FewShots.FewShotManager.AddTemplate | prompting/few_shots.py:85-90 | A value that is not a `FewShotPrompt` gives a `TypeError` and changes nothing. A prompt is stored under its name, overwriting an existing entry (the last write wins) without moving the name. |
| FewShots.FewShotManager.GetTemplate | prompting/few_shots.py:92-94 | The stored prompt when the name is present, otherwise `None`. |
| FewShots.FewShotManager.ListTemplates | prompting/few_shots.py:96-98 | Every stored name exactly once and nothing else, and exactly the registry's key list, which `AddTemplate` extends only for a new name, so the names come in first-insertion order. |
| FewShots.FewShotManager.RemoveTemplate | prompting/few_shots.py:100-104 | Deletes a present name and keeps the other names in their order. An absent name changes nothing. |
| PromptTemplates.FormatOnlyReadsReferenced | prompting/zero_shot.py:17-27 | Two value maps that agree on the fields the template references give the same result, so unused values are ignored. |
| PromptTemplates.MissingReferencedFails | prompting/zero_shot.py:17-27 | A referenced field with no value makes formatting fail. |
| PromptTemplates.KeyErrorIsReferenced | prompting/zero_shot.py:17-27 | A `KeyError` always names a referenced field that was not supplied. |
| PromptTemplates.FormatPlain | prompting/zero_shot.py:17-27 | A text without braces is copied unchanged, whatever the values. |
| PromptTemplates.FormatSegments | prompting/zero_shot.py:17-27 | A well-formed template (brace-free text and keyword fields) whose every field is supplied formats to the text with each field replaced by its value. |
| PromptTemplates.ReferencedSegments | prompting/zero_shot.py:17-27 | The fields such a template references are exactly its fields, so the two lemmas above fit together. |
| PromptTemplates.Format | prompting/zero_shot.py:17-27 | Reference definition of `str.format` on keyword fields. It has no contract of its own; its properties are the `PromptTemplates` rows above. |
| ZeroShotTemplates.ClassificationTemplateFills | prompting/zero_shot.py:78-84 | The default classification template formats to its text with `label_type`, `text` and `labels` filled in order. No other field is referenced. |
| ZeroShotTemplates.QuestionTemplateFills | prompting/zero_shot.py:149-156 | The default question-answering template fills `context`, then `question`. |
| ZeroShotTemplates.ExtractionTemplateFills | prompting/zero_shot.py:209-214 | The default extraction template fills `text`, `schema_desc` and `output_format`, in that order. |
| ZeroShot.ClassificationTemplateFormats | prompting/zero_shot.py:99-103 | The classification prompt succeeds, with the declared labels joined by `", "` in declared order. |
| ZeroShot.QuestionTemplateFormats | prompting/zero_shot.py:169-172 | The question-answering prompt succeeds with the question and the context in place. |
| ZeroShot.ExtractionTemplateFormats | prompting/zero_shot.py:228-234 | The extraction prompt succeeds with one `- field: description` line per schema field, in schema order. |
| ZeroShot.CreatePrompt | prompting/zero_shot.py:88-234 | Reference definition of the three `create_prompt` methods: binding the keyword inputs to `Params` and `Required`, then formatting the template. Its properties are `ClassifyUnknownField`, `RunUnboundArguments` and the `...TemplateFormats` rows. |
| ZeroShot.Params | prompting/zero_shot.py:88-218 | Reference definition of the parameter names of the three `create_prompt` signatures: `text` and `label_type`, `question` and `context`, or `text`. |
| ZeroShot.Required | prompting/zero_shot.py:88-218 | Reference definition of the one parameter of each `create_prompt` signature without a default: `question` for answering, `text` otherwise. |
| ZeroShot.MatchFrom | prompting/zero_shot.py:131-133 | The index found is of a label whose lower-case form occurs in the reply, and no earlier label's does. When nothing is found, no label occurs. |
| ZeroShot.MatchFromFirst | prompting/zero_shot.py:131-133 | The first label that occurs is the one found. |
| ZeroShot.ParseSingleLabel | prompting/zero_shot.py:115-135 | The search loop with its early return gives the first declared label whose lower-case form occurs in the stripped, lower-cased reply. If none occurs, it gives the stripped reply. |
| ZeroShot.SingleLabel | prompting/zero_shot.py:129-135 | Reference definition of the single-label reading: the first declared label found in the lower-cased reply, otherwise the stripped reply. `ParseSingleLabel` is proved equal to it. |
| ZeroShot.KeepDeclared | prompting/zero_shot.py:127-128 | Keeps exactly the tokens that are declared labels, compared case-sensitively. Token order and repeats are kept, so the result is a subsequence of the tokens. |
| ZeroShot.JsonLabels | prompting/zero_shot.py:119-122 | From a decoded JSON list, keeps exactly the string elements that are declared labels, in list order, each as often as it occurs. |
| ZeroShot.StripAll | prompting/zero_shot.py:127 | Each comma-separated token is stripped, and the number and order of tokens are kept. |
| ZeroShot.MultiLabel | prompting/zero_shot.py:117-128 | Every label returned is a declared label. |
| ZeroShot.MultiLabelJsonList | prompting/zero_shot.py:119-122 | When the stripped reply decodes to a JSON list, the result is its string elements that are declared labels, in list order and with their repeats. |
| ZeroShot.MultiLabelCommaFallback | prompting/zero_shot.py:123-128 | When the stripped reply does not decode to a JSON list, the result is the declared labels among the stripped comma-separated tokens, in token order. |
| ZeroShot.LineAfter | prompting/zero_shot.py:273-278 | Present exactly when the pattern occurs. The value is the stripped rest of the line after its first occurrence: it has no line break and no surrounding whitespace. |
| ZeroShot.FirstNonEmpty | prompting/zero_shot.py:272-281 | Whatever is found is a non-empty text that one of the candidates gives. |
| ZeroShot.FirstNonEmptyNone | prompting/zero_shot.py:272-281 | Nothing is found exactly when every candidate gives no text or an empty one. |
| ZeroShot.FirstNonEmptyAt | prompting/zero_shot.py:272-281 | What is found is the text of the first candidate that gives a non-empty one, whatever comes after it. |
| ZeroShot.FirstValueClean | prompting/zero_shot.py:272-281 | The value found for a set of patterns is non-empty, lies on one line and is stripped. |
| ZeroShot.FirstValueNone | prompting/zero_shot.py:272-281 | No value is found exactly when no pattern gives a non-empty one. |
| ZeroShot.FirstValueAt | prompting/zero_shot.py:272-281 | The value found is the one of the first pattern that gives a non-empty value, so an empty value moves on to the next pattern. |
| ZeroShot.Collect | prompting/zero_shot.py:263-283 | The result holds exactly the fields that have a value, each with that value, in field order. Over distinct fields it is a well-formed dictionary. |
| ZeroShot.CollectSnoc | prompting/zero_shot.py:264-281 | Scanning one more, new field appends that field at the end when, and only when, it has a value. |
| ZeroShot.LineScan | prompting/zero_shot.py:262-283 | The line-scan result holds exactly the schema fields that one of their patterns gives a non-empty value, with that value, in schema order. |
| ZeroShot.ScanPatterns | prompting/zero_shot.py:272-281 | The pattern loop, which breaks at the first non-empty value, gives the first useful pattern's value. |
| ZeroShot.ScanField | prompting/zero_shot.py:265-281 | Tries the six patterns of a field (`field:`, `field.lower():`, and their double- and single-quoted forms) in that order. |
| ZeroShot.ScanLines | prompting/zero_shot.py:262-283 | The nested loops over the schema fill the result field by field. Its keys come in schema order, and it holds exactly the fields that have a value. |
| ZeroShot.AsJson | prompting/zero_shot.py:280 | Each extracted value is kept as a JSON string under the same key, with the keys in the same order. |
| ZeroShot.ParseExtraction | prompting/zero_shot.py:246-283 | Only schema keys ever come back. It fails, with the `.items()` error, exactly when the JSON path is taken and the brace span decodes to a value that is not an object. |
| ZeroShot.ExtractionWithoutJson | prompting/zero_shot.py:246-283 | Unless the format is `json` (ignoring case) and both braces occur, the result is the line scan, in schema order. A field is present exactly when one of its patterns gives a non-empty value. |
| ZeroShot.ExtractionFromJson | prompting/zero_shot.py:248-257 | When the brace span decodes to an object, the result holds exactly its schema fields with their decoded values, in the decoded key order. |
| ZeroShot.ExtractionDecodeFails | prompting/zero_shot.py:246-283 | When the JSON path is taken but the brace span does not decode, the result is the line scan, in schema order, with a field present exactly when one of its patterns gives a non-empty value. |
| ZeroShot.ExtractionFailsExactly | prompting/zero_shot.py:246-283 | Extraction fails exactly when the JSON path is taken and the span decodes to a value that is not an object. Every other reply gives a result. |
| Dicts.Dict.Restrict | prompting/zero_shot.py:257 | The comprehension keeps exactly the accepted keys, in their original order, with their values. A well-formed dictionary stays well-formed. |
| ZeroShot.AnswerParseIdempotent | prompting/zero_shot.py:174-184 | Parsing an answer is a strip, so parsing it again changes nothing. |
| ZeroShot.ParseResponse | prompting/zero_shot.py:105-283 | Reference definition of the three `parse_response` methods, dispatched on the task. Its properties are `MultiLabel`, `SingleLabel`, `AnswerParseIdempotent` and `ParseExtraction`. |
| ZeroShot.Ask | prompting/zero_shot.py:319-327 | Reference definition of the provider call: `get_response` when the provider has it, otherwise `complete` without the model. Its property is `CompleterIgnoresModel`. |
| ZeroShot.Run | prompting/zero_shot.py:298-330 | Reference definition of `run`: create the prompt, ask once, parse. Its properties are `RunUnboundArguments` and the `...Default` rows. |
| ZeroShot.Classify | prompting/zero_shot.py:332-363 | Reference definition of `classify`. Its property is `ClassifyDefault`. |
| ZeroShot.AnswerQuestion | prompting/zero_shot.py:365-388 | Reference definition of `answer_question`. Its property is `AnswerQuestionDefault`. |
| ZeroShot.ExtractInfo | prompting/zero_shot.py:390-419 | Reference definition of `extract_info`. Its property is `ExtractInfoDefault`. |
| ZeroShot.ClassifyDefault | prompting/zero_shot.py:332-363 | `classify` with the default template sends the written-out classification prompt at temperature 0.1. It reads the reply as one label, or as a list of declared labels for a multi-label task. |
| ZeroShot.AnswerQuestionDefault | prompting/zero_shot.py:365-388 | `answer_question` asks at temperature 0.4. A missing or empty context is replaced by `"No additional context provided."`, and the reply is stripped. |
| ZeroShot.ExtractInfoDefault | prompting/zero_shot.py:390-419 | `extract_info` asks at temperature 0.0 and parses the reply against the schema. |
| ZeroShot.ClassifyUnknownField | prompting/zero_shot.py:99-103 | A custom classification template that references a field other than `text`, `labels` and `label_type` fails, whatever the provider replies. |
| ZeroShot.RunUnboundArguments | prompting/zero_shot.py:316 | For every task, `run` fails with the `TypeError` of `create_prompt(**input_data)` exactly when the inputs do not bind to that task's parameters, whatever the provider. |
| ZeroShot.CompleterIgnoresModel | prompting/zero_shot.py:319-327 | A provider with only `complete` gives the same result whatever model is asked for. |
| Config.AnalysisModels | config.py:12-19 | Both analysis models are the OpenAI default, `gpt-4o-mini`. |
| Config.CategoriesValid | config.py:21-39 | The listed category names are exactly the taxonomy's keys, each once. |
| Config.OtherIsCategory | config.py:38 | `"other"` is a category, and its only subcategory is `"not yet classified"`. |
| Config.SubcategoriesNonEmpty | config.py:21-39 | No category has an empty subcategory list. |
| Config.UpperCaseCategories | config.py:25-29 | `LLM`, `MLOps`, `DevOps` and `SQL` are categories that hold upper-case letters. |
| Config.MonitoringShared | config.py:26-27 | `"monitoring"` is a subcategory of both `MLOps` and `DevOps`. |
| Config.UnknownIsNoSubcategory | config.py:21-39 | `"unknown"` is a subcategory of no category. |
| Config.SubcategoriesLowerCase | config.py:22-38 | Every subcategory name is written in lower case. |
| OpenAIProvider.ModelOr | llm_providers/openai_provider.py:15-24 | A falsy model, `None` or `""`, selects `gpt-4o-mini`. Any other model is used as given. |
| OpenAIProvider.AnswerCallArguments | llm_providers/openai_provider.py:27-32 | The answer request sends the question alone as the user message, with no system message and no sampling arguments. |
| OpenAIProvider.ThemePromptEndsWithQuestion | llm_providers/openai_provider.py:42-45 | The theme prompt ends with the question, copied verbatim. |
| OpenAIProvider.SubthemePromptEndsWithQuestion | llm_providers/openai_provider.py:75-78 | The subtheme prompt ends with the question, copied verbatim. |
| OpenAIProvider.DifficultyPromptEndsWithQuestion | llm_providers/openai_provider.py:114-122 | The difficulty prompt ends with the question, copied verbatim. |
| OpenAIProvider.ErrorCheckPromptEndsWithText | llm_providers/openai_provider.py:220-225 | The error-check prompt ends with the text, copied verbatim. |
| OpenAIProvider.GetResponseContent | llm_providers/openai_provider.py:22-33 | The reply content is returned unchanged. A falsy model is the same as asking the default model. |
| OpenAIProvider.GetResponseRaised | llm_providers/openai_provider.py:34-35 | A failed call comes back as an ordinary reply, `"Error from OpenAI API: "` followed by the error message. |
| OpenAIProvider.GetResponse | llm_providers/openai_provider.py:22-35 | Reference definition of `get_response`. Its properties are `GetResponseContent` and `GetResponseRaised`. |
| OpenAIProvider.Normalised | llm_providers/openai_provider.py:58-62 | The reply is stripped and lower-cased, so it holds no upper-case letter. It is absent when the call raises or the content is `None`. |
| OpenAIProvider.Closed | llm_providers/openai_provider.py:58-65 | The result is always in the allowed set or the fallback. It is the normalised reply exactly when that reply is allowed. |
| OpenAIProvider.ClassifyTheme | llm_providers/openai_provider.py:38-65 | The theme is always a category or `"other"`. It is the normalised reply when that is a category, and `"other"` for any other reply or a failed call. |
| OpenAIProvider.ThemeNeverUpperCase | llm_providers/openai_provider.py:58-60 | A category name holding an upper-case letter is never returned as the theme, whatever the reply. |
| OpenAIProvider.ClassifySubtheme | llm_providers/openai_provider.py:68-98 | The result is always a subcategory or `"other"`. An empty list gives `"other"`; otherwise the normalised reply if listed, else `"other"`, including on a failed call. |
| OpenAIProvider.ClassifySubthemeEmpty | llm_providers/openai_provider.py:72-73 | With an empty subcategory list the result does not depend on the client, so no call is made. |
| OpenAIProvider.JudgeDifficultyLevel | llm_providers/openai_provider.py:100-142 | The level is always `beginner`, `intermediate` or `advanced`. An unrecognised reply or a failed call gives `intermediate`. |
| OpenAIProvider.IsErrorMessage | llm_providers/openai_provider.py:206-243 | True exactly when the call succeeds and its stripped, lower-cased reply is `"error"`. A failed call gives false. |
| Cascade.HandleQuestionIn | main.py:127-151 | A known provider sends the answer, theme, subtheme, error-check and difficulty requests, in that order, with the stated models. The theme is a taxonomy key, so the subcategory lookup is defined. An unknown provider sends nothing. |
| Cascade.KnownProviderClosed | main.py:132-139 | On the known-provider path, the theme is a category or `"other"`, the subtheme is in the theme's list or `"other"`, and the difficulty is one of the three levels. |
| Cascade.KnownProviderFields | main.py:132-139 | Each stored field is its classifier's reading of the reply to its own request. |
| Cascade.KnownProviderNoSubcategories | main.py:135 | A theme without subcategories is stored with subtheme `"other"`, and no subtheme request is sent. |
| Cascade.UnknownProvider | main.py:141-146 | An unknown provider makes no call and stores the fixed values: the not-available answer, `"other"`, `"unknown"`, false and `"unknown"`. |
| Cascade.RecordShape | main.py:148-151 | The error flag is written to both error columns and `helpful` is empty. The question, timestamp, provider and model are stored as given. |
| Cascade.ConfiguredTaxonomy | main.py:20 | `DICT_CATEGORIES` lists its keys as `SUBJECT_CATEGORIES`, holds `"other"`, and has no empty subcategory list. |
| Cascade.HandleQuestion | main.py:127-151 | Over the configured taxonomy, a known provider's theme is always a key of `DICT_CATEGORIES`. |
| Cascade.KnownProviderOrder | main.py:132-139 | With the configured taxonomy a known provider sends exactly five requests, in order. The classification requests go to `gpt-4o-mini`, and the subtheme request carries the theme's own subcategory list. |
| Cascade.UnknownOutsideClosedSets | main.py:143-146 | The placeholder `"unknown"` lies outside the difficulty levels and outside every subcategory list. |
| Embeddings.SumSquares | utils/embedding_models.py:15-16 | A sum of squares is never negative. |
| Embeddings.Cosine | utils/embedding_models.py:13-17 | The score raises a division error exactly when the product of the norms is zero. |
| Embeddings.CosineSymmetric | utils/embedding_models.py:13-17 | The score does not depend on the order of its operands. |
| Embeddings.DotOfCommonPrefix | utils/embedding_models.py:14 | The dot product pairs only the first `min(len a, len b)` coordinates. |
| Embeddings.Dot | utils/embedding_models.py:14 | Reference definition of `sum(x * y for x, y in zip(a, b))`. Its property is `DotOfCommonPrefix`. |
| Embeddings.ZeroVectorRaises | utils/embedding_models.py:15-17 | A zero vector, the empty one included, makes the score raise ZeroDivisionError: nothing guards the division. |
| Embeddings.Insert | utils/embedding_models.py:29 | Inserting into a ranking by non-increasing score keeps it non-increasing. |
| Embeddings.InsertPermutes | utils/embedding_models.py:29 | Insertion adds exactly the new pair. |
| Embeddings.SortDescending | utils/embedding_models.py:29 | The ranking is by non-increasing score and is a permutation of its input. |
| Embeddings.SortDescendingStable | utils/embedding_models.py:29 | Pairs with equal scores keep their input order, so the sort is stable. |
| Embeddings.Prefix | utils/embedding_models.py:31 | `s[:n]` is a prefix of `s` of length `min(n, len)`, and a negative `n` counts from the end. |
| Embeddings.Similarities | utils/embedding_models.py:24-27 | One pair per database entry, in order, holding that entry's chunk and the score of its own embedding. It raises exactly when some score raises. |
| Embeddings.RetrieveNClosestVectors | utils/embedding_models.py:20-31 | The loop, sort and slice embed the query once and return the top-N selection of the scored database. A raising score aborts the call. |
| Embeddings.TopNLength | utils/embedding_models.py:31 | Exactly `min(top_n, len(db))` pairs come back for a non-negative `top_n`. |
| Embeddings.TopNRanked | utils/embedding_models.py:29-31 | The result is non-increasing and is a prefix of the full ranking, so no excluded pair scores higher than an included one. |
| Embeddings.TopNFromDatabase | utils/embedding_models.py:24-31 | Every pair is a database chunk with the score of its own embedding, and no entry comes back twice. |
| Embeddings.TopNStable | utils/embedding_models.py:29-31 | Among returned pairs of equal score, the database order is kept. |
| Embeddings.TopNEmpty | utils/embedding_models.py:25-31 | An empty database gives no pairs. |
| Embeddings.TopN | utils/embedding_models.py:20-31 | Reference definition of the retrieval: score every entry, sort descending, keep the first `top_n`. `RetrieveNClosestVectors` is proved equal to it; its properties are the `TopN...` rows. |
| VectorIndex.VectorStore.constructor | utils/general.py:9 | `VECTOR_DB` starts empty. |
| VectorIndex.VectorStore.Retrieve | utils/general.py:17-27 | `retrieve` over the current database is the same top-N selection as `retrieve_n_closest_vectors`, with the same cosine. |
| VectorIndex.RetrieveBeforePopulation | utils/general.py:9-27 | Retrieving before the database is populated gives no pairs. |
| VectorIndex.DefaultTopNAtMostThree | utils/general.py:17-27 | With the default `top_n` at most three pairs come back. |
| DataValidation.InOperator | utils/data_validation.py:21 | Python's `in` is a key test on a dictionary and a substring or element test on a string or list. On any other value it raises `TypeError`. |
| DataValidation.Clamp | utils/data_validation.py:30 | `max(0, min(10, x))` lies in [0, 10], is `x` when `x` is in range, and is the nearer bound otherwise. |
| DataValidation.CheckDifficulty | utils/data_validation.py:21-32 | A dictionary without `difficulty` is returned as parsed. A non-numeric difficulty gives `None`. An out-of-range number is clamped in place, leaving every other key and the key order unchanged. An in-range one is kept. A value where the lookup raises gives `None`. |
| DataValidation.ValidateMetadata | utils/data_validation.py:4-35 | Falsy text or a decode failure gives `None`. Otherwise at most `difficulty` changes, the key order stays, and a present difficulty is a number in [0, 10]. |
| DataAggregation.WeekKey | utils/data_aggregation.py:39 | Splitting `"{week}-{year}"` on `-` gives back the two numerals. |
| DataAggregation.WeekKeyInjective | utils/data_aggregation.py:39 | Distinct (week, year) pairs have distinct keys. |
| DataAggregation.OfWeek | utils/data_aggregation.py:41-44 | The rows of one week, in cursor order. |
| DataAggregation.BucketedValid | utils/data_aggregation.py:26-46 | The buckets form a well-formed dictionary. |
| DataAggregation.FileRow | utils/data_aggregation.py:41-44 | The loop body creates the row's bucket when its week is new, then appends the row to it. |
| DataAggregation.QuestionsByWeek | utils/data_aggregation.py:26-46 | The loop files every row into its week's bucket, in cursor order. |
| DataAggregation.BucketedByWeek | utils/data_aggregation.py:28-46 | The buckets are exactly the weeks that occur, each holding precisely that week's rows in cursor order, so no bucket is empty. |
| DataAggregation.BucketedFirstSeen | utils/data_aggregation.py:28-44 | The buckets come in the order in which their weeks first occur among the rows. |
| DataAggregation.Bucketed | utils/data_aggregation.py:26-46 | Reference definition of the weekly buckets, row by row. `QuestionsByWeek` is proved equal to it; its properties are `BucketedByWeek`, `BucketMembership` and `BucketSizesSum`. |
| DataAggregation.BucketMembership | utils/data_aggregation.py:39-44 | Every row is in its own week's bucket and in no other. |
| DataAggregation.BucketSizesSum | utils/data_aggregation.py:28-44 | The bucket sizes add up to the number of rows. |
| DataAggregation.Difficulty | utils/data_aggregation.py:83-86 | A row contributes exactly when its validated metadata holds `difficulty`, and the value is then in [0, 10]. |
| DataAggregation.ScoresOfWeek | utils/data_aggregation.py:83-93 | Every contributed difficulty lies in [0, 10]. |
| DataAggregation.TalliedValid | utils/data_aggregation.py:68-93 | The weekly tally is a well-formed dictionary. |
| DataAggregation.TalliedByWeek | utils/data_aggregation.py:71-93 | The tallied weeks are those with a contributing row. Each holds the sum and the number of its difficulties. |
| DataAggregation.TalliedFirstSeen | utils/data_aggregation.py:71-93 | The tallied weeks come in the order in which their first contributing row occurs, so the weekly averages do too. |
| DataAggregation.Tallied | utils/data_aggregation.py:68-93 | Reference definition of the first loop of `get_difficulty_by_week`: per week, the sum and count of the difficulties. `TallyWeeks` is proved equal to it; its properties are `TalliedValid`, `TalliedByWeek` and `CountsPositive`. |
| DataAggregation.CountsPositive | utils/data_aggregation.py:88-93 | Every tallied count is at least one. |
| DataAggregation.Round2 | utils/data_aggregation.py:99 | `round(x, 2)` lies within 0.005 of `x` and keeps [0, 10]. |
| DataAggregation.Round2TiesToEven | utils/data_aggregation.py:99 | A tie between two hundredths goes to the even one. |
| DataAggregation.AverageInRange | utils/data_aggregation.py:99 | The mean of values in [0, 10] is in [0, 10]. |
| DataAggregation.RowDifficulty | utils/data_aggregation.py:83-86 | The validation and the test give the row's contribution. |
| DataAggregation.AddDifficulty | utils/data_aggregation.py:88-93 | A new week starts at zero sum and zero count, and then both are increased. |
| DataAggregation.TallyWeeks | utils/data_aggregation.py:68-93 | The first loop gives the running sum and count of every week that has a contributing row. |
| DataAggregation.AverageWeeks | utils/data_aggregation.py:96-99 | The second loop gives the mean of every week with a positive count, in the order of the weeks. |
| DataAggregation.DifficultyByWeek | utils/data_aggregation.py:48-101 | `get_difficulty_by_week` is the two loops one after the other. |
| DataAggregation.AveragedKeys | utils/data_aggregation.py:96-99 | Averaging distinct weeks with positive counts keeps exactly those weeks, in order. |
| DataAggregation.WeeklyAveragesByWeek | utils/data_aggregation.py:96-101 | The output weeks are exactly the tallied weeks, in the tally's key order. Each maps to its sum divided by its count, rounded to two places. |
| DataAggregation.WeeklyAveragesInRange | utils/data_aggregation.py:96-101 | Every weekly average lies in [0, 10]. |
| DataAggregation.WeeklyAverages | utils/data_aggregation.py:96-101 | Reference definition of the weekly means. `DifficultyByWeek` is proved equal to it; its properties are `WeeklyAveragesByWeek` and `WeeklyAveragesInRange`. |
| Visualization.Reversed | routes/visualization.py:24 | `s[::-1]` holds the same elements in reverse order. |
| Visualization.ParseAll | routes/visualization.py:24 | `tuple(map(int, parts))` succeeds exactly when every part is a numeral, and then reads each part. |
| Visualization.SortKeyOfWeekKey | routes/visualization.py:24 | Reading a key back inverts its construction: `"w-y"` gives the tuple `(y, w)`. |
| Visualization.LexLessPairs | routes/visualization.py:23-24 | Tuples of two are ordered by the first field, then by the second. |
| Visualization.Insert | routes/visualization.py:23-24 | Insertion keeps the sorted list ascending. |
| Visualization.Sort | routes/visualization.py:23-24 | `sorted` gives an ascending list of the same length. |
| Visualization.SortPermutes | routes/visualization.py:23-24 | `sorted` gives a permutation of its input. |
| Visualization.SortStable | routes/visualization.py:23-24 | Elements with equal keys keep their relative order. |
| Visualization.SortedWeeksSpec | routes/visualization.py:23-24 | Sorting fails exactly when some key does not parse. Otherwise the keys come out ascending, permuted and stable. |
| Visualization.SortedWeeks | routes/visualization.py:23-24 | Reference definition of `sorted(..., key=...)` over the week keys, absent when a key does not parse. Its properties are `SortedWeeksSpec` and `SortedWeeksOfDict`. |
| Visualization.CollectSeries | routes/visualization.py:19-26 | The loop appends each week in sorted order to `weeks`, and its average to `difficulties` at the same index. |
| Visualization.WeeklySeries | routes/visualization.py:19-26 | `weeks` are the sorted keys, `difficulties` has the same length, and `difficulties[i]` is the average of `weeks[i]`. A key that does not parse gives the error page. |
| Visualization.SortedWeeksOfDict | routes/visualization.py:23-26 | `weeks` holds every key of the averages exactly once and nothing else. |
| Visualization.WeekKeysOrdered | routes/visualization.py:23-24 | Keys built as `"w-y"` are ordered by year, then by week. |
| Visualization.NineBeforeTen | routes/visualization.py:23-24 | Week 9 of a year comes before its week 10, though `"10-..."` is textually smaller. |
| Visualization.AveragesChart | routes/visualization.py:16-24 | Every key the aggregation produces parses, so the chart never takes the error path for them. |
| Formatting.WordEnd | utils/formatting.py:10 | `\w*` takes the longest run of word characters. |
| Formatting.BlockAt | utils/formatting.py:10 | A match is an opening fence, a word-character language, a newline, the code, and the first closing `"\n```"` after it. |
| Formatting.BlockAtText | utils/formatting.py:10 | The text of a matched block is exactly fence, language, newline, code and closing fence. |
| Formatting.BlockAtFindsMatch | utils/formatting.py:10 | Wherever the pattern can match, it does: the language is the whole word run, and the block closes at the first closing fence (non-greedy). |
| Formatting.BlocksWithoutFence | utils/formatting.py:17 | Text without an opening fence is copied unchanged by the block pass. |
| Formatting.Blocks | utils/formatting.py:10-17 | Reference definition of the fenced-block `re.sub` as a left-to-right scanner. Its properties are `BlocksWithoutFence`, `LoneBlock` and `BlockAtFindsMatch`. |
| Formatting.LoneBlock | utils/formatting.py:10-17 | A lone fenced block becomes one `<pre><code class="language-…">` element with the code copied verbatim, and an empty tag becomes `text`. |
| Formatting.SpanAt | utils/formatting.py:20 | An inline span is a backtick, a non-empty backtick-free run, and a backtick. |
| Formatting.SpanAtFindsMatch | utils/formatting.py:20 | Every such span matches. |
| Formatting.SpansWithoutBacktick | utils/formatting.py:21 | Text without a backtick is copied unchanged by the inline pass. |
| Formatting.Spans | utils/formatting.py:20-21 | Reference definition of the inline-code `re.sub` as a left-to-right scanner. Its properties are `SpansWithoutBacktick` and `SpanAtFindsMatch`. |
| Formatting.FormatCodeBlocks | utils/formatting.py:3-6 | Falsy text (`None` or `""`) comes back as given, and any other text comes back as a text. |
| Formatting.NoBacktickUnchanged | utils/formatting.py:10-23 | Text with no backtick comes back unchanged. |
| Formatting.LoneBlockFormatted | utils/formatting.py:10-23 | A lone fenced block with backtick-free code becomes exactly its HTML element. |
| Formatting.InlineSpanFormatted | utils/formatting.py:20-21 | `` `x` `` with non-empty, backtick-free `x` becomes `<code>x</code>`. |
| PromptChaining.ReplaceAllAbsent | src/utils/prompt-chain.ts:31 | A text that does not mention the pattern is unchanged by the global replacement. |
| PromptChaining.ReplaceAllJoin | src/utils/prompt-chain.ts:31 | Every occurrence of a placeholder between brace-free parts is replaced. |
| PromptChaining.ReplaceAll | src/utils/prompt-chain.ts:31 | Reference definition of a global `replace`. Its properties are `ReplaceAllAbsent` and `ReplaceAllJoin`. |
| PromptChaining.SubstitutedOnePlaceholder | src/utils/prompt-chain.ts:26-35 | A placeholder whose key is among the variables becomes that key's value. One with no variable is left verbatim, whatever the other keys are. |
| PromptChaining.SubstitutedUnmentioned | src/utils/prompt-chain.ts:26-35 | A template that mentions none of the keys' placeholders is left as it is. |
| PromptChaining.Substituted | src/utils/prompt-chain.ts:26-35 | Reference definition of `Prompt.format`, one key after another. `Prompt.Format` is proved equal to it; its properties are the `Substituted...` rows. |
| PromptChaining.Prompt.constructor | src/utils/prompt-chain.ts:18-21 | Stores the template and the executor. |
| PromptChaining.Prompt.Format | src/utils/prompt-chain.ts:26-35 | The loop replaces each variable's placeholder everywhere, in the variables' order. Without variables the template is returned unchanged. |
| PromptChaining.Prompt.Execute | src/utils/prompt-chain.ts:40-43 | The response is the executor's reply to the formatted prompt. |
| PromptChaining.ChainedConcat | src/utils/prompt-chain.ts:78-82 | Running two chains one after the other is the same as running their concatenation, so the prompts run strictly in insertion order. |
| PromptChaining.ChainedKeys | src/utils/prompt-chain.ts:76-84 | The result holds exactly the initial keys and the output keys. |
| PromptChaining.ChainedLastWrite | src/utils/prompt-chain.ts:79-81 | An output key holds the response of the last prompt that writes it. That prompt sees its mapper's view of the outputs before it, or all of them when it has no mapper. |
| PromptChaining.ChainedKeepsInitial | src/utils/prompt-chain.ts:76 | An initial variable that no prompt writes comes through unchanged. |
| PromptChaining.Chained | src/utils/prompt-chain.ts:75-84 | Reference definition of the chain run, link by link. `PromptChain.Execute` is proved equal to it; its properties are the `Chained...` rows. |
| PromptChaining.PromptChain.constructor | src/utils/prompt-chain.ts:50-54 | A new chain has no prompts. |
| PromptChaining.PromptChain.AddPrompt | src/utils/prompt-chain.ts:62-69 | Appends exactly one entry at the end and returns the same chain. |
| PromptChaining.PromptChain.Execute | src/utils/prompt-chain.ts:75-85 | The loop copies the initial variables, then runs every prompt in order, storing each response under its output key. |
| PromptChaining.LlmExecuteFirst30 | src/utils/prompt-chain.ts:105 | The canned response depends only on the first 30 characters of the input. |
| PromptChaining.LlmExecuteInjectiveShort | src/utils/prompt-chain.ts:105 | Inputs of at most 30 characters can be told apart by their responses. |
| PromptChaining.LlmExecute | src/utils/prompt-chain.ts:98-106 | Reference definition of the canned executor. Its properties are `LlmExecuteFirst30` and `LlmExecuteInjectiveShort`. |
| PromptChaining.RunExamplePromptChain | src/examples/prompt-chain-example.ts:11-43 | The example chain yields the keys `text`, `summary`, `keyPoints` and `actionItems`, in that order. `text` is kept, and the three responses are fixed texts that do not depend on the input. |
| PromptChaining.ExampleChained | src/examples/prompt-chain-example.ts:30-43 | Running the three example links from `{ text }` gives that result. |

## Left out

- The chat client, the Ollama embedder and the prompter's provider are function parameters. Together with the network, SQLite, FastAPI/Flask routes, Jinja templates, Plotly rendering and the React UI, their own behaviour is not modelled.
- `json.loads` is a function parameter that gives a decoded value or a decode failure. A decoded number is an exact real, so NaN and infinities are not represented.
- Floating point arithmetic is modelled on exact reals: scores, sums, means and `round(x, 2)` (round half to even on the exact value). The square root is a function parameter.
- `str.lower()` and `\w` are modelled on ASCII only. `strip` uses Python's whitespace set. `int()` in the week-key sort is read as a plain decimal numeral, so signs, surrounding spaces and underscores are not accepted.
- `re.sub` is modelled by hand-written scanners for the two fixed patterns of `format_code_blocks`. The inline pass runs over the whole text after the block pass, so it also rewrites backticks inside the emitted `<pre><code>` elements, exactly as written.
- `PromptTemplates.Format` covers `{name}`, `{{` and `}}`. Attribute, index, conversion and format-spec parts of a field are not modelled, and the default templates use none of them.
- `PromptTemplate.from_file` reads a file and is not modelled.
- In the prompt chain, keys are read as plain text rather than as `RegExp` source, and values hold no `$` replacement patterns. Variable values are strings, so `String(value)` is the value itself.
- LlmExecute: strings are sequences of Unicode code points, so `substring(0, 30)` keeps the first 30 code points. JavaScript counts UTF-16 code units, so a character outside the Basic Multilingual Plane counts as two and can be cut in half; that is not modelled.
- `Object.entries` order is modelled as key insertion order, and the model does not move integer-like keys to the front.
- The logging and the 500 ms delay in `LlmPromptExecutor.execute`, and its `model` field, are not modelled: the field is only logged. Rejected promises are left out, because every executor is a total function.
- Python's dictionaries are modelled by `Dicts.Dict` values (insertion-ordered keys plus a map) that the methods reassign. This includes decoded JSON objects and the extraction result, so key order is kept. `json.loads` is trusted to give an object's keys once each. Aliasing of a dictionary or list passed in by the caller, for example the `examples` list given to `FewShotPrompt`, is not modelled.
- `list.sort` and `sorted` are modelled by a stable insertion sort, and their contracts state what Timsort guarantees: ordered, a permutation, and stable. Timsort's own steps are not modelled.
- `datetime.fromisoformat`, `datetime.now()` and `isocalendar()` are not modelled. Each row carries its week number and year as fields, and rows come in cursor order, so the `ORDER BY` of the query is given.
- `difficulty_by_week` and `count_by_week` are always written together, so the model keeps them as one dictionary of (sum, count) pairs.
- `validate_metadata`'s in-place `metadata_dict['difficulty'] = ...` is modelled as building the updated value. Python's `max(0, min(10, x))` returns the int `0` or `10` for any clamped value, a float included. The model gives the real `0.0` or `10.0`, so the int/float distinction of a clamped difficulty is not kept.
- Visualization.WeeklySeries: the chart route turns any exception into its error page. The model gives `None` for the one exception the sort can raise, a key that does not parse.
- `get_available_models` returns the constant `OpenAIProvider.Models`, and the client set up in `OpenAIProvider.__init__` is the client parameter.
- `OPENAI_API_KEY`, `load_dotenv` and the Ollama entry of `DICT_DEFAULT_MODEL` are outside the modelled classification path and are not modelled further.
- `ZeroShotPrompter.run` passes `temperature=` to `get_response`, but `OpenAIProvider.get_response` has no such parameter. The prompter's provider is therefore a separate two-variant type: one with `get_response(prompt, model, temperature)`, or one with only `complete(prompt, temperature)`.
- `utils/general.py` repeats `cosine_similarity` and the ranking loop of `utils/embedding_models.py` expression for expression. `VectorIndex` therefore reuses `Embeddings.Cosine` and `Embeddings.TopN`. The statement that `VECTOR_DB` is populated externally is modelled by its field being readable and assignable.
