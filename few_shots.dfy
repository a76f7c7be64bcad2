/**
 * Few-shot prompt assembly: an ordered, editable list of input/output examples,
 * a deterministic prompt layout, and a registry of prompts by name.
 */
module FewShots {
  import opened Wrappers
  import opened Text
  import opened Dicts

  const DefaultInputPrefix: string := "Input: "
  const DefaultOutputPrefix: string := "Output: "
  const DefaultSeparator: string := "\n\n"

  /** One example; `outputText` is `None` when the caller left Python's default. */
  datatype Example = Example(inputText: string, outputText: Option<string>)

  /** `FewShotExample.format`: the prefixed input line, a line break, the prefixed output. */
  function FormatExample(ex: Example, inputPrefix: string := DefaultInputPrefix,
                         outputPrefix: string := DefaultOutputPrefix): string
  {
    inputPrefix + ex.inputText + "\n" + outputPrefix + Show(ex.outputText)
  }

  /**
   * The two lines of a formatted example can be read back: when neither prefixed
   * half holds a line break, splitting on line breaks recovers exactly them.
   */
  lemma FormatExampleLines(ex: Example, inputPrefix: string, outputPrefix: string)
    requires '\n' !in inputPrefix + ex.inputText
    requires '\n' !in outputPrefix + Show(ex.outputText)
    ensures Split(FormatExample(ex, inputPrefix, outputPrefix), '\n')
            == [inputPrefix + ex.inputText, outputPrefix + Show(ex.outputText)]
  {
    var a, b := inputPrefix + ex.inputText, outputPrefix + Show(ex.outputText);
    assert FormatExample(ex, inputPrefix, outputPrefix) == a + ['\n'] + b;
    SplitAtFirst(a, '\n', b);
    SplitWithout(b, '\n');
  }

  /** A formatted example is never empty: it always holds the line break. */
  lemma FormatExampleNonEmpty(ex: Example, inputPrefix: string, outputPrefix: string)
    ensures '\n' in FormatExample(ex, inputPrefix, outputPrefix)
  {
    var a := inputPrefix + ex.inputText;
    assert FormatExample(ex, inputPrefix, outputPrefix)[|a|] == '\n';
  }

  /** The formatted examples, in list order. */
  function FormatAll(examples: seq<Example>, inputPrefix: string, outputPrefix: string): (r: seq<string>)
    ensures |r| == |examples|
    ensures forall i :: 0 <= i < |examples| ==> r[i] == FormatExample(examples[i], inputPrefix, outputPrefix)
  {
    seq(|examples|, i requires 0 <= i < |examples| => FormatExample(examples[i], inputPrefix, outputPrefix))
  }

  /** `format_examples`: the formatted examples joined by the separator. */
  function FormatBlock(examples: seq<Example>, inputPrefix: string, outputPrefix: string,
                       separator: string): string
  {
    Join(separator, FormatAll(examples, inputPrefix, outputPrefix))
  }

  /** The examples block is empty exactly when there are no examples. */
  lemma BlockEmptyIff(examples: seq<Example>, inputPrefix: string, outputPrefix: string, separator: string)
    ensures FormatBlock(examples, inputPrefix, outputPrefix, separator) == "" <==> examples == []
  {
    if examples != [] {
      var parts := FormatAll(examples, inputPrefix, outputPrefix);
      FormatExampleNonEmpty(examples[0], inputPrefix, outputPrefix);
      JoinStartsWithFirst(separator, parts);
    }
  }

  /** Appending an example appends the separator and its formatted text to the block. */
  lemma BlockSnoc(examples: seq<Example>, ex: Example, inputPrefix: string, outputPrefix: string,
                  separator: string)
    ensures FormatBlock(examples + [ex], inputPrefix, outputPrefix, separator)
            == if examples == [] then FormatExample(ex, inputPrefix, outputPrefix)
               else FormatBlock(examples, inputPrefix, outputPrefix, separator) + separator
                    + FormatExample(ex, inputPrefix, outputPrefix)
  {
    var parts := FormatAll(examples, inputPrefix, outputPrefix);
    var last := FormatExample(ex, inputPrefix, outputPrefix);
    assert FormatAll(examples + [ex], inputPrefix, outputPrefix) == parts + [last];
    if examples != [] {
      JoinSnoc(separator, parts, last);
    }
  }

  /**
   * The prompt layout, written out case by case: the instruction and the examples
   * block are separated by a blank line; a query adds, after a blank line when
   * anything precedes it, the prefixed query and a bare output prefix.
   */
  function PromptLayout(instruction: string, block: string, query: Option<string>,
                        inputPrefix: string, outputPrefix: string): string
  {
    var lead :=
      if instruction == "" then block
      else if block == "" then instruction
      else instruction + "\n\n" + block;
    match query
    case None => lead
    case Some(q) => (if lead == "" then "" else lead + "\n\n") + inputPrefix + q + "\n" + outputPrefix
  }

  /** With a query, the prompt ends in a line break followed by the output prefix, after the prefixed query. */
  lemma LayoutEndsWithOutputPrefix(instruction: string, block: string, q: string,
                                   inputPrefix: string, outputPrefix: string)
    ensures var p := PromptLayout(instruction, block, Some(q), inputPrefix, outputPrefix);
            |p| >= |inputPrefix + q + "\n" + outputPrefix|
            && p[|p| - |inputPrefix + q + "\n" + outputPrefix|..] == inputPrefix + q + "\n" + outputPrefix
  {
  }

  /** The prompt is empty exactly when there is no instruction, no example and no query. */
  lemma LayoutEmptyIff(instruction: string, block: string, query: Option<string>,
                       inputPrefix: string, outputPrefix: string)
    ensures PromptLayout(instruction, block, query, inputPrefix, outputPrefix) == ""
            <==> instruction == "" && block == "" && query.None?
  {
    if query.Some? {
      var p := PromptLayout(instruction, block, query, inputPrefix, outputPrefix);
      var tail := inputPrefix + query.value + "\n" + outputPrefix;
      assert tail[|inputPrefix + query.value|] == '\n';
      LayoutEndsWithOutputPrefix(instruction, block, query.value, inputPrefix, outputPrefix);
      assert |p| >= 1;
    }
  }

  /** A non-empty instruction opens the prompt. */
  lemma LayoutStartsWithInstruction(instruction: string, block: string, query: Option<string>,
                                    inputPrefix: string, outputPrefix: string)
    requires instruction != ""
    ensures var p := PromptLayout(instruction, block, query, inputPrefix, outputPrefix);
            |p| >= |instruction| && p[..|instruction|] == instruction
  {
  }

  /** What `add_example` may be given first: a ready example or an input text. */
  datatype ExampleArg = ReadyExample(ex: Example) | InputText(text: string)

  /** The example `add_example(first, output_text)` appends. */
  function ExampleOf(first: ExampleArg, outputText: Option<string>): Example {
    match first
    case ReadyExample(ex) => ex
    case InputText(t) => Example(t, outputText)
  }

  /** `FewShotPrompt`: the instruction, the examples, the two prefixes and the separator. */
  class FewShotPrompt {
    var instruction: string
    var examples: seq<Example>
    var inputPrefix: string
    var outputPrefix: string
    var exampleSeparator: string

    /** `examples or []`: both `None` and an empty list give the empty list. */
    constructor (instruction: string := "", examples: seq<Example> := [],
                 inputPrefix: string := DefaultInputPrefix, outputPrefix: string := DefaultOutputPrefix,
                 exampleSeparator: string := DefaultSeparator)
      ensures this.instruction == instruction && this.examples == examples
      ensures this.inputPrefix == inputPrefix && this.outputPrefix == outputPrefix
      ensures this.exampleSeparator == exampleSeparator
    {
      this.instruction := instruction;
      this.examples := examples;
      this.inputPrefix := inputPrefix;
      this.outputPrefix := outputPrefix;
      this.exampleSeparator := exampleSeparator;
    }

    /** Appends exactly one example at the end; the earlier ones keep their order. */
    method AddExample(first: ExampleArg, outputText: Option<string> := None) returns (chained: FewShotPrompt)
      modifies this`examples
      ensures examples == old(examples) + [ExampleOf(first, outputText)]
      ensures chained == this
    {
      examples := examples + [ExampleOf(first, outputText)];
      chained := this;
    }

    /** Removes the example at `index` when it is a valid non-negative index; otherwise changes nothing. */
    method RemoveExample(index: int) returns (chained: FewShotPrompt)
      modifies this`examples
      ensures 0 <= index < |old(examples)| ==>
                |examples| == |old(examples)| - 1
                && examples == old(examples)[..index] + old(examples)[index + 1..]
      ensures !(0 <= index < |old(examples)|) ==> examples == old(examples)
      ensures chained == this
    {
      if 0 <= index < |examples| {
        examples := examples[..index] + examples[index + 1..];
      }
      chained := this;
    }

    method ClearExamples() returns (chained: FewShotPrompt)
      modifies this`examples
      ensures examples == [] && chained == this
    {
      examples := [];
      chained := this;
    }

    method SetInstruction(instruction: string) returns (chained: FewShotPrompt)
      modifies this`instruction
      ensures this.instruction == instruction && chained == this
    {
      this.instruction := instruction;
      chained := this;
    }

    /** `format_examples`: empty exactly when there are no examples. */
    function FormatExamples(): (r: string)
      reads this
      ensures r == "" <==> examples == []
    {
      BlockEmptyIff(examples, inputPrefix, outputPrefix, exampleSeparator);
      FormatBlock(examples, inputPrefix, outputPrefix, exampleSeparator)
    }

    /**
     * `build_prompt`: collects the present components and joins them with line
     * breaks; an empty component stands for each blank line. The result is the
     * case-by-case layout.
     */
    method BuildPrompt(query: Option<string> := None) returns (prompt: string)
      ensures prompt == PromptLayout(instruction, FormatExamples(), query, inputPrefix, outputPrefix)
    {
      var block := FormatExamples();
      var components: seq<string> := [];
      if instruction != "" {
        components := components + [instruction];
      }
      if examples != [] {
        if components != [] {
          components := components + [""];
        }
        components := components + [block];
      }
      assert components == LeadComponents(instruction, block);
      LeadComponentsJoin(instruction, block);
      ghost var lead := components;
      if query.Some? {
        if components != [] {
          components := components + [""];
        }
        components := components + [inputPrefix + query.value];
        components := components + [outputPrefix];
        QueryComponentsJoin(lead, inputPrefix, query.value, outputPrefix);
      }
      prompt := Join("\n", components);
    }
  }

  /** The components `build_prompt` collects before the query: the instruction and the block, a blank between. */
  function LeadComponents(instruction: string, block: string): seq<string> {
    if instruction == "" then (if block == "" then [] else [block])
    else if block == "" then [instruction]
    else [instruction, "", block]
  }

  lemma LeadComponentsJoin(instruction: string, block: string)
    ensures Join("\n", LeadComponents(instruction, block)) == PromptLayout(instruction, block, None, "", "")
    ensures LeadComponents(instruction, block) == [] <==> PromptLayout(instruction, block, None, "", "") == ""
  {
    if instruction != "" && block != "" {
      JoinSnoc("\n", [instruction], "");
      assert [instruction] + [""] == [instruction, ""];
      JoinSnoc("\n", [instruction, ""], block);
      assert [instruction, ""] + [block] == [instruction, "", block];
    }
  }

  /** Adding a blank (when something precedes), the prefixed query and the output prefix. */
  lemma QueryComponentsJoin(lead: seq<string>, inputPrefix: string, q: string, outputPrefix: string)
    ensures Join("\n", (if lead == [] then [] else lead + [""]) + [inputPrefix + q] + [outputPrefix])
            == (if lead == [] then "" else Join("\n", lead) + "\n\n") + inputPrefix + q + "\n" + outputPrefix
  {
    var withBlank := if lead == [] then [] else lead + [""];
    var before := if lead == [] then "" else Join("\n", lead) + "\n\n";
    if lead != [] {
      JoinSnoc("\n", lead, "");
      JoinSnoc("\n", withBlank, inputPrefix + q);
    } else {
      assert withBlank + [inputPrefix + q] == [inputPrefix + q];
    }
    assert Join("\n", withBlank + [inputPrefix + q]) == before + (inputPrefix + q);
    JoinSnoc("\n", withBlank + [inputPrefix + q], outputPrefix);
    assert before + (inputPrefix + q) == before + inputPrefix + q;
  }

  /** What `add_template` may be given: a `FewShotPrompt` or any other value. */
  datatype Candidate = PromptValue(prompt: FewShotPrompt) | OtherValue

  const TemplateTypeError: string := "Template must be a FewShotPrompt instance"

  /** `FewShotManager`: prompts by name, names kept in first-insertion order. */
  class FewShotManager {
    var promptTemplates: Dict<FewShotPrompt>

    ghost predicate Valid()
      reads this
    {
      promptTemplates.Valid()
    }

    constructor ()
      ensures Valid() && promptTemplates == Empty()
    {
      promptTemplates := Empty();
    }

    /**
     * `add_template`: a non-prompt raises `TypeError` and changes nothing; a prompt
     * is stored under `name`, replacing an earlier one in place (last write wins).
     */
    method AddTemplate(name: string, candidate: Candidate) returns (r: Result<FewShotManager, string>)
      requires Valid()
      modifies this
      ensures Valid()
      ensures candidate.OtherValue? ==> r == Err(TemplateTypeError) && promptTemplates == old(promptTemplates)
      ensures candidate.PromptValue? ==>
                r == Ok(this) && promptTemplates == old(promptTemplates).Put(name, candidate.prompt)
    {
      if candidate.OtherValue? {
        r := Err(TemplateTypeError);
        return;
      }
      promptTemplates := promptTemplates.Put(name, candidate.prompt);
      r := Ok(this);
    }

    /** `get_template`: the prompt stored under `name`, or `None`. */
    function GetTemplate(name: string): (r: Option<FewShotPrompt>)
      reads this
      ensures r.Some? <==> name in promptTemplates.entries
      ensures r.Some? ==> r.value == promptTemplates.entries[name]
    {
      promptTemplates.Get(name)
    }

    /** `list_templates`: every stored name once, in first-insertion order. */
    function ListTemplates(): (names: seq<string>)
      reads this
      requires Valid()
      ensures Distinct(names)
      ensures forall n :: n in names <==> n in promptTemplates.entries
      ensures names == promptTemplates.keys
    {
      promptTemplates.keys
    }

    /** `remove_template`: deletes `name` when present; an absent name changes nothing. */
    method RemoveTemplate(name: string) returns (chained: FewShotManager)
      requires Valid()
      modifies this
      ensures Valid() && chained == this
      ensures promptTemplates == old(promptTemplates).Remove(name)
      ensures name !in old(promptTemplates.entries) ==> promptTemplates == old(promptTemplates)
      ensures Subsequence(promptTemplates.keys, old(promptTemplates.keys))
    {
      promptTemplates := promptTemplates.Remove(name);
      chained := this;
    }
  }
}
