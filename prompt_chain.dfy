/**
 * The TypeScript prompt chain: a `Prompt` fills the `{{key}}` placeholders of
 * its template and hands the text to an executor; a `PromptChain` runs its
 * prompts one after another, storing each response under the prompt's output
 * key so that later prompts can use it. Executors are total functions from
 * prompt text to response text; `await` only orders the steps.
 */
module PromptChaining {
  import opened Wrappers
  import opened Text
  import opened Dicts

  // ---------------------------------------------------------------------------
  // Global replacement
  // ---------------------------------------------------------------------------

  /** `{{key}}`. */
  function Placeholder(key: string): string {
    "{{" + key + "}}"
  }

  /**
   * `s.replace(new RegExp(pat, 'g'), rep)` for a pattern that matches only
   * itself and a replacement without `$` patterns: scanning left to right,
   * every occurrence of `pat` is replaced by `rep`, and scanning resumes after
   * it, so occurrences never overlap and `rep` is never rescanned.
   */
  function ReplaceAll(s: string, pat: string, rep: string): string
    requires pat != []
    decreases |s|
  {
    if s == [] then []
    else if OccursAt(s, pat, 0) then rep + ReplaceAll(s[|pat|..], pat, rep)
    else [s[0]] + ReplaceAll(s[1..], pat, rep)
  }

  /** A string that does not mention `pat` comes back unchanged. */
  lemma {:induction false} ReplaceAllAbsent(s: string, pat: string, rep: string)
    requires pat != []
    requires forall i :: !OccursAt(s, pat, i)
    ensures ReplaceAll(s, pat, rep) == s
  {
    if s != [] {
      forall i | OccursAt(s[1..], pat, i)
        ensures OccursAt(s, pat, i + 1)
      {
        assert s[i + 1..i + 1 + |pat|] == s[1..][i..i + |pat|];
      }
      ReplaceAllAbsent(s[1..], pat, rep);
      assert [s[0]] + s[1..] == s;
    }
  }

  /** Text without the pattern's first character is copied as it is. */
  lemma {:induction false} ReplaceAllSkip(a: string, s: string, pat: string, rep: string)
    requires pat != []
    requires pat[0] !in a
    ensures ReplaceAll(a + s, pat, rep) == a + ReplaceAll(s, pat, rep)
  {
    if a == [] {
      assert a + s == s;
    } else {
      assert (a + s)[0] == a[0] != pat[0];
      assert !OccursAt(a + s, pat, 0) by {
        OccursAtFirst(a + s, pat, 0);
      }
      assert (a + s)[1..] == a[1..] + s;
      ReplaceAllSkip(a[1..], s, pat, rep);
      assert [a[0]] + a[1..] == a;
    }
  }

  /** An occurrence at the front is replaced and scanning resumes after it. */
  lemma ReplaceAllLead(pat: string, s: string, rep: string)
    requires pat != []
    ensures ReplaceAll(pat + s, pat, rep) == rep + ReplaceAll(s, pat, rep)
  {
    assert (pat + s)[0..|pat|] == pat;
    assert (pat + s)[|pat|..] == s;
  }

  // ---------------------------------------------------------------------------
  // Braces
  // ---------------------------------------------------------------------------

  /** No `{` anywhere in `s`. */
  predicate NoOpen(s: string) {
    '{' !in s
  }

  /** Neither `{` nor `}` in `s`, as for an identifier. */
  predicate NoBraces(s: string) {
    '{' !in s && '}' !in s
  }

  /** An occurrence starts with the pattern's first character. */
  lemma OccursAtFirst(s: string, pat: string, i: int)
    requires pat != []
    ensures OccursAt(s, pat, i) ==> i < |s| && s[i] == pat[0]
  {
    if OccursAt(s, pat, i) {
      assert s[i..i + |pat|][0] == s[i];
    }
  }

  /** A placeholder cannot occur in text without `{`. */
  lemma NoOpenAbsent(s: string, key: string)
    requires NoOpen(s)
    ensures forall i :: !OccursAt(s, Placeholder(key), i)
  {
    forall i
      ensures OccursAt(s, Placeholder(key), i) ==> i < |s| && s[i] == '{'
    {
      OccursAtFirst(s, Placeholder(key), i);
    }
  }

  /** The characters of `lead + {{k}} + tail`, position by position. */
  lemma Layout(lead: string, k: string, tail: string, m: int)
    requires 0 <= m < |lead + Placeholder(k) + tail|
    ensures (lead + Placeholder(k) + tail)[m]
         == if m < |lead| then lead[m]
            else if m < |lead| + 2 then '{'
            else if m < |lead| + 2 + |k| then k[m - |lead| - 2]
            else if m < |lead| + 4 + |k| then '}'
            else tail[m - |lead| - 4 - |k|]
  {
  }

  /**
   * In `lead + {{k}} + tail`, with no `{` around it and identifier keys, the
   * only placeholder is `{{k}}` itself, at the end of `lead`.
   */
  lemma PlaceholderOccurrence(lead: string, k: string, tail: string, j: string, i: int)
    requires NoOpen(lead) && NoOpen(tail) && NoBraces(k) && NoBraces(j)
    requires OccursAt(lead + Placeholder(k) + tail, Placeholder(j), i)
    ensures i == |lead| && j == k
  {
    var s := lead + Placeholder(k) + tail;
    var p := Placeholder(j);
    var n := |lead|;
    assert forall m :: 0 <= m < |p| ==> s[i + m] == p[m] by {
      forall m | 0 <= m < |p| ensures s[i + m] == p[m] {
        assert s[i..i + |p|][m] == s[i + m];
      }
    }
    assert s[i] == '{' && s[i + 1] == '{';
    Layout(lead, k, tail, i);
    Layout(lead, k, tail, i + 1);
    assert i == n;
    var c := if |j| < |k| then |j| else |k|;
    assert (p[2 + c] == '}') == (c == |j|);
    Layout(lead, k, tail, n + 2 + c);
    assert |j| == |k|;
    forall m | 0 <= m < |k|
      ensures j[m] == k[m]
    {
      assert p[2 + m] == j[m];
      Layout(lead, k, tail, n + 2 + m);
    }
  }

  /** Replacing `{{k}}` in `lead + {{k}} + tail` puts the value in its place. */
  lemma ReplaceOnce(lead: string, k: string, tail: string, v: string)
    requires NoOpen(lead) && NoOpen(tail)
    ensures ReplaceAll(lead + Placeholder(k) + tail, Placeholder(k), v) == lead + v + tail
  {
    var p := Placeholder(k);
    assert lead + p + tail == lead + (p + tail);
    ReplaceAllSkip(lead, p + tail, p, v);
    ReplaceAllLead(p, tail, v);
    NoOpenAbsent(tail, k);
    ReplaceAllAbsent(tail, p, v);
  }

  /**
   * Every occurrence is replaced: a template made of `{`-free parts joined by
   * `{{k}}` becomes the same parts joined by the value.
   */
  lemma {:induction false} ReplaceAllJoin(parts: seq<string>, k: string, v: string)
    requires forall i :: 0 <= i < |parts| ==> NoOpen(parts[i])
    ensures ReplaceAll(Join(Placeholder(k), parts), Placeholder(k), v) == Join(v, parts)
  {
    var p := Placeholder(k);
    if |parts| == 0 {
    } else if |parts| == 1 {
      NoOpenAbsent(parts[0], k);
      ReplaceAllAbsent(parts[0], p, v);
    } else {
      var rest := Join(p, parts[1..]);
      assert Join(p, parts) == parts[0] + (p + rest);
      ReplaceAllSkip(parts[0], p + rest, p, v);
      ReplaceAllLead(p, rest, v);
      ReplaceAllJoin(parts[1..], k, v);
      assert Join(v, parts) == parts[0] + (v + Join(v, parts[1..]));
    }
  }

  // ---------------------------------------------------------------------------
  // Prompts
  // ---------------------------------------------------------------------------

  /** The variables' keys, each with a value. */
  predicate Defined(keys: seq<string>, values: map<string, string>) {
    forall i :: 0 <= i < |keys| ==> keys[i] in values
  }

  /** The template after replacing each key's placeholder by its value, key by key in order. */
  function Substituted(t: string, keys: seq<string>, values: map<string, string>): string
    requires Defined(keys, values)
  {
    if keys == [] then t
    else
      var last := keys[|keys| - 1];
      ReplaceAll(Substituted(t, keys[..|keys| - 1], values), Placeholder(last), values[last])
  }

  lemma SubstitutedStep(t: string, keys: seq<string>, values: map<string, string>, i: nat)
    requires Defined(keys, values) && i < |keys|
    ensures Substituted(t, keys[..i + 1], values)
         == ReplaceAll(Substituted(t, keys[..i], values), Placeholder(keys[i]), values[keys[i]])
  {
    assert keys[..i + 1][..i] == keys[..i];
  }

  /**
   * A template with one placeholder `{{k}}` and no other `{`, filled with
   * identifier keys: the placeholder becomes `k`'s value when `k` is one of
   * the keys and is left verbatim otherwise, whatever the other keys are.
   */
  lemma {:induction false} SubstitutedOnePlaceholder(lead: string, k: string, tail: string,
                                                     keys: seq<string>, values: map<string, string>)
    requires Defined(keys, values)
    requires NoOpen(lead) && NoOpen(tail) && NoBraces(k)
    requires forall i :: 0 <= i < |keys| ==> NoBraces(keys[i])
    requires k in values ==> NoOpen(values[k])
    ensures Substituted(lead + Placeholder(k) + tail, keys, values)
         == if k in keys then lead + values[k] + tail else lead + Placeholder(k) + tail
  {
    var t := lead + Placeholder(k) + tail;
    if keys != [] {
      var init := keys[..|keys| - 1];
      var last := keys[|keys| - 1];
      assert keys == init + [last];
      SubstitutedOnePlaceholder(lead, k, tail, init, values);
      if k in init {
        NoOpenAbsent(lead + values[k] + tail, last);
        ReplaceAllAbsent(lead + values[k] + tail, Placeholder(last), values[last]);
      } else if last == k {
        ReplaceOnce(lead, k, tail, values[k]);
      } else {
        forall i | OccursAt(t, Placeholder(last), i)
          ensures false
        {
          PlaceholderOccurrence(lead, k, tail, last, i);
        }
        ReplaceAllAbsent(t, Placeholder(last), values[last]);
      }
    }
  }

  /** A template that mentions none of the keys' placeholders is left as it is. */
  lemma {:induction false} SubstitutedUnmentioned(t: string, keys: seq<string>, values: map<string, string>)
    requires Defined(keys, values)
    requires forall n, i :: 0 <= n < |keys| ==> !OccursAt(t, Placeholder(keys[n]), i)
    ensures Substituted(t, keys, values) == t
  {
    if keys != [] {
      var last := keys[|keys| - 1];
      SubstitutedUnmentioned(t, keys[..|keys| - 1], values);
      assert forall i :: !OccursAt(t, Placeholder(last), i);
      ReplaceAllAbsent(t, Placeholder(last), values[last]);
    }
  }

  /** One step of a chain: a prompt with its template and executor. */
  class Prompt {
    const template: string
    const executor: string -> string

    constructor(template: string, executor: string -> string)
      ensures this.template == template && this.executor == executor
    {
      this.template := template;
      this.executor := executor;
    }

    /**
     * `format`: each variable in order replaces its placeholder everywhere in
     * the text so far; without variables the template comes back as it is.
     */
    method Format(variables: ValidDict<string>) returns (formatted: string)
      ensures formatted == Substituted(template, variables.keys, variables.entries)
      ensures variables.keys == [] ==> formatted == template
    {
      formatted := template;
      var i := 0;
      while i < |variables.keys|
        invariant 0 <= i <= |variables.keys|
        invariant formatted == Substituted(template, variables.keys[..i], variables.entries)
      {
        var key := variables.keys[i];
        SubstitutedStep(template, variables.keys, variables.entries, i);
        formatted := ReplaceAll(formatted, Placeholder(key), variables.entries[key]);
        i := i + 1;
      }
      assert variables.keys[..i] == variables.keys;
    }

    /** `execute`: the executor's response to the formatted prompt. */
    method Execute(variables: ValidDict<string> := Empty()) returns (response: string)
      ensures response == executor(Substituted(template, variables.keys, variables.entries))
    {
      var formattedPrompt := Format(variables);
      response := executor(formattedPrompt);
    }
  }

  // ---------------------------------------------------------------------------
  // Chains
  // ---------------------------------------------------------------------------

  type Mapper = ValidDict<string> -> ValidDict<string>

  /** An entry of the chain: the prompt, where its response goes, and what it sees. */
  datatype Link = Link(prompt: Prompt, outputKey: string, inputMapper: Option<Mapper>)

  /** What a prompt is formatted with: the mapper's view of the outputs so far, or all of them. */
  function Inputs(link: Link, outputs: ValidDict<string>): ValidDict<string> {
    match link.inputMapper
    case None => outputs
    case Some(mapper) => mapper(outputs)
  }

  /** The response of one link given the outputs so far. */
  function Response(link: Link, outputs: ValidDict<string>): string {
    var inputs := Inputs(link, outputs);
    link.prompt.executor(Substituted(link.prompt.template, inputs.keys, inputs.entries))
  }

  /** The outputs after running `links` in order from `initial`, each response stored under its key. */
  function Chained(links: seq<Link>, initial: ValidDict<string>): ValidDict<string> {
    if links == [] then initial
    else
      var before := Chained(links[..|links| - 1], initial);
      var last := links[|links| - 1];
      before.Put(last.outputKey, Response(last, before))
  }

  lemma ChainedStep(links: seq<Link>, initial: ValidDict<string>, i: nat)
    requires i < |links|
    ensures Chained(links[..i + 1], initial)
         == Chained(links[..i], initial).Put(links[i].outputKey, Response(links[i], Chained(links[..i], initial)))
  {
    assert links[..i + 1][..i] == links[..i];
  }

  lemma ChainedLast(links: seq<Link>, initial: ValidDict<string>)
    requires links != []
    ensures var before := Chained(links[..|links| - 1], initial);
            Chained(links, initial) == before.Put(links[|links| - 1].outputKey, Response(links[|links| - 1], before))
  {
  }

  /** Running two chains one after the other is running their concatenation. */
  lemma {:induction false} ChainedConcat(a: seq<Link>, b: seq<Link>, initial: ValidDict<string>)
    ensures Chained(a + b, initial) == Chained(b, Chained(a, initial))
  {
    if b == [] {
      assert a + b == a;
    } else {
      var init := b[..|b| - 1];
      assert (a + b)[..|a + b| - 1] == a + init;
      assert (a + b)[|a + b| - 1] == b[|b| - 1];
      ChainedConcat(a, init, initial);
    }
  }

  /** The result holds exactly the initial keys and the output keys. */
  lemma {:induction false} ChainedKeys(links: seq<Link>, initial: ValidDict<string>, k: string)
    ensures k in Chained(links, initial).entries
        <==> k in initial.entries || exists i :: 0 <= i < |links| && links[i].outputKey == k
  {
    if links != [] {
      var init := links[..|links| - 1];
      ChainedKeys(init, initial, k);
      if exists i :: 0 <= i < |links| && links[i].outputKey == k {
        var i :| 0 <= i < |links| && links[i].outputKey == k;
        if i < |links| - 1 {
          assert init[i].outputKey == k;
        }
      }
      if exists i :: 0 <= i < |init| && init[i].outputKey == k {
        var i :| 0 <= i < |init| && init[i].outputKey == k;
        assert links[i].outputKey == k;
      }
    }
  }

  /** An output key holds the response of the last link that writes it. */
  lemma {:induction false} ChainedLastWrite(links: seq<Link>, initial: ValidDict<string>, i: nat)
    requires i < |links|
    requires forall j :: i < j < |links| ==> links[j].outputKey != links[i].outputKey
    ensures links[i].outputKey in Chained(links, initial).entries
    ensures Chained(links, initial).entries[links[i].outputKey] == Response(links[i], Chained(links[..i], initial))
  {
    var init := links[..|links| - 1];
    if i < |links| - 1 {
      assert init[..i] == links[..i];
      ChainedLastWrite(init, initial, i);
    }
  }

  /** An initial variable that no link writes comes through unchanged. */
  lemma {:induction false} ChainedKeepsInitial(links: seq<Link>, initial: ValidDict<string>, k: string)
    requires k in initial.entries
    requires forall j :: 0 <= j < |links| ==> links[j].outputKey != k
    ensures k in Chained(links, initial).entries && Chained(links, initial).entries[k] == initial.entries[k]
  {
    if links != [] {
      ChainedKeepsInitial(links[..|links| - 1], initial, k);
    }
  }

  /** `PromptChain`: prompts added one by one and run in insertion order. */
  class PromptChain {
    var prompts: seq<Link>

    constructor()
      ensures prompts == []
    {
      prompts := [];
    }

    /** `addPrompt`: one entry appended at the end; the chain itself is returned. */
    method AddPrompt(prompt: Prompt, outputKey: string, inputMapper: Option<Mapper> := None)
      returns (chain: PromptChain)
      modifies this
      ensures prompts == old(prompts) + [Link(prompt, outputKey, inputMapper)]
      ensures chain == this
    {
      prompts := prompts + [Link(prompt, outputKey, inputMapper)];
      chain := this;
    }

    /**
     * `execute`: a copy of the initial variables, then each prompt in turn,
     * formatted with its mapper's view or with all outputs so far, its
     * response stored under its output key.
     */
    method Execute(initialVariables: ValidDict<string> := Empty()) returns (outputs: ValidDict<string>)
      ensures outputs == Chained(prompts, initialVariables)
    {
      outputs := initialVariables;
      var i := 0;
      while i < |prompts|
        invariant 0 <= i <= |prompts|
        invariant outputs == Chained(prompts[..i], initialVariables)
      {
        var link := prompts[i];
        var inputVariables := match link.inputMapper
          case None => outputs
          case Some(mapper) => mapper(outputs);
        var result := link.prompt.Execute(inputVariables);
        ChainedStep(prompts, initialVariables, i);
        outputs := outputs.Put(link.outputKey, result);
        i := i + 1;
      }
      assert prompts[..i] == prompts;
    }
  }

  // ---------------------------------------------------------------------------
  // The example executor and chain
  // ---------------------------------------------------------------------------

  /** `LlmPromptExecutor.execute`: a canned response quoting the first 30 characters of the input. */
  function LlmExecute(input: string): string {
    ResponsePrefix + (if |input| < 30 then input else input[..30]) + "..."
  }

  /** Inputs that agree on their first 30 characters get the same response. */
  lemma LlmExecuteFirst30(a: string, b: string)
    requires |a| >= 30 && |b| >= 30 && a[..30] == b[..30]
    ensures LlmExecute(a) == LlmExecute(b)
  {
  }

  /** Short inputs are told apart by their responses. */
  lemma LlmExecuteInjectiveShort(a: string, b: string)
    requires |a| <= 30 && |b| <= 30 && LlmExecute(a) == LlmExecute(b)
    ensures a == b
  {
    var ra := LlmExecute(a);
    assert ra[|ResponsePrefix|..|ResponsePrefix| + |a|] == a;
    assert LlmExecute(b)[|ResponsePrefix|..|ResponsePrefix| + |b|] == b;
  }

  /** `{ k: v }`. */
  function Single(k: string, v: string): (d: ValidDict<string>)
    ensures d.keys == [k] && d.entries == map[k := v]
  {
    Dict([k], map[k := v])
  }

  /** `String(outputs.k)`: the value, or `"undefined"` when the key is missing. */
  function Field(outputs: ValidDict<string>, k: string): string {
    if k in outputs.entries then outputs.entries[k] else "undefined"
  }

  const ResponsePrefix: string := "This is a response for: "

  /** The example templates' text around their placeholders, split where the executor stops quoting. */
  const SummaryQuote: string := "Summarize the following text i"
  const SummaryLead: string := SummaryQuote + "n 3 sentences: "
  const KeyPointsQuote: string := "Extract 5 key points from this"
  const KeyPointsLead: string := KeyPointsQuote + " summary: "
  const ActionItemsLead: string := "Based on these key points: "
  const ActionItemsTail: string := ", suggest 3 action items."

  /** "This is a response for: Summarize the following text i..." */
  const SummaryResponse: string := ResponsePrefix + SummaryQuote + "..."
  /** "This is a response for: Extract 5 key points from this..." */
  const KeyPointsResponse: string := ResponsePrefix + KeyPointsQuote + "..."
  /** "This is a response for: Based on these key points: Thi..." */
  const ActionItemsResponse: string := ResponsePrefix + (ActionItemsLead + ResponsePrefix[..3]) + "..."

  /** The example's three prompts. */
  ghost predicate SummaryLink(l: Link) {
    && l.prompt.template == SummaryLead + Placeholder("text") && l.prompt.executor == LlmExecute
    && l.outputKey == "summary" && l.inputMapper.None?
  }

  ghost predicate KeyPointsLink(l: Link) {
    && l.prompt.template == KeyPointsLead + Placeholder("summary") && l.prompt.executor == LlmExecute
    && l.outputKey == "keyPoints" && l.inputMapper.Some?
    && forall o :: l.inputMapper.value(o) == Single("summary", Field(o, "summary"))
  }

  ghost predicate ActionItemsLink(l: Link) {
    && l.prompt.template == ActionItemsLead + Placeholder("keyPoints") + ActionItemsTail
    && l.prompt.executor == LlmExecute
    && l.outputKey == "actionItems" && l.inputMapper.Some?
    && forall o :: l.inputMapper.value(o) == Single("keyPoints", Field(o, "keyPoints"))
  }

  /**
   * The example chain: summarise `text`, take key points from the summary,
   * suggest action items from the key points. The result has the four keys
   * in insertion order, and because the executor quotes only 30 characters
   * and each template's text before its placeholder is at least 27 long, the
   * three responses do not depend on `text`.
   */
  method RunExamplePromptChain(text: string) returns (result: ValidDict<string>)
    ensures ExampleResult(result, text)
  {
    var summaryPrompt := new Prompt(SummaryLead + Placeholder("text"), LlmExecute);
    var keyPointsPrompt := new Prompt(KeyPointsLead + Placeholder("summary"), LlmExecute);
    var actionItemsPrompt := new Prompt(ActionItemsLead + Placeholder("keyPoints") + ActionItemsTail, LlmExecute);
    var summaryOnly: Mapper := outputs => Single("summary", Field(outputs, "summary"));
    var keyPointsOnly: Mapper := outputs => Single("keyPoints", Field(outputs, "keyPoints"));

    var chain := new PromptChain();
    var c1 := chain.AddPrompt(summaryPrompt, "summary");
    var c2 := c1.AddPrompt(keyPointsPrompt, "keyPoints", Some(summaryOnly));
    var c3 := c2.AddPrompt(actionItemsPrompt, "actionItems", Some(keyPointsOnly));
    result := chain.Execute(Single("text", text));
    ExampleChained(text, chain.prompts);
  }

  /** The example's outputs: `text` as given and the three fixed responses, keys in insertion order. */
  predicate ExampleResult(r: ValidDict<string>, text: string) {
    && r.keys == ["text", "summary", "keyPoints", "actionItems"]
    && "text" in r.entries && r.entries["text"] == text
    && "summary" in r.entries && r.entries["summary"] == SummaryResponse
    && "keyPoints" in r.entries && r.entries["keyPoints"] == KeyPointsResponse
    && "actionItems" in r.entries && r.entries["actionItems"] == ActionItemsResponse
  }

  /** The example chain run from `{ text }`. */
  lemma ExampleChained(text: string, links: seq<Link>)
    requires |links| == 3 && SummaryLink(links[0]) && KeyPointsLink(links[1]) && ActionItemsLink(links[2])
    ensures ExampleResult(Chained(links, Single("text", text)), text)
  {
    var initial := Single("text", text);
    var o1 := initial.Put("summary", SummaryResponse);
    var o2 := o1.Put("keyPoints", KeyPointsResponse);
    SummaryStep(text, links[0]);
    KeyPointsStep(links[1], o1);
    ActionItemsStep(links[2], o2);
    ChainOfThree(links, initial, SummaryResponse, KeyPointsResponse, ActionItemsResponse);
    ExampleKeys(text);
  }

  /** A chain of three links whose responses are known, one after another. */
  lemma ChainOfThree(links: seq<Link>, initial: ValidDict<string>, r1: string, r2: string, r3: string)
    requires |links| == 3
    requires Response(links[0], initial) == r1
    requires Response(links[1], initial.Put(links[0].outputKey, r1)) == r2
    requires Response(links[2], initial.Put(links[0].outputKey, r1).Put(links[1].outputKey, r2)) == r3
    ensures Chained(links, initial)
         == initial.Put(links[0].outputKey, r1).Put(links[1].outputKey, r2).Put(links[2].outputKey, r3)
  {
    ChainOfTwo(links, initial, r1, r2);
    ChainedLast(links, initial);
  }

  lemma ChainOfTwo(links: seq<Link>, initial: ValidDict<string>, r1: string, r2: string)
    requires |links| == 3
    requires Response(links[0], initial) == r1
    requires Response(links[1], initial.Put(links[0].outputKey, r1)) == r2
    ensures Chained(links[..2], initial) == initial.Put(links[0].outputKey, r1).Put(links[1].outputKey, r2)
  {
    ChainOfOne(links, initial, r1);
    ChainedStep(links, initial, 1);
  }

  lemma ChainOfOne(links: seq<Link>, initial: ValidDict<string>, r1: string)
    requires |links| == 3
    requires Response(links[0], initial) == r1
    ensures Chained(links[..1], initial) == initial.Put(links[0].outputKey, r1)
  {
    ChainedStep(links, initial, 0);
    assert links[..0] == [];
  }

  /** Storing the three responses after `text`. */
  lemma ExampleKeys(text: string)
    ensures ExampleResult(Single("text", text).Put("summary", SummaryResponse).Put("keyPoints", KeyPointsResponse)
                                              .Put("actionItems", ActionItemsResponse), text)
  {
    FourKeys("text", "summary", "keyPoints", "actionItems", text, SummaryResponse, KeyPointsResponse, ActionItemsResponse);
  }

  /** Storing a new key appends it. */
  lemma PutNew(d: Dict<string>, k: string, v: string)
    requires k !in d.entries
    ensures d.Put(k, v) == Dict(d.keys + [k], d.entries[k := v])
  {
  }

  /** Four distinct keys stored one after another. */
  lemma FourKeys(k1: string, k2: string, k3: string, k4: string, v1: string, v2: string, v3: string, v4: string)
    requires k1 != k2 && k1 != k3 && k1 != k4 && k2 != k3 && k2 != k4 && k3 != k4
    ensures var r := Single(k1, v1).Put(k2, v2).Put(k3, v3).Put(k4, v4);
            r.keys == [k1, k2, k3, k4] && r.entries == map[k1 := v1, k2 := v2, k3 := v3, k4 := v4]
  {
    var o1 := Single(k1, v1);
    PutNew(o1, k2, v2);
    var o2 := o1.Put(k2, v2);
    assert o2.keys == [k1, k2];
    PutNew(o2, k3, v3);
    var o3 := o2.Put(k3, v3);
    assert o3.keys == [k1, k2, k3];
    PutNew(o3, k4, v4);
  }

  /** The summary prompt quotes only its own text. */
  lemma SummaryStep(text: string, l: Link)
    requires SummaryLink(l)
    ensures Response(l, Single("text", text)) == SummaryResponse
  {
    SingleStep(SummaryLead, "text", "", text, Single("text", text));
    assert SummaryLead + Placeholder("text") + "" == l.prompt.template;
    Regroup(SummaryQuote, "n 3 sentences: ", text);
    FirstThirty(SummaryQuote, "n 3 sentences: " + text);
  }

  /** The key-points prompt sees only the summary and quotes only its own text. */
  lemma KeyPointsStep(l: Link, outputs: ValidDict<string>)
    requires KeyPointsLink(l)
    requires "summary" in outputs.entries && outputs.entries["summary"] == SummaryResponse
    ensures Response(l, outputs) == KeyPointsResponse
  {
    SingleStep(KeyPointsLead, "summary", "", SummaryResponse, Inputs(l, outputs));
    assert KeyPointsLead + Placeholder("summary") + "" == l.prompt.template;
    Regroup(KeyPointsQuote, " summary: ", SummaryResponse);
    FirstThirty(KeyPointsQuote, " summary: " + SummaryResponse);
  }

  /** The action-items prompt sees only the key points and quotes three of their characters. */
  lemma ActionItemsStep(l: Link, outputs: ValidDict<string>)
    requires ActionItemsLink(l)
    requires "keyPoints" in outputs.entries && outputs.entries["keyPoints"] == KeyPointsResponse
    ensures Response(l, outputs) == ActionItemsResponse
  {
    SingleStep(ActionItemsLead, "keyPoints", ActionItemsTail, KeyPointsResponse, Inputs(l, outputs));
    var head := ActionItemsLead + ResponsePrefix[..3];
    var rest := ResponsePrefix[3..] + KeyPointsQuote + "..." + ActionItemsTail;
    RegroupSplit(ActionItemsLead, ResponsePrefix, 3, KeyPointsQuote, "...", ActionItemsTail);
    FirstThirty(head, rest);
  }

  /** A one-variable template `lead + {{k}} + tail` filled with `{ k: v }`. */
  lemma SingleStep(lead: string, k: string, tail: string, v: string, inputs: ValidDict<string>)
    requires NoOpen(lead) && NoOpen(tail)
    requires inputs == Single(k, v)
    ensures Substituted(lead + Placeholder(k) + tail, inputs.keys, inputs.entries) == lead + v + tail
  {
    assert inputs.keys[..0] == [];
    ReplaceOnce(lead, k, tail, v);
  }

  lemma Regroup(a: string, b: string, c: string)
    ensures (a + b) + c + "" == a + (b + c)
  {
  }

  lemma RegroupSplit(lead: string, p: string, n: nat, q1: string, q2: string, tail: string)
    requires n <= |p|
    ensures lead + (p + q1 + q2) + tail == (lead + p[..n]) + (p[n..] + q1 + q2 + tail)
  {
    assert p == p[..n] + p[n..];
  }

  /** The executor quotes only the first 30 characters. */
  lemma FirstThirty(a: string, b: string)
    requires |a| == 30
    ensures LlmExecute(a + b) == ResponsePrefix + a + "..."
  {
    assert (a + b)[..30] == a;
  }
}
