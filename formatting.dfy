/**
 * `format_code_blocks`: Markdown code in a model's answer rewritten as HTML.
 * Two left-to-right substitution passes, each written as an explicit scanner
 * for its one pattern: fenced blocks first, then inline spans over the result.
 */
module Formatting {
  import opened Wrappers
  import opened Text

  const Fence: string := "```"
  const Closing: string := "\n```"
  const BlockOpen: string := "<pre><code class=\"language-"
  const BlockMid: string := "\">"
  const BlockClose: string := "</code></pre>"
  const SpanOpen: string := "<code>"
  const SpanClose: string := "</code>"

  /** `\w` on ASCII text: a letter, a digit or the underscore. */
  predicate IsWordChar(c: char) {
    ('a' <= c <= 'z') || ('A' <= c <= 'Z') || ('0' <= c <= '9') || c == '_'
  }

  predicate IsWord(s: string) {
    forall k :: 0 <= k < |s| ==> IsWordChar(s[k])
  }

  /** The end of the longest run of word characters starting at `i` (`\w*`). */
  function WordEnd(s: string, i: nat): (e: nat)
    requires i <= |s|
    ensures i <= e <= |s|
    ensures IsWord(s[i..e])
    ensures e < |s| ==> !IsWordChar(s[e])
    decreases |s| - i
  {
    if i < |s| && IsWordChar(s[i]) then
      var e := WordEnd(s, i + 1);
      assert s[i..e] == [s[i]] + s[i + 1..e];
      e
    else i
  }

  /** A pattern does not occur where one of its characters is missing. */
  lemma Mismatch(s: string, pat: string, j: int, k: nat)
    requires k < |pat|
    requires 0 <= j + k < |s| ==> s[j + k] != pat[k]
    ensures !OccursAt(s, pat, j)
  {
    if 0 <= j && j + |pat| <= |s| {
      assert s[j..j + |pat|][k] == s[j + k];
    }
  }

  // ---------------------------------------------------------------------------
  // The fenced-block pass: ```(\w*)\n([\s\S]*?)\n```
  // ---------------------------------------------------------------------------

  /** A matched block: its language tag, its code, and the index just past its closing fence. */
  datatype Block = Block(lang: string, code: string, end: nat)

  /**
   * The block whose opening fence starts at `p`, if the pattern matches there:
   * the fence, a run of word characters (the language), a newline, the code,
   * and the first closing fence after it.
   */
  function BlockAt(s: string, p: nat): (r: Option<Block>)
    requires p <= |s|
    ensures r.Some? ==>
              var b := r.value;
              var q := p + |Fence| + |b.lang|;
              && OccursAt(s, Fence, p) && q < |s| && s[p + |Fence|..q] == b.lang && IsWord(b.lang) && s[q] == '\n'
              && q + 1 + |b.code| + |Closing| == b.end && b.end <= |s| && s[q + 1..q + 1 + |b.code|] == b.code
              && OccursAt(s, Closing, b.end - |Closing|)
              && forall j :: q + 1 <= j < b.end - |Closing| ==> !OccursAt(s, Closing, j)
  {
    if !OccursAt(s, Fence, p) then None
    else
      var e := WordEnd(s, p + 3);
      if e == |s| || s[e] != '\n' then None
      else
        match Find(s, Closing, e + 1)
        case None => None
        case Some(c) => Some(Block(s[p + 3..e], s[e + 1..c], c + 4))
  }

  /** A matched block is the text of the pattern: fence, language, newline, code, closing fence. */
  lemma BlockAtText(s: string, p: nat)
    requires p <= |s| && BlockAt(s, p).Some?
    ensures var b := BlockAt(s, p).value;
            p < b.end <= |s| && s[p..b.end] == Fence + b.lang + "\n" + b.code + Closing
  {
    var b := BlockAt(s, p).value;
    var q := p + 3 + |b.lang|;
    Assemble(s, p, q, b.end - 4, b.end, b.lang, b.code);
  }

  /** Five adjacent slices holding the parts of a block make up its text. */
  lemma Assemble(s: string, p: nat, q: nat, c: nat, e: nat, lang: string, code: string)
    requires p + 3 <= q < c <= e <= |s|
    requires s[p..p + 3] == Fence && s[p + 3..q] == lang && s[q] == '\n' && s[q + 1..c] == code && s[c..e] == Closing
    ensures s[p..e] == Fence + lang + "\n" + code + Closing
  {
    assert s[p..q] == Fence + lang by {
      SliceSplit(s, p, p + 3, q);
    }
    assert s[p..q + 1] == Fence + lang + "\n" by {
      SliceSplit(s, p, q, q + 1);
      assert s[q..q + 1] == "\n";
    }
    assert s[p..c] == Fence + lang + "\n" + code by {
      SliceSplit(s, p, q + 1, c);
    }
    SliceSplit(s, p, c, e);
  }

  lemma SliceSplit<T>(s: seq<T>, i: nat, j: nat, k: nat)
    requires i <= j <= k <= |s|
    ensures s[i..k] == s[i..j] + s[j..k]
  {
  }

  /** `a + b`, split back at the length of `a`. */
  lemma Halves<T>(a: seq<T>, b: seq<T>)
    ensures (a + b)[..|a|] == a && (a + b)[|a|..] == b
  {
  }

  /** A slice of a prefix is a slice of the whole. */
  lemma SliceOfPrefix<T>(s: seq<T>, m: nat, i: nat, j: nat)
    requires i <= j <= m <= |s|
    ensures s[..m][i..j] == s[i..j]
  {
  }

  /** The five parts of a concatenation, read back by position. */
  lemma Parts<T>(f: seq<T>, l: seq<T>, n: seq<T>, c: seq<T>, k: seq<T>)
    ensures var s := f + l + n + c + k;
            var a, b, d := |f|, |f| + |l|, |f| + |l| + |n|;
            s[..a] == f && s[a..b] == l && s[b..d] == n && s[d..d + |c|] == c && s[d..] == c + k
            && s[|s| - |k|..] == k && |s| == d + |c| + |k|
  {
    var s1 := f + l;
    var s2 := s1 + n;
    var s3 := s2 + c;
    var s := s3 + k;
    Halves(s3, k);
    Halves(s2, c);
    Halves(s1, n);
    Halves(f, l);
    var a, b, d := |f|, |f| + |l|, |f| + |l| + |n|;
    SliceOfPrefix(s, |s3|, d, d + |c|);
    SliceOfPrefix(s3, |s2|, b, d);
    SliceOfPrefix(s, |s3|, b, d);
    SliceOfPrefix(s2, |s1|, a, b);
    SliceOfPrefix(s3, |s2|, a, b);
    SliceOfPrefix(s, |s3|, a, b);
    SliceOfPrefix(s1, a, 0, a);
    SliceOfPrefix(s2, |s1|, 0, a);
    SliceOfPrefix(s3, |s2|, 0, a);
    SliceOfPrefix(s, |s3|, 0, a);
    Tail(s2, c, k);
  }

  lemma Tail<T>(a: seq<T>, b: seq<T>, c: seq<T>)
    ensures (a + b + c)[|a|..] == b + c
  {
    assert a + b + c == a + (b + c);
  }

  /**
   * Wherever the pattern can match at `p`, it does: the language is the whole
   * run of word characters, and the block closes at the first closing fence.
   */
  lemma BlockAtFindsMatch(s: string, p: nat, q: nat, c: nat)
    requires OccursAt(s, Fence, p) && p + |Fence| <= q < |s| && IsWord(s[p + |Fence|..q]) && s[q] == '\n'
    requires q + 1 <= c && OccursAt(s, Closing, c)
    ensures BlockAt(s, p).Some?
    ensures BlockAt(s, p).value.lang == s[p + |Fence|..q]
    ensures BlockAt(s, p).value.end <= c + |Closing|
  {
    forall k | p + 3 <= k < q ensures IsWordChar(s[k]) {
      assert s[k] == s[p + 3..q][k - p - 3];
    }
    WordEndOf(s, p + 3, q);
  }

  /** `WordEnd` stops at the first non-word character after a run of word characters. */
  lemma {:induction false} WordEndOf(s: string, i: nat, q: nat)
    requires i <= q < |s| && !IsWordChar(s[q])
    requires forall k :: i <= k < q ==> IsWordChar(s[k])
    ensures WordEnd(s, i) == q
    decreases q - i
  {
    if i < q {
      WordEndOf(s, i + 1, q);
    }
  }

  /** `match.group(1) or 'text'`: an empty tag becomes "text". */
  function Language(lang: string): string {
    if lang == "" then "text" else lang
  }

  /** The replacement of one block. */
  function BlockHtml(b: Block): string {
    BlockOpen + Language(b.lang) + BlockMid + b.code + BlockClose
  }

  /** The first pass from index `p` on: each block replaced, every other character copied. */
  function Blocks(s: string, p: nat): string
    requires p <= |s|
    decreases |s| - p
  {
    if p == |s| then []
    else
      match BlockAt(s, p)
      case Some(b) => BlockHtml(b) + Blocks(s, b.end)
      case None => [s[p]] + Blocks(s, p + 1)
  }

  /** Text without an opening fence from `p` on is copied unchanged. */
  lemma {:induction false} BlocksWithoutFence(s: string, p: nat)
    requires p <= |s|
    requires forall j :: p <= j < |s| ==> !OccursAt(s, Fence, j)
    ensures Blocks(s, p) == s[p..]
    decreases |s| - p
  {
    if p < |s| {
      BlocksWithoutFence(s, p + 1);
      assert s[p..] == [s[p]] + s[p + 1..];
    }
  }

  /**
   * A lone fenced block whose code does not itself close it becomes one
   * `<pre><code>` element holding the code verbatim.
   */
  lemma LoneBlock(lang: string, code: string)
    requires IsWord(lang)
    requires forall j :: 0 <= j < |code| ==> !OccursAt(code + Closing, Closing, j)
    ensures var s := Fence + lang + "\n" + code + Closing;
            BlockAt(s, 0) == Some(Block(lang, code, |s|))
            && Blocks(s, 0) == BlockOpen + Language(lang) + BlockMid + code + BlockClose
  {
    var s := Fence + lang + "\n" + code + Closing;
    var q := 3 + |lang|;
    assert && OccursAt(s, Fence, 0) && s[3..q] == lang && q < |s| && s[q] == '\n'
           && s[q + 1..] == code + Closing && OccursAt(s, Closing, |s| - 4) && |s| - 4 == q + 1 + |code|
           && s[q + 1..|s| - 4] == code by {
      Parts(Fence, lang, "\n", code, Closing);
      assert s[q] == s[q..q + 1][0];
    }
    forall j | q + 1 <= j < |s| - 4 ensures !OccursAt(s, Closing, j) {
      NotOccursShifted(s, q + 1, j - (q + 1));
    }
    WholeBlock(s, q);
    assert Blocks(s, |s|) == [];
  }

  /** A block whose first closing fence ends the text matches the whole text. */
  lemma WholeBlock(s: string, q: nat)
    requires OccursAt(s, Fence, 0) && 3 <= q && q + 5 <= |s| && IsWord(s[3..q]) && s[q] == '\n'
    requires OccursAt(s, Closing, |s| - 4)
    requires forall j :: q + 1 <= j < |s| - 4 ==> !OccursAt(s, Closing, j)
    ensures BlockAt(s, 0) == Some(Block(s[3..q], s[q + 1..|s| - 4], |s|))
  {
    BlockAtFindsMatch(s, 0, q, |s| - 4);
    var b := BlockAt(s, 0).value;
    assert b.lang == s[3..q];
    assert OccursAt(s, Closing, b.end - 4) && q + 1 <= b.end - 4;
    assert b.end == |s|;
    assert b.code == s[q + 1..|s| - 4];
  }

  /** An absence in `s[q..]` at `j` is an absence in `s` at `q + j`. */
  lemma NotOccursShifted(s: string, q: nat, j: nat)
    requires q <= |s| && !OccursAt(s[q..], Closing, j)
    ensures !OccursAt(s, Closing, q + j)
  {
    if q + j + 4 <= |s| {
      assert s[q..][j..j + 4] == s[q + j..q + j + 4];
    }
  }

  // ---------------------------------------------------------------------------
  // The inline pass: `([^`]+?)`
  // ---------------------------------------------------------------------------

  /** The index of the closing backtick of an inline span opening at `p`, if one matches there. */
  function SpanAt(s: string, p: nat): (r: Option<nat>)
    requires p <= |s|
    ensures r.Some? ==> p + 1 < r.value < |s| && s[p] == '`' && s[r.value] == '`'
    ensures r.Some? ==> forall k :: p < k < r.value ==> s[k] != '`'
  {
    if p < |s| && s[p] == '`' then
      match Find(s, "`", p + 1)
      case None => None
      case Some(e) =>
        assert s[e..e + 1] == "`";
        assert forall k :: p < k < e ==> s[k] != '`' by {
          forall k | p < k < e ensures s[k] != '`' {
            assert !OccursAt(s, "`", k);
            assert s[k..k + 1] == [s[k]];
          }
        }
        if e > p + 1 then Some(e) else None
    else None
  }

  /** A backtick followed by a non-empty backtick-free run and a backtick is a span. */
  lemma SpanAtFindsMatch(s: string, p: nat, e: nat)
    requires p + 1 < e < |s| && s[p] == '`' && s[e] == '`'
    requires forall k :: p < k < e ==> s[k] != '`'
    ensures SpanAt(s, p) == Some(e)
  {
    assert s[e..e + 1] == "`";
    assert OccursAt(s, "`", e);
    forall j | p + 1 <= j < e ensures !OccursAt(s, "`", j) {
      assert s[j..j + 1] != "`" by {
        assert s[j..j + 1][0] == s[j];
      }
    }
  }

  /** The second pass from index `p` on: each span's content wrapped in `<code>`, everything else copied. */
  function Spans(s: string, p: nat): string
    requires p <= |s|
    decreases |s| - p
  {
    if p == |s| then []
    else
      match SpanAt(s, p)
      case Some(e) => SpanOpen + s[p + 1..e] + SpanClose + Spans(s, e + 1)
      case None => [s[p]] + Spans(s, p + 1)
  }

  /** Text without a backtick from `p` on is copied unchanged by the inline pass. */
  lemma {:induction false} SpansWithoutBacktick(s: string, p: nat)
    requires p <= |s|
    requires forall k :: p <= k < |s| ==> s[k] != '`'
    ensures Spans(s, p) == s[p..]
    decreases |s| - p
  {
    if p < |s| {
      SpansWithoutBacktick(s, p + 1);
      assert s[p..] == [s[p]] + s[p + 1..];
    }
  }

  // ---------------------------------------------------------------------------
  // format_code_blocks
  // ---------------------------------------------------------------------------

  /** `format_code_blocks`: falsy text as given, otherwise both passes one after the other. */
  function FormatCodeBlocks(text: Option<string>): (r: Option<string>)
    ensures text.None? || text == Some("") ==> r == text
    ensures text.Some? ==> r.Some?
  {
    if text.None? || text.value == "" then text
    else
      var blocks := Blocks(text.value, 0);
      Some(Spans(blocks, 0))
  }

  /** No backtick in `s`. */
  predicate NoTick(s: string) {
    forall k :: 0 <= k < |s| ==> s[k] != '`'
  }

  lemma NoTickAppend(a: string, b: string)
    requires NoTick(a) && NoTick(b)
    ensures NoTick(a + b)
  {
    forall k | 0 <= k < |a + b| ensures (a + b)[k] != '`' {
      if k >= |a| {
        assert (a + b)[k] == b[k - |a|];
      }
    }
  }

  /** Without a backtick there is no fence. */
  lemma NoTickNoFence(s: string)
    requires NoTick(s)
    ensures forall j :: 0 <= j < |s| ==> !OccursAt(s, Fence, j)
  {
    forall j | 0 <= j < |s| ensures !OccursAt(s, Fence, j) {
      Mismatch(s, Fence, j, 0);
    }
  }

  /** Text without a backtick goes through both passes unchanged. */
  lemma NoTickPasses(s: string)
    requires NoTick(s)
    ensures Blocks(s, 0) == s && Spans(s, 0) == s
  {
    NoTickNoFence(s);
    BlocksWithoutFence(s, 0);
    SpansWithoutBacktick(s, 0);
    assert s[0..] == s;
  }

  /** Text with no backtick comes back unchanged. */
  lemma NoBacktickUnchanged(text: string)
    requires '`' !in text
    ensures FormatCodeBlocks(Some(text)) == Some(text)
  {
    forall k | 0 <= k < |text| ensures text[k] != '`' {
      assert text[k] in text;
    }
    NoTickPasses(text);
  }

  /** The markup the block pass writes holds no backtick of its own. */
  lemma MarkupNoTick(lang: string)
    requires IsWord(lang)
    ensures NoTick(BlockOpen) && NoTick(BlockMid) && NoTick(BlockClose) && NoTick(Language(lang))
  {
    forall k | 0 <= k < |lang| ensures lang[k] != '`' {
      assert IsWordChar(lang[k]);
    }
  }

  /** A lone fenced block with backtick-free code becomes exactly its HTML element. */
  lemma LoneBlockFormatted(lang: string, code: string)
    requires IsWord(lang) && '`' !in code
    ensures FormatCodeBlocks(Some(Fence + lang + "\n" + code + Closing))
              == Some(BlockOpen + Language(lang) + BlockMid + code + BlockClose)
  {
    forall k | 0 <= k < |code| ensures code[k] != '`' {
      assert code[k] in code;
    }
    forall j | 0 <= j < |code| ensures !OccursAt(code + Closing, Closing, j) {
      assert (code + Closing)[j + 1] == if j + 1 < |code| then code[j + 1] else Closing[0];
      Mismatch(code + Closing, Closing, j, 1);
    }
    LoneBlock(lang, code);
    MarkupNoTick(lang);
    var html := BlockOpen + Language(lang) + BlockMid + code + BlockClose;
    NoTickAppend(BlockOpen, Language(lang));
    NoTickAppend(BlockOpen + Language(lang), BlockMid);
    NoTickAppend(BlockOpen + Language(lang) + BlockMid, code);
    NoTickAppend(BlockOpen + Language(lang) + BlockMid + code, BlockClose);
    NoTickPasses(html);
  }

  /** A lone inline span with non-empty backtick-free content becomes a `<code>` element. */
  lemma InlineSpanFormatted(x: string)
    requires x != "" && '`' !in x
    ensures FormatCodeBlocks(Some("`" + x + "`")) == Some(SpanOpen + x + SpanClose)
  {
    var s := "`" + x + "`";
    forall k | 0 < k < |s| - 1 ensures s[k] != '`' {
      assert s[k] == x[k - 1] && x[k - 1] in x;
    }
    forall j | 0 <= j < |s| ensures !OccursAt(s, Fence, j) {
      if j < |s| - 2 {
        Mismatch(s, Fence, j, 1);
      } else {
        Mismatch(s, Fence, j, 2);
      }
    }
    BlocksWithoutFence(s, 0);
    assert Blocks(s, 0) == s by {
      assert s[0..] == s;
    }
    SpanAtFindsMatch(s, 0, |s| - 1);
    assert s[1..|s| - 1] == x;
    assert Spans(s, 0) == SpanOpen + x + SpanClose + Spans(s, |s|);
    assert Spans(s, |s|) == [];
    assert SpanOpen + x + SpanClose + [] == SpanOpen + x + SpanClose;
  }
}
