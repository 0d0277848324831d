/**
 * The response parser: the pattern `<tag>(.*?)</tag>` matched in single-line
 * mode, for a tag with no regular-expression metacharacters. The first match
 * starts at the first opening tag that has a closing tag after it and ends at
 * the first closing tag after that opening tag; replacing every match scans on
 * from the end of each match.
 */
module Parser {
  import opened Wrappers
  import opened Text

  /** `pat` occurs in `s` at offset `i`. */
  predicate OccursAt(s: string, pat: string, i: nat)
  {
    i + |pat| <= |s| && s[i..i + |pat|] == pat
  }

  /** The first offset at or after `k` where `pat` occurs, if any. */
  function FindFrom(s: string, pat: string, k: nat): (r: Option<nat>)
    ensures r.Some? ==> k <= r.value && OccursAt(s, pat, r.value)
    ensures r.Some? ==> forall j :: k <= j < r.value ==> !OccursAt(s, pat, j)
    ensures r.None? ==> forall j :: k <= j ==> !OccursAt(s, pat, j)
    decreases |s| - k
  {
    if k + |pat| > |s| then None
    else if OccursAt(s, pat, k) then Some(k)
    else FindFrom(s, pat, k + 1)
  }

  /** An occurrence at `m` with none in [k, m) is what `FindFrom` finds. */
  lemma FindFromFirst(s: string, pat: string, k: nat, m: nat)
    requires k <= m && OccursAt(s, pat, m)
    requires forall j :: k <= j < m ==> !OccursAt(s, pat, j)
    ensures FindFrom(s, pat, k) == Some(m)
  {
  }

  function OpenTag(tag: string): string { "<" + tag + ">" }
  function CloseTag(tag: string): string { "</" + tag + ">" }

  /** A match: the opening tag at `start`, the closing tag at `close`. */
  datatype Block = Block(start: nat, close: nat)

  /** A match of the pattern at `b` in `s`. */
  predicate IsBlock(s: string, tag: string, b: Block)
  {
    && OccursAt(s, OpenTag(tag), b.start)
    && b.start + |OpenTag(tag)| <= b.close
    && OccursAt(s, CloseTag(tag), b.close)
  }

  /** Where the match ends. */
  function End(tag: string, b: Block): nat { b.close + |CloseTag(tag)| }

  /** No opening tag at or after `k` has a closing tag after it. */
  ghost predicate NoBlockFrom(s: string, tag: string, k: nat)
  {
    forall i: nat, j: nat :: k <= i && i + |OpenTag(tag)| <= j && OccursAt(s, OpenTag(tag), i)
                             ==> !OccursAt(s, CloseTag(tag), j)
  }

  /**
   * The leftmost match starting at or after `k`: found exactly when some opening
   * tag at or after `k` has a closing tag after it; its opening tag is the first
   * one from `k` and its closing tag the first one after that opening tag.
   */
  function FirstBlock(s: string, tag: string, k: nat): (r: Option<Block>)
    ensures r.Some? ==> IsBlock(s, tag, r.value) && k <= r.value.start
    ensures r.Some? ==> forall j :: k <= j < r.value.start ==> !OccursAt(s, OpenTag(tag), j)
    ensures r.Some? ==> forall j :: r.value.start + |OpenTag(tag)| <= j < r.value.close ==> !OccursAt(s, CloseTag(tag), j)
    ensures r.None? ==> NoBlockFrom(s, tag, k)
  {
    match FindFrom(s, OpenTag(tag), k)
    case None => None
    case Some(i) =>
      match FindFrom(s, CloseTag(tag), i + |OpenTag(tag)|)
      case None => None
      case Some(j) => Some(Block(i, j))
  }

  /** `Regex.Replace(s, pattern, "")` from offset `k` on: every successive match is cut out. */
  function RemoveBlocks(s: string, tag: string, k: nat): (r: string)
    requires k <= |s|
    decreases |s| - k
  {
    match FirstBlock(s, tag, k)
    case None => s[k..]
    case Some(b) => s[k..b.start] + RemoveBlocks(s, tag, End(tag, b))
  }

  /** Removal keeps the text when there is no match and otherwise cuts out at least one whole block. */
  lemma {:induction false} RemoveBlocksLength(s: string, tag: string, k: nat)
    requires k <= |s|
    ensures FirstBlock(s, tag, k).None? ==> RemoveBlocks(s, tag, k) == s[k..]
    ensures FirstBlock(s, tag, k).Some? ==>
      |RemoveBlocks(s, tag, k)| <= |s| - k - |OpenTag(tag)| - |CloseTag(tag)|
    decreases |s| - k
  {
    match FirstBlock(s, tag, k)
    case None =>
    case Some(b) =>
      var e := End(tag, b);
      RemoveBlocksLength(s, tag, e);
      if FirstBlock(s, tag, e).None? {
        assert |RemoveBlocks(s, tag, e)| == |s| - e;
      }
  }

  /** `match.Groups[1].Value`: the text between the block's tags. */
  function Content(s: string, tag: string, b: Block): string
    requires b.start + |OpenTag(tag)| <= b.close <= |s|
  {
    s[b.start + |OpenTag(tag)|..b.close]
  }

  /** What the parser makes of a completion. */
  datatype ParsedResponse = ParsedResponse(prompt: string, reasoning: Option<string>, response: string)

  /** `ParsePromptResponse`. */
  function ParsePromptResponse(prompt: string, text: string, tag: string): ParsedResponse
  {
    match FirstBlock(text, tag, 0)
    case None => ParsedResponse(prompt, None, text)
    case Some(b) =>
      ParsedResponse(prompt, Some(Trim(Content(text, tag, b))), Trim(RemoveBlocks(text, tag, 0)))
  }

  /** `pat` occurs somewhere in `s`. */
  ghost predicate Contains(s: string, pat: string)
  {
    exists i: nat | i <= |s| :: OccursAt(s, pat, i)
  }

  /**
   * First outcome of parsing: the reasoning is missing exactly when the text
   * holds no `<tag>…</tag>` block, and then the response is the raw text,
   * untrimmed. The prompt is always the one passed in.
   */
  lemma ParseWithoutBlock(prompt: string, text: string, tag: string)
    ensures var p := ParsePromptResponse(prompt, text, tag);
      && p.prompt == prompt
      && (p.reasoning.None? <==> NoBlockFrom(text, tag, 0))
      && (p.reasoning.None? ==> p.response == text)
  {
    match FirstBlock(text, tag, 0)
    case None =>
    case Some(b) =>
      assert OccursAt(text, OpenTag(tag), b.start) && OccursAt(text, CloseTag(tag), b.close);
  }

  /**
   * Second outcome of parsing: with a block present, the reasoning is the trimmed
   * content of the first block, which never holds the closing tag, and the
   * response is the text with every block removed, then trimmed; it is shorter
   * than the text by at least one block's tags.
   */
  lemma ParseWithBlock(prompt: string, text: string, tag: string, b: Block)
    requires FirstBlock(text, tag, 0) == Some(b)
    ensures IsBlock(text, tag, b)
    ensures ParsePromptResponse(prompt, text, tag).prompt == prompt
    ensures ParsePromptResponse(prompt, text, tag).reasoning == Some(Trim(Content(text, tag, b)))
    ensures !Contains(Content(text, tag, b), CloseTag(tag))
    ensures ParsePromptResponse(prompt, text, tag).response == Trim(RemoveBlocks(text, tag, 0))
    ensures IsTrimmed(ParsePromptResponse(prompt, text, tag).response)
    ensures |ParsePromptResponse(prompt, text, tag).response| <= |text| - |OpenTag(tag)| - |CloseTag(tag)|
  {
    var removed := RemoveBlocks(text, tag, 0);
    RemoveBlocksLength(text, tag, 0);
    NoCloseInsideBlock(text, tag, b);
  }

  /** A slice of a slice of `s` is the matching slice of `s`. */
  lemma SliceWithin(s: string, lo: nat, c: string, i: nat, n: nat)
    requires lo + |c| <= |s| && c == s[lo..lo + |c|] && i + n <= |c|
    ensures c[i..i + n] == s[lo + i..lo + i + n]
  {
    var sub := c[i..i + n];
    assert forall k :: 0 <= k < n ==> sub[k] == c[i + k] == s[lo + i + k];
  }

  /** The lazy capture stops at the first closing tag, so the captured content holds none. */
  lemma NoCloseInsideBlock(s: string, tag: string, b: Block)
    requires IsBlock(s, tag, b)
    requires forall j :: b.start + |OpenTag(tag)| <= j < b.close ==> !OccursAt(s, CloseTag(tag), j)
    ensures !Contains(Content(s, tag, b), CloseTag(tag))
  {
    var lo := b.start + |OpenTag(tag)|;
    var c := Content(s, tag, b);
    var close := CloseTag(tag);
    forall i: nat | i <= |c|
      ensures !OccursAt(c, close, i)
    {
      if i + |close| <= |c| {
        SliceWithin(s, lo, c, i, |close|);
        assert !OccursAt(s, close, lo + i);
      }
    }
  }
}

/** The parser's inverse direction: what it recovers from a completion built as reasoning block plus answer. */
module ParserRoundTrip {
  import opened Wrappers
  import opened Text
  import opened Parser

  lemma OccursShift(p: string, a: string, pat: string, j: nat)
    ensures OccursAt(p + a, pat, |p| + j) <==> OccursAt(a, pat, j)
  {
    if j + |pat| <= |a| {
      assert (p + a)[|p| + j..|p| + j + |pat|] == a[j..j + |pat|];
    }
  }

  /** A text whose every block lies beyond `k` shows no block from `k` once more text is put in front. */
  lemma NoBlockShift(p: string, a: string, tag: string)
    requires NoBlockFrom(a, tag, 0)
    ensures NoBlockFrom(p + a, tag, |p|)
  {
    forall i: nat, j: nat | |p| <= i && i + |OpenTag(tag)| <= j && OccursAt(p + a, OpenTag(tag), i)
      ensures !OccursAt(p + a, CloseTag(tag), j)
    {
      OccursShift(p, a, OpenTag(tag), i - |p|);
      OccursShift(p, a, CloseTag(tag), j - |p|);
    }
  }

  lemma NoBlockMeansNone(s: string, tag: string, k: nat)
    requires NoBlockFrom(s, tag, k)
    ensures FirstBlock(s, tag, k).None?
  {
  }

  /** With no `<` in the tag, the closing tag cannot start inside `r` and run into a closing tag placed after `r`. */
  lemma FirstCloseAfter(s: string, lo: nat, r: string, tag: string)
    requires '<' !in tag
    requires !Contains(r, CloseTag(tag))
    requires lo + |r| + |CloseTag(tag)| <= |s|
    requires s[lo..lo + |r|] == r && OccursAt(s, CloseTag(tag), lo + |r|)
    ensures FindFrom(s, CloseTag(tag), lo) == Some(lo + |r|)
  {
    var close := CloseTag(tag);
    var m := lo + |r|;
    forall j: nat | lo <= j < m
      ensures !OccursAt(s, close, j)
    {
      if j + |close| <= m {
        SliceWithin(s, lo, r, j - lo, |close|);
        assert !OccursAt(r, close, j - lo);
      } else if j + |close| <= |s| {
        var d := m - j;
        assert 1 <= d < |close|;
        assert s[m..m + |close|] == close;
        assert close[0] == '<';
        assert s[j..j + |close|][d] == s[m] == s[m..m + |close|][0];
        assert close[d] != '<' by {
          if d == 1 {
            assert close[1] == '/';
          } else if d < |close| - 1 {
            assert close[d] == tag[d - 2];
            assert tag[d - 2] in tag;
          } else {
            assert close[d] == '>';
          }
        }
      }
    }
    FindFromFirst(s, close, lo, m);
  }

  /**
   * Parsing a completion made of a reasoning block followed by an answer gives
   * back the trimmed reasoning and the trimmed answer, provided the reasoning holds
   * no closing tag, the answer holds no complete block, and the tag holds no `<`.
   */
  lemma ParseRecoversReasoningAndAnswer(prompt: string, reasoning: string, answer: string, tag: string)
    requires '<' !in tag
    requires !Contains(reasoning, CloseTag(tag))
    requires NoBlockFrom(answer, tag, 0)
    ensures ParsePromptResponse(prompt, OpenTag(tag) + reasoning + CloseTag(tag) + answer, tag)
         == ParsedResponse(prompt, Some(Trim(reasoning)), Trim(answer))
  {
    var open, close := OpenTag(tag), CloseTag(tag);
    var block := open + reasoning + close;
    var s := block + answer;
    assert s[..|open|] == open;
    assert OccursAt(s, open, 0);
    assert FindFrom(s, open, 0) == Some(0);
    assert s[|open|..|open| + |reasoning|] == reasoning;
    assert s[|open| + |reasoning|..|block|] == close;
    FirstCloseAfter(s, |open|, reasoning, tag);
    var b := Block(0, |open| + |reasoning|);
    assert FirstBlock(s, tag, 0) == Some(b);
    assert Content(s, tag, b) == reasoning;
    NoBlockShift(block, answer, tag);
    NoBlockMeansNone(s, tag, |block|);
    assert End(tag, b) == |block|;
    assert s[|block|..] == answer;
    assert RemoveBlocks(s, tag, |block|) == answer;
    assert RemoveBlocks(s, tag, 0) == s[0..0] + RemoveBlocks(s, tag, |block|);
    assert RemoveBlocks(s, tag, 0) == answer;
    ParseWithBlock(prompt, s, tag, b);
  }

  /** The built text of the example below is `<think>abc</think>answer`. */
  lemma ExampleText()
    ensures OpenTag("think") + "abc" + CloseTag("think") + "answer" == "<think>abc</think>answer"
  {
  }

  /** The scenario `<think>abc</think>answer` with the default tag gives reasoning `abc` and response `answer`. */
  lemma ParseExample(prompt: string)
    ensures ParsePromptResponse(prompt, "<think>abc</think>answer", "think") == ParsedResponse(prompt, Some("abc"), "answer")
  {
    ExampleText();
    ExampleParsesAsBuilt(prompt, OpenTag("think") + "abc" + CloseTag("think") + "answer");
    ExampleTrims();
  }

  lemma ExampleTrims()
    ensures Trim("abc") == "abc" && Trim("answer") == "answer"
  {
    TrimmedExample("abc");
    TrimmedExample("answer");
  }

  lemma TrimmedExample(s: string)
    requires |s| >= 1 && 'a' <= s[0] <= 'z' && 'a' <= s[|s| - 1] <= 'z'
    ensures Trim(s) == s
  {
    TrimTrimmed(s);
  }

  lemma ExampleParsesAsBuilt(prompt: string, text: string)
    requires text == OpenTag("think") + "abc" + CloseTag("think") + "answer"
    ensures ParsePromptResponse(prompt, text, "think") == ParsedResponse(prompt, Some(Trim("abc")), Trim("answer"))
  {
    ExampleParts();
    ParseRecoversReasoningAndAnswer(prompt, "abc", "answer", "think");
  }

  lemma ExampleParts()
    ensures !Contains("abc", CloseTag("think"))
    ensures NoBlockFrom("answer", "think", 0)
  {
    assert |OpenTag("think")| == 7;
  }
}
