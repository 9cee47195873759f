/**
 * The Markdown renderer used for tutor answers
 * (components/MarkdownRenderer.tsx): the text is cut into blocks at blank
 * lines, each block is classified as a code block, a list, a header or a
 * paragraph, and inline text is cut into plain runs and math, bold, italic
 * and code spans. Only the structure is modelled: a math span is kept as
 * its source text, not typeset.
 */
module Markdown {
  import opened Wrappers
  import opened Text

  const BlockMathMark := "$$"
  const MathMark := "$"
  const StrongStars := "**"
  const StrongUnderscores := "__"
  const Star := "*"
  const Underscore := "_"
  const Tick := "`"
  const Fence := "```"
  const BlockSep := "\n\n"
  const LineSep := "\n"

  /** One piece of inline content: a plain run, or a span with its delimiter and body. */
  datatype Part =
    | Plain(text: string)
    | BlockMath(body: string)
    | InlineMath(body: string)
    | Bold(marker: string, body: string)
    | Italic(marker: string, body: string)
    | Code(body: string)

  /** The text a part was cut from. */
  function Source(p: Part): string
  {
    match p
    case Plain(t) => t
    case BlockMath(b) => BlockMathMark + b + BlockMathMark
    case InlineMath(b) => MathMark + b + MathMark
    case Bold(m, b) => m + b + m
    case Italic(m, b) => m + b + m
    case Code(b) => Tick + b + Tick
  }

  /** The text a list of parts was cut from. */
  function Unparse(parts: seq<Part>): string
  {
    if parts == [] then "" else Source(parts[0]) + Unparse(parts[1..])
  }

  lemma SliceSplit<T>(s: seq<T>, i: nat, p: nat, e: nat)
    requires i <= p <= e <= |s|
    ensures s[i..] == s[i..p] + (s[p..e] + s[e..])
  {
  }

  /** The text of a part followed by more parts. */
  lemma UnparseCons(x: Part, rest: seq<Part>)
    ensures Unparse([x] + rest) == Source(x) + Unparse(rest)
  {
    assert ([x] + rest)[1..] == rest;
  }

  lemma {:induction false} UnparseAppend(a: seq<Part>, b: seq<Part>)
    ensures Unparse(a + b) == Unparse(a) + Unparse(b)
  {
    if a == [] {
      assert a + b == b;
    } else {
      var x, y, z := Source(a[0]), Unparse(a[1..]), Unparse(b);
      UnparseAppend(a[1..], b);
      assert (a + b)[0] == a[0];
      TailAppend(a, b);
      assert Unparse(a + b) == x + (y + z);
      Associative(x, y, z);
    }
  }

  /**
   * The first `delim` at or after `k`, as a lazy body followed by the
   * closing delimiter finds it; unless `crossLines`, the body (`.*?`) stops
   * at a line terminator.
   */
  function CloseFrom(s: string, delim: string, k: nat, crossLines: bool): (r: Option<nat>)
    requires |delim| > 0
    ensures r.Some? ==> k <= r.value && OccursAt(s, delim, r.value)
    decreases |s| - k
  {
    if OccursAt(s, delim, k) then Some(k)
    else if k >= |s| || (!crossLines && IsJsLineTerminator(s[k])) then None
    else CloseFrom(s, delim, k + 1, crossLines)
  }

  /** Where a span opened by `delim` at `p` closes: its body and the index after the closing delimiter. */
  function Enclosed(s: string, p: nat, delim: string, crossLines: bool, nonEmpty: bool): (r: Option<(string, nat)>)
    requires |delim| > 0
    ensures r.Some? ==> p < r.value.1 <= |s| && s[p..r.value.1] == delim + r.value.0 + delim
    ensures r.Some? && nonEmpty ==> r.value.0 != []
  {
    if !OccursAt(s, delim, p) then None
    else
      match CloseFrom(s, delim, p + |delim|, crossLines)
      case None => None
      case Some(k) =>
        if nonEmpty && k == p + |delim| then None
        else
          assert s[p..k + |delim|] == s[p..p + |delim|] + s[p + |delim|..k] + s[k..k + |delim|];
          Some((s[p + |delim|..k], k + |delim|))
  }

  /** A span found at an index, and the index after it. */
  datatype Found = Found(part: Part, end: nat)

  /** A span found at `p`: it ends after `p`, covers its source text, and is not plain text. */
  predicate SpanFrom(s: string, p: nat, r: Option<Found>)
  {
    r.Some? ==> p < r.value.end <= |s| && s[p..r.value.end] == Source(r.value.part) && !r.value.part.Plain?
  }

  /** The math alternatives: `$$…$$` across lines, else `$…$` within a line. */
  function MathAt(s: string, p: nat): (r: Option<Found>)
    ensures SpanFrom(s, p, r)
  {
    var block := Enclosed(s, p, BlockMathMark, true, false);
    if block.Some? then Some(Found(BlockMath(block.value.0), block.value.1))
    else
      var inline := Enclosed(s, p, MathMark, false, false);
      if inline.Some? then Some(Found(InlineMath(inline.value.0), inline.value.1)) else None
  }

  /** The emphasis alternatives: `**…**` or `__…__`, else `*…*` or `_…_`, each within a line. */
  function EmphasisAt(s: string, p: nat): (r: Option<Found>)
    ensures SpanFrom(s, p, r)
  {
    var strong := if OccursAt(s, StrongStars, p) then StrongStars else StrongUnderscores;
    var bold := Enclosed(s, p, strong, false, false);
    if bold.Some? then Some(Found(Bold(strong, bold.value.0), bold.value.1))
    else
      var single := if OccursAt(s, Star, p) then Star else Underscore;
      var italic := Enclosed(s, p, single, false, false);
      if italic.Some? then Some(Found(Italic(single, italic.value.0), italic.value.1)) else None
  }

  /** The code alternative: a non-empty span without a backtick, across lines. */
  function CodeAt(s: string, p: nat): (r: Option<Found>)
    ensures SpanFrom(s, p, r)
    ensures r.Some? ==> r.value.part.Code? && r.value.part.body != []
  {
    var code := Enclosed(s, p, Tick, true, true);
    if code.Some? then Some(Found(Code(code.value.0), code.value.1)) else None
  }

  /**
   * The alternatives of the inline pattern at `p`, in the order they are
   * tried: math, then emphasis, then code.
   */
  function MatchAt(s: string, p: nat): (r: Option<Found>)
    ensures SpanFrom(s, p, r)
  {
    var math := MathAt(s, p);
    if math.Some? then math
    else
      var emphasis := EmphasisAt(s, p);
      if emphasis.Some? then emphasis else CodeAt(s, p)
  }

  /** The first index at or after `i` that holds a value, and the value. */
  function FirstSome<T>(ms: seq<Option<T>>, i: nat): (r: Option<(nat, T)>)
    requires i <= |ms|
    ensures r.Some? ==> i <= r.value.0 < |ms| && ms[r.value.0] == Some(r.value.1)
    ensures r.Some? ==> forall q :: i <= q < r.value.0 ==> ms[q].None?
    ensures r.None? ==> forall q :: i <= q < |ms| ==> ms[q].None?
    decreases |ms| - i
  {
    if i == |ms| then None
    else if ms[i].Some? then Some((i, ms[i].value))
    else FirstSome(ms, i + 1)
  }

  /** The span the pattern matches at each index of `s`, if any. */
  function Spans(s: string): (ms: seq<Option<Found>>)
    ensures |ms| == |s| && forall q :: 0 <= q < |s| ==> ms[q] == MatchAt(s, q)
  {
    seq(|s|, q requires 0 <= q < |s| => MatchAt(s, q))
  }

  /** `regex.exec(text)` from `lastIndex`: the leftmost index at or after `i` where a span starts, and the span. */
  function NextMatch(s: string, i: nat): (r: Option<(nat, Found)>)
    requires i <= |s|
    ensures r.Some? ==> i <= r.value.0 < |s| && MatchAt(s, r.value.0) == Some(r.value.1)
    ensures r.Some? ==> forall q :: i <= q < r.value.0 ==> MatchAt(s, q).None?
    ensures r.None? ==> forall q :: i <= q < |s| ==> MatchAt(s, q).None?
  {
    FirstSome(Spans(s), i)
  }

  /** The parts cut from `s` from index `i` on: the text before each leftmost span, the span, and so on; the rest as text. */
  function Tokens(s: string, i: nat): (r: seq<Part>)
    requires i <= |s|
    decreases |s| - i
  {
    var next := NextMatch(s, i);
    if next.None? then (if i < |s| then [Plain(s[i..])] else [])
    else
      var (p, f) := next.value;
      assert SpanFrom(s, p, MatchAt(s, p));
      if p > i then [Plain(s[i..p])] + ([f.part] + Tokens(s, f.end)) else [f.part] + Tokens(s, f.end)
  }

  /**
   * What `renderInlineContent` returns: the parts, or the text itself as the
   * only part when there are none. Nothing is lost or reordered: the parts
   * spell out the text.
   */
  function Render(s: string): (r: seq<Part>)
    ensures r != []
    ensures Unparse(r) == s
  {
    TokensUnparse(s, 0);
    assert s[0..] == s;
    var t := Tokens(s, 0);
    if t == [] then [Plain(s)] else t
  }

  /** One step of the cut: the text before the leftmost span, the span, then the parts after it. */
  lemma TokensStep(s: string, i: nat)
    requires i <= |s| && NextMatch(s, i).Some?
    ensures var (p, f) := NextMatch(s, i).value;
      && i <= p < f.end <= |s| && s[p..f.end] == Source(f.part)
      && Tokens(s, i) == if p > i then [Plain(s[i..p])] + ([f.part] + Tokens(s, f.end)) else [f.part] + Tokens(s, f.end)
  {
    var (p, f) := NextMatch(s, i).value;
    assert SpanFrom(s, p, MatchAt(s, p));
  }

  /** The parts from `i` on spell out the text from `i` on. */
  lemma {:induction false} TokensUnparse(s: string, i: nat)
    requires i <= |s|
    ensures Unparse(Tokens(s, i)) == s[i..]
    decreases |s| - i
  {
    var next := NextMatch(s, i);
    if next.Some? {
      TokensStep(s, i);
      var (p, f) := next.value;
      TokensUnparse(s, f.end);
      SliceSplit(s, i, p, f.end);
      var rest := Tokens(s, f.end);
      UnparseCons(f.part, rest);
      if p > i {
        UnparseCons(Plain(s[i..p]), [f.part] + rest);
      }
    }
  }

  /** Text in which no span starts is returned whole, as a single plain part. */
  lemma RenderNoMatch(s: string)
    requires forall q :: 0 <= q < |s| ==> MatchAt(s, q).None?
    ensures Render(s) == [Plain(s)]
  {
    assert s[0..] == s;
  }

  /** A code span around text without a backtick or another delimiter is one code part. */
  lemma CodeSpanRoundTrip(body: string)
    requires body != [] && forall i :: 0 <= i < |body| ==> body[i] != '`'
    ensures Render(Tick + body + Tick) == [Code(body)]
  {
    var s := Tick + body + Tick;
    assert s[0] == '`';
    assert !OccursAt(s, BlockMathMark, 0) && !OccursAt(s, MathMark, 0);
    assert !OccursAt(s, StrongUnderscores, 0) && !OccursAt(s, Underscore, 0);
    assert CloseFrom(s, Tick, 1, true) == Some(|s| - 1) by { TickSkip(s, 1); }
    assert s[1..|s| - 1] == body;
    assert MatchAt(s, 0) == Some(Found(Code(body), |s|));
    assert NextMatch(s, 0) == Some((0, Found(Code(body), |s|)));
    assert NextMatch(s, |s|) == None;
    assert Tokens(s, |s|) == [];
    assert Tokens(s, 0) == [Code(body)] + [];
  }

  /** The lazy scan for a closing backtick passes over the body. */
  lemma {:induction false} TickSkip(s: string, k: nat)
    requires 1 <= k <= |s| - 1 && s[|s| - 1] == '`' && forall m :: 1 <= m < |s| - 1 ==> s[m] != '`'
    ensures CloseFrom(s, Tick, k, true) == Some(|s| - 1)
    decreases |s| - k
  {
    if k < |s| - 1 {
      assert !OccursAt(s, Tick, k) by { assert s[k..k + 1][0] == s[k]; }
      TickSkip(s, k + 1);
    } else {
      assert s[k..k + 1] == Tick;
    }
  }

  /** `renderInlineContent`: the `regex.exec` loop, collecting the text before each span and the span. */
  method RenderInlineContent(text: string) returns (parts: seq<Part>)
    ensures parts == Render(text)
    ensures Unparse(parts) == text
  {
    parts := [];
    var lastIndex := 0;
    var next := NextMatch(text, lastIndex);
    while next.Some?
      invariant lastIndex <= |text|
      invariant next == NextMatch(text, lastIndex)
      invariant parts + Tokens(text, lastIndex) == Tokens(text, 0)
      decreases |text| - lastIndex
    {
      var (index, found) := next.value;
      TokensStep(text, lastIndex);
      var rest := Tokens(text, found.end);
      if index > lastIndex {
        var plain := Plain(text[lastIndex..index]);
        Associative(parts, [plain], [found.part] + rest);
        parts := parts + [plain];
      }
      Associative(parts, [found.part], rest);
      parts := parts + [found.part];
      lastIndex := found.end;
      next := NextMatch(text, lastIndex);
    }
    if lastIndex < |text| {
      parts := parts + [Plain(text[lastIndex..])];
    } else {
      assert parts + [] == parts;
    }
    if parts == [] {
      parts := [Plain(text)];
    }
  }

  /** `filter(p => p.trim())`: the pieces that are not whitespace only, in order. */
  function NonBlank(pieces: seq<string>): (r: seq<string>)
    ensures |r| <= |pieces|
  {
    if pieces == [] then []
    else (if Trim(Js, pieces[0]) != "" then [pieces[0]] else []) + NonBlank(pieces[1..])
  }

  /** The filter distributes over concatenation, and keeps a single piece exactly when it is not blank. */
  lemma {:induction false} NonBlankAppend(a: seq<string>, b: seq<string>, x: string)
    ensures NonBlank(a + b) == NonBlank(a) + NonBlank(b)
    ensures NonBlank([x]) == if IsBlank(Js, x) then [] else [x]
  {
    if a == [] {
      assert a + b == b;
    } else {
      TailAppend(a, b);
      NonBlankAppend(a[1..], b, x);
      Associative(if Trim(Js, a[0]) != "" then [a[0]] else [], NonBlank(a[1..]), NonBlank(b));
    }
    TrimShape(Js, x);
    assert NonBlank([x]) == (if Trim(Js, x) != "" then [x] else []) + NonBlank([]);
  }

  /** Exactly the pieces with a non-space character are kept. */
  lemma {:induction false} NonBlankMeaning(pieces: seq<string>)
    ensures forall p :: p in NonBlank(pieces) <==> p in pieces && !IsBlank(Js, p)
  {
    if pieces != [] {
      NonBlankMeaning(pieces[1..]);
      TrimShape(Js, pieces[0]);
      assert pieces == [pieces[0]] + pieces[1..];
    }
  }

  /** The blocks of a text: its pieces between `\n\n`, without the blank ones. */
  function Blocks(text: string): seq<string>
  {
    NonBlank(SplitOn(text, BlockSep))
  }

  /** Every block has a non-space character and holds no `\n\n`; every such piece of the text is a block. */
  lemma BlocksMeaning(text: string)
    ensures forall b :: b in Blocks(text) ==> !IsBlank(Js, b) && !Contains(b, BlockSep)
    ensures forall b :: b in SplitOn(text, BlockSep) && !IsBlank(Js, b) ==> b in Blocks(text)
  {
    NonBlankMeaning(SplitOn(text, BlockSep));
  }

  predicate IsMarker(c: char)
  {
    c == '-' || c == '*' || c == '+'
  }

  /** `^` under the `m` flag: the start of the block or just after a line terminator. */
  predicate LineStart(b: string, k: nat)
  {
    k == 0 || (0 < k <= |b| && IsJsLineTerminator(b[k - 1]))
  }

  /** `[\s]*[-*+]` from `k`: the first non-space character from `k` on is a marker. */
  predicate MarkerFrom(b: string, k: nat)
    requires k <= |b|
  {
    var q := SpaceRunFrom(Js, b, k);
    q < |b| && IsMarker(b[q])
  }

  /** `/^[\s]*[-*+]/m`: some line begins, after whitespace, with a marker. */
  predicate IsList(b: string)
  {
    exists k :: 0 <= k < |b| && LineStart(b, k) && MarkerFrom(b, k)
  }

  /** `item.replace` with the pattern `^[\s]*[-*+]\s*` and `''`: leading whitespace, a marker and the whitespace after it go. */
  function StripMarker(line: string): (r: string)
    ensures |r| <= |line| && r == line[|line| - |r|..]
  {
    var q := SpaceRunFrom(Js, line, 0);
    if q < |line| && IsMarker(line[q]) then line[SpaceRunFrom(Js, line, q + 1)..] else line
  }

  /**
   * When a line starts, after whitespace, with a marker, exactly that marker
   * and whitespace are removed and the item starts with a non-space
   * character; otherwise the line is kept.
   */
  lemma StripMarkerMeaning(line: string)
    ensures var r := StripMarker(line);
      var removed := line[..|line| - |r|];
      && (MarkerFrom(line, 0) ==> |NonSpace(Js, removed)| == 1 && IsMarker(NonSpace(Js, removed)[0]) && (r != [] ==> !IsSpace(Js, r[0])))
      && (!MarkerFrom(line, 0) ==> r == line)
  {
    var r := StripMarker(line);
    if MarkerFrom(line, 0) {
      var q := SpaceRunFrom(Js, line, 0);
      var e := SpaceRunFrom(Js, line, q + 1);
      var removed := line[..e];
      assert removed == line[..q] + [line[q]] + line[q + 1..e];
      NonSpaceAppend(Js, line[..q] + [line[q]], line[q + 1..e]);
      NonSpaceAppend(Js, line[..q], [line[q]]);
      NonSpaceBlank(Js, line[..q]);
      NonSpaceBlank(Js, line[q + 1..e]);
      assert NonSpace(Js, [line[q]]) == [line[q]] by {
        assert !IsSpace(Js, line[q]) by { assert line[q] == '-' || line[q] == '*' || line[q] == '+'; }
      }
      assert line[..|line| - |r|] == removed;
    }
  }

  /** A marked item line gives back its text. */
  lemma StripMarkerRoundTrip(marker: char, item: string)
    requires IsMarker(marker) && (item == [] || !IsSpace(Js, item[0]))
    ensures StripMarker([marker, ' '] + item) == item
  {
    var line := [marker, ' '] + item;
    assert !IsSpace(Js, marker) by { assert marker == '-' || marker == '*' || marker == '+'; }
    assert SpaceRunFrom(Js, line, 0) == 0;
    assert IsSpace(Js, ' ');
    assert SpaceRunFrom(Js, line, 2) == 2;
    assert SpaceRunFrom(Js, line, 1) == 2;
    assert line[2..] == item;
  }

  /** A list's items: one per line with a non-space character, each without its marker. */
  function ListItems(b: string): (r: seq<string>)
  {
    var lines := NonBlank(SplitOn(b, LineSep));
    seq(|lines|, i requires 0 <= i < |lines| => StripMarker(lines[i]))
  }

  /** The end of the run of `#` from `k`. */
  function HashRun(b: string, k: nat): (e: nat)
    requires k <= |b|
    ensures k <= e <= |b|
    ensures forall m :: k <= m < e ==> b[m] == '#'
    ensures e < |b| ==> b[e] != '#'
    decreases |b| - k
  {
    if k < |b| && b[k] == '#' then HashRun(b, k + 1) else k
  }

  /** The index of the first line terminator from `k` on, or the end. */
  function LineEnd(b: string, k: nat): (e: nat)
    requires k <= |b|
    ensures k <= e <= |b|
    ensures forall m :: k <= m < e ==> !IsJsLineTerminator(b[m])
    ensures e < |b| ==> IsJsLineTerminator(b[e])
    decreases |b| - k
  {
    if k < |b| && !IsJsLineTerminator(b[k]) then LineEnd(b, k + 1) else k
  }

  /** `/^(#+)\s+(.*)/`: the number of leading `#`, and the rest of the line after the whitespace that follows them. */
  function HeaderOf(b: string): (r: Option<(nat, string)>)
    ensures r.Some? ==> 1 <= r.value.0 <= |b| && forall m :: 0 <= m < r.value.0 ==> b[m] == '#'
    ensures r.Some? ==> forall m :: 0 <= m < |r.value.1| ==> !IsJsLineTerminator(r.value.1[m])
  {
    var h := HashRun(b, 0);
    if h == 0 then None
    else
      var w := SpaceRunFrom(Js, b, h);
      if w == h then None else Some((h, b[w..LineEnd(b, w)]))
  }

  /** `#` repeated. */
  function Hashes(n: nat): (r: string)
    ensures |r| == n && forall m :: 0 <= m < n ==> r[m] == '#'
  {
    if n == 0 then "" else Hashes(n - 1) + "#"
  }

  /** A header line written as `#`s, a space and one line of text reads back as that level and text. */
  lemma HeaderRoundTrip(n: nat, text: string)
    requires n >= 1
    requires text == [] || !IsSpace(Js, text[0])
    requires forall m :: 0 <= m < |text| ==> !IsJsLineTerminator(text[m])
    ensures HeaderOf(Hashes(n) + " " + text) == Some((n, text))
  {
    var b := Hashes(n) + " " + text;
    assert b[n] == ' ';
    assert forall m :: 0 <= m < n ==> b[m] == Hashes(n)[m];
    HashRunAt(b, 0, n);
    assert HashRun(b, 0) == n;
    assert SpaceRunFrom(Js, b, n + 1) == n + 1;
    assert SpaceRunFrom(Js, b, n) == n + 1 by { assert IsSpace(Js, b[n]); }
    assert b[n + 1..] == text;
    LineEndAll(b, n + 1);
    assert LineEnd(b, n + 1) == |b|;
    assert b[n + 1..|b|] == text;
    assert HeaderOf(b) == Some((n, b[n + 1..|b|]));
  }

  lemma {:induction false} HashRunAt(b: string, k: nat, e: nat)
    requires k <= e < |b| && b[e] != '#' && forall m :: k <= m < e ==> b[m] == '#'
    ensures HashRun(b, k) == e
    decreases e - k
  {
    if k < e {
      HashRunAt(b, k + 1, e);
    }
  }

  lemma {:induction false} LineEndAll(b: string, k: nat)
    requires k <= |b| && forall m :: k <= m < |b| ==> !IsJsLineTerminator(b[m])
    ensures LineEnd(b, k) == |b|
    decreases |b| - k
  {
    if k < |b| {
      LineEndAll(b, k + 1);
    }
  }

  /** A rendered block. */
  datatype Block =
    | CodeBlock(code: string)
    | ListBlock(items: seq<seq<Part>>)
    | Heading(level: nat, tag: nat, parts: seq<Part>)
    | Paragraph(parts: seq<Part>)

  /** The code of a block that starts with a fence: every fence removed, then trimmed. */
  function CodeOf(b: string): string
  {
    Trim(Js, ReplaceAll(b, Fence, ""))
  }

  /**
   * One block, tested in order: a fence first makes it code; a line that
   * begins with a marker makes it a list; leading `#`s and whitespace make
   * it a header, whose tag is `h1` to `h6`; anything else is a paragraph.
   */
  function Classify(b: string): (r: Block)
    ensures r.CodeBlock? <==> StartsWith(b, Fence)
    ensures r.ListBlock? <==> !StartsWith(b, Fence) && IsList(b)
    ensures r.Heading? <==> !StartsWith(b, Fence) && !IsList(b) && HeaderOf(b).Some?
    ensures r.Heading? ==> r.level == HeaderOf(b).value.0 && 1 <= r.tag <= 6 && r.tag == if r.level < 6 then r.level else 6
    ensures r.ListBlock? ==> |r.items| == |ListItems(b)|
  {
    if StartsWith(b, Fence) then CodeBlock(CodeOf(b))
    else if IsList(b) then
      var items := ListItems(b);
      ListBlock(seq(|items|, i requires 0 <= i < |items| => Render(items[i])))
    else
      match HeaderOf(b)
      case Some((level, text)) => Heading(level, if level < 6 then level else 6, Render(text))
      case None => Paragraph(Render(b))
  }

  /** `renderMarkdown`: every block of the text, classified, in order. */
  function RenderMarkdown(text: string): (r: seq<Block>)
    ensures |r| == |Blocks(text)|
  {
    var blocks := Blocks(text);
    seq(|blocks|, i requires 0 <= i < |blocks| => Classify(blocks[i]))
  }

  /** Removing fences from code without a backtick, with a fence after it, leaves the code. */
  lemma {:induction false} ReplaceFenceAfter(code: string)
    requires forall i :: 0 <= i < |code| ==> code[i] != '`'
    ensures ReplaceAll(code + Fence, Fence, "") == code
  {
    if code == [] {
      assert code + Fence == Fence;
      assert ReplaceAll(Fence[3..], Fence, "") == "";
    } else {
      assert (code + Fence)[..3] != Fence by { assert (code + Fence)[0] == code[0]; }
      assert (code + Fence)[1..] == code[1..] + Fence;
      ReplaceFenceAfter(code[1..]);
    }
  }

  /** A fenced block of code without backticks and without whitespace at its ends reads back as that code. */
  lemma CodeBlockRoundTrip(code: string)
    requires forall i :: 0 <= i < |code| ==> code[i] != '`'
    requires code == [] || (!IsSpace(Js, code[0]) && !IsSpace(Js, code[|code| - 1]))
    ensures Classify(Fence + code + Fence) == CodeBlock(code)
  {
    var b := Fence + code + Fence;
    assert b[..3] == Fence;
    assert b[3..] == code + Fence;
    ReplaceFenceAfter(code);
    TrimOfTrimmed(Js, code);
  }
}
