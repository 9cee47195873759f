/**
 * Character classes and string operations with the meaning they have in the
 * two languages of the system: Python's `str` methods and `re` classes on the
 * backend, JavaScript's `String` methods and regular-expression classes on the
 * front end.
 */
module Text {
  import opened Wrappers

  /** Which language's idea of "whitespace" an operation uses. */
  datatype Dialect = Js | Py

  /**
   * JavaScript: `\s` and `trim` (ECMAScript WhiteSpace and LineTerminator).
   * Python: `str.isspace`, used by `split()`, `strip()` and `\s` on `str`.
   */
  predicate IsSpace(d: Dialect, c: char)
  {
    match d
    case Js =>
      || ('\t' <= c <= '\r') || c == ' ' || c == '\U{00A0}' || c == '\U{1680}'
      || ('\U{2000}' <= c <= '\U{200A}') || c == '\U{2028}' || c == '\U{2029}'
      || c == '\U{202F}' || c == '\U{205F}' || c == '\U{3000}' || c == '\U{FEFF}'
    case Py =>
      || ('\t' <= c <= '\r') || ('\U{001C}' <= c <= ' ') || c == '\U{0085}' || c == '\U{00A0}' || c == '\U{1680}'
      || ('\U{2000}' <= c <= '\U{200A}') || c == '\U{2028}' || c == '\U{2029}'
      || c == '\U{202F}' || c == '\U{205F}' || c == '\U{3000}'
  }

  /** The characters JavaScript's `.` refuses (no `s` flag). */
  predicate IsJsLineTerminator(c: char)
  {
    c == '\n' || c == '\r' || c == '\U{2028}' || c == '\U{2029}'
  }

  predicate IsDigit(c: char) { '0' <= c <= '9' }

  /** The ten code points from `zero` on. */
  predicate DigitBlock(n: int, zero: int)
  {
    zero <= n <= zero + 9
  }

  /**
   * Python's `\d` on `str`: a decimal digit of any script (Unicode
   * category Nd, as of Unicode 15.0), given by the zero of each block of ten.
   */
  predicate IsPyDecimal(c: char)
  {
    var n := c as int;
    || DigitBlock(n, 0x30) || DigitBlock(n, 0x660) || DigitBlock(n, 0x6F0) || DigitBlock(n, 0x7C0) || DigitBlock(n, 0x966)
    || DigitBlock(n, 0x9E6) || DigitBlock(n, 0xA66) || DigitBlock(n, 0xAE6) || DigitBlock(n, 0xB66) || DigitBlock(n, 0xBE6)
    || DigitBlock(n, 0xC66) || DigitBlock(n, 0xCE6) || DigitBlock(n, 0xD66) || DigitBlock(n, 0xDE6) || DigitBlock(n, 0xE50)
    || DigitBlock(n, 0xED0) || DigitBlock(n, 0xF20) || DigitBlock(n, 0x1040) || DigitBlock(n, 0x1090) || DigitBlock(n, 0x17E0)
    || DigitBlock(n, 0x1810) || DigitBlock(n, 0x1946) || DigitBlock(n, 0x19D0) || DigitBlock(n, 0x1A80) || DigitBlock(n, 0x1A90)
    || DigitBlock(n, 0x1B50) || DigitBlock(n, 0x1BB0) || DigitBlock(n, 0x1C40) || DigitBlock(n, 0x1C50) || DigitBlock(n, 0xA620)
    || DigitBlock(n, 0xA8D0) || DigitBlock(n, 0xA900) || DigitBlock(n, 0xA9D0) || DigitBlock(n, 0xA9F0) || DigitBlock(n, 0xAA50)
    || DigitBlock(n, 0xABF0) || DigitBlock(n, 0xFF10) || DigitBlock(n, 0x104A0) || DigitBlock(n, 0x10D30) || DigitBlock(n, 0x11066)
    || DigitBlock(n, 0x110F0) || DigitBlock(n, 0x11136) || DigitBlock(n, 0x111D0) || DigitBlock(n, 0x112F0) || DigitBlock(n, 0x11450)
    || DigitBlock(n, 0x114D0) || DigitBlock(n, 0x11650) || DigitBlock(n, 0x116C0) || DigitBlock(n, 0x11730) || DigitBlock(n, 0x118E0)
    || DigitBlock(n, 0x11950) || DigitBlock(n, 0x11C50) || DigitBlock(n, 0x11D50) || DigitBlock(n, 0x11DA0) || DigitBlock(n, 0x11F50)
    || DigitBlock(n, 0x16A60) || DigitBlock(n, 0x16AC0) || DigitBlock(n, 0x16B50) || DigitBlock(n, 0x1D7CE) || DigitBlock(n, 0x1D7D8)
    || DigitBlock(n, 0x1D7E2) || DigitBlock(n, 0x1D7EC) || DigitBlock(n, 0x1D7F6) || DigitBlock(n, 0x1E140) || DigitBlock(n, 0x1E2F0)
    || DigitBlock(n, 0x1E4F0) || DigitBlock(n, 0x1E950) || DigitBlock(n, 0x1FBF0)
  }


  /** `\w` in both languages for ASCII text. */
  predicate IsWordChar(c: char)
  {
    ('a' <= c <= 'z') || ('A' <= c <= 'Z') || IsDigit(c) || c == '_'
  }

  predicate IsBlank(d: Dialect, s: string)
  {
    forall i :: 0 <= i < |s| ==> IsSpace(d, s[i])
  }

  /** The characters of `s` that are not whitespace, in order. */
  function NonSpace(d: Dialect, s: string): string
  {
    if s == [] then [] else (if IsSpace(d, s[0]) then [] else [s[0]]) + NonSpace(d, s[1..])
  }

  lemma {:induction false} NonSpaceAppend(d: Dialect, a: string, b: string)
    ensures NonSpace(d, a + b) == NonSpace(d, a) + NonSpace(d, b)
  {
    if a != [] {
      assert (a + b)[0] == a[0];
      assert (a + b)[1..] == a[1..] + b;
      NonSpaceAppend(d, a[1..], b);
    } else {
      assert a + b == b;
    }
  }

  lemma {:induction false} NonSpaceBlank(d: Dialect, s: string)
    ensures NonSpace(d, s) == [] <==> IsBlank(d, s)
  {
    if s != [] {
      NonSpaceBlank(d, s[1..]);
      if IsBlank(d, s[1..]) && IsSpace(d, s[0]) {
        assert IsBlank(d, s) by {
          forall i | 0 <= i < |s| ensures IsSpace(d, s[i]) {
            if i > 0 { assert s[i] == s[1..][i - 1]; }
          }
        }
      }
    }
  }

  lemma {:induction false} NonSpaceOfWord(d: Dialect, s: string)
    requires forall i :: 0 <= i < |s| ==> !IsSpace(d, s[i])
    ensures NonSpace(d, s) == s
  {
    if s != [] {
      NonSpaceOfWord(d, s[1..]);
    }
  }

  /** `lstrip()` / `trimStart()`. */
  function TrimStart(d: Dialect, s: string): (r: string)
    ensures |r| <= |s| && r == s[|s| - |r|..]
    ensures IsBlank(d, s[..|s| - |r|])
    ensures r != [] ==> !IsSpace(d, r[0])
  {
    if s != [] && IsSpace(d, s[0]) then TrimStart(d, s[1..]) else s
  }

  /** `rstrip()` / `trimEnd()`. */
  function TrimEnd(d: Dialect, s: string): (r: string)
    ensures |r| <= |s| && r == s[..|r|]
    ensures IsBlank(d, s[|r|..])
    ensures r != [] ==> !IsSpace(d, r[|r| - 1])
  {
    if s != [] && IsSpace(d, s[|s| - 1]) then
      var r := TrimEnd(d, s[..|s| - 1]);
      assert s[|r|..] == s[..|s| - 1][|r|..] + [s[|s| - 1]];
      r
    else s
  }

  /** `strip()` / `trim()`: `s` without its leading and trailing whitespace. */
  function Trim(d: Dialect, s: string): string
    decreases |s|
  {
    if s == [] then s
    else if IsSpace(d, s[0]) then Trim(d, s[1..])
    else if IsSpace(d, s[|s| - 1]) then Trim(d, s[..|s| - 1])
    else s
  }

  /** Stripping only shortens; it empties exactly the blank strings; what is left starts and ends with non-whitespace. */
  lemma {:induction false} TrimShape(d: Dialect, s: string)
    ensures |Trim(d, s)| <= |s|
    ensures Trim(d, s) == [] <==> IsBlank(d, s)
    ensures Trim(d, s) != [] ==> !IsSpace(d, Trim(d, s)[0]) && !IsSpace(d, Trim(d, s)[|Trim(d, s)| - 1])
    decreases |s|
  {
    if s != [] {
      if IsSpace(d, s[0]) {
        TrimShape(d, s[1..]);
        if IsBlank(d, s[1..]) {
          forall i | 0 <= i < |s| ensures IsSpace(d, s[i]) { if i > 0 { assert s[i] == s[1..][i - 1]; } }
        }
      } else if IsSpace(d, s[|s| - 1]) {
        TrimShape(d, s[..|s| - 1]);
        assert s[..|s| - 1][0] == s[0];
      }
    }
  }

  lemma {:induction false} TrimOfTrimmed(d: Dialect, s: string)
    requires s == [] || (!IsSpace(d, s[0]) && !IsSpace(d, s[|s| - 1]))
    ensures Trim(d, s) == s
  {
  }

  /** `trim()` is `trimEnd()` after `trimStart()`, so it keeps a slice of `s`. */
  lemma {:induction false} TrimIsStartEnd(d: Dialect, s: string)
    ensures Trim(d, s) == TrimEnd(d, TrimStart(d, s))
    decreases |s|
  {
    if s != [] {
      if IsSpace(d, s[0]) {
        TrimIsStartEnd(d, s[1..]);
      } else if IsSpace(d, s[|s| - 1]) {
        TrimIsStartEnd(d, s[..|s| - 1]);
        assert s[..|s| - 1][0] == s[0];
      }
    }
  }

  /** Stripping removes only whitespace. */
  lemma {:induction false} TrimNonSpace(d: Dialect, s: string)
    ensures NonSpace(d, Trim(d, s)) == NonSpace(d, s)
    decreases |s|
  {
    if s != [] {
      if IsSpace(d, s[0]) {
        TrimNonSpace(d, s[1..]);
      } else if IsSpace(d, s[|s| - 1]) {
        TrimNonSpace(d, s[..|s| - 1]);
        assert s == s[..|s| - 1] + [s[|s| - 1]];
        NonSpaceAppend(d, s[..|s| - 1], [s[|s| - 1]]);
      }
    }
  }

  /** A piece of `s` that starts and ends with non-whitespace survives stripping. */
  lemma {:induction false} TrimKeepsInner(d: Dialect, s: string, t: string, p: nat)
    requires p + |t| <= |s| && s[p..p + |t|] == t
    requires t != [] && !IsSpace(d, t[0]) && !IsSpace(d, t[|t| - 1])
    ensures Contains(Trim(d, s), t)
    decreases |s|
  {
    if IsSpace(d, s[0]) {
      assert p > 0 by { assert s[p] == t[0]; }
      assert s[1..][p - 1..p - 1 + |t|] == t;
      TrimKeepsInner(d, s[1..], t, p - 1);
    } else if IsSpace(d, s[|s| - 1]) {
      assert p + |t| < |s| by { assert s[p + |t| - 1] == t[|t| - 1]; }
      assert s[..|s| - 1][p..p + |t|] == t;
      TrimKeepsInner(d, s[..|s| - 1], t, p);
    } else {
      assert OccursAt(s, t, p);
    }
  }

  /** No two whitespace characters in a row. */
  predicate NoDoubleSpace(d: Dialect, s: string)
  {
    forall i :: 0 <= i < |s| - 1 ==> !(IsSpace(d, s[i]) && IsSpace(d, s[i + 1]))
  }

  lemma {:induction false} TrimNoDoubleSpace(d: Dialect, s: string)
    requires NoDoubleSpace(d, s)
    ensures NoDoubleSpace(d, Trim(d, s))
    decreases |s|
  {
    if s != [] {
      if IsSpace(d, s[0]) {
        var t := s[1..];
        assert forall i :: 0 <= i < |t| ==> t[i] == s[i + 1];
        TrimNoDoubleSpace(d, t);
      } else if IsSpace(d, s[|s| - 1]) {
        var t := s[..|s| - 1];
        assert forall i :: 0 <= i < |t| ==> t[i] == s[i];
        TrimNoDoubleSpace(d, t);
      }
    }
  }

  /** Index of the first whitespace character of `s`, or `|s|`. */
  function SpaceIndex(d: Dialect, s: string): (k: nat)
    ensures k <= |s|
    ensures forall i :: 0 <= i < k ==> !IsSpace(d, s[i])
    ensures k < |s| ==> IsSpace(d, s[k])
  {
    if s == [] || IsSpace(d, s[0]) then 0 else 1 + SpaceIndex(d, s[1..])
  }

  /** End of the run of whitespace from `i`. */
  function SpaceRunFrom(d: Dialect, s: string, i: nat): (e: nat)
    requires i <= |s|
    ensures i <= e <= |s|
    ensures forall k :: i <= k < e ==> IsSpace(d, s[k])
    ensures e < |s| ==> !IsSpace(d, s[e])
    decreases |s| - i
  {
    if i < |s| && IsSpace(d, s[i]) then SpaceRunFrom(d, s, i + 1) else i
  }

  predicate IsWord(d: Dialect, w: string)
  {
    w != [] && forall i :: 0 <= i < |w| ==> !IsSpace(d, w[i])
  }

  function Concat(ws: seq<string>): string
  {
    if ws == [] then [] else ws[0] + Concat(ws[1..])
  }

  lemma {:induction false} ConcatSnoc(ws: seq<string>, w: string)
    ensures Concat(ws + [w]) == Concat(ws) + w
  {
    if ws == [] {
      assert ws + [w] == [w];
      assert [w][1..] == [];
    } else {
      assert (ws + [w])[1..] == ws[1..] + [w];
      ConcatSnoc(ws[1..], w);
    }
  }

  lemma {:induction false} NonSpaceSplitWord(d: Dialect, s: string, t: string, k: nat)
    requires |t| <= |s| && t == s[|s| - |t|..] && IsBlank(d, s[..|s| - |t|])
    requires k <= |t| && forall i :: 0 <= i < k ==> !IsSpace(d, t[i])
    ensures NonSpace(d, s) == t[..k] + NonSpace(d, t[k..])
  {
    assert s == s[..|s| - |t|] + t[..k] + t[k..];
    NonSpaceAppend(d, s[..|s| - |t|] + t[..k], t[k..]);
    NonSpaceAppend(d, s[..|s| - |t|], t[..k]);
    NonSpaceBlank(d, s[..|s| - |t|]);
    NonSpaceOfWord(d, t[..k]);
  }

  /**
   * Python's `s.split()` with no argument: the maximal runs of non-whitespace.
   * JavaScript's `s.trim().split(/\s+/)` gives the same pieces when `s` is
   * not blank.
   */
  function Words(d: Dialect, s: string): seq<string>
    decreases |s|
  {
    var t := TrimStart(d, s);
    if t == [] then [] else
    var k := SpaceIndex(d, t);
    assert k > 0;
    [t[..k]] + Words(d, t[k..])
  }

  /** Splitting loses only whitespace: the pieces put back together are the non-space characters of `s`. */
  lemma {:induction false} WordsConcat(d: Dialect, s: string)
    ensures Concat(Words(d, s)) == NonSpace(d, s)
    decreases |s|
  {
    var t := TrimStart(d, s);
    if t == [] {
      NonSpaceBlank(d, s);
    } else {
      var k := SpaceIndex(d, t);
      WordsConcat(d, t[k..]);
      NonSpaceSplitWord(d, s, t, k);
      var r := Words(d, s);
      assert r == [t[..k]] + Words(d, t[k..]);
      assert r[1..] == Words(d, t[k..]);
      assert Concat(r) == t[..k] + Concat(r[1..]);
    }
  }

  /** Every piece of a split is a non-empty run without whitespace. */
  lemma {:induction false} WordsAreWords(d: Dialect, s: string)
    ensures forall i :: 0 <= i < |Words(d, s)| ==> IsWord(d, Words(d, s)[i])
    decreases |s|
  {
    var t := TrimStart(d, s);
    if t != [] {
      var k := SpaceIndex(d, t);
      var rest := Words(d, t[k..]);
      WordsAreWords(d, t[k..]);
      PrefixIsWord(d, t, k);
      WordsCons(d, t[..k], rest);
    }
  }

  lemma PrefixIsWord(d: Dialect, t: string, k: nat)
    requires 0 < k <= |t| && forall i :: 0 <= i < k ==> !IsSpace(d, t[i])
    ensures IsWord(d, t[..k])
  {
    forall i | 0 <= i < k ensures !IsSpace(d, t[..k][i]) {
      assert t[..k][i] == t[i];
    }
  }

  lemma WordsCons(d: Dialect, w: string, rest: seq<string>)
    requires IsWord(d, w) && forall i :: 0 <= i < |rest| ==> IsWord(d, rest[i])
    ensures forall i :: 0 <= i < |[w] + rest| ==> IsWord(d, ([w] + rest)[i])
  {
    forall i | 0 <= i < |[w] + rest| ensures IsWord(d, ([w] + rest)[i]) {
      if i > 0 { assert ([w] + rest)[i] == rest[i - 1]; }
    }
  }

  lemma {:induction false} WordsEmptyIffBlank(d: Dialect, s: string)
    ensures Words(d, s) == [] <==> IsBlank(d, s)
  {
    NonSpaceBlank(d, s);
    WordsConcat(d, s);
    WordsAreWords(d, s);
    var r := Words(d, s);
    if r != [] {
      assert IsWord(d, r[0]);
      assert Concat(r) == r[0] + Concat(r[1..]);
    }
  }

  /** JavaScript's `s.replace(/\s+/g, ' ')`: each run of whitespace becomes one space. */
  function Collapse(d: Dialect, s: string): (r: string)
    ensures |r| <= |s|
    ensures r == [] <==> s == []
    ensures s != [] ==> (IsSpace(d, r[0]) <==> IsSpace(d, s[0]))
    decreases |s|
  {
    if s == [] then []
    else if IsSpace(d, s[0]) then [' '] + Collapse(d, TrimStart(d, s))
    else [s[0]] + Collapse(d, s[1..])
  }

  /** Collapsing keeps every non-whitespace character, in order. */
  lemma {:induction false} CollapseNonSpace(d: Dialect, s: string)
    ensures NonSpace(d, Collapse(d, s)) == NonSpace(d, s)
    decreases |s|
  {
    if s != [] {
      if IsSpace(d, s[0]) {
        var t := TrimStart(d, s);
        CollapseNonSpace(d, t);
        assert s == s[..|s| - |t|] + t;
        NonSpaceAppend(d, s[..|s| - |t|], t);
        NonSpaceBlank(d, s[..|s| - |t|]);
        NonSpaceAppend(d, [' '], Collapse(d, t));
      } else {
        CollapseNonSpace(d, s[1..]);
        NonSpaceAppend(d, [s[0]], Collapse(d, s[1..]));
      }
    }
  }

  /** After collapsing, every whitespace character is a plain space. */
  lemma {:induction false} CollapseOnlySpaces(d: Dialect, s: string)
    ensures forall i :: 0 <= i < |Collapse(d, s)| && IsSpace(d, Collapse(d, s)[i]) ==> Collapse(d, s)[i] == ' '
    decreases |s|
  {
    if s != [] {
      var t := if IsSpace(d, s[0]) then TrimStart(d, s) else s[1..];
      CollapseOnlySpaces(d, t);
      assert Collapse(d, s)[1..] == Collapse(d, t);
    }
  }

  /** After collapsing, no two whitespace characters stand together. */
  lemma {:induction false} CollapseNoDoubleSpace(d: Dialect, s: string)
    ensures NoDoubleSpace(d, Collapse(d, s))
    decreases |s|
  {
    if s != [] {
      var t := if IsSpace(d, s[0]) then TrimStart(d, s) else s[1..];
      CollapseNoDoubleSpace(d, t);
      var r := Collapse(d, s);
      assert r[1..] == Collapse(d, t);
      assert forall k :: 1 <= k < |r| ==> r[k] == r[1..][k - 1];
    }
  }

  /** ASCII lower-casing of one character. */
  function LowerChar(c: char): char
  {
    if 'A' <= c <= 'Z' then (c as int + 32) as char else c
  }

  function UpperChar(c: char): char
  {
    if 'a' <= c <= 'z' then (c as int - 32) as char else c
  }

  /** `lower()` / `toLowerCase()` on ASCII letters. */
  function Lower(s: string): (r: string)
    ensures |r| == |s|
  {
    seq(|s|, i requires 0 <= i < |s| => LowerChar(s[i]))
  }

  function Upper(s: string): (r: string)
    ensures |r| == |s|
  {
    seq(|s|, i requires 0 <= i < |s| => UpperChar(s[i]))
  }

  /** Case-insensitive equality as `a.lower() == b.lower()` decides it. */
  lemma {:induction false} LowerIdempotent(s: string)
    ensures Lower(Lower(s)) == Lower(s)
  {
    forall i | 0 <= i < |s| ensures Lower(Lower(s))[i] == Lower(s)[i] {
    }
  }

  predicate StartsWith(s: string, p: string)
  {
    |p| <= |s| && s[..|p|] == p
  }

  predicate EndsWith(s: string, p: string)
  {
    |p| <= |s| && s[|s| - |p|..] == p
  }

  predicate OccursAt(s: string, p: string, i: nat)
  {
    i + |p| <= |s| && s[i..i + |p|] == p
  }

  predicate Contains(s: string, p: string)
  {
    exists i: nat :: i <= |s| && OccursAt(s, p, i)
  }

  lemma OccursShift(s: string, p: string, j: nat)
    requires |s| >= 1
    ensures OccursAt(s[1..], p, j) <==> OccursAt(s, p, j + 1)
  {
    if j + 1 + |p| <= |s| {
      var x, y := s[j + 1..j + 1 + |p|], s[1..][j..j + |p|];
      forall k | 0 <= k < |p| ensures x[k] == y[k] {
      }
      assert x == y;
    }
  }

  lemma ContainsShift(s: string, p: string)
    requires |s| >= 1 && !OccursAt(s, p, 0)
    ensures Contains(s, p) <==> Contains(s[1..], p)
  {
    if Contains(s[1..], p) {
      var j: nat :| j <= |s| - 1 && OccursAt(s[1..], p, j);
      OccursShift(s, p, j);
    }
    if Contains(s, p) {
      var j: nat :| j <= |s| && OccursAt(s, p, j);
      OccursShift(s, p, j - 1);
    }
  }

  /** `s.find(p)` / `s.indexOf(p)`: the first position where `p` occurs. */
  function IndexOf(s: string, p: string): (r: Option<nat>)
    ensures r.Some? ==> OccursAt(s, p, r.value)
    ensures r.Some? ==> forall j: nat :: j < r.value ==> !OccursAt(s, p, j)
    ensures r.None? ==> forall j: nat :: !OccursAt(s, p, j)
    decreases |s|
  {
    if |s| < |p| then None
    else if s[..|p|] == p then Some(0)
    else
      var r := IndexOf(s[1..], p);
      forall j: nat | 1 <= j ensures OccursAt(s, p, j) <==> OccursAt(s[1..], p, j - 1) {
        OccursShift(s, p, j - 1);
      }
      assert s[0..|p|] == s[..|p|];
      match r
      case None => None
      case Some(i) => Some(i + 1)
  }

  /** `sep.join(parts)` / `parts.join(sep)`. */
  function Join(sep: string, parts: seq<string>): string
  {
    if parts == [] then []
    else if |parts| == 1 then parts[0]
    else parts[0] + sep + Join(sep, parts[1..])
  }

  lemma {:induction false} JoinAppend(sep: string, parts: seq<string>, last: string)
    requires parts != []
    ensures Join(sep, parts + [last]) == Join(sep, parts) + sep + last
  {
    if |parts| > 1 {
      assert (parts + [last])[1..] == parts[1..] + [last];
      JoinAppend(sep, parts[1..], last);
    } else {
      assert (parts + [last])[1..] == [last];
    }
  }

  /** Joining non-empty pieces gives the empty string only when there are no pieces. */
  lemma {:induction false} JoinEmptyIff(sep: string, parts: seq<string>)
    requires forall i :: 0 <= i < |parts| ==> parts[i] != []
    ensures Join(sep, parts) == [] <==> parts == []
  {
    if |parts| > 1 {
      assert parts[0] != [];
      assert |Join(sep, parts)| >= |parts[0]|;
    } else if |parts| == 1 {
      assert parts[0] != [];
    }
  }

  /** A concatenation is blank exactly when both halves are. */
  lemma BlankAppend(d: Dialect, a: string, b: string)
    ensures IsBlank(d, a + b) <==> IsBlank(d, a) && IsBlank(d, b)
  {
    if IsBlank(d, a) && IsBlank(d, b) {
      forall i | 0 <= i < |a + b| ensures IsSpace(d, (a + b)[i]) {
        if i >= |a| {
          assert (a + b)[i] == b[i - |a|];
        }
      }
    }
    if IsBlank(d, a + b) {
      forall i | 0 <= i < |a| ensures IsSpace(d, a[i]) {
        assert (a + b)[i] == a[i];
      }
      forall i | 0 <= i < |b| ensures IsSpace(d, b[i]) {
        assert (a + b)[|a| + i] == b[i];
      }
    }
  }

  /** JavaScript's `s.split(sep)` for a non-empty literal separator. */
  function SplitOn(s: string, sep: string): (r: seq<string>)
    requires |sep| > 0
    ensures |r| >= 1
    ensures forall i :: 0 <= i < |r| ==> !Contains(r[i], sep)
    ensures Join(sep, r) == s
    decreases |s|
  {
    match IndexOf(s, sep)
    case None =>
      assert !Contains(s, sep);
      [s]
    case Some(i) =>
      var head := s[..i];
      var rest := SplitOn(s[i + |sep|..], sep);
      assert !Contains(head, sep) by {
        forall j: nat ensures !OccursAt(head, sep, j) {
          if OccursAt(head, sep, j) { assert s[j..j + |sep|] == head[j..j + |sep|]; assert OccursAt(s, sep, j); }
        }
      }
      assert s == head + sep + s[i + |sep|..];
      [head] + rest
  }

  /** Python's `s.replace(p, q)` and JavaScript's `s.replace(/p/g, q)` for a literal `p`: left to right, without overlaps. */
  function ReplaceAll(s: string, p: string, q: string): (r: string)
    requires |p| > 0
    decreases |s|
  {
    if |s| < |p| then s
    else if s[..|p|] == p then q + ReplaceAll(s[|p|..], p, q)
    else [s[0]] + ReplaceAll(s[1..], p, q)
  }

  /** Replacing a pattern that does not occur changes nothing. */
  lemma {:induction false} ReplaceAllAbsent(s: string, p: string, q: string)
    requires |p| > 0 && !Contains(s, p)
    ensures ReplaceAll(s, p, q) == s
    decreases |s|
  {
    if |s| >= |p| {
      assert !OccursAt(s, p, 0);
      ContainsShift(s, p);
      ReplaceAllAbsent(s[1..], p, q);
    }
  }

  /** Number of non-overlapping occurrences of `p`, counted from the left. */
  function CountOccurrences(s: string, p: string): (n: nat)
    requires |p| > 0
    ensures n * |p| <= |s|
    ensures n == 0 <==> !Contains(s, p)
    decreases |s|
  {
    if |s| < |p| then
      assert !Contains(s, p);
      0
    else if s[..|p|] == p then
      assert OccursAt(s, p, 0);
      1 + CountOccurrences(s[|p|..], p)
    else
      var n := CountOccurrences(s[1..], p);
      ContainsShift(s, p);
      n
  }

  function DigitChar(n: nat): char
    requires n < 10
  {
    ['0','1','2','3','4','5','6','7','8','9'][n]
  }

  /** Decimal rendering of a natural number, as `str(n)` / `String(n)` print it. */
  function NatToString(n: nat): (r: string)
    ensures |r| >= 1
    ensures forall i :: 0 <= i < |r| ==> IsDigit(r[i])
    ensures n < 10 <==> |r| == 1
    ensures n < 100 <==> |r| <= 2
  {
    if n < 10 then [DigitChar(n)] else NatToString(n / 10) + [DigitChar(n % 10)]
  }

  /** Reading the decimal digits back. */
  function DigitsValue(s: string): nat
    requires forall i :: 0 <= i < |s| ==> IsDigit(s[i])
  {
    if s == [] then 0
    else
      var c := s[|s| - 1];
      assert IsDigit(c);
      10 * DigitsValue(s[..|s| - 1]) + (c as int - '0' as int)
  }

  lemma {:induction false} NatToStringRoundTrip(n: nat)
    ensures DigitsValue(NatToString(n)) == n
  {
    if n >= 10 {
      NatToStringRoundTrip(n / 10);
      var r := NatToString(n);
      assert r[..|r| - 1] == NatToString(n / 10);
    }
  }

  /** `String(n)` / `str(n)` for any integer: a minus sign before the digits of a negative one. */
  function IntToString(n: int): (r: string)
    ensures r != []
    ensures n >= 0 ==> r == NatToString(n)
  {
    if n < 0 then "-" + NatToString(-n) else NatToString(n)
  }

  /** Different natural numbers render differently. */
  lemma NatToStringInjective(a: nat, b: nat)
    requires NatToString(a) == NatToString(b)
    ensures a == b
  {
    NatToStringRoundTrip(a);
    NatToStringRoundTrip(b);
  }

  /** `String(n).padStart(2, '0')` and Python's `f"{n:02d}"`. */
  function Pad2(n: nat): (r: string)
    ensures |r| >= 2
    ensures n < 100 ==> |r| == 2
    ensures forall i :: 0 <= i < |r| ==> IsDigit(r[i])
  {
    if n < 10 then ['0'] + NatToString(n) else NatToString(n)
  }

  lemma {:induction false} Pad2RoundTrip(n: nat)
    ensures DigitsValue(Pad2(n)) == n
  {
    NatToStringRoundTrip(n);
    if n < 10 {
      var r := Pad2(n);
      assert r[..|r| - 1] == "0";
      assert DigitsValue("0") == 0;
    }
  }

  /** The leading run of decimal digits of `s`. */
  function DigitPrefix(s: string): (r: string)
    ensures |r| <= |s| && r == s[..|r|]
    ensures forall i :: 0 <= i < |r| ==> IsDigit(r[i])
    ensures |r| < |s| ==> !IsDigit(s[|r|])
  {
    if s != [] && IsDigit(s[0]) then [s[0]] + DigitPrefix(s[1..]) else []
  }

  lemma {:induction false} DigitPrefixOfDigits(s: string)
    requires forall i :: 0 <= i < |s| ==> IsDigit(s[i])
    ensures DigitPrefix(s) == s
  {
    if s != [] {
      DigitPrefixOfDigits(s[1..]);
    }
  }

  /**
   * JavaScript's `parseInt(s)` in base 10: leading whitespace, an optional
   * sign, then the longest run of digits; `None` stands for `NaN`, the
   * answer when no digit follows.
   */
  function ParseInt(s: string): (r: Option<int>)
    ensures r.None? <==> DigitPrefix(UnsignedPart(TrimStart(Js, s))) == []
  {
    var t := TrimStart(Js, s);
    var digits := DigitPrefix(UnsignedPart(t));
    var magnitude: int := DigitsValue(digits);
    if digits == [] then None
    else if t[0] == '-' then Some(-magnitude)
    else Some(magnitude)
  }

  /** What follows an optional leading `+` or `-`. */
  function UnsignedPart(t: string): (r: string)
    ensures t != [] && (t[0] == '-' || t[0] == '+') ==> r == t[1..]
    ensures t == [] || (t[0] != '-' && t[0] != '+') ==> r == t
  {
    if t != [] && (t[0] == '-' || t[0] == '+') then t[1..] else t
  }

  /** Reading back what `String(n)` writes gives `n`. */
  lemma ParseIntRoundTrip(n: int)
    ensures ParseInt(IntToString(n)) == Some(n)
  {
    var s := IntToString(n);
    var digits := NatToString(if n < 0 then -n else n);
    assert TrimStart(Js, s) == s by {
      assert !IsSpace(Js, s[0]) by {
        if n >= 0 { assert IsDigit(s[0]); }
      }
    }
    assert UnsignedPart(s) == digits by {
      if n >= 0 { assert IsDigit(s[0]); }
    }
    DigitPrefixOfDigits(digits);
    NatToStringRoundTrip(if n < 0 then -n else n);
  }

  /**
   * `parseInt(text) || fallback`, the numeric inputs' idiom: `NaN` and `0`
   * are both falsy, so both give the fallback.
   */
  function NumberOr(text: string, fallback: int): (r: int)
    ensures ParseInt(text).Some? && ParseInt(text).value != 0 ==> r == ParseInt(text).value
    ensures ParseInt(text).None? || ParseInt(text).value == 0 ==> r == fallback
  {
    match ParseInt(text)
    case Some(v) => if v != 0 then v else fallback
    case None => fallback
  }

  /** A typed non-zero number is kept; a typed zero, like an unreadable entry, becomes the fallback. */
  lemma NumberOrTyped(n: int, fallback: int)
    ensures NumberOr(IntToString(n), fallback) == if n == 0 then fallback else n
  {
    ParseIntRoundTrip(n);
  }
}
