/**
 * `findRelevantChunks` (`components/LearningSession.tsx`): rank transcript
 * chunks by how often the keywords of a chat message occur in them, with a
 * small bonus for coming early, and keep the best few.
 *
 * A score is `matches + (chunks.length - index) * 0.1` in the source; here
 * it is that number times ten, `10 * matches + (chunks.length - index)`,
 * which orders chunks the same way in exact arithmetic.
 */
module ChunkRanking {
  import opened Text

  // ---------------------------------------------------------------------
  // Keywords
  // ---------------------------------------------------------------------

  /** Words that never count as keywords. */
  const StopWords: set<string> := {"what", "when", "where", "who", "why", "how", "this", "that", "the", "and", "for", "are"}

  /** `word.replace(/[^\w]/g, '')`: only the word characters, in order. */
  function WordChars(w: string): (r: string)
    ensures |r| <= |w|
    ensures forall i :: 0 <= i < |r| ==> IsWordChar(r[i])
  {
    if w == [] then []
    else (if IsWordChar(w[0]) then [w[0]] else []) + WordChars(w[1..])
  }

  /** A token longer than three characters that is not a stop word. */
  predicate IsKeywordToken(w: string)
  {
    |w| > 3 && w !in StopWords
  }

  /** `.filter(word => word.length > 3 && !stopWords.has(word)).map(word => word.replace(/[^\w]/g, ''))` */
  function KeywordsOf(words: seq<string>): (r: seq<string>)
    ensures |r| <= |words|
  {
    if words == [] then []
    else (if IsKeywordToken(words[0]) then [WordChars(words[0])] else []) + KeywordsOf(words[1..])
  }

  /**
   * `message.toLowerCase().split(/\s+/)` and then the filter and map: the
   * pieces the split yields beyond the whitespace-separated words are empty
   * strings, which the length filter drops.
   */
  function Keywords(message: string): seq<string>
  {
    KeywordsOf(Words(Js, Lower(message)))
  }

  /** A keyword is exactly the word characters of a lower-cased token of the message that passes the filter. */
  lemma {:induction false} KeywordsOfMembers(words: seq<string>, k: string)
    ensures k in KeywordsOf(words) <==> exists w :: w in words && IsKeywordToken(w) && k == WordChars(w)
  {
    if words != [] {
      KeywordsOfMembers(words[1..], k);
      var head := if IsKeywordToken(words[0]) then [WordChars(words[0])] else [];
      assert KeywordsOf(words) == head + KeywordsOf(words[1..]);
      if exists w :: w in words && IsKeywordToken(w) && k == WordChars(w) {
        var w :| w in words && IsKeywordToken(w) && k == WordChars(w);
        if w != words[0] {
          assert w in words[1..];
        }
      }
      assert forall w :: w in words[1..] ==> w in words;
    }
  }

  lemma KeywordsMembers(message: string, k: string)
    ensures k in Keywords(message) <==>
      exists w :: w in Words(Js, Lower(message)) && IsKeywordToken(w) && k == WordChars(w)
  {
    KeywordsOfMembers(Words(Js, Lower(message)), k);
  }

  // ---------------------------------------------------------------------
  // Scores
  // ---------------------------------------------------------------------

  /**
   * `(chunkLower.match(new RegExp(keyword, 'g')) || []).length`. A keyword
   * holds only word characters, so the pattern is the keyword itself; the
   * empty pattern matches at every position, `|s| + 1` times.
   */
  function Matches(s: string, keyword: string): (r: nat)
    ensures keyword != [] ==> r * |keyword| <= |s|
    ensures keyword != [] ==> (r == 0 <==> !Contains(s, keyword))
    ensures keyword == [] ==> r == |s| + 1
  {
    if keyword == [] then |s| + 1 else CountOccurrences(s, keyword)
  }

  /** The matches of all keywords, added up. */
  function TotalMatches(s: string, keywords: seq<string>): nat
  {
    if keywords == [] then 0
    else TotalMatches(s, keywords[..|keywords| - 1]) + Matches(s, keywords[|keywords| - 1])
  }

  /** An entry of `scoredChunks`. */
  datatype Scored = Scored(chunk: string, score: int, index: nat)

  /** Ten times the score of the chunk at `index` among `count` chunks. */
  function Score(chunk: string, keywords: seq<string>, count: int, index: int): int
  {
    10 * TotalMatches(Lower(chunk), keywords) + (count - index)
  }

  /** `chunks.map((chunk, index) => ({ chunk, score, index }))` */
  function ScoredChunks(chunks: seq<string>, keywords: seq<string>): (r: seq<Scored>)
    ensures |r| == |chunks|
    ensures forall i :: 0 <= i < |r| ==> r[i] == Scored(chunks[i], Score(chunks[i], keywords, |chunks|, i), i)
  {
    seq(|chunks|, i requires 0 <= i < |chunks| => Scored(chunks[i], Score(chunks[i], keywords, |chunks|, i), i))
  }

  /** An earlier chunk with at least as many matches scores strictly higher. */
  lemma EarlierScoresHigher(chunks: seq<string>, keywords: seq<string>, i: nat, j: nat)
    requires i < j < |chunks|
    requires TotalMatches(Lower(chunks[i]), keywords) >= TotalMatches(Lower(chunks[j]), keywords)
    ensures ScoredChunks(chunks, keywords)[i].score > ScoredChunks(chunks, keywords)[j].score
  {
  }

  /** The `forEach` over the keywords that adds up `score`, then the positional bonus. */
  method ScoreChunk(chunk: string, keywords: seq<string>, count: int, index: int) returns (score: int)
    ensures score == Score(chunk, keywords, count, index)
  {
    var chunkLower := Lower(chunk);
    var matches := 0;
    var j := 0;
    while j < |keywords|
      invariant 0 <= j <= |keywords|
      invariant matches == TotalMatches(chunkLower, keywords[..j])
    {
      assert keywords[..j + 1][..j] == keywords[..j];
      matches := matches + Matches(chunkLower, keywords[j]);
      j := j + 1;
    }
    assert keywords[..j] == keywords;
    score := 10 * matches + (count - index);
  }

  // ---------------------------------------------------------------------
  // The sort
  // ---------------------------------------------------------------------

  /**
   * The order `scoredChunks.sort((a, b) => b.score - a.score)` leaves: the
   * sort is stable, so among equal scores the earlier chunk stays first.
   */
  predicate Before(a: Scored, b: Scored)
  {
    a.score > b.score || (a.score == b.score && a.index < b.index)
  }

  predicate Ranked(s: seq<Scored>)
  {
    forall p, q :: 0 <= p < q < |s| ==> Before(s[p], s[q])
  }

  /** Positions in increasing order, as `chunks.map` produces them. */
  predicate IndexOrdered(s: seq<Scored>)
  {
    forall p, q :: 0 <= p < q < |s| ==> s[p].index < s[q].index
  }

  /** The texts of the entries. */
  function Texts(s: seq<Scored>): (r: seq<string>)
    ensures |r| == |s|
    ensures forall p :: 0 <= p < |s| ==> r[p] == s[p].chunk
  {
    seq(|s|, p requires 0 <= p < |s| => s[p].chunk)
  }

  /** Insert `x` after every entry whose score is at least its own. */
  function InsertByScore(x: Scored, s: seq<Scored>): (r: seq<Scored>)
    ensures |r| == |s| + 1
    ensures multiset(r) == multiset(s) + multiset{x}
  {
    if s == [] then [x]
    else if s[0].score < x.score then [x] + s
    else
      assert s == [s[0]] + s[1..];
      [s[0]] + InsertByScore(x, s[1..])
  }

  /**
   * A stable sort by descending score: the result of the library sort, not
   * the engine's algorithm.
   */
  function SortByScore(s: seq<Scored>): (r: seq<Scored>)
    ensures |r| == |s|
    ensures multiset(r) == multiset(s)
  {
    if s == [] then []
    else
      assert s == s[..|s| - 1] + [s[|s| - 1]];
      InsertByScore(s[|s| - 1], SortByScore(s[..|s| - 1]))
  }

  lemma TextsCons(a: Scored, s: seq<Scored>)
    ensures multiset(Texts([a] + s)) == multiset{a.chunk} + multiset(Texts(s))
  {
    assert Texts([a] + s) == [a.chunk] + Texts(s);
  }

  lemma {:induction false} InsertByScoreTexts(x: Scored, s: seq<Scored>)
    ensures multiset(Texts(InsertByScore(x, s))) == multiset(Texts(s)) + multiset{x.chunk}
  {
    if s == [] {
      assert Texts([x]) == [x.chunk];
    } else if s[0].score < x.score {
      TextsCons(x, s);
    } else {
      var rest := InsertByScore(x, s[1..]);
      InsertByScoreTexts(x, s[1..]);
      TextsCons(s[0], rest);
      TextsCons(s[0], s[1..]);
      assert s == [s[0]] + s[1..];
    }
  }

  /** Inserting an entry with a later position than all others keeps the ranking. */
  lemma {:induction false} InsertByScoreRanked(x: Scored, s: seq<Scored>)
    requires Ranked(s) && forall k :: 0 <= k < |s| ==> s[k].index < x.index
    ensures Ranked(InsertByScore(x, s))
  {
    var r := InsertByScore(x, s);
    if s == [] {
    } else if s[0].score < x.score {
      assert r == [x] + s;
      forall p, q | 0 <= p < q < |r| ensures Before(r[p], r[q]) {
        if p == 0 && q > 1 {
          assert Before(s[0], s[q - 1]);
        }
      }
    } else {
      var t := s[1..];
      var rest := InsertByScore(x, t);
      assert r == [s[0]] + rest;
      InsertByScoreRanked(x, t);
      forall p, q | 0 <= p < q < |r| ensures Before(r[p], r[q]) {
        if p == 0 {
          FirstBeforeRest(x, s, q - 1);
        } else {
          assert r[p] == rest[p - 1] && r[q] == rest[q - 1];
        }
      }
    }
  }

  /** The entry that stays in front comes before everything after it. */
  lemma FirstBeforeRest(x: Scored, s: seq<Scored>, q: nat)
    requires Ranked(s) && s != [] && s[0].score >= x.score && s[0].index < x.index
    requires q < |s|
    ensures Before(s[0], InsertByScore(x, s[1..])[q])
  {
    var t := s[1..];
    var e := InsertByScore(x, t)[q];
    assert e in multiset(InsertByScore(x, t));
    if e != x {
      assert e in multiset(t);
      var k :| 0 <= k < |t| && t[k] == e;
      assert Before(s[0], s[k + 1]);
    }
  }

  /** The sort ranks entries whose positions increase. */
  lemma {:induction false} SortByScoreRanked(s: seq<Scored>)
    requires IndexOrdered(s)
    ensures Ranked(SortByScore(s))
  {
    if s != [] {
      var init, last := s[..|s| - 1], s[|s| - 1];
      assert IndexOrdered(init);
      SortByScoreRanked(init);
      var sorted := SortByScore(init);
      forall k | 0 <= k < |sorted| ensures sorted[k].index < last.index {
        assert sorted[k] in multiset(init);
        var k' :| 0 <= k' < |init| && init[k'] == sorted[k];
      }
      InsertByScoreRanked(last, sorted);
    }
  }

  /** The sort keeps the chunk texts, as a multiset. */
  lemma {:induction false} SortByScoreTexts(s: seq<Scored>)
    ensures multiset(Texts(SortByScore(s))) == multiset(Texts(s))
  {
    if s != [] {
      var init, last := s[..|s| - 1], s[|s| - 1];
      var sorted := SortByScore(init);
      calc {
        multiset(Texts(SortByScore(s)));
        { assert SortByScore(s) == InsertByScore(last, sorted); }
        multiset(Texts(InsertByScore(last, sorted)));
        { InsertByScoreTexts(last, sorted); }
        multiset(Texts(sorted)) + multiset{last.chunk};
        { SortByScoreTexts(init); }
        multiset(Texts(init)) + multiset{last.chunk};
        { TextsSnoc(init, last); }
        multiset(Texts(init + [last]));
        { assert init + [last] == s; }
        multiset(Texts(s));
      }
    }
  }

  lemma TextsSnoc(s: seq<Scored>, x: Scored)
    ensures multiset(Texts(s + [x])) == multiset(Texts(s)) + multiset{x.chunk}
  {
    var r := Texts(s + [x]);
    assert forall p :: 0 <= p < |r| ==> r[p] == (Texts(s) + [x.chunk])[p];
    assert r == Texts(s) + [x.chunk];
  }

  // ---------------------------------------------------------------------
  // findRelevantChunks
  // ---------------------------------------------------------------------

  /** How many elements `slice(0, k)` keeps of `n`: a negative `k` counts from the end. */
  function SliceCount(n: nat, k: int): (m: nat)
    ensures m <= n
    ensures k >= 0 ==> m == (if k < n then k else n)
    ensures k < 0 ==> m == (if n + k > 0 then n + k else 0)
  {
    if k >= 0 then (if k < n then k else n) else (if n + k > 0 then n + k else 0)
  }

  /** What is kept of more than `maxChunks` chunks: the first ones without keywords, else the best-ranked ones. */
  function SelectChunks(chunks: seq<string>, keywords: seq<string>, maxChunks: int): seq<string>
  {
    var m := SliceCount(|chunks|, maxChunks);
    if keywords == [] then chunks[..m]
    else Texts(SortByScore(ScoredChunks(chunks, keywords))[..m])
  }

  /** `findRelevantChunks(chunks, message, maxChunks)` */
  function RelevantChunks(chunks: seq<string>, message: string, maxChunks: int): seq<string>
  {
    if |chunks| == 0 then []
    else if |chunks| <= maxChunks then chunks
    else SelectChunks(chunks, Keywords(message), maxChunks)
  }

  method FindRelevantChunks(chunks: seq<string>, message: string, maxChunks: int) returns (r: seq<string>)
    ensures r == RelevantChunks(chunks, message, maxChunks)
  {
    if |chunks| == 0 {
      return [];
    }
    if |chunks| <= maxChunks {
      return chunks;
    }
    var keywords := Keywords(message);
    var m := SliceCount(|chunks|, maxChunks);
    if keywords == [] {
      return chunks[..m];
    }
    var scoredChunks := ScoreChunks(chunks, keywords);
    scoredChunks := SortByScore(scoredChunks);
    r := Texts(scoredChunks[..m]);
  }

  /** `chunks.map(...)`: each chunk with its score and position. */
  method ScoreChunks(chunks: seq<string>, keywords: seq<string>) returns (scoredChunks: seq<Scored>)
    ensures scoredChunks == ScoredChunks(chunks, keywords)
  {
    scoredChunks := [];
    var i := 0;
    while i < |chunks|
      invariant 0 <= i <= |chunks|
      invariant scoredChunks == ScoredChunks(chunks, keywords)[..i]
    {
      var score := ScoreChunk(chunks[i], keywords, |chunks|, i);
      scoredChunks := scoredChunks + [Scored(chunks[i], score, i)];
      i := i + 1;
    }
  }

  /** No chunks give none; at most `maxChunks` chunks come back unchanged. */
  lemma RelevantFew(chunks: seq<string>, message: string, maxChunks: int)
    requires |chunks| <= maxChunks || chunks == []
    ensures RelevantChunks(chunks, message, maxChunks) == chunks
  {
  }

  /** A message without keywords keeps the first chunks. */
  lemma RelevantNoKeywords(chunks: seq<string>, message: string, maxChunks: int)
    requires Keywords(message) == []
    ensures RelevantChunks(chunks, message, maxChunks) == chunks[..SliceCount(|chunks|, maxChunks)]
  {
  }

  /**
   * With keywords, the chunks kept are the texts of the first entries of a
   * stable ranking of all chunks by score: every kept entry comes before
   * every dropped one (a higher score, or the same score and an earlier
   * position).
   */
  lemma SelectRanked(chunks: seq<string>, keywords: seq<string>, maxChunks: int)
    requires keywords != []
    ensures var scored := ScoredChunks(chunks, keywords);
      var ranked := SortByScore(scored);
      var m := SliceCount(|chunks|, maxChunks);
      && multiset(ranked) == multiset(scored) && Ranked(ranked)
      && SelectChunks(chunks, keywords, maxChunks) == Texts(ranked[..m])
      && forall p, q :: 0 <= p < m <= q < |ranked| ==> Before(ranked[p], ranked[q])
  {
    SortByScoreRanked(ScoredChunks(chunks, keywords));
  }

  /** The selection has `SliceCount` chunks, each from a different input position. */
  lemma SelectCount(chunks: seq<string>, keywords: seq<string>, maxChunks: int)
    ensures var r := SelectChunks(chunks, keywords, maxChunks);
      |r| == SliceCount(|chunks|, maxChunks) && multiset(r) <= multiset(chunks)
  {
    var m := SliceCount(|chunks|, maxChunks);
    if keywords == [] {
      assert chunks == chunks[..m] + chunks[m..];
    } else {
      var scored := ScoredChunks(chunks, keywords);
      var ranked := SortByScore(scored);
      SortByScoreTexts(scored);
      assert Texts(scored) == chunks;
      assert Texts(ranked) == Texts(ranked[..m]) + Texts(ranked[m..]);
    }
  }

  /** The result has `min(maxChunks, |chunks|)` chunks (for `maxChunks >= 0`), each taken from a different input position. */
  lemma RelevantCount(chunks: seq<string>, message: string, maxChunks: int)
    ensures var r := RelevantChunks(chunks, message, maxChunks);
      && |r| == (if |chunks| <= maxChunks then |chunks| else SliceCount(|chunks|, maxChunks))
      && multiset(r) <= multiset(chunks)
  {
    if chunks != [] && |chunks| > maxChunks {
      SelectCount(chunks, Keywords(message), maxChunks);
    }
  }

  /**
   * Earlier chunks win: if a later chunk is kept, an earlier one with at
   * least as many keyword matches is kept as well.
   */
  lemma SelectEarlierWins(chunks: seq<string>, keywords: seq<string>, maxChunks: int, i: nat, j: nat)
    requires keywords != [] && i < j < |chunks|
    requires TotalMatches(Lower(chunks[i]), keywords) >= TotalMatches(Lower(chunks[j]), keywords)
    ensures var scored := ScoredChunks(chunks, keywords);
      var kept := SortByScore(scored)[..SliceCount(|chunks|, maxChunks)];
      scored[j] in kept ==> scored[i] in kept
  {
    var scored := ScoredChunks(chunks, keywords);
    var ranked := SortByScore(scored);
    var m := SliceCount(|chunks|, maxChunks);
    SelectRanked(chunks, keywords, maxChunks);
    EarlierScoresHigher(chunks, keywords, i, j);
    if scored[j] in ranked[..m] {
      var p :| 0 <= p < m && ranked[p] == scored[j];
      assert scored[i] in multiset(ranked);
      var q :| 0 <= q < |ranked| && ranked[q] == scored[i];
      assert ranked[..m][q] == scored[i];
    }
  }
}
