/** `LexicalRetriever`: BM25 ranking of a document's chunks against the
    user's question. Scores are real numbers and the natural logarithm is a
    parameter, so the model fixes the structure of the computation (what is
    counted, which terms contribute, filtering, ordering, truncation) rather
    than floating-point values. */
module LexicalRetriever {
  import opened Wrappers
  import opened JavaStrings
  import opened Domain

  const K1: real := 1.5
  const B: real := 0.75

  // ---------------------------------------------------------------------
  // Tokens.

  /** The characters `split("[^a-z0-9]+")` keeps together. */
  predicate IsTokenChar(c: char) {
    'a' <= c <= 'z' || '0' <= c <= '9'
  }

  predicate AllTokenChars(s: string) {
    forall i :: 0 <= i < |s| ==> IsTokenChar(s[i])
  }

  function Flush(part: string): seq<string> {
    if part == "" then [] else [part]
  }

  /** The non-blank parts of splitting `part + s` at runs of other
      characters, where `part` is the run read so far. */
  function Scan(s: string, part: string): seq<string>
    decreases |s|
  {
    if |s| == 0 then Flush(part)
    else if IsTokenChar(s[0]) then Scan(s[1..], part + [s[0]])
    else Flush(part) + Scan(s[1..], "")
  }

  /** The tokens of a text: none for a null or blank text, otherwise the
      maximal runs of `[a-z0-9]` of the lower-cased text. */
  function Tokens(text: Option<string>): seq<string> {
    if text.None? || IsBlank(text.value) then [] else Scan(AsciiLowerString(text.value), "")
  }

  /** `tokenize`: the split of the lower-cased text, read character by
      character, keeping the non-blank parts. */
  method Tokenize(text: Option<string>) returns (tokens: seq<string>)
    ensures tokens == Tokens(text)
  {
    if text.None? || IsBlank(text.value) {
      return [];
    }
    var lower := AsciiLowerString(text.value);
    tokens := [];
    var part := "";
    for i := 0 to |lower|
      invariant tokens + Scan(lower[i..], part) == Scan(lower, "")
    {
      assert lower[i..][1..] == lower[i + 1..];
      if IsTokenChar(lower[i]) {
        part := part + [lower[i]];
      } else {
        tokens := tokens + Flush(part);
        part := "";
      }
    }
    assert lower[|lower|..] == [];
    tokens := tokens + Flush(part);
  }

  /** Every token is a non-empty run of `[a-z0-9]`. */
  lemma {:induction false} ScanTokensWellFormed(s: string, part: string)
    requires AllTokenChars(part)
    ensures forall k :: 0 <= k < |Scan(s, part)| ==> |Scan(s, part)[k]| > 0 && AllTokenChars(Scan(s, part)[k])
    decreases |s|
  {
    if |s| > 0 {
      if IsTokenChar(s[0]) {
        ScanTokensWellFormed(s[1..], part + [s[0]]);
      } else {
        ScanTokensWellFormed(s[1..], "");
      }
    }
  }

  function Concat(ss: seq<string>): string {
    if |ss| == 0 then "" else ss[0] + Concat(ss[1..])
  }

  lemma {:induction false} ConcatAppend(a: seq<string>, b: seq<string>)
    ensures Concat(a + b) == Concat(a) + Concat(b)
  {
    if |a| > 0 {
      assert (a + b)[1..] == a[1..] + b;
      ConcatAppend(a[1..], b);
    } else {
      assert a + b == b;
    }
  }

  /** The characters `[a-z0-9]` of `s`, in order. */
  function TokenChars(s: string): string {
    if |s| == 0 then "" else (if IsTokenChar(s[0]) then [s[0]] else "") + TokenChars(s[1..])
  }

  /** Splitting loses no token character and invents none: the tokens,
      joined, are exactly the `[a-z0-9]` characters of the text. */
  lemma {:induction false} ScanKeepsTokenChars(s: string, part: string)
    ensures Concat(Scan(s, part)) == part + TokenChars(s)
    decreases |s|
  {
    if |s| == 0 {
      assert Concat(Flush(part)) == part by {
        if part != "" {
          assert Concat([part]) == part + Concat([]);
        }
      }
    } else if IsTokenChar(s[0]) {
      ScanKeepsTokenChars(s[1..], part + [s[0]]);
    } else {
      ScanKeepsTokenChars(s[1..], "");
      ConcatAppend(Flush(part), Scan(s[1..], ""));
      assert Concat(Flush(part)) == part by {
        if part != "" {
          assert Concat([part]) == part + Concat([]);
        }
      }
    }
  }

  /** The tokens of any text are non-empty, lower-case `[a-z0-9]` runs that
      together hold every letter and digit of the lower-cased text. */
  lemma {:induction false} TokensProperties(text: Option<string>)
    ensures forall k :: 0 <= k < |Tokens(text)| ==> |Tokens(text)[k]| > 0 && AllTokenChars(Tokens(text)[k])
    ensures text.Some? && !IsBlank(text.value) ==> Concat(Tokens(text)) == TokenChars(AsciiLowerString(text.value))
    ensures text.None? || IsBlank(text.value) ==> Tokens(text) == []
  {
    if text.Some? && !IsBlank(text.value) {
      ScanTokensWellFormed(AsciiLowerString(text.value), "");
      ScanKeepsTokenChars(AsciiLowerString(text.value), "");
    }
  }

  // ---------------------------------------------------------------------
  // Term and document frequencies.

  /** How often `t` occurs in `doc`. */
  function CountIn(doc: seq<string>, t: string): nat {
    if |doc| == 0 then 0 else CountIn(doc[..|doc| - 1], t) + (if doc[|doc| - 1] == t then 1 else 0)
  }

  /** The term-frequency map of one chunk: each of its tokens with its count. */
  function TermCounts(doc: seq<string>): map<string, nat> {
    map t | t in doc :: CountIn(doc, t)
  }

  /** The number of chunks that contain `t`. */
  function DocFreq(docs: seq<seq<string>>, t: string): nat {
    if |docs| == 0 then 0 else DocFreq(docs[..|docs| - 1], t) + (if t in docs[|docs| - 1] then 1 else 0)
  }

  function Elements(doc: seq<string>): set<string> {
    set t | t in doc
  }

  function Vocabulary(docs: seq<seq<string>>): set<string> {
    if |docs| == 0 then {} else Vocabulary(docs[..|docs| - 1]) + Elements(docs[|docs| - 1])
  }

  /** The document-frequency map: each token of any chunk with the number of
      chunks it occurs in. */
  function DocFreqs(docs: seq<seq<string>>): map<string, nat> {
    map t | t in Vocabulary(docs) :: DocFreq(docs, t)
  }

  function TotalTokens(docs: seq<seq<string>>): nat {
    if |docs| == 0 then 0 else TotalTokens(docs[..|docs| - 1]) + |docs[|docs| - 1]|
  }

  /** The tokens of each chunk's text. */
  function TokenizedChunks(chunks: seq<TextChunk>): (docs: seq<seq<string>>)
    ensures |docs| == |chunks|
  {
    seq(|chunks|, i requires 0 <= i < |chunks| => Tokens(Some(chunks[i].text)))
  }

  lemma {:induction false} TokenizedChunksStep(chunks: seq<TextChunk>, i: nat)
    requires i < |chunks|
    ensures TokenizedChunks(chunks[..i + 1]) == TokenizedChunks(chunks[..i]) + [Tokens(Some(chunks[i].text))]
  {
    assert chunks[..i + 1][i] == chunks[i];
  }

  /** A document frequency counts each chunk once, so it never exceeds the
      number of chunks, and it is positive exactly for the vocabulary. */
  lemma {:induction false} DocFreqBounded(docs: seq<seq<string>>, t: string)
    ensures DocFreq(docs, t) <= |docs|
    ensures DocFreq(docs, t) > 0 <==> t in Vocabulary(docs)
  {
    if |docs| > 0 {
      DocFreqBounded(docs[..|docs| - 1], t);
    }
  }

  lemma {:induction false} TermCountsStep(doc: seq<string>, j: nat)
    requires j < |doc|
    ensures TermCounts(doc[..j + 1])
         == TermCounts(doc[..j])[doc[j] := (if doc[j] in TermCounts(doc[..j]) then TermCounts(doc[..j])[doc[j]] else 0) + 1]
  {
    var before := doc[..j];
    var after := doc[..j + 1];
    assert after[..j] == before;
    assert forall t :: t in after <==> t in before || t == doc[j];
    CountInAbsent(before, doc[j]);
  }

  lemma {:induction false} ElementsStep(doc: seq<string>, j: nat)
    requires j < |doc|
    ensures Elements(doc[..j + 1]) == Elements(doc[..j]) + {doc[j]}
  {
    assert doc[..j + 1] == doc[..j] + [doc[j]];
  }

  lemma {:induction false} CountInAbsent(doc: seq<string>, t: string)
    ensures t !in doc <==> CountIn(doc, t) == 0
  {
    if |doc| > 0 {
      CountInAbsent(doc[..|doc| - 1], t);
      assert doc == doc[..|doc| - 1] + [doc[|doc| - 1]];
    }
  }

  /** The document-frequency map while a chunk's tokens are being read: the
      counts over the finished chunks, plus one for each token already seen
      in the current chunk. */
  function PartialDocFreqs(done: seq<seq<string>>, seen: set<string>): map<string, nat> {
    map t | t in Vocabulary(done) + seen :: DocFreq(done, t) + (if t in seen then 1 else 0)
  }

  lemma {:induction false} PartialDocFreqsStep(done: seq<seq<string>>, seen: set<string>, t: string)
    requires t !in seen
    ensures var df := PartialDocFreqs(done, seen);
      PartialDocFreqs(done, seen + {t}) == df[t := (if t in df then df[t] else 0) + 1]
  {
    DocFreqBounded(done, t);
  }

  lemma {:induction false} PartialDocFreqsDone(done: seq<seq<string>>, doc: seq<string>)
    ensures PartialDocFreqs(done, Elements(doc)) == DocFreqs(done + [doc])
  {
    assert (done + [doc])[..|done|] == done;
  }

  /** The body of the first loop of `retrieveTopChunks` for one chunk's
      tokens: count each term, and add one to the document frequency of
      each term the first time it is seen in this chunk. */
  method CountTerms(tokens: seq<string>, ghost done: seq<seq<string>>, df0: map<string, nat>)
    returns (tf: map<string, nat>, df: map<string, nat>)
    requires df0 == DocFreqs(done)
    ensures tf == TermCounts(tokens)
    ensures df == DocFreqs(done + [tokens])
  {
    tf := map[];
    df := df0;
    var seen: set<string> := {};
    assert df == PartialDocFreqs(done, seen);
    for j := 0 to |tokens|
      invariant tf == TermCounts(tokens[..j])
      invariant seen == Elements(tokens[..j])
      invariant df == PartialDocFreqs(done, seen)
    {
      var token := tokens[j];
      TermCountsStep(tokens, j);
      tf := tf[token := (if token in tf then tf[token] else 0) + 1];
      ElementsStep(tokens, j);
      if token !in seen {
        PartialDocFreqsStep(done, seen, token);
        df := df[token := (if token in df then df[token] else 0) + 1];
        seen := seen + {token};
      }
    }
    assert tokens[..|tokens|] == tokens;
    PartialDocFreqsDone(done, tokens);
  }

  /** The first loop of `retrieveTopChunks`: tokenize every chunk, count its
      terms, count each term once per chunk it occurs in, and add up the
      chunk lengths. */
  method IndexChunks(chunks: seq<TextChunk>)
    returns (tokenized: seq<seq<string>>, termFrequencies: seq<map<string, nat>>,
             docFrequencies: map<string, nat>, totalTokens: nat)
    ensures tokenized == TokenizedChunks(chunks)
    ensures |termFrequencies| == |chunks|
    ensures forall i :: 0 <= i < |chunks| ==> termFrequencies[i] == TermCounts(tokenized[i])
    ensures docFrequencies == DocFreqs(tokenized)
    ensures totalTokens == TotalTokens(tokenized)
  {
    tokenized := [];
    termFrequencies := [];
    docFrequencies := map[];
    totalTokens := 0;
    for i := 0 to |chunks|
      invariant tokenized == TokenizedChunks(chunks[..i])
      invariant |termFrequencies| == i
      invariant forall k :: 0 <= k < i ==> termFrequencies[k] == TermCounts(tokenized[k])
      invariant docFrequencies == DocFreqs(tokenized)
      invariant totalTokens == TotalTokens(tokenized)
    {
      var tokens := Tokenize(Some(chunks[i].text));
      var tf;
      tf, docFrequencies := CountTerms(tokens, tokenized, docFrequencies);
      ghost var done := tokenized;
      tokenized := tokenized + [tokens];
      assert tokenized[..i] == done;
      totalTokens := totalTokens + |tokens|;
      termFrequencies := termFrequencies + [tf];
      TokenizedChunksStep(chunks, i);
    }
    assert chunks[..|chunks|] == chunks;
  }

  // ---------------------------------------------------------------------
  // BM25.

  /** One query term's BM25 contribution, with `ln` for `Math.log`. */
  function Term(tf: nat, df: nat, docLength: nat, avgDocLength: real, docCount: nat, ln: real -> real): real
    requires avgDocLength > 0.0
  {
    var idf := ln(1.0 + ((docCount - df) as real + 0.5) / (df as real + 0.5));
    var numerator := tf as real * (K1 + 1.0);
    var ratio := docLength as real / avgDocLength;
    assert ratio >= 0.0;
    var denominator := tf as real + K1 * (1.0 - B + B * ratio);
    idf * (numerator / denominator)
  }

  /** A token missing from the chunk's term frequencies, or counted zero
      times, contributes nothing. */
  function Contribution(t: string, tf: map<string, nat>, df: map<string, nat>, docLength: nat,
                        avgDocLength: real, docCount: nat, ln: real -> real): real
    requires avgDocLength > 0.0
  {
    if t !in tf || tf[t] == 0 then 0.0
    else Term(tf[t], if t in df then df[t] else 0, docLength, avgDocLength, docCount, ln)
  }

  function SumContributions(query: seq<string>, tf: map<string, nat>, df: map<string, nat>, docLength: nat,
                            avgDocLength: real, docCount: nat, ln: real -> real): real
    requires avgDocLength > 0.0
  {
    if |query| == 0 then 0.0
    else SumContributions(query[..|query| - 1], tf, df, docLength, avgDocLength, docCount, ln)
         + Contribution(query[|query| - 1], tf, df, docLength, avgDocLength, docCount, ln)
  }

  /** The score of one chunk: 0 for an empty query, an empty chunk or no
      chunks, otherwise the sum of the query tokens' contributions. */
  function Bm25(query: seq<string>, tf: map<string, nat>, df: map<string, nat>, docLength: nat,
                avgDocLength: real, docCount: nat, ln: real -> real): real
    requires docLength > 0 ==> avgDocLength > 0.0
  {
    if |query| == 0 || docLength == 0 || docCount == 0 then 0.0
    else SumContributions(query, tf, df, docLength, avgDocLength, docCount, ln)
  }

  /** `bm25Score`. */
  method Bm25Score(queryTokens: seq<string>, tf: map<string, nat>, df: map<string, nat>, docLength: nat,
                   avgDocLength: real, docCount: nat, ln: real -> real)
    returns (score: real)
    requires docLength > 0 ==> avgDocLength > 0.0
    ensures score == Bm25(queryTokens, tf, df, docLength, avgDocLength, docCount, ln)
  {
    if |queryTokens| == 0 || docLength == 0 || docCount == 0 {
      return 0.0;
    }
    score := 0.0;
    for i := 0 to |queryTokens|
      invariant score == SumContributions(queryTokens[..i], tf, df, docLength, avgDocLength, docCount, ln)
    {
      var token := queryTokens[i];
      assert queryTokens[..i + 1][..i] == queryTokens[..i];
      if token !in tf || tf[token] == 0 {
        continue;
      }
      var docFrequency := if token in df then df[token] else 0;
      var idf := ln(1.0 + ((docCount - docFrequency) as real + 0.5) / (docFrequency as real + 0.5));
      var numerator := tf[token] as real * (K1 + 1.0);
      var ratio := docLength as real / avgDocLength;
      var denominator := tf[token] as real + K1 * (1.0 - B + B * ratio);
      score := score + idf * (numerator / denominator);
    }
    assert queryTokens[..|queryTokens|] == queryTokens;
  }

  /** The query tokens the chunk contains. */
  function PresentIn(query: seq<string>, tf: map<string, nat>): seq<string> {
    if |query| == 0 then []
    else PresentIn(query[..|query| - 1], tf) + (if query[|query| - 1] in tf && tf[query[|query| - 1]] > 0 then [query[|query| - 1]] else [])
  }

  /** Query tokens absent from the chunk contribute nothing: the sum over
      the query equals the sum over the tokens the chunk contains. */
  lemma {:induction false} AbsentTokensContributeNothing(query: seq<string>, tf: map<string, nat>, df: map<string, nat>,
                                                         docLength: nat, avgDocLength: real, docCount: nat, ln: real -> real)
    requires avgDocLength > 0.0
    ensures SumContributions(query, tf, df, docLength, avgDocLength, docCount, ln)
         == SumContributions(PresentIn(query, tf), tf, df, docLength, avgDocLength, docCount, ln)
  {
    if |query| > 0 {
      var init := query[..|query| - 1];
      var t := query[|query| - 1];
      AbsentTokensContributeNothing(init, tf, df, docLength, avgDocLength, docCount, ln);
      assert query[..|query| - 1] == init;
      if t in tf && tf[t] > 0 {
        var p := PresentIn(query, tf);
        assert p == PresentIn(init, tf) + [t];
        assert p[..|p| - 1] == PresentIn(init, tf);
        assert p[|p| - 1] == t;
      } else {
        assert PresentIn(query, tf) == PresentIn(init, tf);
        assert Contribution(t, tf, df, docLength, avgDocLength, docCount, ln) == 0.0;
      }
    }
  }

  /** With a logarithm that is positive above 1, a term present in the
      chunk and in at most `docCount` chunks adds a positive amount. */
  lemma {:induction false} TermPositive(tf: nat, df: nat, docLength: nat, avgDocLength: real, docCount: nat, ln: real -> real)
    requires avgDocLength > 0.0 && tf > 0 && df <= docCount
    requires forall x :: x > 1.0 ==> ln(x) > 0.0
    ensures Term(tf, df, docLength, avgDocLength, docCount, ln) > 0.0
  {
    var q := ((docCount - df) as real + 0.5) / (df as real + 0.5);
    assert q > 0.0;
    var idf := ln(1.0 + q);
    assert idf > 0.0;
    var ratio := docLength as real / avgDocLength;
    assert ratio >= 0.0;
    var numerator := tf as real * (K1 + 1.0);
    var denominator := tf as real + K1 * (1.0 - B + B * ratio);
    assert denominator > 0.0;
    var quotient := numerator / denominator;
    assert quotient > 0.0;
    PositiveProduct(idf, quotient);
  }

  lemma {:induction false} PositiveProduct(x: real, y: real)
    requires x > 0.0 && y > 0.0
    ensures x * y > 0.0
  {
  }

  /** Scores are never negative, for document frequencies bounded by the
      number of chunks. */
  lemma {:induction false} SumContributionsNonNegative(query: seq<string>, tf: map<string, nat>, df: map<string, nat>,
                                                       docLength: nat, avgDocLength: real, docCount: nat, ln: real -> real)
    requires avgDocLength > 0.0
    requires forall t :: t in df ==> df[t] <= docCount
    requires forall x :: x > 1.0 ==> ln(x) > 0.0
    ensures SumContributions(query, tf, df, docLength, avgDocLength, docCount, ln) >= 0.0
  {
    if |query| > 0 {
      SumContributionsNonNegative(query[..|query| - 1], tf, df, docLength, avgDocLength, docCount, ln);
      var t := query[|query| - 1];
      if t in tf && tf[t] > 0 {
        TermPositive(tf[t], if t in df then df[t] else 0, docLength, avgDocLength, docCount, ln);
      }
    }
  }

  // ---------------------------------------------------------------------
  // Ranking.

  function AverageLength(docs: seq<seq<string>>): real {
    if |docs| == 0 then 0.0 else TotalTokens(docs) as real / |docs| as real
  }

  lemma {:induction false} TotalTokensCovers(docs: seq<seq<string>>, i: nat)
    requires i < |docs|
    ensures |docs[i]| <= TotalTokens(docs)
  {
    if i < |docs| - 1 {
      TotalTokensCovers(docs[..|docs| - 1], i);
    }
  }

  /** The score of chunk `i` among the tokenized chunks `docs`. */
  function ChunkScore(query: seq<string>, docs: seq<seq<string>>, i: nat, ln: real -> real): real
    requires i < |docs|
  {
    TotalTokensCovers(docs, i);
    Bm25(query, TermCounts(docs[i]), DocFreqs(docs), |docs[i]|, AverageLength(docs), |docs|, ln)
  }

  /** The chunks scoring at least `minScore`, in input order, with their
      scores. */
  function AboveThreshold(query: seq<string>, chunks: seq<TextChunk>, docs: seq<seq<string>>, n: nat,
                          minScore: real, ln: real -> real): seq<ScoredChunk>
    requires n <= |docs| == |chunks|
  {
    if n == 0 then []
    else
      var score := ChunkScore(query, docs, n - 1, ln);
      AboveThreshold(query, chunks, docs, n - 1, minScore, ln)
      + (if score >= minScore then [ScoredChunk(chunks[n - 1], score)] else [])
  }

  /** Where the entries of `AboveThreshold` come from: distinct chunk
      positions, each with its own score. */
  function AllScored(query: seq<string>, chunks: seq<TextChunk>, docs: seq<seq<string>>, ln: real -> real): (r: seq<ScoredChunk>)
    requires |docs| == |chunks|
    ensures |r| == |chunks|
  {
    seq(|chunks|, i requires 0 <= i < |chunks| => ScoredChunk(chunks[i], ChunkScore(query, docs, i, ln)))
  }

  predicate SortedByScoreDesc(s: seq<ScoredChunk>) {
    forall i, j :: 0 <= i < j < |s| ==> s[i].score >= s[j].score
  }

  /** The entries of `s` whose score is `v`, in order. */
  function WithScore(s: seq<ScoredChunk>, v: real): seq<ScoredChunk> {
    if |s| == 0 then [] else WithScore(s[..|s| - 1], v) + (if s[|s| - 1].score == v then [s[|s| - 1]] else [])
  }

  lemma {:induction false} WithScoreAppend(a: seq<ScoredChunk>, b: seq<ScoredChunk>, v: real)
    ensures WithScore(a + b, v) == WithScore(a, v) + WithScore(b, v)
    decreases |b|
  {
    if |b| == 0 {
      assert a + b == a;
    } else {
      assert (a + b)[..|a + b| - 1] == a + b[..|b| - 1];
      WithScoreAppend(a, b[..|b| - 1], v);
    }
  }

  /** `x` placed after every entry scoring at least as much. */
  function InsertByScore(r: seq<ScoredChunk>, x: ScoredChunk): seq<ScoredChunk> {
    if |r| == 0 then [x]
    else if r[0].score >= x.score then [r[0]] + InsertByScore(r[1..], x)
    else [x] + r
  }

  lemma {:induction false} InsertByScorePermutes(r: seq<ScoredChunk>, x: ScoredChunk)
    ensures multiset(InsertByScore(r, x)) == multiset(r) + multiset{x}
  {
    if |r| > 0 && r[0].score >= x.score {
      InsertByScorePermutes(r[1..], x);
      assert r == [r[0]] + r[1..];
    }
  }

  lemma {:induction false} InsertByScoreSorted(r: seq<ScoredChunk>, x: ScoredChunk)
    requires SortedByScoreDesc(r)
    ensures SortedByScoreDesc(InsertByScore(r, x))
  {
    if |r| > 0 && r[0].score >= x.score {
      var rest := r[1..];
      SortedTail(r);
      InsertByScoreSorted(rest, x);
      InsertByScorePermutes(rest, x);
      var tail := InsertByScore(rest, x);
      forall k | 0 <= k < |tail|
        ensures r[0].score >= tail[k].score
      {
        assert tail[k] in multiset(tail);
        if tail[k] != x {
          assert tail[k] in multiset(rest);
          var m :| 0 <= m < |rest| && rest[m] == tail[k];
          assert rest[m] == r[m + 1];
        }
      }
      SortedCons(r[0], tail);
    }
  }

  lemma {:induction false} SortedTail(r: seq<ScoredChunk>)
    requires |r| > 0 && SortedByScoreDesc(r)
    ensures SortedByScoreDesc(r[1..])
  {
    var rest := r[1..];
    forall i, j | 0 <= i < j < |rest|
      ensures rest[i].score >= rest[j].score
    {
      assert rest[i] == r[i + 1] && rest[j] == r[j + 1];
    }
  }

  lemma {:induction false} SortedCons(head: ScoredChunk, tail: seq<ScoredChunk>)
    requires SortedByScoreDesc(tail)
    requires forall k :: 0 <= k < |tail| ==> head.score >= tail[k].score
    ensures SortedByScoreDesc([head] + tail)
  {
    var s := [head] + tail;
    forall i, j | 0 <= i < j < |s|
      ensures s[i].score >= s[j].score
    {
      assert s[j] == tail[j - 1];
      if i > 0 {
        assert s[i] == tail[i - 1];
      }
    }
  }

  lemma {:induction false} InsertByScoreStable(r: seq<ScoredChunk>, x: ScoredChunk, v: real)
    requires SortedByScoreDesc(r)
    ensures WithScore(InsertByScore(r, x), v) == WithScore(r, v) + (if x.score == v then [x] else [])
  {
    if |r| > 0 {
      if r[0].score >= x.score {
        SortedTail(r);
        InsertByScoreStable(r[1..], x, v);
        var tail := InsertByScore(r[1..], x);
        assert r == [r[0]] + r[1..];
        WithScoreAppend([r[0]], tail, v);
        WithScoreAppend([r[0]], r[1..], v);
      } else {
        WithScoreAppend([x], r, v);
        if x.score == v {
          NoneWithScore(r, v);
        }
        assert WithScore([x], v) == WithScore([], v) + (if x.score == v then [x] else []);
      }
    } else {
      assert WithScore([x], v) == WithScore([], v) + (if x.score == v then [x] else []);
    }
  }

  /** A list sorted downwards whose head scores below `v` has no entry
      scoring `v`. */
  lemma {:induction false} NoneWithScore(r: seq<ScoredChunk>, v: real)
    requires SortedByScoreDesc(r) && |r| > 0 && r[0].score < v
    ensures WithScore(r, v) == []
  {
    if |r| > 1 {
      NoneWithScore(r[..|r| - 1], v);
    }
  }

  /** `List.sort` with `comparingDouble(score).reversed()`: a sort by
      descending score, stable by construction (each entry is placed after
      the ones scoring at least as much). */
  function SortByScoreDesc(s: seq<ScoredChunk>): (r: seq<ScoredChunk>)
    ensures SortedByScoreDesc(r)
    ensures multiset(r) == multiset(s)
  {
    if |s| == 0 then []
    else
      var init := SortByScoreDesc(s[..|s| - 1]);
      InsertByScoreSorted(init, s[|s| - 1]);
      InsertByScorePermutes(init, s[|s| - 1]);
      assert s == s[..|s| - 1] + [s[|s| - 1]];
      InsertByScore(init, s[|s| - 1])
  }

  /** The sort is stable: for every score, the entries with that score keep
      their input order. */
  lemma {:induction false} SortByScoreDescStable(s: seq<ScoredChunk>, v: real)
    ensures WithScore(SortByScoreDesc(s), v) == WithScore(s, v)
  {
    if |s| > 0 {
      SortByScoreDescStable(s[..|s| - 1], v);
      InsertByScoreStable(SortByScoreDesc(s[..|s| - 1]), s[|s| - 1], v);
    }
  }

  /** What `retrieveTopChunks` returns: nothing for a null or blank query,
      no chunks or a non-positive `topK`; otherwise the chunks scoring at
      least the threshold, stably sorted by descending score, cut to
      `topK`. */
  function TopChunks(query: Option<string>, chunks: seq<TextChunk>, topK: int, minScore: real, ln: real -> real): seq<ScoredChunk> {
    if query.None? || IsBlank(query.value) || |chunks| == 0 || topK <= 0 then []
    else
      var docs := TokenizedChunks(chunks);
      var sorted := SortByScoreDesc(AboveThreshold(Tokens(query), chunks, docs, |chunks|, minScore, ln));
      if |sorted| > topK then sorted[..topK] else sorted
  }

  /** The arguments the scoring loop passes for chunk `i` are the ones
      `ChunkScore` uses. */
  lemma {:induction false} ScoreArguments(docs: seq<seq<string>>, i: nat, tf: map<string, nat>, df: map<string, nat>, totalTokens: nat)
    requires i < |docs| && tf == TermCounts(docs[i]) && df == DocFreqs(docs) && totalTokens == TotalTokens(docs)
    ensures |docs[i]| > 0 ==> totalTokens as real / |docs| as real > 0.0
    ensures totalTokens as real / |docs| as real == AverageLength(docs)
  {
    TotalTokensCovers(docs, i);
  }

  /** The scoring loop of `retrieveTopChunks`: each chunk's BM25 score, in
      input order, keeping those at or above the threshold. */
  method ScoreChunks(queryTokens: seq<string>, chunks: seq<TextChunk>, tokenizedChunks: seq<seq<string>>,
                     termFrequencies: seq<map<string, nat>>, docFrequencies: map<string, nat>, totalTokens: nat,
                     minScoreThreshold: real, ln: real -> real)
    returns (scored: seq<ScoredChunk>)
    requires |chunks| > 0 && |tokenizedChunks| == |termFrequencies| == |chunks|
    requires forall i :: 0 <= i < |chunks| ==> termFrequencies[i] == TermCounts(tokenizedChunks[i])
    requires docFrequencies == DocFreqs(tokenizedChunks) && totalTokens == TotalTokens(tokenizedChunks)
    ensures scored == AboveThreshold(queryTokens, chunks, tokenizedChunks, |chunks|, minScoreThreshold, ln)
  {
    var avgDocLength := totalTokens as real / |chunks| as real;
    scored := [];
    for i := 0 to |chunks|
      invariant scored == AboveThreshold(queryTokens, chunks, tokenizedChunks, i, minScoreThreshold, ln)
    {
      var tf := termFrequencies[i];
      var docLength := |tokenizedChunks[i]|;
      ScoreArguments(tokenizedChunks, i, tf, docFrequencies, totalTokens);
      var score := Bm25Score(queryTokens, tf, docFrequencies, docLength, avgDocLength, |chunks|, ln);
      assert score == ChunkScore(queryTokens, tokenizedChunks, i, ln);
      if score >= minScoreThreshold {
        scored := scored + [ScoredChunk(chunks[i], score)];
      }
    }
  }

  /** `retrieveTopChunks`. */
  method RetrieveTopChunks(query: Option<string>, chunks: seq<TextChunk>, topK: int, minScoreThreshold: real, ln: real -> real)
    returns (result: seq<ScoredChunk>)
    ensures result == TopChunks(query, chunks, topK, minScoreThreshold, ln)
  {
    if query.None? || IsBlank(query.value) || |chunks| == 0 || topK <= 0 {
      return [];
    }
    var tokenizedChunks, termFrequencies, docFrequencies, totalTokens := IndexChunks(chunks);
    var queryTokens := Tokenize(query);
    var scored := ScoreChunks(queryTokens, chunks, tokenizedChunks, termFrequencies, docFrequencies, totalTokens,
                              minScoreThreshold, ln);
    scored := SortByScoreDesc(scored);
    if |scored| > topK {
      return scored[..topK];
    }
    return scored;
  }

  /** Every entry of `AboveThreshold` reaches the threshold and carries an
      input chunk. */
  lemma {:induction false} AboveThresholdScores(query: seq<string>, chunks: seq<TextChunk>, docs: seq<seq<string>>, n: nat,
                                                minScore: real, ln: real -> real)
    requires n <= |docs| == |chunks|
    ensures forall x :: x in AboveThreshold(query, chunks, docs, n, minScore, ln) ==> x.score >= minScore && x.chunk in chunks
  {
    if n > 0 {
      AboveThresholdScores(query, chunks, docs, n - 1, minScore, ln);
      var prefix := AboveThreshold(query, chunks, docs, n - 1, minScore, ln);
      var score := ChunkScore(query, docs, n - 1, ln);
      var tail: seq<ScoredChunk> := if score >= minScore then [ScoredChunk(chunks[n - 1], score)] else [];
      assert AboveThreshold(query, chunks, docs, n, minScore, ln) == prefix + tail;
      forall x | x in prefix + tail
        ensures x.score >= minScore && x.chunk in chunks
      {
        if x !in prefix {
          assert x in tail;
        }
      }
    }
  }

  /** `AboveThreshold` takes each of the first `n` scored chunks at most
      once. */
  lemma {:induction false} AboveThresholdFrom(query: seq<string>, chunks: seq<TextChunk>, docs: seq<seq<string>>, n: nat,
                                              minScore: real, ln: real -> real)
    requires n <= |docs| == |chunks|
    ensures multiset(AboveThreshold(query, chunks, docs, n, minScore, ln)) <= multiset(AllScored(query, chunks, docs, ln)[..n])
  {
    if n > 0 {
      AboveThresholdFrom(query, chunks, docs, n - 1, minScore, ln);
      var score := ChunkScore(query, docs, n - 1, ln);
      var tail: seq<ScoredChunk> := if score >= minScore then [ScoredChunk(chunks[n - 1], score)] else [];
      assert AboveThreshold(query, chunks, docs, n, minScore, ln) == AboveThreshold(query, chunks, docs, n - 1, minScore, ln) + tail;
      AllScoredPrefix(query, chunks, docs, ln, n);
      SubMultisetAppend(AboveThreshold(query, chunks, docs, n - 1, minScore, ln), tail,
                        AllScored(query, chunks, docs, ln)[..n - 1], ScoredChunk(chunks[n - 1], score));
    }
  }

  lemma {:induction false} AllScoredPrefix(query: seq<string>, chunks: seq<TextChunk>, docs: seq<seq<string>>, ln: real -> real, n: nat)
    requires 0 < n <= |docs| == |chunks|
    ensures AllScored(query, chunks, docs, ln)[..n]
         == AllScored(query, chunks, docs, ln)[..n - 1] + [ScoredChunk(chunks[n - 1], ChunkScore(query, docs, n - 1, ln))]
  {
    var all := AllScored(query, chunks, docs, ln);
    assert all[..n] == all[..n - 1] + [all[n - 1]];
  }

  lemma {:induction false} SubMultisetAppend(a: seq<ScoredChunk>, tail: seq<ScoredChunk>, b: seq<ScoredChunk>, y: ScoredChunk)
    requires multiset(a) <= multiset(b)
    requires tail == [] || tail == [y]
    ensures multiset(a + tail) <= multiset(b + [y])
  {
  }

  /** What the ranking promises about order and size: the result is empty
      on the guards, and otherwise is the first `topK` entries (all of them
      when fewer) of the thresholded list after the stable sort, so it is
      sorted by non-increasing score. */
  lemma {:induction false} TopChunksRanked(query: Option<string>, chunks: seq<TextChunk>, topK: int, minScore: real, ln: real -> real)
    ensures var r := TopChunks(query, chunks, topK, minScore, ln);
      && (query.None? || IsBlank(query.value) || |chunks| == 0 || topK <= 0 ==> r == [])
      && |r| <= (if topK > 0 then topK else 0)
      && SortedByScoreDesc(r)
      && (|r| > 0 ==>
            r == SortByScoreDesc(AboveThreshold(Tokens(query), chunks, TokenizedChunks(chunks), |chunks|, minScore, ln))[..|r|])
      && (!(query.None? || IsBlank(query.value) || |chunks| == 0 || topK <= 0) ==>
            var n := |SortByScoreDesc(AboveThreshold(Tokens(query), chunks, TokenizedChunks(chunks), |chunks|, minScore, ln))|;
            |r| == (if n > topK then topK else n))
  {
    if !(query.None? || IsBlank(query.value) || |chunks| == 0 || topK <= 0) {
      var sorted := SortByScoreDesc(AboveThreshold(Tokens(query), chunks, TokenizedChunks(chunks), |chunks|, minScore, ln));
      var r := TopChunks(query, chunks, topK, minScore, ln);
      assert r == sorted[..|r|];
      SortedPrefix(sorted, |r|);
    }
  }

  /** What the ranking promises about its entries: each scores at least the
      threshold and is taken from a distinct input chunk with that chunk's
      score. */
  lemma {:induction false} TopChunksFromInput(query: Option<string>, chunks: seq<TextChunk>, topK: int, minScore: real, ln: real -> real)
    ensures var r := TopChunks(query, chunks, topK, minScore, ln);
      && (forall x :: x in r ==> x.score >= minScore && x.chunk in chunks)
      && multiset(r) <= multiset(AllScored(Tokens(query), chunks, TokenizedChunks(chunks), ln))
  {
    var r := TopChunks(query, chunks, topK, minScore, ln);
    if !(query.None? || IsBlank(query.value) || |chunks| == 0 || topK <= 0) {
      var docs := TokenizedChunks(chunks);
      var above := AboveThreshold(Tokens(query), chunks, docs, |chunks|, minScore, ln);
      var sorted := SortByScoreDesc(above);
      assert r == sorted[..|r|];
      PrefixSubMultiset(sorted, |r|);
      AboveThresholdFrom(Tokens(query), chunks, docs, |chunks|, minScore, ln);
      AboveThresholdScores(Tokens(query), chunks, docs, |chunks|, minScore, ln);
      var all := AllScored(Tokens(query), chunks, docs, ln);
      assert all[..|chunks|] == all;
      forall x | x in r
        ensures x.score >= minScore && x.chunk in chunks
      {
        assert x in multiset(sorted);
        assert x in multiset(above);
      }
    }
  }

  lemma {:induction false} SortedPrefix(s: seq<ScoredChunk>, n: nat)
    requires n <= |s| && SortedByScoreDesc(s)
    ensures SortedByScoreDesc(s[..n])
  {
    forall i, j | 0 <= i < j < n
      ensures s[..n][i].score >= s[..n][j].score
    {
      assert s[..n][i] == s[i] && s[..n][j] == s[j];
    }
  }

  lemma {:induction false} PrefixSubMultiset(s: seq<ScoredChunk>, n: nat)
    requires n <= |s|
    ensures multiset(s[..n]) <= multiset(s)
  {
    assert s == s[..n] + s[n..];
  }

  /** With a logarithm that is positive above 1, every chunk's score is
      non-negative. */
  lemma {:induction false} ChunkScoreNonNegative(query: seq<string>, docs: seq<seq<string>>, i: nat, ln: real -> real)
    requires i < |docs|
    requires forall x :: x > 1.0 ==> ln(x) > 0.0
    ensures ChunkScore(query, docs, i, ln) >= 0.0
  {
    if |query| > 0 && |docs[i]| > 0 {
      TotalTokensCovers(docs, i);
      forall t | t in DocFreqs(docs)
        ensures DocFreqs(docs)[t] <= |docs|
      {
        DocFreqBounded(docs, t);
      }
      SumContributionsNonNegative(query, TermCounts(docs[i]), DocFreqs(docs), |docs[i]|, AverageLength(docs), |docs|, ln);
    }
  }
}
