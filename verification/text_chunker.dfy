/** `TextChunker`: cutting a document's text into overlapping windows for
    retrieval. */
module TextChunker {
  import opened Wrappers
  import opened JavaStrings
  import opened Domain

  function Min(a: int, b: int): int {
    if a < b then a else b
  }

  function Max(a: int, b: int): int {
    if a < b then b else a
  }

  /** The effective window size: at least 1. */
  function EffectiveSize(chunkSizeChars: int): (size: nat)
    ensures size >= 1 && (chunkSizeChars >= 1 ==> size == chunkSizeChars)
  {
    Max(1, chunkSizeChars)
  }

  /** The effective overlap: between 0 and `size - 1`. */
  function EffectiveOverlap(chunkOverlapChars: int, size: nat): (overlap: nat)
    requires size >= 1
    ensures overlap < size
    ensures 0 <= chunkOverlapChars < size ==> overlap == chunkOverlapChars
    ensures chunkOverlapChars <= 0 ==> overlap == 0
    ensures chunkOverlapChars >= size ==> overlap == size - 1
  {
    Max(0, Min(chunkOverlapChars, size - 1))
  }

  /** The chunk numbered `index` that the window `[start, end)` yields: the
      window with its leading and trailing characters up to U+0020 stripped,
      or nothing when no other character is left (`WindowChunkIsTrim` shows
      this is `substring(start, end).trim()`, kept when not empty). */
  function WindowChunk(s: string, start: nat, end: nat, index: int): seq<TextChunk>
    requires start <= end <= |s|
    decreases end - start
  {
    if start < end && IsTrimmable(s[start]) then WindowChunk(s, start + 1, end, index)
    else if start < end && IsTrimmable(s[end - 1]) then WindowChunk(s, start, end - 1, index)
    else if start == end then []
    else [TextChunk(index, s[start..end])]
  }

  /** A window yields exactly its trimmed text, unless that is empty. */
  lemma {:induction false} WindowChunkIsTrim(s: string, start: nat, end: nat, index: int)
    requires start <= end <= |s|
    ensures |TrimRange(s, start, end)| == 0 ==> WindowChunk(s, start, end, index) == []
    ensures |TrimRange(s, start, end)| != 0
            ==> WindowChunk(s, start, end, index) == [TextChunk(index, TrimRange(s, start, end))]
    decreases end - start
  {
    if start < end && IsTrimmable(s[start]) {
      WindowChunkIsTrim(s, start + 1, end, index);
    } else if start < end && IsTrimmable(s[end - 1]) {
      WindowChunkIsTrim(s, start, end - 1, index);
    }
  }

  /** The chunks the loop of `chunk` produces from window start `start`
      with next index `index`: the chunk of the window
      `[start, min(len, start + size))`, if any, and then, unless that window
      reaches the end of the text, the chunks from `end - overlap`. */
  function ChunksFrom(s: string, size: nat, overlap: nat, start: nat, index: int): seq<TextChunk>
    requires size >= 1 && overlap < size
    decreases |s| - start
  {
    if start >= |s| then []
    else
      var end := Min(|s|, start + size);
      var here := WindowChunk(s, start, end, index);
      here + (if end == |s| then [] else ChunksFrom(s, size, overlap, end - overlap, index + |here|))
  }

  /** What `chunk` returns: nothing for a null or blank text, otherwise the
      chunks of the windows from 0, numbered from 0. */
  function Chunks(text: Option<string>, chunkSizeChars: int, chunkOverlapChars: int): seq<TextChunk> {
    if text.None? || IsBlank(text.value) then []
    else
      var size := EffectiveSize(chunkSizeChars);
      ChunksFrom(text.value, size, EffectiveOverlap(chunkOverlapChars, size), 0, 0)
  }

  /** The loop of `chunk` as it runs: from window start `start`, next index
      `index` and the chunks `acc` collected so far, the list it ends with. */
  function ChunksAcc(s: string, size: nat, overlap: nat, start: nat, index: int, acc: seq<TextChunk>): seq<TextChunk>
    requires size >= 1 && overlap < size
    decreases |s| - start
  {
    if start >= |s| then acc
    else
      var end := Min(|s|, start + size);
      var here := WindowChunk(s, start, end, index);
      if end == |s| then acc + here
      else ChunksAcc(s, size, overlap, end - overlap, index + |here|, acc + here)
  }

  /** One turn of the loop of `chunk`. */
  lemma {:induction false} ChunksAccStep(s: string, size: nat, overlap: nat, start: nat, end: nat, index: int, acc: seq<TextChunk>)
    requires size >= 1 && overlap < size && start < |s|
    requires end == Min(|s|, start + size)
    ensures end == |s| ==> ChunksAcc(s, size, overlap, start, index, acc) == acc + WindowChunk(s, start, end, index)
    ensures end < |s| ==>
              ChunksAcc(s, size, overlap, start, index, acc)
              == ChunksAcc(s, size, overlap, end - overlap, index + |WindowChunk(s, start, end, index)|,
                           acc + WindowChunk(s, start, end, index))
  {
  }

  /** Running the loop from `start` with `acc` collected appends the chunks
      from `start` to `acc`. */
  lemma {:induction false} ChunksAccAppends(s: string, size: nat, overlap: nat, start: nat, index: int, acc: seq<TextChunk>)
    requires size >= 1 && overlap < size
    ensures ChunksAcc(s, size, overlap, start, index, acc) == acc + ChunksFrom(s, size, overlap, start, index)
    decreases |s| - start
  {
    if start < |s| {
      var end := Min(|s|, start + size);
      var here := WindowChunk(s, start, end, index);
      if end < |s| {
        var rest := ChunksFrom(s, size, overlap, end - overlap, index + |here|);
        ChunksAccAppends(s, size, overlap, end - overlap, index + |here|, acc + here);
        assert (acc + here) + rest == acc + (here + rest);
      }
    }
  }

  /** `chunk`. */
  method Chunk(text: Option<string>, chunkSizeChars: int, chunkOverlapChars: int) returns (chunks: seq<TextChunk>)
    ensures chunks == Chunks(text, chunkSizeChars, chunkOverlapChars)
  {
    if text.None? || IsBlank(text.value) {
      return [];
    }
    var size := Max(1, chunkSizeChars);
    var overlap := Max(0, Min(chunkOverlapChars, size - 1));
    chunks := ChunkWindows(text.value, size, overlap);
    ChunksAccAppends(text.value, size, overlap, 0, 0, []);
  }

  /** The loop of `chunk`, for an effective size and overlap. */
  method ChunkWindows(s: string, size: nat, overlap: nat) returns (chunks: seq<TextChunk>)
    requires size >= 1 && overlap < size
    ensures chunks == ChunksAcc(s, size, overlap, 0, 0, [])
  {
    chunks := [];
    var index := 0;
    var start: nat := 0;
    while start < |s|
      invariant start <= |s|
      invariant ChunksAcc(s, size, overlap, start, index, chunks) == ChunksAcc(s, size, overlap, 0, 0, [])
      decreases |s| - start
    {
      var end := Min(|s|, start + size);
      var slice := Trim(s[start..end]);
      TrimOfSlice(s, start, end);
      WindowChunkIsTrim(s, start, end, index);
      ChunksAccStep(s, size, overlap, start, end, index, chunks);
      ghost var here := WindowChunk(s, start, end, index);
      ghost var next, nextIndex := chunks + here, index + |here|;
      if |slice| != 0 {
        chunks := chunks + [TextChunk(index, slice)];
        index := index + 1;
      }
      assert chunks == next && index == nextIndex;
      if end == |s| {
        break;
      }
      start := end - overlap;
    }
  }

  // ---------------------------------------------------------------------
  // The windows.

  /** The character range `[start, end)` of one window. */
  datatype Span = Span(start: nat, end: nat)

  /** The windows the loop of `chunk` visits from `start`. */
  function Windows(len: nat, size: nat, overlap: nat, start: nat): seq<Span>
    requires size >= 1 && overlap < size
    decreases len - start
  {
    if start >= len then []
    else
      var end := Min(len, start + size);
      [Span(start, end)] + (if end == len then [] else Windows(len, size, overlap, end - overlap))
  }

  /** There is a window exactly when the text goes on past `start`; the
      first window starts at `start` and the last one reaches the end of the
      text. */
  lemma {:induction false} WindowsEnds(len: nat, size: nat, overlap: nat, start: nat)
    requires size >= 1 && overlap < size
    ensures var ws := Windows(len, size, overlap, start);
              && (start < len <==> |ws| > 0)
              && (|ws| > 0 ==> ws[0].start == start && ws[|ws| - 1].end == len)
    decreases len - start
  {
    if start < len {
      var end := Min(len, start + size);
      if end < len {
        WindowsEnds(len, size, overlap, end - overlap);
      }
    }
  }

  /** Every window is a non-empty range of at most `size` characters of the
      text from `start` on. */
  lemma {:induction false} WindowsBounded(len: nat, size: nat, overlap: nat, start: nat)
    requires size >= 1 && overlap < size
    ensures forall w :: w in Windows(len, size, overlap, start) ==>
              start <= w.start < w.end <= len && w.end - w.start <= size
    decreases len - start
  {
    if start < len {
      var end := Min(len, start + size);
      if end < len {
        var next := end - overlap;
        WindowsBounded(len, size, overlap, next);
        var ws, rest := Windows(len, size, overlap, start), Windows(len, size, overlap, next);
        assert ws == [Span(start, end)] + rest;
        assert forall w :: w in ws ==> w == Span(start, end) || w in rest;
      }
    }
  }

  /** Every window but the last is `size` long and ends before the text
      does, and the next one starts `overlap` before its end, so later than
      it. */
  predicate Strided(ws: seq<Span>, len: nat, size: nat, overlap: nat) {
    forall k :: 0 <= k < |ws| - 1 ==>
      ws[k].end == ws[k].start + size < len && ws[k + 1].start == ws[k].end - overlap
  }

  /** The windows advance with stride `size - overlap` and stop at the first
      one that reaches the end of the text. */
  lemma {:induction false} WindowsStride(len: nat, size: nat, overlap: nat, start: nat)
    requires size >= 1 && overlap < size
    ensures Strided(Windows(len, size, overlap, start), len, size, overlap)
    decreases len - start
  {
    if start < len {
      var end := Min(len, start + size);
      if end < len {
        var next := end - overlap;
        WindowsStride(len, size, overlap, next);
        WindowsEnds(len, size, overlap, next);
        assert Windows(len, size, overlap, start) == [Span(start, end)] + Windows(len, size, overlap, next);
        StridedCons(Span(start, end), Windows(len, size, overlap, next), len, size, overlap);
      }
    }
  }

  lemma {:induction false} StridedCons(w: Span, rest: seq<Span>, len: nat, size: nat, overlap: nat)
    requires Strided(rest, len, size, overlap)
    requires |rest| > 0 && w.end == w.start + size < len && rest[0].start == w.end - overlap
    ensures Strided([w] + rest, len, size, overlap)
  {
    var ws := [w] + rest;
    forall k | 0 <= k < |ws| - 1
      ensures ws[k].end == ws[k].start + size < len && ws[k + 1].start == ws[k].end - overlap
    {
      assert ws[k + 1] == rest[k];
      if k > 0 {
        assert ws[k] == rest[k - 1];
      }
    }
  }

  /** Every character of the text from `start` on lies in some window. */
  lemma {:induction false} WindowsCover(len: nat, size: nat, overlap: nat, start: nat, p: nat)
    requires size >= 1 && overlap < size && start <= p < len
    ensures exists w :: w in Windows(len, size, overlap, start) && w.start <= p < w.end
    decreases len - start
  {
    var end := Min(len, start + size);
    var ws := Windows(len, size, overlap, start);
    assert ws[0] == Span(start, end);
    if end <= p {
      var next := end - overlap;
      WindowsCover(len, size, overlap, next, p);
      assert forall w :: w in Windows(len, size, overlap, next) ==> w in ws;
    }
  }

  // ---------------------------------------------------------------------
  // What the chunks are.

  /** The chunks are numbered `index`, `index + 1`, ... in order. */
  predicate NumberedFrom(cs: seq<TextChunk>, index: int) {
    forall k :: 0 <= k < |cs| ==> cs[k].index == index + k
  }

  /** The chunks from `start` are numbered `index`, `index + 1`, ... without
      gaps. */
  lemma {:induction false} ChunksFromNumbered(s: string, size: nat, overlap: nat, start: nat, index: int)
    requires size >= 1 && overlap < size
    ensures NumberedFrom(ChunksFrom(s, size, overlap, start, index), index)
    decreases |s| - start
  {
    if start < |s| {
      var end := Min(|s|, start + size);
      var here := WindowChunk(s, start, end, index);
      WindowChunkIsTrim(s, start, end, index);
      if end < |s| {
        var next := end - overlap;
        ChunksFromNumbered(s, size, overlap, next, index + |here|);
        var rest := ChunksFrom(s, size, overlap, next, index + |here|);
        var cs := ChunksFrom(s, size, overlap, start, index);
        assert cs == here + rest;
        forall k | 0 <= k < |cs|
          ensures cs[k].index == index + k
        {
          if k >= |here| {
            assert cs[k] == rest[k - |here|];
          }
        }
      }
    }
  }

  /** `c` is the trimmed text of the window `w` of `s`. */
  predicate FromWindow(s: string, c: TextChunk, w: Span) {
    w.start <= w.end <= |s| && c.text == TrimRange(s, w.start, w.end)
  }

  /** Each chunk from `start` is the non-empty trimmed text of one of the
      windows from `start`. */
  lemma {:induction false} ChunksFromWindows(s: string, size: nat, overlap: nat, start: nat, index: int)
    requires size >= 1 && overlap < size
    ensures forall c :: c in ChunksFrom(s, size, overlap, start, index) ==>
              |c.text| > 0 && exists w :: w in Windows(|s|, size, overlap, start) && FromWindow(s, c, w)
    decreases |s| - start
  {
    if start < |s| {
      var end := Min(|s|, start + size);
      var here := WindowChunk(s, start, end, index);
      var ws := Windows(|s|, size, overlap, start);
      assert ws[0] == Span(start, end);
      WindowChunkIsTrim(s, start, end, index);
      var rest: seq<TextChunk> := if end == |s| then [] else ChunksFrom(s, size, overlap, end - overlap, index + |here|);
      assert ChunksFrom(s, size, overlap, start, index) == here + rest;
      forall c | c in here + rest
        ensures |c.text| > 0 && exists w :: w in ws && FromWindow(s, c, w)
      {
        if c in here {
          assert FromWindow(s, c, ws[0]);
        } else {
          var next := end - overlap;
          ChunksFromWindows(s, size, overlap, next, index + |here|);
          var w :| w in Windows(|s|, size, overlap, next) && FromWindow(s, c, w);
          assert w in ws;
        }
      }
    }
  }

  /** The texts of some chunks, in order. */
  function Texts(cs: seq<TextChunk>): seq<string> {
    seq(|cs|, i requires 0 <= i < |cs| => cs[i].text)
  }

  /** The non-empty trimmed texts of some windows of `s`, in window order. */
  function TrimmedTexts(s: string, ws: seq<Span>): seq<string> {
    if |ws| == 0 then []
    else
      var w := ws[0];
      var here := if w.start <= w.end <= |s| && |TrimRange(s, w.start, w.end)| > 0 then [TrimRange(s, w.start, w.end)] else [];
      here + TrimmedTexts(s, ws[1..])
  }

  lemma {:induction false} TextsAppend(a: seq<TextChunk>, b: seq<TextChunk>)
    ensures Texts(a + b) == Texts(a) + Texts(b)
  {
  }

  /** The texts a window yields are its share of `TrimmedTexts`. */
  lemma {:induction false} WindowTexts(s: string, ws: seq<Span>, start: nat, end: nat, index: int, tail: seq<Span>)
    requires start <= end <= |s| && |ws| > 0 && ws[0] == Span(start, end) && tail == ws[1..]
    ensures TrimmedTexts(s, ws) == Texts(WindowChunk(s, start, end, index)) + TrimmedTexts(s, tail)
  {
    WindowChunkIsTrim(s, start, end, index);
  }

  /** The first window from `start` ends at `end`; the rest start at `end - overlap`. */
  lemma {:induction false} WindowsStep(len: nat, size: nat, overlap: nat, start: nat)
    requires size >= 1 && overlap < size && start < len
    ensures var end := Min(len, start + size); var ws := Windows(len, size, overlap, start);
      && |ws| > 0 && ws[0] == Span(start, end)
      && ws[1..] == (if end == len then [] else Windows(len, size, overlap, end - overlap))
  { }

  /** The chunks from `start` are the first window's, then the rest's. */
  lemma {:induction false} ChunksFromUnfold(s: string, size: nat, overlap: nat, start: nat, index: int)
    requires size >= 1 && overlap < size && start < |s|
    ensures var end := Min(|s|, start + size); var here := WindowChunk(s, start, end, index);
      ChunksFrom(s, size, overlap, start, index)
        == here + (if end == |s| then [] else ChunksFrom(s, size, overlap, end - overlap, index + |here|))
  { }

  /** The texts of the chunks of the first window and of the rest. */
  lemma {:induction false} TextsGlue(all: seq<TextChunk>, here: seq<TextChunk>, rest: seq<TextChunk>,
                                     restTexts: seq<string>, windowTexts: seq<string>)
    requires all == here + rest && Texts(rest) == restTexts && windowTexts == Texts(here) + restTexts
    ensures Texts(all) == windowTexts
  {
    TextsAppend(here, rest);
  }

  /** The chunks from `start` are exactly the non-empty trimmed windows
      from `start`, in window order: no window with text is skipped. */
  lemma {:induction false} ChunksAreTrimmedWindows(s: string, size: nat, overlap: nat, start: nat, index: int)
    requires size >= 1 && overlap < size
    ensures Texts(ChunksFrom(s, size, overlap, start, index)) == TrimmedTexts(s, Windows(|s|, size, overlap, start))
    decreases |s| - start
  {
    var ws := Windows(|s|, size, overlap, start);
    if start < |s| {
      var end := Min(|s|, start + size);
      WindowsStep(|s|, size, overlap, start);
      ChunksFromUnfold(s, size, overlap, start, index);
      var here := WindowChunk(s, start, end, index);
      if end == |s| {
        WindowTexts(s, ws, start, end, index, []);
        TextsGlue(ChunksFrom(s, size, overlap, start, index), here, [], [], TrimmedTexts(s, ws));
      } else {
        var next := end - overlap;
        var rest := ChunksFrom(s, size, overlap, next, index + |here|);
        WindowTexts(s, ws, start, end, index, Windows(|s|, size, overlap, next));
        ChunksAreTrimmedWindows(s, size, overlap, next, index + |here|);
        TextsGlue(ChunksFrom(s, size, overlap, start, index), here, rest,
                  TrimmedTexts(s, Windows(|s|, size, overlap, next)), TrimmedTexts(s, ws));
      }
    } else {
      assert ChunksFrom(s, size, overlap, start, index) == [];
      assert ws == [];
    }
  }

  /** A window's trimmed text is at most `size` long. */
  lemma {:induction false} ChunksFromBounded(s: string, size: nat, overlap: nat, start: nat, index: int)
    requires size >= 1 && overlap < size
    ensures forall c :: c in ChunksFrom(s, size, overlap, start, index) ==> 0 < |c.text| <= size
  {
    ChunksFromWindows(s, size, overlap, start, index);
    WindowsBounded(|s|, size, overlap, start);
    forall c | c in ChunksFrom(s, size, overlap, start, index)
      ensures 0 < |c.text| <= size
    {
      var w :| w in Windows(|s|, size, overlap, start) && FromWindow(s, c, w);
      TrimRangeProperties(s, w.start, w.end);
    }
  }

  /** `chunk` returns nothing for a null or blank text, and otherwise numbers
      its chunks 0, 1, 2, ... and makes each the non-empty trimmed text of a
      window, at most the effective size long. */
  lemma {:induction false} ChunksProperties(text: Option<string>, chunkSizeChars: int, chunkOverlapChars: int)
    ensures text.None? || IsBlank(text.value) ==> Chunks(text, chunkSizeChars, chunkOverlapChars) == []
    ensures NumberedFrom(Chunks(text, chunkSizeChars, chunkOverlapChars), 0)
    ensures forall c :: c in Chunks(text, chunkSizeChars, chunkOverlapChars) ==>
              0 < |c.text| <= EffectiveSize(chunkSizeChars)
  {
    if text.Some? && !IsBlank(text.value) {
      var size := EffectiveSize(chunkSizeChars);
      var overlap := EffectiveOverlap(chunkOverlapChars, size);
      ChunksFromNumbered(text.value, size, overlap, 0, 0);
      ChunksFromBounded(text.value, size, overlap, 0, 0);
    }
  }

  /** Ten letters in windows of 4 overlapping by 1 give "abcd", "defg" and
      "ghij", numbered 0 to 2. */
  lemma {:induction false} TenLettersInWindowsOfFour()
    ensures Chunks(Some("abcdefghij"), 4, 1)
         == [TextChunk(0, "abcd"), TextChunk(1, "defg"), TextChunk(2, "ghij")]
  {
    var s := "abcdefghij";
    assert !IsBlank(s) by {
      assert !IsWhitespace(s[0]);
    }
    assert s[0..4] == "abcd" && s[3..7] == "defg" && s[6..10] == "ghij";
    assert WindowChunk(s, 0, 4, 0) == [TextChunk(0, "abcd")];
    assert WindowChunk(s, 3, 7, 1) == [TextChunk(1, "defg")];
    assert WindowChunk(s, 6, 10, 2) == [TextChunk(2, "ghij")];
    assert ChunksFrom(s, 4, 1, 6, 2) == [TextChunk(2, "ghij")];
    assert ChunksFrom(s, 4, 1, 3, 1) == [TextChunk(1, "defg"), TextChunk(2, "ghij")];
  }
}
