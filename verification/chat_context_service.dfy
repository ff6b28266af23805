/** `ChatContextService`: the ordered message list sent to the model for one
    turn (system prompt, optional memory block, recent transcript, current
    user turn) and its clamping to a character budget. */
module ChatContextService {
  import opened Wrappers
  import opened JavaStrings
  import opened Domain
  import MemoryJsonValidator

  const MemoryBlockPrefix: string := "[MEMORY_JSON]\n"

  /** The two `AuraContextProperties` the builder reads. */
  datatype ContextConfig = ContextConfig(windowSizeMessages: int, maxPromptChars: int)

  /** `roleFor`. */
  function RoleFor(author: MessageAuthor): string {
    if author == ASSISTANT then "assistant" else "user"
  }

  /** `length`: a null content counts as empty. */
  function Length(m: ChatMessage): nat {
    if m.content.None? then 0 else |m.content.value|
  }

  /** `totalChars`. */
  function TotalChars(ms: seq<ChatMessage>): nat {
    if |ms| == 0 then 0 else Length(ms[0]) + TotalChars(ms[1..])
  }

  lemma {:induction false} TotalCharsAppend(a: seq<ChatMessage>, b: seq<ChatMessage>)
    ensures TotalChars(a + b) == TotalChars(a) + TotalChars(b)
  {
    if |a| > 0 {
      assert (a + b)[1..] == a[1..] + b;
      TotalCharsAppend(a[1..], b);
    } else {
      assert a + b == b;
    }
  }

  /** Removing the message at `i` lowers the total by that message's length. */
  lemma {:induction false} TotalCharsRemove(ms: seq<ChatMessage>, i: nat)
    requires i < |ms|
    ensures TotalChars(ms) == TotalChars(ms[..i] + ms[i + 1..]) + Length(ms[i])
  {
    assert ms[..i] + ms[i..] == ms;
    TotalCharsAppend(ms[..i], ms[i..]);
    assert ms[i..][1..] == ms[i + 1..];
    TotalCharsAppend(ms[..i], ms[i + 1..]);
  }

  /** The shape `memoryBlockIndex` looks for. */
  predicate IsMemoryBlock(m: ChatMessage) {
    m.role == "system" && m.content.Some? && StartsWith(m.content.value, MemoryBlockPrefix)
  }

  /** `memoryBlockIndex`: 1 when the second message is a memory block, else -1. */
  function MemoryBlockIndex(ms: seq<ChatMessage>): int {
    if |ms| > 1 && IsMemoryBlock(ms[1]) then 1 else -1
  }

  // ---------------------------------------------------------------------
  // Clamping, as the list algorithm of `clampMessages` performs it.

  /** The list after removing `j` messages starting at position `t`. */
  function Without(ms: seq<ChatMessage>, t: nat, j: nat): seq<ChatMessage>
    requires t + j <= |ms|
  {
    ms[..t] + ms[t + j..]
  }

  /** The number of removals the `while` loop of `clampMessages` performs:
      it removes at `t` while over budget and `t` is before the last index. */
  function FirstFit(ms: seq<ChatMessage>, t: nat, max: int, j: nat): (r: nat)
    requires t + j <= |ms|
    ensures j <= r && t + r <= |ms|
    decreases |ms| - t - j
  {
    if TotalChars(Without(ms, t, j)) <= max || t + j + 1 >= |ms| then j
    else FirstFit(ms, t, max, j + 1)
  }

  /** Truncation of the last message to what is left of the budget. */
  function TruncateLast(ms: seq<ChatMessage>, max: int): seq<ChatMessage>
    requires |ms| > 0
  {
    var last := ms[|ms| - 1];
    var keep := if max - (TotalChars(ms) - Length(last)) > 0 then max - (TotalChars(ms) - Length(last)) else 0;
    var content := last.content.GetOr("");
    if |content| > keep then ms[..|ms| - 1] + [last.(content := Some(content[..keep]))] else ms
  }

  function TranscriptStart(ms: seq<ChatMessage>): nat {
    if MemoryBlockIndex(ms) == 1 then 2 else 1
  }

  /** Second stage: drop the memory block if still over budget. */
  function DropMemoryStage(a: seq<ChatMessage>, max: int): seq<ChatMessage> {
    if TotalChars(a) > max && MemoryBlockIndex(a) == 1 then a[..1] + a[2..] else a
  }

  /** Third stage: truncate the last message if still over budget. */
  function TruncateStage(b: seq<ChatMessage>, max: int): seq<ChatMessage> {
    if TotalChars(b) > max && |b| > 0 then TruncateLast(b, max) else b
  }

  /** What `clampMessages` returns for `ms`: the three stages (drop transcript
      turns oldest first, drop the memory block, truncate the last message),
      each only while the list is over budget. */
  function Clamp(ms: seq<ChatMessage>, max: int): seq<ChatMessage> {
    if max <= 0 || TotalChars(ms) <= max then ms
    else
      var t := TranscriptStart(ms);
      TruncateStage(DropMemoryStage(Without(ms, t, FirstFit(ms, t, max, 0)), max), max)
  }

  /** `totalChars`, as its loop computes it. */
  method SumLengths(ms: seq<ChatMessage>) returns (total: nat)
    ensures total == TotalChars(ms)
  {
    total := 0;
    var i := 0;
    while i < |ms|
      invariant 0 <= i <= |ms|
      invariant total + TotalChars(ms[i..]) == TotalChars(ms)
    {
      assert ms[i..][1..] == ms[i + 1..];
      total := total + Length(ms[i]);
      i := i + 1;
    }
  }

  /** The transcript-dropping loop of `clampMessages`: remove the message at
      `start` while the list is over budget and `start` is before the last
      index. */
  method DropOldestTurns(messages: seq<ChatMessage>, start: nat, maxPromptChars: int, total0: nat)
    returns (clamped: seq<ChatMessage>, total: nat)
    requires start <= |messages| && total0 == TotalChars(messages)
    ensures clamped == Without(messages, start, FirstFit(messages, start, maxPromptChars, 0))
    ensures total == TotalChars(clamped)
  {
    clamped := messages;
    total := total0;
    var lastIndex := |clamped| - 1;
    ghost var removed := 0;
    while total > maxPromptChars && start < lastIndex
      invariant start + removed <= |messages|
      invariant clamped == Without(messages, start, removed)
      invariant total == TotalChars(clamped)
      invariant lastIndex == |clamped| - 1
      invariant FirstFit(messages, start, maxPromptChars, removed) == FirstFit(messages, start, maxPromptChars, 0)
      decreases lastIndex - start
    {
      var gone := clamped[start];
      TotalCharsRemove(clamped, start);
      assert Without(messages, start, removed + 1) == clamped[..start] + clamped[start + 1..];
      clamped := clamped[..start] + clamped[start + 1..];
      total := total - Length(gone);
      lastIndex := lastIndex - 1;
      removed := removed + 1;
    }
  }

  /** `clampMessages`: the working list is copied, transcript messages are
      removed at the transcript start while the total is over budget, then
      the memory block, then the last message is cut to what is left. */
  method ClampMessages(messages: seq<ChatMessage>, maxPromptChars: int) returns (clamped: seq<ChatMessage>)
    ensures clamped == Clamp(messages, maxPromptChars)
  {
    if maxPromptChars <= 0 {
      return messages;
    }
    var total := SumLengths(messages);
    if total <= maxPromptChars {
      return messages;
    }
    var transcriptStart := if MemoryBlockIndex(messages) == 1 then 2 else 1;
    clamped, total := DropOldestTurns(messages, transcriptStart, maxPromptChars, total);
    clamped, total := DropMemoryBlock(clamped, maxPromptChars, total);
    clamped := TruncateLastMessage(clamped, maxPromptChars, total);
  }

  /** The memory-dropping step of `clampMessages`. */
  method DropMemoryBlock(messages: seq<ChatMessage>, maxPromptChars: int, total0: nat)
    returns (clamped: seq<ChatMessage>, total: nat)
    requires total0 == TotalChars(messages)
    ensures clamped == DropMemoryStage(messages, maxPromptChars)
    ensures total == TotalChars(clamped)
  {
    clamped, total := messages, total0;
    var memoryIndex := MemoryBlockIndex(clamped);
    if total > maxPromptChars && memoryIndex == 1 {
      var gone := clamped[1];
      TotalCharsRemove(clamped, 1);
      clamped := clamped[..1] + clamped[2..];
      total := total - Length(gone);
    }
  }

  /** The truncating step of `clampMessages`. */
  method TruncateLastMessage(messages: seq<ChatMessage>, maxPromptChars: int, total: nat)
    returns (clamped: seq<ChatMessage>)
    requires total == TotalChars(messages)
    ensures clamped == TruncateStage(messages, maxPromptChars)
  {
    clamped := messages;
    var lastIndex := |clamped| - 1;
    if total > maxPromptChars && lastIndex >= 0 {
      var last := clamped[lastIndex];
      var keep := if maxPromptChars - (total - Length(last)) > 0 then maxPromptChars - (total - Length(last)) else 0;
      var content := if last.content.None? then "" else last.content.value;
      if |content| > keep {
        clamped := clamped[..lastIndex] + [last.(content := Some(content[..keep]))];
      }
    }
  }

  // ---------------------------------------------------------------------
  // The same clamp seen on the structure of the context.

  /** The parts of a context, in the order they are sent. */
  datatype ContextWindow = ContextWindow(
    system: ChatMessage,
    memory: Option<ChatMessage>,
    transcript: seq<ChatMessage>,
    current: ChatMessage)

  function Messages(w: ContextWindow): seq<ChatMessage> {
    [w.system] + (if w.memory.Some? then [w.memory.value] else []) + w.transcript + [w.current]
  }

  /** What the builder guarantees about the parts: the memory block has the
      memory shape and no later message has the role "system". */
  predicate WellShaped(w: ContextWindow) {
    (w.memory.Some? ==> IsMemoryBlock(w.memory.value))
    && (forall i :: 0 <= i < |w.transcript| ==> w.transcript[i].role != "system")
    && w.current.role != "system"
  }

  function WindowChars(w: ContextWindow): nat {
    TotalChars(Messages(w))
  }

  predicate Fits(w: ContextWindow, max: int) {
    WindowChars(w) <= max
  }

  lemma {:induction false} WindowCharsSplit(w: ContextWindow)
    ensures WindowChars(w) == Length(w.system)
      + (if w.memory.Some? then Length(w.memory.value) else 0)
      + TotalChars(w.transcript) + Length(w.current)
  {
    var mem := if w.memory.Some? then [w.memory.value] else [];
    TotalCharsAppend([w.system] + mem + w.transcript, [w.current]);
    TotalCharsAppend([w.system] + mem, w.transcript);
    TotalCharsAppend([w.system], mem);
    assert TotalChars([w.current]) == Length(w.current);
    assert TotalChars([w.system]) == Length(w.system);
    if w.memory.Some? {
      assert TotalChars(mem) == Length(w.memory.value);
    }
  }

  /** The context without its `k` oldest transcript turns. */
  function DropOldest(w: ContextWindow, k: nat): ContextWindow
    requires k <= |w.transcript|
  {
    w.(transcript := w.transcript[k..])
  }

  function OldestDropCountFrom(w: ContextWindow, max: int, j: nat): (k: nat)
    requires j <= |w.transcript|
    ensures j <= k <= |w.transcript|
    ensures k < |w.transcript| ==> Fits(DropOldest(w, k), max)
    ensures forall i :: j <= i < k ==> !Fits(DropOldest(w, i), max)
    decreases |w.transcript| - j
  {
    if j == |w.transcript| || Fits(DropOldest(w, j), max) then j
    else OldestDropCountFrom(w, max, j + 1)
  }

  /** The fewest oldest turns whose removal brings the context within
      budget, or the whole transcript when no such number exists. */
  function OldestDropCount(w: ContextWindow, max: int): (k: nat)
    ensures k <= |w.transcript|
    ensures k < |w.transcript| ==> Fits(DropOldest(w, k), max)
    ensures forall i :: 0 <= i < k ==> !Fits(DropOldest(w, i), max)
  {
    OldestDropCountFrom(w, max, 0)
  }

  /** `m` with its content cut to `keep` characters (none if `keep` is
      negative); shorter content is left as it is. */
  function Truncated(m: ChatMessage, keep: int): ChatMessage {
    var k := if keep > 0 then keep else 0;
    var c := m.content.GetOr("");
    if |c| > k then m.(content := Some(c[..k])) else m
  }

  /** The clamp as a statement about the parts: within budget nothing
      changes; otherwise the fewest oldest turns are dropped, then the memory
      block if still needed, then the current turn is cut to what remains. */
  function ClampWindow(w: ContextWindow, max: int): ContextWindow {
    if max <= 0 || Fits(w, max) then w
    else
      var w1 := DropOldest(w, OldestDropCount(w, max));
      var w2 := if Fits(w1, max) then w1 else w1.(memory := None);
      if Fits(w2, max) then w2
      else w2.(current := Truncated(w2.current, max - (WindowChars(w2) - Length(w2.current))))
  }

  lemma {:induction false} WithoutIsDropOldest(w: ContextWindow, j: nat)
    requires j <= |w.transcript|
    ensures var t := if w.memory.Some? then 2 else 1;
      t + j <= |Messages(w)| && Without(Messages(w), t, j) == Messages(DropOldest(w, j))
  {
    var t := if w.memory.Some? then 2 else 1;
    var ms := Messages(w);
    assert ms[..t] == [w.system] + (if w.memory.Some? then [w.memory.value] else []);
    assert ms[t + j..] == w.transcript[j..] + [w.current];
  }

  lemma {:induction false} MemoryBlockIndexOfWindow(w: ContextWindow)
    requires WellShaped(w)
    ensures MemoryBlockIndex(Messages(w)) == 1 <==> w.memory.Some?
  {
    var ms := Messages(w);
    if w.memory.None? {
      if |w.transcript| > 0 {
        assert ms[1] == w.transcript[0];
      } else {
        assert ms[1] == w.current;
      }
    } else {
      assert ms[1] == w.memory.value;
    }
  }

  lemma {:induction false} FirstFitIsOldestDropCount(w: ContextWindow, max: int, j: nat)
    requires j <= |w.transcript|
    ensures var t := if w.memory.Some? then 2 else 1;
      t + j <= |Messages(w)| && FirstFit(Messages(w), t, max, j) == OldestDropCountFrom(w, max, j)
    decreases |w.transcript| - j
  {
    WithoutIsDropOldest(w, j);
    if j < |w.transcript| && !Fits(DropOldest(w, j), max) {
      FirstFitIsOldestDropCount(w, max, j + 1);
    }
  }

  /** The list algorithm and the structural statement agree on every
      well-shaped context. */
  lemma {:induction false} ClampWindowMatchesClamp(w: ContextWindow, max: int)
    requires WellShaped(w)
    ensures Clamp(Messages(w), max) == Messages(ClampWindow(w, max))
  {
    if max > 0 && !Fits(w, max) {
      var w1 := DropOldest(w, OldestDropCount(w, max));
      var w2 := if Fits(w1, max) then w1 else w1.(memory := None);
      DropStageOnWindow(w, max);
      MemoryStageOnWindow(w1, max);
      TruncateStageOnWindow(w2, max);
    }
  }

  /** First stage: the list algorithm drops the fewest oldest turns. */
  lemma {:induction false} DropStageOnWindow(w: ContextWindow, max: int)
    requires WellShaped(w)
    ensures var ms := Messages(w);
      var t := TranscriptStart(ms);
      t + FirstFit(ms, t, max, 0) <= |ms|
      && Without(ms, t, FirstFit(ms, t, max, 0)) == Messages(DropOldest(w, OldestDropCount(w, max)))
  {
    MemoryBlockIndexOfWindow(w);
    FirstFitIsOldestDropCount(w, max, 0);
    WithoutIsDropOldest(w, OldestDropCount(w, max));
  }

  /** Second stage: the list algorithm drops the memory block exactly when
      the context still does not fit. */
  lemma {:induction false} MemoryStageOnWindow(w1: ContextWindow, max: int)
    requires WellShaped(w1)
    ensures DropMemoryStage(Messages(w1), max) == Messages(if Fits(w1, max) then w1 else w1.(memory := None))
  {
    MemoryBlockIndexOfWindow(w1);
    var a := Messages(w1);
    if !Fits(w1, max) && w1.memory.Some? {
      assert a[..1] + a[2..] == Messages(w1.(memory := None));
    }
  }

  /** Third stage: the list algorithm cuts the current turn to what remains
      of the budget. */
  lemma {:induction false} TruncateStageOnWindow(w2: ContextWindow, max: int)
    ensures TruncateStage(Messages(w2), max)
         == Messages(if Fits(w2, max) then w2
                     else w2.(current := Truncated(w2.current, max - (WindowChars(w2) - Length(w2.current)))))
  {
    var b := Messages(w2);
    if !Fits(w2, max) {
      var w3 := w2.(current := Truncated(w2.current, max - (WindowChars(w2) - Length(w2.current))));
      assert b[|b| - 1] == w2.current;
      assert b[..|b| - 1] + [w3.current] == Messages(w3);
    }
  }

  /** What the clamp keeps and drops: the system prompt always stays; the
      transcript loses only its oldest turns and no more than needed; the
      memory block goes only once the transcript is gone and the rest is
      still over budget; the current turn is cut last, to a prefix of the
      budget left after the system prompt. */
  lemma {:induction false} ClampWindowKeepsAndDrops(w: ContextWindow, max: int)
    ensures var r := ClampWindow(w, max);
      && r.system == w.system
      && |r.transcript| <= |w.transcript|
      && r.transcript == w.transcript[|w.transcript| - |r.transcript|..]
      && (|r.transcript| < |w.transcript| ==>
            max > 0 && !Fits(DropOldest(w, |w.transcript| - |r.transcript| - 1), max))
      && (r.memory != w.memory ==>
            r.memory.None? && r.transcript == [] && !Fits(DropOldest(w, |w.transcript|), max))
      && (r.current != w.current ==>
            r.transcript == [] && r.memory.None? && !Fits(r.(current := w.current), max)
            && r.current == Truncated(w.current, max - Length(w.system)))
      && (max <= 0 || Fits(w, max) ==> r == w)
  {
    var r := ClampWindow(w, max);
    if max > 0 && !Fits(w, max) {
      var k := OldestDropCount(w, max);
      var w1 := DropOldest(w, k);
      var w2 := if Fits(w1, max) then w1 else w1.(memory := None);
      if !Fits(w2, max) {
        assert w1.transcript == [];
        WindowCharsSplit(w2);
        assert TotalChars(w2.transcript) == 0;
      }
    }
  }

  /** Within a positive budget the clamped context fits exactly when the
      system prompt alone does. */
  lemma {:induction false} ClampWindowBudget(w: ContextWindow, max: int)
    requires max > 0
    ensures Fits(ClampWindow(w, max), max) <==> Length(w.system) <= max
  {
    var r := ClampWindow(w, max);
    WindowCharsSplit(w);
    WindowCharsSplit(r);
    if !Fits(w, max) {
      var k := OldestDropCount(w, max);
      var w1 := DropOldest(w, k);
      var w2 := if Fits(w1, max) then w1 else w1.(memory := None);
      WindowCharsSplit(w2);
      if !Fits(w2, max) {
        assert w1.transcript == [];
        assert TotalChars(w2.transcript) == 0;
        assert TotalChars(r.transcript) == 0;
      }
    }
  }

  // ---------------------------------------------------------------------
  // The recent transcript.

  /** The last `n` elements of `s` (all of them when `s` is shorter). */
  function LastN<T>(s: seq<T>, n: int): (r: seq<T>)
    ensures |r| <= |s| && (n >= 0 ==> |r| <= n)
  {
    if n <= 0 then [] else if n >= |s| then s else s[|s| - n..]
  }

  /** The first `n` elements of `s` (all of them when `s` is shorter). */
  function FirstN<T>(s: seq<T>, n: int): (r: seq<T>)
    ensures |r| <= |s| && (n >= 0 ==> |r| <= n)
  {
    if n <= 0 then [] else if n >= |s| then s else s[..n]
  }

  function Reverse<T>(s: seq<T>): (r: seq<T>)
    ensures |r| == |s|
  {
    seq(|s|, k requires 0 <= k < |s| => s[|s| - 1 - k])
  }

  /** The filter of `fetchRecentMessages`: with a known current id, the
      message with that id is left out. */
  predicate KeepFor(m: MessageEntity, currentId: Option<int>) {
    currentId.None? || m.id != currentId
  }

  function WithoutCurrent(ms: seq<MessageEntity>, currentId: Option<int>): (r: seq<MessageEntity>)
    ensures |r| <= |ms|
  {
    if |ms| == 0 then []
    else WithoutCurrent(ms[..|ms| - 1], currentId) + (if KeepFor(ms[|ms| - 1], currentId) then [ms[|ms| - 1]] else [])
  }

  /** The recent transcript for a session whose stored turns are `history`
      in id order: of the newest `windowSize + 1` turns, the newest
      `windowSize` other than the current one, oldest first. */
  function RecentMessages(history: seq<MessageEntity>, currentId: Option<int>, windowSize: int): seq<MessageEntity> {
    if windowSize <= 0 then []
    else LastN(WithoutCurrent(LastN(history, windowSize + 1), currentId), windowSize)
  }

  lemma {:induction false} WithoutCurrentAppend(a: seq<MessageEntity>, b: seq<MessageEntity>, currentId: Option<int>)
    ensures WithoutCurrent(a + b, currentId) == WithoutCurrent(a, currentId) + WithoutCurrent(b, currentId)
    decreases |b|
  {
    if |b| == 0 {
      assert a + b == a;
    } else {
      assert (a + b)[..|a + b| - 1] == a + b[..|b| - 1];
      WithoutCurrentAppend(a, b[..|b| - 1], currentId);
    }
  }

  lemma {:induction false} WithoutCurrentReverse(s: seq<MessageEntity>, currentId: Option<int>)
    ensures WithoutCurrent(Reverse(s), currentId) == Reverse(WithoutCurrent(s, currentId))
    decreases |s|
  {
    if |s| > 0 {
      var init := s[..|s| - 1];
      var last := s[|s| - 1];
      var tail: seq<MessageEntity> := if KeepFor(last, currentId) then [last] else [];
      assert s == init + [last];
      ReverseSnoc(init, [last]);
      WithoutCurrentAppend([last], Reverse(init), currentId);
      WithoutCurrentSingle(last, currentId);
      WithoutCurrentReverse(init, currentId);
      assert WithoutCurrent(s, currentId) == WithoutCurrent(init, currentId) + tail;
      ReverseSnoc(WithoutCurrent(init, currentId), tail);
    }
  }

  lemma {:induction false} WithoutCurrentSingle(m: MessageEntity, currentId: Option<int>)
    ensures WithoutCurrent([m], currentId) == if KeepFor(m, currentId) then [m] else []
  {
    assert [m][..0] == [];
  }

  lemma {:induction false} ReverseSnoc<T>(s: seq<T>, tail: seq<T>)
    requires |tail| <= 1
    ensures Reverse(s + tail) == tail + Reverse(s)
  {
  }

  /** Everything the filter keeps passes it and comes from `ms`. */
  lemma {:induction false} WithoutCurrentSubset(ms: seq<MessageEntity>, currentId: Option<int>)
    ensures forall m :: m in WithoutCurrent(ms, currentId) ==> m in ms && KeepFor(m, currentId)
    decreases |ms|
  {
    if |ms| > 0 {
      var init := ms[..|ms| - 1];
      WithoutCurrentSubset(init, currentId);
      assert forall m :: m in init ==> m in ms;
    }
  }

  /** The filter keeps the id order. */
  lemma {:induction false} WithoutCurrentChronological(ms: seq<MessageEntity>, currentId: Option<int>)
    requires Chronological(ms)
    ensures Chronological(WithoutCurrent(ms, currentId))
    decreases |ms|
  {
    if |ms| > 0 {
      var init := ms[..|ms| - 1];
      var last := ms[|ms| - 1];
      assert Chronological(init);
      WithoutCurrentChronological(init, currentId);
      WithoutCurrentSubset(init, currentId);
      var front := WithoutCurrent(init, currentId);
      if KeepFor(last, currentId) {
        forall i | 0 <= i < |front|
          ensures front[i].id.Some? && front[i].id.value < last.id.value
        {
          assert front[i] in init;
          var k :| 0 <= k < |init| && init[k] == front[i];
          assert ms[k] == front[i];
        }
        ChronologicalSnoc(front, last);
      }
    }
  }

  lemma {:induction false} ChronologicalSnoc(front: seq<MessageEntity>, last: MessageEntity)
    requires Chronological(front) && last.id.Some?
    requires forall i :: 0 <= i < |front| ==> front[i].id.Some? && front[i].id.value < last.id.value
    ensures Chronological(front + [last])
  {
  }

  /** A filter that every element passes changes nothing. */
  lemma {:induction false} WithoutCurrentAllKept(ms: seq<MessageEntity>, currentId: Option<int>)
    requires forall i :: 0 <= i < |ms| ==> KeepFor(ms[i], currentId)
    ensures WithoutCurrent(ms, currentId) == ms
    decreases |ms|
  {
    if |ms| > 0 {
      WithoutCurrentAllKept(ms[..|ms| - 1], currentId);
    }
  }

  lemma {:induction false} FirstNOfReverse<T>(s: seq<T>, n: int)
    ensures FirstN(Reverse(s), n) == Reverse(LastN(s, n))
  {
  }

  lemma {:induction false} ReverseReverse<T>(s: seq<T>)
    ensures Reverse(Reverse(s)) == s
  {
  }

  /** The `filter(...).limit(windowSize)` stream stops after `i` elements
      with `filtered` kept: that is the first `windowSize` kept elements. */
  lemma {:induction false} LimitedFilter(desc: seq<MessageEntity>, i: nat, filtered: seq<MessageEntity>, currentId: Option<int>, windowSize: int)
    requires i <= |desc| && filtered == WithoutCurrent(desc[..i], currentId) && |filtered| <= windowSize
    requires i == |desc| || |filtered| == windowSize
    ensures filtered == FirstN(WithoutCurrent(desc, currentId), windowSize)
  {
    assert desc == desc[..i] + desc[i..];
    WithoutCurrentAppend(desc[..i], desc[i..], currentId);
    if i == |desc| {
      assert desc[i..] == [];
    }
  }

  lemma {:induction false} WithoutCurrentStep(s: seq<MessageEntity>, i: nat, currentId: Option<int>)
    requires i < |s|
    ensures WithoutCurrent(s[..i + 1], currentId)
         == WithoutCurrent(s[..i], currentId) + (if KeepFor(s[i], currentId) then [s[i]] else [])
  {
    assert s[..i + 1][..i] == s[..i];
  }

  /** `Collections.reverse`. */
  method ReverseList(s: seq<MessageEntity>) returns (r: seq<MessageEntity>)
    ensures r == Reverse(s)
  {
    r := s;
    var n := |s|;
    var lo := 0;
    while lo < n / 2
      invariant 0 <= lo <= n / 2 && |r| == n
      invariant forall k :: 0 <= k < lo ==> r[k] == s[n - 1 - k] && r[n - 1 - k] == s[k]
      invariant forall k :: lo <= k < n - lo ==> r[k] == s[k]
    {
      var tmp := r[lo];
      r := r[lo := r[n - 1 - lo]][n - 1 - lo := tmp];
      lo := lo + 1;
    }
  }

  /** `fetchRecentMessages`: read the newest `windowSize + 1` turns newest
      first, keep the first `windowSize` that are not the current turn, and
      put them back in chronological order. */
  method FetchRecentMessages(history: seq<MessageEntity>, currentId: Option<int>, windowSize: int)
    returns (recent: seq<MessageEntity>)
    ensures recent == RecentMessages(history, currentId, windowSize)
  {
    if windowSize <= 0 {
      return [];
    }
    var fetchSize := windowSize + 1;
    var page := LastN(history, fetchSize);
    var recentDesc := Reverse(page);
    var filtered: seq<MessageEntity> := [];
    var i := 0;
    while i < |recentDesc| && |filtered| < windowSize
      invariant 0 <= i <= |recentDesc|
      invariant filtered == WithoutCurrent(recentDesc[..i], currentId)
      invariant |filtered| <= windowSize
    {
      WithoutCurrentStep(recentDesc, i, currentId);
      if KeepFor(recentDesc[i], currentId) {
        filtered := filtered + [recentDesc[i]];
      }
      i := i + 1;
    }
    LimitedFilter(recentDesc, i, filtered, currentId, windowSize);
    recent := ReverseList(filtered);
    ReversedPageIsRecent(history, currentId, windowSize);
  }

  /** Filtering and limiting the newest-first page, then reversing, is taking
      the newest kept turns of the page in order. */
  lemma {:induction false} ReversedPageIsRecent(history: seq<MessageEntity>, currentId: Option<int>, windowSize: int)
    requires windowSize > 0
    ensures Reverse(FirstN(WithoutCurrent(Reverse(LastN(history, windowSize + 1)), currentId), windowSize))
         == RecentMessages(history, currentId, windowSize)
  {
    var page := LastN(history, windowSize + 1);
    WithoutCurrentReverse(page, currentId);
    var kept := WithoutCurrent(page, currentId);
    FirstNOfReverse(kept, windowSize);
    ReverseReverse(LastN(kept, windowSize));
  }

  /** The recent transcript is at most `windowSize` turns, never holds the
      current turn, and stays in id order. */
  lemma {:induction false} RecentMessagesBounded(history: seq<MessageEntity>, current: MessageEntity, windowSize: int)
    ensures var r := RecentMessages(history, current.id, windowSize);
      && |r| <= (if windowSize > 0 then windowSize else 0)
      && (forall m :: m in r ==> m in history && KeepFor(m, current.id))
      && (Chronological(history) ==> Chronological(r))
  {
    if windowSize > 0 {
      var page := LastN(history, windowSize + 1);
      WithoutCurrentSubset(page, current.id);
      var kept := WithoutCurrent(page, current.id);
      LastNSuffix(history, windowSize + 1);
      LastNSuffix(kept, windowSize);
      if Chronological(history) {
        WithoutCurrentChronological(page, current.id);
      }
    }
  }

  /** The last `n` elements are taken from `s`, in its order. */
  lemma {:induction false} LastNSuffix(s: seq<MessageEntity>, n: int)
    ensures forall m :: m in LastN(s, n) ==> m in s
    ensures Chronological(s) ==> Chronological(LastN(s, n))
  {
    if 0 < n < |s| {
      var r := LastN(s, n);
      forall k | 0 <= k < |r|
        ensures r[k] == s[|s| - n + k]
      {
      }
    }
  }

  /** When the current turn is the newest stored one, the recent transcript
      is exactly the `windowSize` turns before it. */
  lemma {:induction false} RecentMessagesBeforeCurrent(history: seq<MessageEntity>, windowSize: int)
    requires Chronological(history) && |history| > 0 && windowSize > 0
    ensures RecentMessages(history, history[|history| - 1].id, windowSize)
         == LastN(history[..|history| - 1], windowSize)
  {
    var current := history[|history| - 1];
    var older := LastN(history[..|history| - 1], windowSize);
    LastNSnoc(history, windowSize);
    WithoutCurrentAppend(older, [current], current.id);
    assert WithoutCurrent([current], current.id) == [] by {
      assert [current][..0] == [];
    }
    OlderTurnsKept(history, windowSize);
    WithoutCurrentAllKept(older, current.id);
  }

  lemma {:induction false} LastNSnoc(s: seq<MessageEntity>, n: nat)
    requires |s| > 0
    ensures LastN(s, n + 1) == LastN(s[..|s| - 1], n) + [s[|s| - 1]]
  {
  }

  /** In id order, none of the turns before the newest one carries its id. */
  lemma {:induction false} OlderTurnsKept(history: seq<MessageEntity>, windowSize: int)
    requires Chronological(history) && |history| > 0
    ensures var older := LastN(history[..|history| - 1], windowSize);
      forall i :: 0 <= i < |older| ==> KeepFor(older[i], history[|history| - 1].id)
  {
    var older := LastN(history[..|history| - 1], windowSize);
    forall i | 0 <= i < |older|
      ensures KeepFor(older[i], history[|history| - 1].id)
    {
      assert older[i] == history[|history| - 1 - |older| + i];
    }
  }

  // ---------------------------------------------------------------------
  // Assembly.

  function SystemMessage(systemPrompt: Option<string>): ChatMessage {
    ChatMessage("system", Some(systemPrompt.GetOr("")))
  }

  /** The memory block is sent only for a present, non-blank memory text
      the validator accepts. */
  function MemoryMessage(memoryJson: Option<string>, readTree: MemoryJsonValidator.JsonReader): Option<ChatMessage> {
    if HasText(memoryJson) && MemoryJsonValidator.IsValid(memoryJson, readTree)
    then Some(ChatMessage("system", Some(MemoryBlockPrefix + memoryJson.value)))
    else None
  }

  function TranscriptMessage(m: MessageEntity): ChatMessage {
    ChatMessage(RoleFor(m.author), m.content)
  }

  function TranscriptMessages(ms: seq<MessageEntity>): (r: seq<ChatMessage>)
    ensures |r| == |ms|
  {
    seq(|ms|, i requires 0 <= i < |ms| => TranscriptMessage(ms[i]))
  }

  /** The context before clamping, for a session with stored memory text
      `memoryJson` and stored turns `history` (in id order). */
  function UnclampedContext(memoryJson: Option<string>, history: seq<MessageEntity>, current: MessageEntity,
                            systemPrompt: Option<string>, config: ContextConfig,
                            readTree: MemoryJsonValidator.JsonReader): (w: ContextWindow)
    ensures WellShaped(w)
  {
    var windowSize := if config.windowSizeMessages > 0 then config.windowSizeMessages else 0;
    ContextWindow(
      SystemMessage(systemPrompt),
      MemoryMessage(memoryJson, readTree),
      TranscriptMessages(RecentMessages(history, current.id, windowSize)),
      ChatMessage("user", current.content))
  }

  /** `buildContextMessages`: the list assembled in order, then clamped. */
  method BuildContextMessages(memoryJson: Option<string>, history: seq<MessageEntity>, current: MessageEntity,
                              systemPrompt: Option<string>, config: ContextConfig,
                              readTree: MemoryJsonValidator.JsonReader)
    returns (messages: seq<ChatMessage>)
    ensures messages == Messages(ClampWindow(UnclampedContext(memoryJson, history, current, systemPrompt, config, readTree),
                                             config.maxPromptChars))
  {
    var all := AssembleContext(memoryJson, history, current, systemPrompt, config, readTree);
    messages := ClampMessages(all, config.maxPromptChars);
    ClampWindowMatchesClamp(UnclampedContext(memoryJson, history, current, systemPrompt, config, readTree),
                            config.maxPromptChars);
  }

  /** The list `buildContextMessages` builds before clamping: the system
      prompt, the memory block when there is one, the recent turns, then the
      current message. */
  method AssembleContext(memoryJson: Option<string>, history: seq<MessageEntity>, current: MessageEntity,
                         systemPrompt: Option<string>, config: ContextConfig,
                         readTree: MemoryJsonValidator.JsonReader)
    returns (all: seq<ChatMessage>)
    ensures all == Messages(UnclampedContext(memoryJson, history, current, systemPrompt, config, readTree))
  {
    var windowSize := if config.windowSizeMessages > 0 then config.windowSizeMessages else 0;
    var recentMessages := FetchRecentMessages(history, current.id, windowSize);
    all := [SystemMessage(systemPrompt)];
    if memoryJson.Some? && !IsBlank(memoryJson.value) && MemoryJsonValidator.IsValid(memoryJson, readTree) {
      all := all + [ChatMessage("system", Some(MemoryBlockPrefix + memoryJson.value))];
    }
    assert all == [SystemMessage(systemPrompt)]
                  + (if MemoryMessage(memoryJson, readTree).Some? then [MemoryMessage(memoryJson, readTree).value] else []);
    all := AppendTranscript(all, recentMessages);
    all := all + [ChatMessage("user", current.content)];
  }

  /** What `buildContextMessages` sends around the transcript, whatever the
      budget: the system prompt first (empty when absent); a memory block
      only for a present, non-blank memory text the validator accepts,
      holding that text after its prefix; and the current message last, as
      a user turn, cut only when there is a positive budget. */
  lemma {:induction false} BuiltContextFrame(memoryJson: Option<string>, history: seq<MessageEntity>, current: MessageEntity,
                                             systemPrompt: Option<string>, config: ContextConfig,
                                             readTree: MemoryJsonValidator.JsonReader)
    ensures var w := ClampWindow(UnclampedContext(memoryJson, history, current, systemPrompt, config, readTree),
                                 config.maxPromptChars);
      && w.system == ChatMessage("system", Some(systemPrompt.GetOr("")))
      && (w.memory.Some? ==>
            HasText(memoryJson) && MemoryJsonValidator.IsValid(memoryJson, readTree)
            && w.memory.value == ChatMessage("system", Some(MemoryBlockPrefix + memoryJson.value)))
      && w.current.role == "user"
      && (w.current.content == current.content || config.maxPromptChars > 0)
  {
    ClampWindowKeepsAndDrops(UnclampedContext(memoryJson, history, current, systemPrompt, config, readTree),
                             config.maxPromptChars);
  }

  /** The transcript `buildContextMessages` sends: at most `windowSize`
      stored turns, each with the role of its author and its own content,
      none of them the current message. */
  lemma {:induction false} BuiltContextTranscript(memoryJson: Option<string>, history: seq<MessageEntity>, current: MessageEntity,
                                                  systemPrompt: Option<string>, config: ContextConfig,
                                                  readTree: MemoryJsonValidator.JsonReader)
    ensures var w := ClampWindow(UnclampedContext(memoryJson, history, current, systemPrompt, config, readTree),
                                 config.maxPromptChars);
      && |w.transcript| <= (if config.windowSizeMessages > 0 then config.windowSizeMessages else 0)
      && (forall i :: 0 <= i < |w.transcript| ==>
            exists m :: m in history && KeepFor(m, current.id) && w.transcript[i] == TranscriptMessage(m))
  {
    var u := UnclampedContext(memoryJson, history, current, systemPrompt, config, readTree);
    var windowSize := if config.windowSizeMessages > 0 then config.windowSizeMessages else 0;
    var recent := RecentMessages(history, current.id, windowSize);
    assert u.transcript == TranscriptMessages(recent);
    RecentMessagesBounded(history, current, windowSize);
    ClampWindowKeepsAndDrops(u, config.maxPromptChars);
    var w := ClampWindow(u, config.maxPromptChars);
    forall i | 0 <= i < |w.transcript|
      ensures exists m :: m in history && KeepFor(m, current.id) && w.transcript[i] == TranscriptMessage(m)
    {
      var k := |u.transcript| - |w.transcript| + i;
      assert w.transcript[i] == u.transcript[k];
      assert recent[k] in recent;
    }
  }

  /** The loop over the recent turns, each added with its role. */
  method AppendTranscript(head: seq<ChatMessage>, recentMessages: seq<MessageEntity>) returns (all: seq<ChatMessage>)
    ensures all == head + TranscriptMessages(recentMessages)
  {
    all := head;
    for i := 0 to |recentMessages|
      invariant all == head + TranscriptMessages(recentMessages[..i])
    {
      assert TranscriptMessages(recentMessages[..i + 1]) == TranscriptMessages(recentMessages[..i]) + [TranscriptMessage(recentMessages[i])];
      all := all + [ChatMessage(RoleFor(recentMessages[i].author), recentMessages[i].content)];
    }
    assert recentMessages[..|recentMessages|] == recentMessages;
  }
}
