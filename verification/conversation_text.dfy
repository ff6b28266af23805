/** The plain-text rendering of stored turns that both the memory compactor
    and the context composer write: one `LABEL: content` line per turn. */
module ConversationText {
  import opened Wrappers
  import opened Domain

  /** `labelFor`: "ASSISTANT" for the assistant's turns, "USER" for the rest. */
  function LabelFor(author: MessageAuthor): string {
    if author == ASSISTANT then "ASSISTANT" else "USER"
  }

  /** One turn as a line; a null content is written as the empty string. */
  function Line(m: MessageEntity): string {
    LabelFor(m.author) + ": " + m.content.GetOr("") + "\n"
  }

  /** The lines of `ms`, in order. */
  function Lines(ms: seq<MessageEntity>): string {
    if |ms| == 0 then "" else Line(ms[0]) + Lines(ms[1..])
  }

  /** Rendering is a homomorphism: the lines of two runs of turns are the
      lines of the first followed by those of the second. */
  lemma {:induction false} LinesAppend(a: seq<MessageEntity>, b: seq<MessageEntity>)
    ensures Lines(a + b) == Lines(a) + Lines(b)
  {
    if |a| == 0 {
      assert a + b == b;
    } else {
      assert (a + b)[1..] == a[1..] + b;
      LinesAppend(a[1..], b);
    }
  }

  /** Turn `i` is rendered as exactly its own line, right after the lines of
      the turns before it: nothing is dropped, reordered or merged. */
  lemma {:induction false} LineOfEachTurn(ms: seq<MessageEntity>, i: nat)
    requires i < |ms|
    ensures |Lines(ms[..i])| + |Line(ms[i])| <= |Lines(ms)|
    ensures Lines(ms)[|Lines(ms[..i])|..|Lines(ms[..i])| + |Line(ms[i])|] == Line(ms[i])
  {
    assert ms == ms[..i] + ([ms[i]] + ms[i + 1..]);
    LinesAppend(ms[..i], [ms[i]] + ms[i + 1..]);
    LinesAppend([ms[i]], ms[i + 1..]);
    assert Lines([ms[i]]) == Line(ms[i]) by {
      assert [ms[i]][1..] == [];
    }
  }

  /** The lines of the first `i + 1` turns extend those of the first `i`
      by the line of turn `i`. */
  lemma {:induction false} LinesOfSnoc(ms: seq<MessageEntity>, i: nat)
    requires i < |ms|
    ensures Lines(ms[..i + 1]) == Lines(ms[..i]) + Line(ms[i])
  {
    assert ms[..i + 1] == ms[..i] + [ms[i]];
    LinesAppend(ms[..i], [ms[i]]);
    assert Lines([ms[i]]) == Line(ms[i]) by {
      assert [ms[i]][1..] == [];
    }
  }
}
