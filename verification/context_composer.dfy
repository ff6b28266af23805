/** `ContextComposer`: the single-text prompt layout with its fixed section
    markers: system prompt, optional memory, recent conversation, the user's
    message and the closing instructions. */
module ContextComposer {
  import opened Wrappers
  import opened JavaStrings
  import opened Domain
  import opened ConversationText
  import opened TextLayout

  const SystemHeader: string := "[SYSTEM_PROMPT]\n"
  const MemoryHeader: string := "[MEMORY_JSON]\n"
  const ConversationHeader: string := "[RECENT_CONVERSATION]\n"
  const UserHeader: string := "\n[USER_MESSAGE]\n"
  const Instructions: string :=
    "[INSTRUCTIONS]\nAnswer the user. Use MEMORY_JSON and RECENT_CONVERSATION. If unknown, ask a question."

  function SystemSection(systemPrompt: Option<string>): string {
    SystemHeader + systemPrompt.GetOr("") + "\n\n"
  }

  /** The memory block, written only for a present, non-blank memory text;
      its schema is not checked here. */
  function MemorySection(memoryJson: Option<string>): string {
    if HasText(memoryJson) then MemoryHeader + memoryJson.value + "\n\n" else ""
  }

  /** The recent turns, one line each; a null list gives no lines. */
  function ConversationSection(recentMessages: Option<seq<MessageEntity>>): string {
    ConversationHeader + (if recentMessages.None? then "" else Lines(recentMessages.value))
  }

  /** The blank line and the instructions that end every prompt. */
  const Closing: string := "\n\n" + Instructions

  function UserSection(currentUserMessage: Option<string>): string {
    (UserHeader + currentUserMessage.GetOr("")) + Closing
  }

  /** What `compose` returns. */
  function Composed(systemPrompt: Option<string>, memoryJson: Option<string>,
                    recentMessages: Option<seq<MessageEntity>>, currentUserMessage: Option<string>): string {
    SystemSection(systemPrompt) + MemorySection(memoryJson)
    + ConversationSection(recentMessages) + UserSection(currentUserMessage)
  }

  /** `compose`. */
  method Compose(systemPrompt: Option<string>, memoryJson: Option<string>,
                 recentMessages: Option<seq<MessageEntity>>, currentUserMessage: Option<string>)
    returns (prompt: string)
    ensures prompt == Composed(systemPrompt, memoryJson, recentMessages, currentUserMessage)
  {
    var system := SystemHeader + (if systemPrompt.None? then "" else systemPrompt.value) + "\n\n";
    var memory := "";
    if memoryJson.Some? && !IsBlank(memoryJson.value) {
      memory := MemoryHeader + memoryJson.value + "\n\n";
    }
    var lines := "";
    if recentMessages.Some? {
      var ms := recentMessages.value;
      for i := 0 to |ms|
        invariant lines == Lines(ms[..i])
      {
        var message := ms[i];
        var text := if message.content.None? then "" else message.content.value;
        LinesOfSnoc(ms, i);
        lines := lines + (LabelFor(message.author) + ": " + text + "\n");
      }
      assert ms[..|ms|] == ms;
    }
    var user := (UserHeader + (if currentUserMessage.None? then "" else currentUserMessage.value)) + Closing;
    assert system == SystemSection(systemPrompt);
    assert memory == MemorySection(memoryJson);
    assert ConversationHeader + lines == ConversationSection(recentMessages);
    assert user == UserSection(currentUserMessage);
    prompt := system;
    prompt := prompt + memory;
    prompt := prompt + (ConversationHeader + lines);
    prompt := prompt + user;
  }

  /** Where each section starts. */
  function MemoryOffset(systemPrompt: Option<string>): nat {
    |SystemSection(systemPrompt)|
  }

  function ConversationOffset(systemPrompt: Option<string>, memoryJson: Option<string>): nat {
    |SystemSection(systemPrompt)| + |MemorySection(memoryJson)|
  }

  function UserOffset(systemPrompt: Option<string>, memoryJson: Option<string>,
                      recentMessages: Option<seq<MessageEntity>>): nat {
    ConversationOffset(systemPrompt, memoryJson) + |ConversationSection(recentMessages)|
  }

  /** The prompt opens with the system prompt section; an absent system
      prompt is written as the empty string. */
  lemma {:induction false} ComposedOpensWithSystemPrompt(systemPrompt: Option<string>, memoryJson: Option<string>,
                                      recentMessages: Option<seq<MessageEntity>>, currentUserMessage: Option<string>)
    ensures OccursAt(Composed(systemPrompt, memoryJson, recentMessages, currentUserMessage),
                     SystemHeader + systemPrompt.GetOr("") + "\n\n", 0)
  {
    FirstOfFour(SystemSection(systemPrompt), MemorySection(memoryJson),
                ConversationSection(recentMessages), UserSection(currentUserMessage));
  }

  /** The prompt always closes with a blank line and the fixed
      instructions. */
  lemma {:induction false} ComposedClosesWithInstructions(systemPrompt: Option<string>, memoryJson: Option<string>,
                                       recentMessages: Option<seq<MessageEntity>>, currentUserMessage: Option<string>)
    ensures OccursAt(Composed(systemPrompt, memoryJson, recentMessages, currentUserMessage), Closing,
                     |Composed(systemPrompt, memoryJson, recentMessages, currentUserMessage)| - |Closing|)
  {
    LastOfFour(SystemSection(systemPrompt), MemorySection(memoryJson), ConversationSection(recentMessages),
               UserHeader + currentUserMessage.GetOr(""), Closing);
  }

  /** The memory block follows the system prompt section exactly when the
      memory text is present and not blank. */
  lemma {:induction false} ComposedMemoryBlockIff(systemPrompt: Option<string>, memoryJson: Option<string>,
                               recentMessages: Option<seq<MessageEntity>>, currentUserMessage: Option<string>)
    ensures HasText(memoryJson) <==> OccursAt(Composed(systemPrompt, memoryJson, recentMessages, currentUserMessage),
                                             MemoryHeader, MemoryOffset(systemPrompt))
  {
    var prompt := Composed(systemPrompt, memoryJson, recentMessages, currentUserMessage);
    if HasText(memoryJson) {
      ComposedMemoryBlock(systemPrompt, memoryJson, recentMessages, currentUserMessage);
      OccursPrefix(MemoryHeader, memoryJson.value + "\n\n");
      OccursWithin(prompt, MemoryHeader + memoryJson.value + "\n\n", MemoryOffset(systemPrompt), MemoryHeader, 0);
    } else {
      ComposedConversationHeader(systemPrompt, memoryJson, recentMessages, currentUserMessage);
      HeadersDiffer(prompt, MemoryOffset(systemPrompt));
    }
  }

  /** The memory and conversation headers differ in their second character,
      so they never start at the same place. */
  lemma {:induction false} HeadersDiffer(s: string, k: nat)
    requires OccursAt(s, ConversationHeader, k)
    ensures !OccursAt(s, MemoryHeader, k)
  {
    OccursAtIndex(s, ConversationHeader, k, 1);
    if OccursAt(s, MemoryHeader, k) {
      OccursAtIndex(s, MemoryHeader, k, 1);
    }
  }

  /** A present, non-blank memory text is written in full after the system
      prompt section, with no schema check. */
  lemma {:induction false} ComposedMemoryBlock(systemPrompt: Option<string>, memoryJson: Option<string>,
                            recentMessages: Option<seq<MessageEntity>>, currentUserMessage: Option<string>)
    requires HasText(memoryJson)
    ensures OccursAt(Composed(systemPrompt, memoryJson, recentMessages, currentUserMessage),
                     MemoryHeader + memoryJson.value + "\n\n", MemoryOffset(systemPrompt))
  {
    SecondOfFour(SystemSection(systemPrompt), MemorySection(memoryJson),
                 ConversationSection(recentMessages), UserSection(currentUserMessage));
  }

  /** The conversation section follows the memory block. */
  lemma {:induction false} ComposedConversationHeader(systemPrompt: Option<string>, memoryJson: Option<string>,
                                   recentMessages: Option<seq<MessageEntity>>, currentUserMessage: Option<string>)
    ensures OccursAt(Composed(systemPrompt, memoryJson, recentMessages, currentUserMessage),
                     ConversationHeader, ConversationOffset(systemPrompt, memoryJson))
  {
    ThirdOfFour(SystemSection(systemPrompt), MemorySection(memoryJson),
                ConversationSection(recentMessages), UserSection(currentUserMessage));
    SectionHeader(recentMessages);
    OccursWithin(Composed(systemPrompt, memoryJson, recentMessages, currentUserMessage),
                 ConversationSection(recentMessages), ConversationOffset(systemPrompt, memoryJson),
                 ConversationHeader, 0);
  }

  /** The conversation section opens with its header. */
  lemma {:induction false} SectionHeader(recentMessages: Option<seq<MessageEntity>>)
    ensures OccursAt(ConversationSection(recentMessages), ConversationHeader, 0)
  {
    OccursPrefix(ConversationHeader, if recentMessages.None? then "" else Lines(recentMessages.value));
  }

  /** The user's message (an absent one written as the empty string)
      follows the conversation. */
  lemma {:induction false} ComposedUserMessage(systemPrompt: Option<string>, memoryJson: Option<string>,
                            recentMessages: Option<seq<MessageEntity>>, currentUserMessage: Option<string>)
    ensures OccursAt(Composed(systemPrompt, memoryJson, recentMessages, currentUserMessage),
                     UserHeader + currentUserMessage.GetOr(""), UserOffset(systemPrompt, memoryJson, recentMessages))
  {
    var head, tail := UserHeader + currentUserMessage.GetOr(""), "\n\n" + Instructions;
    FourthOfFour(SystemSection(systemPrompt), MemorySection(memoryJson),
                 ConversationSection(recentMessages), UserSection(currentUserMessage));
    OccursPrefix(head, tail);
    OccursWithin(Composed(systemPrompt, memoryJson, recentMessages, currentUserMessage),
                 UserSection(currentUserMessage), UserOffset(systemPrompt, memoryJson, recentMessages), head, 0);
  }

  /** Turn `i` of the recent conversation is written as its own line inside
      the conversation section, after the lines of the earlier turns. */
  lemma {:induction false} ComposedTurnLine(systemPrompt: Option<string>, memoryJson: Option<string>,
                         recentMessages: seq<MessageEntity>, currentUserMessage: Option<string>, i: nat)
    requires i < |recentMessages|
    ensures OccursAt(Composed(systemPrompt, memoryJson, Some(recentMessages), currentUserMessage),
                     Line(recentMessages[i]), TurnOffset(systemPrompt, memoryJson, recentMessages, i))
  {
    SectionTurnLine(recentMessages, i);
    WithinThird(SystemSection(systemPrompt), MemorySection(memoryJson),
                ConversationSection(Some(recentMessages)), UserSection(currentUserMessage),
                Line(recentMessages[i]), |ConversationHeader| + |Lines(recentMessages[..i])|);
  }

  /** What occurs inside the third of four parts occurs in the whole,
      shifted by the first two. */
  lemma {:induction false} WithinThird(a: string, b: string, c: string, d: string, q: string, j: int)
    requires OccursAt(c, q, j)
    ensures OccursAt(a + b + c + d, q, |a| + |b| + j)
  {
    ThirdOfFour(a, b, c, d);
    OccursWithin(a + b + c + d, c, |a| + |b|, q, j);
  }

  /** Turn `i` inside the conversation section. */
  lemma {:induction false} SectionTurnLine(ms: seq<MessageEntity>, i: nat)
    requires i < |ms|
    ensures OccursAt(ConversationSection(Some(ms)), Line(ms[i]), |ConversationHeader| + |Lines(ms[..i])|)
  {
    OccursSuffix(ConversationHeader, Lines(ms));
    LineOfEachTurn(ms, i);
    OccursWithin(ConversationHeader + Lines(ms), Lines(ms), |ConversationHeader|, Line(ms[i]), |Lines(ms[..i])|);
  }

  /** Where turn `i` of the recent conversation is written. */
  function TurnOffset(systemPrompt: Option<string>, memoryJson: Option<string>,
                      recentMessages: seq<MessageEntity>, i: nat): nat
    requires i < |recentMessages|
  {
    ConversationOffset(systemPrompt, memoryJson) + |ConversationHeader| + |Lines(recentMessages[..i])|
  }

  /** The turns' lines come after the memory block, in the order of the
      turns, and before the user's message. */
  lemma {:induction false} TurnOffsetsOrdered(systemPrompt: Option<string>, memoryJson: Option<string>,
                           recentMessages: seq<MessageEntity>, i: nat)
    requires i < |recentMessages|
    ensures MemoryOffset(systemPrompt) + |MemorySection(memoryJson)| < TurnOffset(systemPrompt, memoryJson, recentMessages, i)
    ensures i + 1 < |recentMessages| ==>
              TurnOffset(systemPrompt, memoryJson, recentMessages, i) + |Line(recentMessages[i])|
              == TurnOffset(systemPrompt, memoryJson, recentMessages, i + 1)
    ensures TurnOffset(systemPrompt, memoryJson, recentMessages, i) + |Line(recentMessages[i])|
            <= UserOffset(systemPrompt, memoryJson, Some(recentMessages))
  {
    LineOfEachTurn(recentMessages, i);
    if i + 1 < |recentMessages| {
      LinesOfSnoc(recentMessages, i);
    }
  }
}
