/** `ChatService`: one chat turn against a session. It saves the user's
    message, asks the model with the assembled context (for an attached PDF,
    with the document prompt in place of the user's message), saves the
    reply, and compacts the session memory when enough new turns have
    accumulated. The order of the repository saves is part of the behaviour. */
module ChatService {
  import opened Wrappers
  import opened JavaStrings
  import opened Domain
  import MemoryJsonValidator
  import MemoryUpdateService
  import ChatContextService
  import TextChunker
  import LexicalRetriever
  import PdfPromptBuilder
  import PdfTextExtractor

  /** One repository save, in the order the service issues them. */
  datatype Save = MessageSaved(author: MessageAuthor) | SessionSaved

  /** The application properties the service reads. */
  datatype Settings = Settings(
    systemPrompt: Option<string>,
    context: ChatContextService.ContextConfig,
    memoryUpdateEveryMessages: int,
    pdf: PdfTextExtractor.PdfLimits,
    directInjectMaxChars: int,
    chunkSizeChars: int,
    chunkOverlapChars: int,
    topK: int,
    minChunkScoreThreshold: real)

  /** The collaborators whose behaviour the service depends on: the model,
      the JSON parser, PDFBox, and the natural logarithm of the BM25 scorer. */
  datatype Collaborators = Collaborators(
    chatModel: ChatModel,
    readTree: MemoryJsonValidator.JsonReader,
    pdfBox: PdfTextExtractor.PdfReader,
    ln: real -> real)

  /** What a successful turn returns: the ids of the two saved messages and
      the reply. */
  datatype ChatResponse = ChatResponse(userMessageId: int, assistantMessageId: int, assistantReply: string)

  /** A session and its stored turns, as values: the memory text, the id of
      the last compacted turn, the turns in id order, the next id the
      repository assigns, and the saves made so far. */
  datatype SessionState = SessionState(
    memoryJson: Option<string>,
    lastMemoryMessageId: Option<int>,
    stored: seq<MessageEntity>,
    nextId: int,
    saves: seq<Save>)

  /** The stored turns carry increasing ids, all below the next one. */
  ghost predicate Consistent(s: SessionState) {
    Chronological(s.stored) && forall m :: m in s.stored ==> m.id.value < s.nextId
  }

  /** What a turn does: the session afterwards and the response or the error. */
  datatype Outcome = Outcome(state: SessionState, result: Result<ChatResponse, ErrorCode>)

  // ---------------------------------------------------------------------
  // Loading the turns since the last compaction.

  predicate Newer(m: MessageEntity, lastMemoryMessageId: int) {
    m.id.Some? && m.id.value > lastMemoryMessageId
  }

  function After(stored: seq<MessageEntity>, lastMemoryMessageId: int): (r: seq<MessageEntity>)
    ensures forall m :: m in r <==> m in stored && Newer(m, lastMemoryMessageId)
  {
    if |stored| == 0 then []
    else
      var rest := After(stored[..|stored| - 1], lastMemoryMessageId);
      var last := stored[|stored| - 1];
      assert forall m :: m in stored <==> m in stored[..|stored| - 1] || m == last;
      if Newer(last, lastMemoryMessageId) then rest + [last] else rest
  }

  /** `loadMessagesSinceLastMemory`: every stored turn when nothing was
      compacted yet, otherwise the turns with a larger id, in id order. */
  function MessagesSince(stored: seq<MessageEntity>, lastMemoryMessageId: Option<int>): (r: seq<MessageEntity>)
    ensures lastMemoryMessageId.None? ==> r == stored
    ensures lastMemoryMessageId.Some? ==>
              forall m :: m in r <==> m in stored && Newer(m, lastMemoryMessageId.value)
    ensures Chronological(stored) ==> Chronological(r)
  {
    if lastMemoryMessageId.None? then stored
    else AfterInOrder(stored, lastMemoryMessageId.value); After(stored, lastMemoryMessageId.value)
  }

  /** Filtering keeps the id order. */
  lemma {:induction false} AfterInOrder(stored: seq<MessageEntity>, lastMemoryMessageId: int)
    ensures Chronological(stored) ==> Chronological(After(stored, lastMemoryMessageId))
  {
    if |stored| > 0 && Chronological(stored) {
      var front := stored[..|stored| - 1];
      var last := stored[|stored| - 1];
      assert Chronological(front);
      AfterInOrder(front, lastMemoryMessageId);
      var rest := After(front, lastMemoryMessageId);
      if Newer(last, lastMemoryMessageId) {
        forall i | 0 <= i < |rest|
          ensures rest[i].id.value < last.id.value
        {
          assert rest[i] in front;
          var k :| 0 <= k < |front| && front[k] == rest[i];
          assert stored[k] == rest[i];
        }
        assert Chronological(rest + [last]);
      }
    }
  }

  // ---------------------------------------------------------------------
  // Compaction.

  /** What `updateSessionMemoryIfNeeded` decides: leave the session alone,
      or store a new memory text and the id of the last compacted turn. */
  datatype Compaction = Untouched | Compacted(memoryJson: Option<string>, lastMemoryMessageId: Option<int>)

  function CompactionOf(threshold: int, memoryJson: Option<string>, lastMemoryMessageId: Option<int>,
                        stored: seq<MessageEntity>, chatModel: ChatModel,
                        readTree: MemoryJsonValidator.JsonReader): Compaction {
    if threshold <= 0 then Untouched
    else
      var batch := MessagesSince(stored, lastMemoryMessageId);
      if |batch| < threshold then Untouched
      else
        var result := MemoryUpdateService.UpdateMemory(memoryJson, Some(batch), chatModel, readTree);
        if result.updated then Compacted(result.memoryJson, batch[|batch| - 1].id) else Untouched
  }

  /** The session is compacted exactly when the threshold is positive, at
      least that many turns arrived since the last compaction, and the memory
      service reports an update; the new memory is then valid and the mark
      moves to the newest of those turns. */
  lemma {:induction false} CompactionDecision(threshold: int, memoryJson: Option<string>, lastMemoryMessageId: Option<int>,
                           stored: seq<MessageEntity>, chatModel: ChatModel,
                           readTree: MemoryJsonValidator.JsonReader)
    ensures CompactionOf(threshold, memoryJson, lastMemoryMessageId, stored, chatModel, readTree).Compacted?
        <==> (&& threshold > 0
              && |MessagesSince(stored, lastMemoryMessageId)| >= threshold
              && MemoryUpdateService.UpdateMemory(memoryJson, Some(MessagesSince(stored, lastMemoryMessageId)),
                                                  chatModel, readTree).updated)
    ensures CompactionOf(threshold, memoryJson, lastMemoryMessageId, stored, chatModel, readTree).Compacted? ==>
              && MemoryJsonValidator.IsValid(
                   CompactionOf(threshold, memoryJson, lastMemoryMessageId, stored, chatModel, readTree).memoryJson, readTree)
              && CompactionOf(threshold, memoryJson, lastMemoryMessageId, stored, chatModel, readTree).lastMemoryMessageId
                 == MessagesSince(stored, lastMemoryMessageId)[|MessagesSince(stored, lastMemoryMessageId)| - 1].id
  {
  }

  /** A non-positive threshold, or too few new turns, leaves the session
      alone without consulting the model. */
  lemma {:induction false} NoCompactionBelowThreshold(threshold: int, memoryJson: Option<string>, lastMemoryMessageId: Option<int>,
                                   stored: seq<MessageEntity>, model1: ChatModel, model2: ChatModel,
                                   readTree: MemoryJsonValidator.JsonReader)
    requires threshold <= 0 || |MessagesSince(stored, lastMemoryMessageId)| < threshold
    ensures CompactionOf(threshold, memoryJson, lastMemoryMessageId, stored, model1, readTree) == Untouched
    ensures CompactionOf(threshold, memoryJson, lastMemoryMessageId, stored, model2, readTree) == Untouched
  {
  }

  /** After a compaction of turns in id order, the mark has moved forward
      and no stored turn is left uncompacted. */
  lemma {:induction false} CompactionCatchesUp(threshold: int, memoryJson: Option<string>, lastMemoryMessageId: Option<int>,
                            stored: seq<MessageEntity>, chatModel: ChatModel,
                            readTree: MemoryJsonValidator.JsonReader)
    requires Chronological(stored)
    requires CompactionOf(threshold, memoryJson, lastMemoryMessageId, stored, chatModel, readTree).Compacted?
    ensures CompactionOf(threshold, memoryJson, lastMemoryMessageId, stored, chatModel, readTree).lastMemoryMessageId.Some?
    ensures lastMemoryMessageId.Some? ==>
              CompactionOf(threshold, memoryJson, lastMemoryMessageId, stored, chatModel, readTree).lastMemoryMessageId.value
              > lastMemoryMessageId.value
    ensures MessagesSince(stored,
              CompactionOf(threshold, memoryJson, lastMemoryMessageId, stored, chatModel, readTree).lastMemoryMessageId) == []
  {
    var batch := MessagesSince(stored, lastMemoryMessageId);
    var newest := batch[|batch| - 1];
    var mark := newest.id.value;
    assert newest in batch;
    assert Chronological(batch);
    assert CompactionOf(threshold, memoryJson, lastMemoryMessageId, stored, chatModel, readTree).lastMemoryMessageId
        == Some(mark);
    forall m | m in stored
      ensures !Newer(m, mark)
    {
      if lastMemoryMessageId.None? || Newer(m, lastMemoryMessageId.value) {
        assert m in batch;
        var k :| 0 <= k < |batch| && batch[k] == m;
        assert k == |batch| - 1 || batch[k].id.value < mark;
      }
    }
    NothingAfter(stored, mark);
  }

  /** When no stored turn is newer than the mark, nothing is loaded. */
  lemma {:induction false} NothingAfter(stored: seq<MessageEntity>, lastMemoryMessageId: int)
    requires forall m :: m in stored ==> !Newer(m, lastMemoryMessageId)
    ensures After(stored, lastMemoryMessageId) == []
  {
    if |stored| > 0 {
      assert stored[|stored| - 1] in stored;
      NothingAfter(stored[..|stored| - 1], lastMemoryMessageId);
    }
  }

  // ---------------------------------------------------------------------
  // Overriding the last user message.

  /** The position of the last message whose role is "user", or -1. */
  function LastUserIndex(messages: seq<ChatMessage>): (r: int)
    ensures -1 <= r < |messages|
    ensures r >= 0 ==> messages[r].role == "user"
    ensures forall k :: r < k < |messages| ==> messages[k].role != "user"
  {
    if |messages| == 0 then -1
    else if messages[|messages| - 1].role == "user" then |messages| - 1
    else LastUserIndex(messages[..|messages| - 1])
  }

  /** The messages with the content of the last user message replaced. */
  function Overridden(messages: seq<ChatMessage>, content: string): seq<ChatMessage> {
    var i := LastUserIndex(messages);
    if i < 0 then messages else messages[i := messages[i].(content := Some(content))]
  }

  /** Only the last user message changes, and only its content; without a
      user message nothing changes. */
  lemma {:induction false} OverriddenChangesOnlyLastUser(messages: seq<ChatMessage>, content: string)
    ensures |Overridden(messages, content)| == |messages|
    ensures forall k :: 0 <= k < |messages| && k != LastUserIndex(messages) ==> Overridden(messages, content)[k] == messages[k]
    ensures LastUserIndex(messages) >= 0 ==>
              Overridden(messages, content)[LastUserIndex(messages)] == ChatMessage("user", Some(content))
    ensures (forall k :: 0 <= k < |messages| ==> messages[k].role != "user") ==> Overridden(messages, content) == messages
  {
    if LastUserIndex(messages) < 0 {
    }
  }

  /** The backward search stops at the first user message from the end. */
  lemma {:induction false} LastUserIndexIs(messages: seq<ChatMessage>, i: int)
    requires -1 <= i < |messages|
    requires i >= 0 ==> messages[i].role == "user"
    requires forall k :: i < k < |messages| ==> messages[k].role != "user"
    ensures LastUserIndex(messages) == i
    decreases |messages|
  {
    if |messages| > 0 && i < |messages| - 1 {
      LastUserIndexIs(messages[..|messages| - 1], i);
    }
  }

  /** `overrideLastUserMessage`: walks the list backwards and rewrites the
      content of the first user message it meets. */
  method OverrideLastUserMessage(messages: array?<ChatMessage>, content: string)
    modifies messages
    ensures messages != null ==> messages[..] == Overridden(old(messages[..]), content)
  {
    if messages == null || messages.Length == 0 {
      if messages != null {
        LastUserIndexIs(messages[..], -1);
      }
      return;
    }
    var i := messages.Length - 1;
    while i >= 0
      invariant -1 <= i < messages.Length
      invariant messages[..] == old(messages[..])
      invariant forall k :: i < k < messages.Length ==> messages[k].role != "user"
    {
      if messages[i].role == "user" {
        LastUserIndexIs(messages[..], i);
        messages[i] := messages[i].(content := Some(content));
        return;
      }
      i := i - 1;
    }
    LastUserIndexIs(messages[..], -1);
  }

  /** The context list as the mutable list `overrideLastUserMessage` edits,
      with its last user message overridden. */
  method OverrideInCopy(context: seq<ChatMessage>, content: string) returns (request: seq<ChatMessage>)
    ensures request == Overridden(context, content)
  {
    var messages := new ChatMessage[|context|](i requires 0 <= i < |context| => context[i]);
    assert messages[..] == context;
    OverrideLastUserMessage(messages, content);
    request := messages[..];
  }

  // ---------------------------------------------------------------------
  // One turn, as a function of the session.

  /** `messageRepository.save` of a new turn: it gets the next id. */
  function StoreTurn(s: SessionState, author: MessageAuthor, content: Option<string>): SessionState {
    s.(stored := s.stored + [MessageEntity(Some(s.nextId), author, content)],
       nextId := s.nextId + 1,
       saves := s.saves + [MessageSaved(author)])
  }

  /** The context `buildContextMessages` assembles for the newest stored turn. */
  function ContextFor(s: SessionState, settings: Settings, readTree: MemoryJsonValidator.JsonReader): seq<ChatMessage>
    requires |s.stored| > 0
  {
    ChatContextService.Messages(ChatContextService.ClampWindow(
      ChatContextService.UnclampedContext(s.memoryJson, s.stored, s.stored[|s.stored| - 1], settings.systemPrompt,
                                          settings.context, readTree),
      settings.context.maxPromptChars))
  }

  /** `updateSessionMemoryIfNeeded` applied to the session. */
  function AfterCompaction(s: SessionState, settings: Settings, collaborators: Collaborators): SessionState {
    match CompactionOf(settings.memoryUpdateEveryMessages, s.memoryJson, s.lastMemoryMessageId, s.stored,
                       collaborators.chatModel, collaborators.readTree)
    case Untouched => s
    case Compacted(memoryJson, lastId) =>
      s.(memoryJson := memoryJson, lastMemoryMessageId := lastId, saves := s.saves + [SessionSaved])
  }

  /** The part of a turn after the user's message is saved: ask the model;
      on failure stop; otherwise save the reply and compact. */
  function Answering(s: SessionState, request: seq<ChatMessage>, settings: Settings,
                     collaborators: Collaborators): Outcome
    requires |s.stored| > 0 && s.stored[|s.stored| - 1].id.Some?
  {
    match collaborators.chatModel(request)
    case Failure(code) => Outcome(s, Err(code))
    case Answer(answer) =>
      var saved := StoreTurn(s, ASSISTANT, Some(answer));
      Outcome(AfterCompaction(saved, settings, collaborators),
              Ok(ChatResponse(s.stored[|s.stored| - 1].id.value, s.nextId, answer)))
  }

  /** A turn that saves the user's `message` and then sends `request` to
      the model; `chat` and `chatWithFile` differ only in the request. */
  function Turn(s: SessionState, message: Option<string>, request: seq<ChatMessage>, settings: Settings,
                collaborators: Collaborators): Outcome {
    Answering(StoreTurn(s, USER, message), request, settings, collaborators)
  }

  /** `chat`. */
  function ChatTurn(s: SessionState, message: Option<string>, settings: Settings, collaborators: Collaborators): Outcome {
    var saved := StoreTurn(s, USER, message);
    Turn(s, message, ContextFor(saved, settings, collaborators.readTree), settings, collaborators)
  }

  /** The excerpts retrieval selects, none when the text is injected whole. */
  function SelectedChunks(message: string, text: string, settings: Settings, ln: real -> real): seq<ScoredChunk> {
    if |text| <= settings.directInjectMaxChars then []
    else LexicalRetriever.TopChunks(Some(message), TextChunker.Chunks(Some(text), settings.chunkSizeChars, settings.chunkOverlapChars),
                                    settings.topK, settings.minChunkScoreThreshold, ln)
  }

  /** The document prompt for an extracted text. */
  function DocumentPrompt(message: string, text: string, settings: Settings, ln: real -> real): string {
    PdfPromptBuilder.Prompt(Some(message), Some(text), Some(SelectedChunks(message, text, settings, ln)),
                            |text| <= settings.directInjectMaxChars)
  }

  /** `chatWithFile`. */
  function ChatWithFileTurn(s: SessionState, message: Option<string>, file: Option<PdfTextExtractor.Upload>,
                            settings: Settings, collaborators: Collaborators): Outcome {
    if !HasText(message) then Outcome(s, Err(ValidationError))
    else if file.None? then ChatTurn(s, message, settings, collaborators)
    else
      var saved := StoreTurn(s, USER, message);
      match PdfTextExtractor.ExtractText(file, settings.pdf, collaborators.pdfBox)
      case Err(code) => Outcome(saved, Err(code))
      case Ok(text) =>
        var request := Overridden(ContextFor(saved, settings, collaborators.readTree),
                                  DocumentPrompt(message.value, text, settings, collaborators.ln));
        Turn(s, message, request, settings, collaborators)
  }

  // ---------------------------------------------------------------------
  // Properties of a turn.

  /** The saves of a turn: the user's message first; the reply only once the
      model has answered; then the session, only when compacted. When the
      model fails, the user's message is the only save. */
  lemma {:induction false} TurnSaveOrder(s: SessionState, message: Option<string>, request: seq<ChatMessage>,
                                         settings: Settings, collaborators: Collaborators)
    ensures Turn(s, message, request, settings, collaborators).result.Err? ==>
              Turn(s, message, request, settings, collaborators).state.saves == s.saves + [MessageSaved(USER)]
    ensures Turn(s, message, request, settings, collaborators).result.Ok? ==>
              Turn(s, message, request, settings, collaborators).state.saves
                in {s.saves + [MessageSaved(USER), MessageSaved(ASSISTANT)],
                    s.saves + [MessageSaved(USER), MessageSaved(ASSISTANT), SessionSaved]}
  {
    var saved := StoreTurn(s, USER, message);
    AnsweringSaves(saved, request, settings, collaborators);
    assert saved.saves + [MessageSaved(ASSISTANT)] == s.saves + [MessageSaved(USER), MessageSaved(ASSISTANT)];
    assert saved.saves + [MessageSaved(ASSISTANT), SessionSaved]
        == s.saves + [MessageSaved(USER), MessageSaved(ASSISTANT), SessionSaved];
  }

  lemma {:induction false} AnsweringSaves(s: SessionState, request: seq<ChatMessage>, settings: Settings, collaborators: Collaborators)
    requires |s.stored| > 0 && s.stored[|s.stored| - 1].id.Some?
    ensures Answering(s, request, settings, collaborators).result.Err? <==> collaborators.chatModel(request).Failure?
    ensures Answering(s, request, settings, collaborators).result.Err? ==>
              Answering(s, request, settings, collaborators).state == s
    ensures Answering(s, request, settings, collaborators).result.Ok? ==>
              Answering(s, request, settings, collaborators).state.saves
                in {s.saves + [MessageSaved(ASSISTANT)], s.saves + [MessageSaved(ASSISTANT), SessionSaved]}
  {
    if collaborators.chatModel(request).Answer? {
      var saved := StoreTurn(s, ASSISTANT, Some(collaborators.chatModel(request).text));
      assert saved.saves == s.saves + [MessageSaved(ASSISTANT)];
      assert s.saves + [MessageSaved(ASSISTANT)] + [SessionSaved] == s.saves + [MessageSaved(ASSISTANT), SessionSaved];
    }
  }

  /** A turn the model answers stores the user's message and then the reply,
      with the next two ids, and returns those ids; one the model fails
      stores only the user's message. */
  lemma {:induction false} TurnStoresMessages(s: SessionState, message: Option<string>, request: seq<ChatMessage>,
                                              settings: Settings, collaborators: Collaborators)
    ensures Turn(s, message, request, settings, collaborators).result.Ok? ==>
              && Turn(s, message, request, settings, collaborators).state.stored
                 == s.stored + [MessageEntity(Some(s.nextId), USER, message),
                                MessageEntity(Some(s.nextId + 1), ASSISTANT,
                                              Some(Turn(s, message, request, settings, collaborators).result.value.assistantReply))]
              && Turn(s, message, request, settings, collaborators).result.value.userMessageId == s.nextId
              && Turn(s, message, request, settings, collaborators).result.value.assistantMessageId == s.nextId + 1
    ensures Turn(s, message, request, settings, collaborators).result.Err? ==>
              Turn(s, message, request, settings, collaborators).state == StoreTurn(s, USER, message)
  {
    var saved := StoreTurn(s, USER, message);
    AnsweringStores(saved, request, settings, collaborators);
    var outcome := Answering(saved, request, settings, collaborators);
    if outcome.result.Ok? {
      var reply := outcome.result.value.assistantReply;
      assert saved.stored + [MessageEntity(Some(s.nextId + 1), ASSISTANT, Some(reply))]
          == s.stored + [MessageEntity(Some(s.nextId), USER, message), MessageEntity(Some(s.nextId + 1), ASSISTANT, Some(reply))];
    }
  }

  /** After the user's message: on success the reply is stored with the next
      id; on failure nothing changes. */
  lemma {:induction false} AnsweringStores(s: SessionState, request: seq<ChatMessage>, settings: Settings, collaborators: Collaborators)
    requires |s.stored| > 0 && s.stored[|s.stored| - 1].id.Some?
    ensures Answering(s, request, settings, collaborators).result.Ok? ==>
              && Answering(s, request, settings, collaborators).state.stored
                 == s.stored + [MessageEntity(Some(s.nextId), ASSISTANT,
                                              Some(Answering(s, request, settings, collaborators).result.value.assistantReply))]
              && Answering(s, request, settings, collaborators).result.value.userMessageId == s.stored[|s.stored| - 1].id.value
              && Answering(s, request, settings, collaborators).result.value.assistantMessageId == s.nextId
    ensures Answering(s, request, settings, collaborators).result.Err? ==>
              Answering(s, request, settings, collaborators).state == s
  {
  }

  /** Saving a turn with the next id keeps the stored turns in id order. */
  lemma {:induction false} StoreTurnConsistent(s: SessionState, author: MessageAuthor, content: Option<string>)
    requires Consistent(s)
    ensures Consistent(StoreTurn(s, author, content))
  {
    var stored := StoreTurn(s, author, content).stored;
    forall i, j | 0 <= i < j < |stored|
      ensures stored[i].id.value < stored[j].id.value
    {
      if j == |stored| - 1 {
        assert stored[i] in s.stored;
      }
    }
  }

  /** A turn keeps the stored turns in id order, whatever was asked. */
  lemma {:induction false} TurnKeepsConsistency(s: SessionState, message: Option<string>, request: seq<ChatMessage>,
                                                settings: Settings, collaborators: Collaborators)
    requires Consistent(s)
    ensures Consistent(Turn(s, message, request, settings, collaborators).state)
  {
    var user := StoreTurn(s, USER, message);
    StoreTurnConsistent(s, USER, message);
    if collaborators.chatModel(request).Answer? {
      StoreTurnConsistent(user, ASSISTANT, Some(collaborators.chatModel(request).text));
    }
  }

  /** A turn never replaces a valid memory with an invalid one. */
  lemma {:induction false} TurnKeepsValidMemory(s: SessionState, message: Option<string>, request: seq<ChatMessage>,
                                                settings: Settings, collaborators: Collaborators)
    requires MemoryJsonValidator.IsValid(s.memoryJson, collaborators.readTree)
    ensures MemoryJsonValidator.IsValid(Turn(s, message, request, settings, collaborators).state.memoryJson,
                                        collaborators.readTree)
  {
    if collaborators.chatModel(request).Answer? {
      var t := StoreTurn(StoreTurn(s, USER, message), ASSISTANT, Some(collaborators.chatModel(request).text));
      CompactionDecision(settings.memoryUpdateEveryMessages, t.memoryJson, t.lastMemoryMessageId, t.stored,
                         collaborators.chatModel, collaborators.readTree);
    }
  }

  /** A null or blank message is refused before anything is saved; without
      a file the turn is a plain chat. */
  lemma {:induction false} ChatWithFileGuards(s: SessionState, message: Option<string>, file: Option<PdfTextExtractor.Upload>,
                           settings: Settings, collaborators: Collaborators)
    ensures !HasText(message) ==> ChatWithFileTurn(s, message, file, settings, collaborators) == Outcome(s, Err(ValidationError))
    ensures HasText(message) && file.None? ==>
              ChatWithFileTurn(s, message, file, settings, collaborators) == ChatTurn(s, message, settings, collaborators)
  {
  }

  /** A text within the direct-inject limit is sent whole: the chunking and
      retrieval settings, and the scorer, make no difference. Beyond the
      limit the prompt carries only the retrieved excerpts. */
  lemma {:induction false} DirectInjectSkipsRetrieval(message: string, text: string, settings1: Settings, settings2: Settings,
                                   ln1: real -> real, ln2: real -> real)
    requires settings1.directInjectMaxChars == settings2.directInjectMaxChars
    requires |text| <= settings1.directInjectMaxChars
    ensures DocumentPrompt(message, text, settings1, ln1) == DocumentPrompt(message, text, settings2, ln2)
    ensures SelectedChunks(message, text, settings1, ln1) == []
  {
  }

  /** A failed extraction ends the turn with its error after the user's
      message was saved, without asking the model. */
  lemma {:induction false} FailedExtractionSavesOnlyUser(s: SessionState, message: Option<string>, file: PdfTextExtractor.Upload,
                                      settings: Settings, collaborators: Collaborators)
    requires HasText(message)
    requires PdfTextExtractor.ExtractText(Some(file), settings.pdf, collaborators.pdfBox).Err?
    ensures ChatWithFileTurn(s, message, Some(file), settings, collaborators)
         == Outcome(StoreTurn(s, USER, message),
                    Err(PdfTextExtractor.ExtractText(Some(file), settings.pdf, collaborators.pdfBox).error))
  {
  }

  /** With an extracted text, the model receives the usual context with the
      content of its last user message replaced by the document prompt. */
  lemma {:induction false} FileTurnRequest(s: SessionState, message: Option<string>, file: PdfTextExtractor.Upload,
                        settings: Settings, collaborators: Collaborators)
    requires HasText(message)
    requires PdfTextExtractor.ExtractText(Some(file), settings.pdf, collaborators.pdfBox).Ok?
    ensures ChatWithFileTurn(s, message, Some(file), settings, collaborators)
         == Turn(s, message,
                 Overridden(ContextFor(StoreTurn(s, USER, message), settings, collaborators.readTree),
                            DocumentPrompt(message.value,
                                           PdfTextExtractor.ExtractText(Some(file), settings.pdf, collaborators.pdfBox).value,
                                           settings, collaborators.ln)),
                 settings, collaborators)
  {
  }

  /** The compaction scenario: with a threshold of two, a new session's
      first exchange (ids 1 and 2) is compacted when the model returns valid
      memory text, and the mark moves to id 2. */
  lemma {:induction false} FirstExchangeCompacted(request: seq<ChatMessage>, settings: Settings, collaborators: Collaborators,
                                                  memory: string)
    requires settings.memoryUpdateEveryMessages == 2
    requires collaborators.chatModel(request) == Answer("Hello")
    requires collaborators.chatModel(MemoryUpdateService.UpdateRequest(
               None, [MessageEntity(Some(1), USER, Some("Hi")), MessageEntity(Some(2), ASSISTANT, Some("Hello"))],
               collaborators.readTree)) == Answer(memory)
    requires MemoryJsonValidator.IsValid(Some(memory), collaborators.readTree)
    ensures Turn(SessionState(None, None, [], 1, []), Some("Hi"), request, settings, collaborators).state
         == SessionState(Some(memory), Some(2),
                         [MessageEntity(Some(1), USER, Some("Hi")), MessageEntity(Some(2), ASSISTANT, Some("Hello"))],
                         3, [MessageSaved(USER), MessageSaved(ASSISTANT), SessionSaved])
  {
  }

  /** The direct-inject decision, then chunking and retrieval only when the
      text is too long to send whole, then the document prompt. */
  method BuildDocumentPrompt(message: string, text: string, settings: Settings, ln: real -> real)
    returns (prompt: string)
    ensures prompt == DocumentPrompt(message, text, settings, ln)
  {
    var directInject := |text| <= settings.directInjectMaxChars;
    var selected: seq<ScoredChunk> := [];
    if !directInject {
      var chunks := TextChunker.Chunk(Some(text), settings.chunkSizeChars, settings.chunkOverlapChars);
      selected := LexicalRetriever.RetrieveTopChunks(Some(message), chunks, settings.topK, settings.minChunkScoreThreshold, ln);
    }
    prompt := PdfPromptBuilder.BuildPrompt(Some(message), Some(text), Some(selected), directInject);
  }

  // ---------------------------------------------------------------------
  // The service, acting on a session in place.

  /** A session whose turns and memory the service updates in place. */
  class ChatSession {
    var memoryJson: Option<string>
    var lastMemoryMessageId: Option<int>
    var stored: seq<MessageEntity>
    var nextId: int
    var saves: seq<Save>

    function State(): SessionState
      reads this
    {
      SessionState(memoryJson, lastMemoryMessageId, stored, nextId, saves)
    }

    /** A new session, with no turns and no memory yet. */
    constructor(firstId: int)
      ensures State() == SessionState(None, None, [], firstId, [])
    {
      memoryJson := None;
      lastMemoryMessageId := None;
      stored := [];
      nextId := firstId;
      saves := [];
    }

    /** `messageRepository.save` of a new turn. */
    method SaveMessage(author: MessageAuthor, content: Option<string>) returns (saved: MessageEntity)
      modifies this
      ensures State() == StoreTurn(old(State()), author, content)
      ensures saved == MessageEntity(Some(old(nextId)), author, content)
    {
      saved := MessageEntity(Some(nextId), author, content);
      stored := stored + [saved];
      nextId := nextId + 1;
      saves := saves + [MessageSaved(author)];
    }

    /** `updateSessionMemoryIfNeeded`. */
    method UpdateSessionMemoryIfNeeded(settings: Settings, collaborators: Collaborators)
      modifies this
      ensures State() == AfterCompaction(old(State()), settings, collaborators)
    {
      var threshold := settings.memoryUpdateEveryMessages;
      if threshold <= 0 {
        return;
      }
      var newMessages := MessagesSince(stored, lastMemoryMessageId);
      if |newMessages| < threshold {
        return;
      }
      var result := MemoryUpdateService.UpdateMemory(memoryJson, Some(newMessages), collaborators.chatModel,
                                                     collaborators.readTree);
      if result.updated {
        memoryJson := result.memoryJson;
        lastMemoryMessageId := newMessages[|newMessages| - 1].id;
        saves := saves + [SessionSaved];
      }
    }

    /** The reply half of a turn. */
    method Answer(userMessage: MessageEntity, request: seq<ChatMessage>, settings: Settings, collaborators: Collaborators)
      returns (result: Result<ChatResponse, ErrorCode>)
      requires |stored| > 0 && stored[|stored| - 1] == userMessage && userMessage.id.Some?
      modifies this
      ensures Outcome(State(), result) == Answering(old(State()), request, settings, collaborators)
    {
      var reply := collaborators.chatModel(request);
      if reply.Failure? {
        return Err(reply.code);
      }
      var botMessage := SaveMessage(ASSISTANT, Some(reply.text));
      UpdateSessionMemoryIfNeeded(settings, collaborators);
      result := Ok(ChatResponse(userMessage.id.value, botMessage.id.value, reply.text));
    }

    /** `chat`. */
    method Chat(message: Option<string>, settings: Settings, collaborators: Collaborators)
      returns (result: Result<ChatResponse, ErrorCode>)
      modifies this
      ensures Outcome(State(), result) == ChatTurn(old(State()), message, settings, collaborators)
    {
      var userMessage := SaveMessage(USER, message);
      var request := ChatContextService.BuildContextMessages(memoryJson, stored, userMessage, settings.systemPrompt,
                                                             settings.context, collaborators.readTree);
      result := Answer(userMessage, request, settings, collaborators);
    }

    /** `chatWithFile`. */
    method ChatWithFile(message: Option<string>, file: Option<PdfTextExtractor.Upload>, settings: Settings,
                        collaborators: Collaborators)
      returns (result: Result<ChatResponse, ErrorCode>)
      modifies this
      ensures Outcome(State(), result) == ChatWithFileTurn(old(State()), message, file, settings, collaborators)
    {
      if message.None? || IsBlank(message.value) {
        return Err(ValidationError);
      }
      if file.None? {
        result := Chat(message, settings, collaborators);
        return;
      }
      var userMessage := SaveMessage(USER, message);
      var extracted := PdfTextExtractor.ExtractText(file, settings.pdf, collaborators.pdfBox);
      if extracted.Err? {
        return Err(extracted.error);
      }
      var prompt := BuildDocumentPrompt(message.value, extracted.value, settings, collaborators.ln);
      var request := FileRequest(userMessage, prompt, settings, collaborators.readTree);
      result := Answer(userMessage, request, settings, collaborators);
    }

    /** The context for the newest turn, with the document prompt in place of
        the content of its last user message. */
    method FileRequest(userMessage: MessageEntity, prompt: string, settings: Settings,
                       readTree: MemoryJsonValidator.JsonReader)
      returns (request: seq<ChatMessage>)
      requires |stored| > 0 && stored[|stored| - 1] == userMessage
      ensures request == Overridden(ContextFor(State(), settings, readTree), prompt)
    {
      var context := ChatContextService.BuildContextMessages(memoryJson, stored, userMessage, settings.systemPrompt,
                                                             settings.context, readTree);
      request := OverrideInCopy(context, prompt);
    }
  }
}
