/** The entities the core's services exchange. Persistence concerns (JPA
    annotations, timestamps, owning user) are not part of the model. */
module Domain {
  import opened Wrappers

  /** `MessageAuthor`: who wrote a stored conversation turn. */
  datatype MessageAuthor = USER | ASSISTANT

  /** `MessageEntity`: a stored turn. The id is `null` until the repository
      assigns one on save; the content may be `null` in Java. */
  datatype MessageEntity = MessageEntity(id: Option<int>, author: MessageAuthor, content: Option<string>)

  /** `OllamaDtos.ChatMessage`: one entry of the list sent to the model; the
      role is one of "system", "user" and "assistant". */
  datatype ChatMessage = ChatMessage(role: string, content: Option<string>)

  /** `TextChunk`: a window of a document's text and its position. */
  datatype TextChunk = TextChunk(index: int, text: string)

  /** `ScoredChunk`: a chunk and its BM25 score. */
  datatype ScoredChunk = ScoredChunk(chunk: TextChunk, score: real)

  /** The error codes the core raises (`AuraErrorCode` and the codes its
      callers and handlers use). */
  datatype ErrorCode =
    | ValidationError
    | InvalidFileType
    | FileTooLarge
    | PdfParseFailed
    | PdfEncrypted
    | PdfTooManyPages
    | AuthRefreshInvalid
    | AuthRefreshRevoked
    | AuthRefreshExpired
    | Forbidden
    | OllamaUnreachable
    | OllamaEmptyResponse

  /** What the language-model client returns for one request: the reply text,
      or the error it throws. */
  datatype Reply = Answer(text: string) | Failure(code: ErrorCode)

  /** The language-model chat capability: one reply for an ordered message list. */
  type ChatModel = seq<ChatMessage> -> Reply

  /** True when the ids of `ms` are all assigned and strictly increasing, as
      the repository returns a session's turns. */
  ghost predicate Chronological(ms: seq<MessageEntity>) {
    (forall i :: 0 <= i < |ms| ==> ms[i].id.Some?)
    && (forall i, j :: 0 <= i < j < |ms| ==> ms[i].id.value < ms[j].id.value)
  }
}
