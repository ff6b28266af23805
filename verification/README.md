# AURA core, modelled in Dafny

AURA is a chat assistant: a Spring backend that talks to a local language
model (Ollama) and an Angular frontend. This project models the backend logic
that decides what the model is sent and that protects each session's memory,
together with a few small validators and state machines on both sides:

- `ChatContextService`: the context window (system prompt, validated memory
  block, recent transcript without the current turn, current user turn) and
  its clamping to a character budget — drop the oldest turns, then the memory
  block, then truncate the last message.
- `LexicalRetriever`: BM25 retrieval of PDF excerpts — tokenising, term and
  document frequencies, scoring, threshold, stable sort by descending score,
  top-K cut.
- `TextChunker`: overlapping windows over the extracted text, trimmed, empty
  ones dropped, numbered from zero.
- `MemoryJsonValidator` and `MemoryUpdateService`: the closed schema of the
  memory JSON and the decision to keep the stored memory or adopt the model's
  answer; `ChatService` triggers compaction every N turns.
- `ChatService`: the order of saves in a chat turn, the file turn
  (extraction, direct injection or retrieval, prompt override of the last user
  message), and compaction.
- `PdfPromptBuilder`, `ContextComposer`: deterministic prompt text with
  fixed markers.
- `PdfTextExtractor`: the upload guards in their order, the parse checks and
  text clamping.
- `RefreshTokenService` (module `RefreshTokens`): issue, rotate, revoke and
  revoke-all of hashed refresh tokens.
- `AuthController`: refresh-token and client-address resolution.
- `auth.interceptor.ts`, `login.component.ts`: which requests carry the
  bearer token and which 401s sign the user out; username derivation and
  friendly error messages.

Collaborators the code calls but does not define are parameters of the
model: the language model (`ChatModel`: a request list to an answer or an
error code), Jackson's `readTree` (`JsonReader`: a tree or a parse failure),
PDFBox (`PdfReader`), SHA-256 (`Hash`), `Math.log` (`ln`, required only to be
positive above 1), the clock (an integer `now`) and the random token generator
(the fresh token is an argument). Stored messages are a sequence with ids
assigned in increasing order; repository saves are recorded as a list of
`Save` events so that their order can be stated.

Supporting modules: `Wrappers` (Option, Result), `JavaStrings` (`String.trim`,
`isBlank`, `indexOf`, ASCII lower-casing, decimal rendering), `Domain` (the
shared entities and error codes), `ConversationText` (the `LABEL: content`
lines shared by the composer and the memory request), `TextLayout` (lemmas
about where a piece sits inside a concatenation).

Java and TypeScript methods that build their result step by step are methods
with loops here, each proved equal to a specification function; the
properties are then proved about those functions. `ChatSession` and
`RefreshTokenService` are classes whose fields the operations update.

## Model

| member | source | states |
|---|---|---|
| ChatContextService.BuildContextMessages | aura-backend/src/main/java/com/aura/service/ChatContextService.java:27-60 | the messages sent are the unclamped window (system, optional memory, transcript, current) after the three clamping stages |
| ChatContextService.AssembleContext | aura-backend/src/main/java/com/aura/service/ChatContextService.java:30-57 | the list built before clamping is system prompt, memory block when present, recent transcript in order, current user turn |
| ChatContextService.AppendTranscript | aura-backend/src/main/java/com/aura/service/ChatContextService.java:47-52 | the loop appends one message per recent turn, in order, with its role and content |
| ChatContextService.UnclampedContext | aura-backend/src/main/java/com/aura/service/ChatContextService.java:30-57 | the assembled window has the shape the clamp relies on: a memory block, when present, is a system message with the memory prefix, and no transcript or current message has the system role |
| ChatContextService.BuiltContextFrame | aura-backend/src/main/java/com/aura/service/ChatContextService.java:34-45 | after clamping the first message is the system prompt ("" for null); a memory block is present only for non-blank, valid memory and reads prefix + memory; the last message is a user message whose content changes only under a positive budget |
| ChatContextService.BuiltContextTranscript | aura-backend/src/main/java/com/aura/service/ChatContextService.java:47-52 | at most max(0, windowSize) transcript messages, each the rendering of a stored turn other than the current one |
| ChatContextService.FetchRecentMessages | aura-backend/src/main/java/com/aura/service/ChatContextService.java:62-78 | the fetch, filter, limit and reverse yield RecentMessages, the specification of the recent window |
| ChatContextService.ReverseList | aura-backend/src/main/java/com/aura/service/ChatContextService.java:75-76 | the in-order copy is the reverse of the page |
| ChatContextService.ReversedPageIsRecent | aura-backend/src/main/java/com/aura/service/ChatContextService.java:68-76 | reversing the first windowSize kept turns of the newest windowSize+1, newest first, is the recent window |
| ChatContextService.LimitedFilter | aura-backend/src/main/java/com/aura/service/ChatContextService.java:71-74 | stopping the filter once windowSize turns are kept gives the first windowSize kept turns |
| ChatContextService.RecentMessagesBounded | aura-backend/src/main/java/com/aura/service/ChatContextService.java:62-78 | the window holds at most max(0, windowSize) stored turns, never the current one, and stays in id order |
| ChatContextService.RecentMessagesBeforeCurrent | aura-backend/src/main/java/com/aura/service/ChatContextService.java:62-78 | when the current turn is the newest stored one, the window is exactly the windowSize turns before it |
| ChatContextService.WithoutCurrentReverse | aura-backend/src/main/java/com/aura/service/ChatContextService.java:71-76 | filtering out the current turn commutes with reversing |
| ChatContextService.WithoutCurrentSubset | aura-backend/src/main/java/com/aura/service/ChatContextService.java:72 | the filter keeps only input turns that are not the current one |
| ChatContextService.WithoutCurrentChronological | aura-backend/src/main/java/com/aura/service/ChatContextService.java:72 | the filter keeps id order |
| ChatContextService.ClampMessages | aura-backend/src/main/java/com/aura/service/ChatContextService.java:80-116 | the guards, drop loop, memory drop and truncation compute Clamp |
| ChatContextService.SumLengths | aura-backend/src/main/java/com/aura/service/ChatContextService.java:130-140 | the total is the sum of the content lengths, null counting as 0 |
| ChatContextService.TotalCharsRemove | aura-backend/src/main/java/com/aura/service/ChatContextService.java:95-96 | removing a message lowers the total by exactly its length |
| ChatContextService.DropOldestTurns | aura-backend/src/main/java/com/aura/service/ChatContextService.java:91-98 | the loop removes at the transcript start exactly the first-fit number of messages and keeps the total in step |
| ChatContextService.DropMemoryBlock | aura-backend/src/main/java/com/aura/service/ChatContextService.java:100-105 | the memory block is removed only while still over budget, and the total follows |
| ChatContextService.TruncateLastMessage | aura-backend/src/main/java/com/aura/service/ChatContextService.java:107-114 | only the last message's content is cut, to max(0, budget − other characters) |
| ChatContextService.MemoryBlockIndexOfWindow | aura-backend/src/main/java/com/aura/service/ChatContextService.java:118-128 | on an assembled list the memory block is detected at index 1 exactly when the window has one |
| ChatContextService.OldestDropCount | aura-backend/src/main/java/com/aura/service/ChatContextService.java:94-98 | the number of dropped turns is the least that fits, every smaller number still over budget |
| ChatContextService.ClampWindowMatchesClamp | aura-backend/src/main/java/com/aura/service/ChatContextService.java:80-116 | the list clamp equals the clamp stated on the window's parts |
| ChatContextService.ClampWindowKeepsAndDrops | aura-backend/src/main/java/com/aura/service/ChatContextService.java:82-114 | the system message is kept; the transcript loses only its oldest turns and only while over budget; memory goes only after the whole transcript; only the last message is truncated and only after both; no budget or a fitting list changes nothing |
| ChatContextService.ClampWindowBudget | aura-backend/src/main/java/com/aura/service/ChatContextService.java:94-114 | with a positive budget the clamped list fits exactly when the system prompt alone fits |
| ChatService.MessagesSince | aura-backend/src/main/java/com/aura/service/ChatService.java:212-218 | all stored turns with no compaction yet, else exactly those with a greater id, in order |
| ChatService.AfterInOrder | aura-backend/src/main/java/com/aura/service/ChatService.java:217 | the turns after the last compaction keep id order |
| ChatService.CompactionDecision | aura-backend/src/main/java/com/aura/service/ChatService.java:194-210 | compaction happens iff the threshold is positive, enough turns arrived and the memory update was adopted; the new memory is valid and the marker is the last compacted turn's id |
| ChatService.NoCompactionBelowThreshold | aura-backend/src/main/java/com/aura/service/ChatService.java:195-202 | below the threshold, or with a threshold ≤ 0, the session is untouched whatever the model answers |
| ChatService.CompactionCatchesUp | aura-backend/src/main/java/com/aura/service/ChatService.java:203-208 | after a compaction the marker advances and no turn remains to compact |
| ChatService.LastUserIndex | aura-backend/src/main/java/com/aura/service/ChatService.java:224-226 | the backward search finds the last user message, or −1 when there is none |
| ChatService.LastUserIndexIs | aura-backend/src/main/java/com/aura/service/ChatService.java:224-226 | a user index with no user message after it is the one found |
| ChatService.OverriddenChangesOnlyLastUser | aura-backend/src/main/java/com/aura/service/ChatService.java:220-231 | only the last user message gets the new content; every other message and the length stay; no user message means no change |
| ChatService.OverrideLastUserMessage | aura-backend/src/main/java/com/aura/service/ChatService.java:220-231 | the array is updated in place to the overridden list; a null array is left alone |
| ChatService.OverrideInCopy | aura-backend/src/main/java/com/aura/service/ChatService.java:131-133 | overriding the freshly built context yields the overridden list |
| ChatService.TurnSaveOrder | aura-backend/src/main/java/com/aura/service/ChatService.java:61-77 | a failed turn saved only the user message; a successful one saved user, then assistant, then possibly the session |
| ChatService.AnsweringSaves | aura-backend/src/main/java/com/aura/service/ChatService.java:67-77 | the reply is saved only after the model answers; a model failure changes nothing further |
| ChatService.TurnStoresMessages | aura-backend/src/main/java/com/aura/service/ChatService.java:61-86 | a successful turn stores the user turn and the reply with consecutive ids and returns those ids and the reply; a failed one keeps only the user turn |
| ChatService.AnsweringStores | aura-backend/src/main/java/com/aura/service/ChatService.java:67-86 | the reply is stored with the next id and the response names the user turn's id |
| ChatService.StoreTurnConsistent | aura-backend/src/main/java/com/aura/service/ChatService.java:61-65 | saving a turn keeps the stored ids increasing and below the next id |
| ChatService.TurnKeepsConsistency | aura-backend/src/main/java/com/aura/service/ChatService.java:55-87 | a turn keeps the stored ids increasing |
| ChatService.TurnKeepsValidMemory | aura-backend/src/main/java/com/aura/service/ChatService.java:77 | valid stored memory stays valid through a turn |
| ChatService.FirstExchangeCompacted | aura-backend/src/main/java/com/aura/service/ChatService.java:55-87 | with threshold 2, the first exchange of a new session is compacted into the model's memory and marks turn 2 |
| ChatService.ChatWithFileGuards | aura-backend/src/main/java/com/aura/service/ChatService.java:95-100 | a blank message is refused before anything is saved; no file means a plain chat |
| ChatService.DirectInjectSkipsRetrieval | aura-backend/src/main/java/com/aura/service/ChatService.java:114-128 | a text within the direct-inject limit selects no excerpts and its prompt does not depend on the retrieval settings |
| ChatService.FailedExtractionSavesOnlyUser | aura-backend/src/main/java/com/aura/service/ChatService.java:107-113 | a failed extraction leaves the user message saved and returns the extractor's error |
| ChatService.FileTurnRequest | aura-backend/src/main/java/com/aura/service/ChatService.java:107-143 | a file turn sends the context with the last user message replaced by the document prompt |
| ChatService.BuildDocumentPrompt | aura-backend/src/main/java/com/aura/service/ChatService.java:113-130 | the prompt uses the whole text when within the limit, else the retrieved excerpts of its chunks |
| ChatService.ChatSession.constructor | aura-backend/src/main/java/com/aura/service/ChatService.java:55-59 | a new session has no memory, no marker, no turns |
| ChatService.ChatSession.SaveMessage | aura-backend/src/main/java/com/aura/service/ChatService.java:61-65 | saving appends the turn with the next id and records the save |
| ChatService.ChatSession.UpdateSessionMemoryIfNeeded | aura-backend/src/main/java/com/aura/service/ChatService.java:194-210 | the session becomes its compaction: new memory, marker and a session save, or unchanged |
| ChatService.ChatSession.Answer | aura-backend/src/main/java/com/aura/service/ChatService.java:67-86 | asking the model, saving the reply and compacting update the session as Answering states |
| ChatService.ChatSession.Chat | aura-backend/src/main/java/com/aura/service/ChatService.java:55-87 | the session and response after `chat` are those of ChatTurn |
| ChatService.ChatSession.ChatWithFile | aura-backend/src/main/java/com/aura/service/ChatService.java:94-153 | the session and response after `chatWithFile` are those of ChatWithFileTurn |
| ChatService.ChatSession.FileRequest | aura-backend/src/main/java/com/aura/service/ChatService.java:130-133 | the request is the built context with its last user message overridden by the prompt |
| ContextComposer.Compose | aura-backend/src/main/java/com/aura/service/ContextComposer.java:10-41 | the builder produces the system, memory, conversation and user/instruction sections in order |
| ContextComposer.ComposedOpensWithSystemPrompt | aura-backend/src/main/java/com/aura/service/ContextComposer.java:15-17 | the text opens with the system marker and the prompt ("" for null) |
| ContextComposer.ComposedMemoryBlockIff | aura-backend/src/main/java/com/aura/service/ContextComposer.java:19-23 | the memory marker follows the system section exactly when the memory is non-null and non-blank |
| ContextComposer.ComposedMemoryBlock | aura-backend/src/main/java/com/aura/service/ContextComposer.java:19-23 | a present memory is written verbatim after its marker, with no schema check |
| ContextComposer.HeadersDiffer | aura-backend/src/main/java/com/aura/service/ContextComposer.java:20-25 | the conversation marker cannot be read as the memory marker |
| ContextComposer.ComposedConversationHeader | aura-backend/src/main/java/com/aura/service/ContextComposer.java:25 | the conversation marker follows the memory section |
| ContextComposer.ComposedTurnLine | aura-backend/src/main/java/com/aura/service/ContextComposer.java:26-33 | each recent turn appears as its own LABEL: content line, in input order |
| ContextComposer.TurnOffsetsOrdered | aura-backend/src/main/java/com/aura/service/ContextComposer.java:19-35 | memory comes before every turn line, each turn line directly follows the previous, and all come before the user marker |
| ContextComposer.ComposedUserMessage | aura-backend/src/main/java/com/aura/service/ContextComposer.java:34-35 | the user marker and the current message ("" for null) follow the conversation |
| ContextComposer.ComposedClosesWithInstructions | aura-backend/src/main/java/com/aura/service/ContextComposer.java:36-38 | the text always ends with the fixed instructions |
| ConversationText.LinesAppend | aura-backend/src/main/java/com/aura/service/MemoryUpdateService.java:69-74 | rendering two runs of turns renders the first then the second |
| ConversationText.LineOfEachTurn | aura-backend/src/main/java/com/aura/service/ContextComposer.java:27-32 | turn i is rendered as exactly its own line right after the lines of the turns before it |
| JavaStrings.TrimProperties | aura-backend/src/main/java/com/aura/service/pdf/TextChunker.java:23 | trim yields a piece of the input neither starting nor ending with a character ≤ U+0020, empty exactly for blank input |
| JavaStrings.TrimRangeProperties | aura-backend/src/main/java/com/aura/service/pdf/TextChunker.java:23 | trimming a slice yields a sub-slice with no trimmable ends, empty exactly when the slice is blank |
| JavaStrings.IndexOf | aura-backend/src/main/java/com/aura/controller/AuthController.java:117 | the first position of the character, or −1 exactly when it is absent |
| JavaStrings.AsciiLowerString | aura-backend/src/main/java/com/aura/service/pdf/LexicalRetriever.java:96 | each character lower-cased, length unchanged |
| JavaStrings.NatToStringRoundTrip | aura-backend/src/main/java/com/aura/service/pdf/PdfPromptBuilder.java:35 | the decimal rendering is digits only, reads back as the number, and has no leading zero |
| LexicalRetriever.Tokenize | aura-backend/src/main/java/com/aura/service/pdf/LexicalRetriever.java:92-104 | the loop keeps the non-blank parts of the split, giving Tokens |
| LexicalRetriever.TokensProperties | aura-backend/src/main/java/com/aura/service/pdf/LexicalRetriever.java:92-104 | tokens are non-empty and only [a-z0-9]; together they are exactly the token characters of the lower-cased text; blank or null text gives none |
| LexicalRetriever.ScanTokensWellFormed | aura-backend/src/main/java/com/aura/service/pdf/LexicalRetriever.java:96-102 | splitting yields non-empty runs of token characters |
| LexicalRetriever.IndexChunks | aura-backend/src/main/java/com/aura/service/pdf/LexicalRetriever.java:28-46 | the tokenised chunks, each chunk's term counts, the document frequencies and the token total |
| LexicalRetriever.CountTerms | aura-backend/src/main/java/com/aura/service/pdf/LexicalRetriever.java:37-44 | one chunk's term counts, and document frequencies that count the chunk once per distinct token |
| LexicalRetriever.DocFreqBounded | aura-backend/src/main/java/com/aura/service/pdf/LexicalRetriever.java:38-43 | a document frequency is at most the number of chunks and positive exactly for tokens that occur |
| LexicalRetriever.Bm25Score | aura-backend/src/main/java/com/aura/service/pdf/LexicalRetriever.java:68-90 | the loop adds the BM25 term of every present query token, and 0 under the guards |
| LexicalRetriever.AbsentTokensContributeNothing | aura-backend/src/main/java/com/aura/service/pdf/LexicalRetriever.java:79-82 | the score over the query equals the score over its tokens present in the chunk |
| LexicalRetriever.TermPositive | aura-backend/src/main/java/com/aura/service/pdf/LexicalRetriever.java:83-87 | each added term is positive |
| LexicalRetriever.SumContributionsNonNegative | aura-backend/src/main/java/com/aura/service/pdf/LexicalRetriever.java:77-89 | the accumulated score is never negative |
| LexicalRetriever.ChunkScoreNonNegative | aura-backend/src/main/java/com/aura/service/pdf/LexicalRetriever.java:52-55 | every chunk's score is never negative |
| LexicalRetriever.ScoreChunks | aura-backend/src/main/java/com/aura/service/pdf/LexicalRetriever.java:48-59 | the scoring loop keeps, in chunk order, every chunk whose score reaches the threshold |
| LexicalRetriever.AboveThresholdScores | aura-backend/src/main/java/com/aura/service/pdf/LexicalRetriever.java:56-58 | every kept entry reaches the threshold and carries an input chunk |
| LexicalRetriever.AboveThresholdFrom | aura-backend/src/main/java/com/aura/service/pdf/LexicalRetriever.java:52-58 | the kept entries are a sub-multiset of the scored chunks, so each chunk at most once |
| LexicalRetriever.SortByScoreDesc | aura-backend/src/main/java/com/aura/service/pdf/LexicalRetriever.java:61 | the result is sorted by non-increasing score and a permutation of the input |
| LexicalRetriever.SortByScoreDescStable | aura-backend/src/main/java/com/aura/service/pdf/LexicalRetriever.java:61 | entries of equal score keep their input order |
| LexicalRetriever.InsertByScoreSorted | aura-backend/src/main/java/com/aura/service/pdf/LexicalRetriever.java:61 | inserting into a sorted list keeps it sorted |
| LexicalRetriever.InsertByScorePermutes | aura-backend/src/main/java/com/aura/service/pdf/LexicalRetriever.java:61 | inserting adds exactly the one entry |
| LexicalRetriever.InsertByScoreStable | aura-backend/src/main/java/com/aura/service/pdf/LexicalRetriever.java:61 | an inserted entry goes after those of equal score |
| LexicalRetriever.RetrieveTopChunks | aura-backend/src/main/java/com/aura/service/pdf/LexicalRetriever.java:20-66 | the method computes TopChunks |
| LexicalRetriever.TopChunksRanked | aura-backend/src/main/java/com/aura/service/pdf/LexicalRetriever.java:24-65 | empty under the guards; otherwise exactly min(topK, n) entries where n is the number of chunks over the threshold, sorted, a prefix of the sorted filtered list |
| LexicalRetriever.TopChunksFromInput | aura-backend/src/main/java/com/aura/service/pdf/LexicalRetriever.java:52-58 | every result reaches the threshold, is an input chunk, and none is repeated |
| LoginComponent.DeriveUsername | aura-frontend/src/app/features/auth/login/login.component.ts:120-124 | a non-empty name of at most 32 characters from [a-zA-Z0-9._-] |
| LoginComponent.UsesOnlyLocalPart | aura-frontend/src/app/features/auth/login/login.component.ts:121 | only the text before the first @ matters |
| LoginComponent.CleanLocalPartKept | aura-frontend/src/app/features/auth/login/login.component.ts:121-123 | a clean local part of 1 to 32 characters is the username |
| LoginComponent.NothingLeftFallsBack | aura-frontend/src/app/features/auth/login/login.component.ts:122-123 | a local part with no allowed character gives "user" |
| LoginComponent.KeepClean | aura-frontend/src/app/features/auth/login/login.component.ts:122 | the replace keeps a clean text unchanged |
| LoginComponent.KeepOne | aura-frontend/src/app/features/auth/login/login.component.ts:122 | a single character is kept iff it is one of `[a-zA-Z0-9._-]` |
| LoginComponent.KeepAppend | aura-frontend/src/app/features/auth/login/login.component.ts:122 | the replace works character by character: cleaning a concatenation is cleaning each part, in order |
| LoginComponent.NoneKept | aura-frontend/src/app/features/auth/login/login.component.ts:122 | the replace removes every disallowed character |
| LoginComponent.ToFriendlyError | aura-frontend/src/app/features/auth/login/login.component.ts:126-144 | one of the three messages; never "incorrect credentials" when registering nor "email in use" when signing in; a 409 on register is always "email in use" |
| LoginComponent.FriendlyErrorCases | aura-frontend/src/app/features/auth/login/login.component.ts:126-144 | "email in use" iff registering and 409 or an email/already/exist/used message; "incorrect" iff logging in with 401; the generic message otherwise |
| MemoryJsonValidator.Get | aura-backend/src/main/java/com/aura/service/MemoryJsonValidator.java:47-61 | a field is found iff the object has one with that key, and its value is that field's |
| MemoryJsonValidator.StringArrayAgrees | aura-backend/src/main/java/com/aura/service/MemoryJsonValidator.java:134-147 | accepted iff null or an array of strings only |
| MemoryJsonValidator.UserPrefsAgrees | aura-backend/src/main/java/com/aura/service/MemoryJsonValidator.java:65-83 | accepted iff null or an object whose every field is language, tone or format with a string or null, or other with a string array or null |
| MemoryJsonValidator.ProjectContextAgrees | aura-backend/src/main/java/com/aura/service/MemoryJsonValidator.java:85-103 | accepted iff null or an object whose every field is app_name or current_goal with a string or null, or stack or notes with a string array or null |
| MemoryJsonValidator.DecisionAgrees | aura-backend/src/main/java/com/aura/service/MemoryJsonValidator.java:112-129 | a decision is accepted iff an object with only date and decision keys, a textual decision and an optional string date |
| MemoryJsonValidator.DecisionsAgree | aura-backend/src/main/java/com/aura/service/MemoryJsonValidator.java:105-132 | accepted iff null or an array of conforming decisions |
| MemoryJsonValidator.SectionAgrees | aura-backend/src/main/java/com/aura/service/MemoryJsonValidator.java:47-61 | each top-level section is checked by the validator for its key |
| MemoryJsonValidator.ValidateRoot | aura-backend/src/main/java/com/aura/service/MemoryJsonValidator.java:36-63 | an accepted root is an object whose every key is one of the five known sections |
| MemoryJsonValidator.IsValid | aura-backend/src/main/java/com/aura/service/MemoryJsonValidator.java:24-34 | accepted text is non-null, non-blank and parses to an object |
| MemoryJsonValidator.ValidateRootMeansConforms | aura-backend/src/main/java/com/aura/service/MemoryJsonValidator.java:36-63 | the root is accepted iff it is an object with only the five known keys, each section conforming |
| MemoryJsonValidator.IsValidMeansConforms | aura-backend/src/main/java/com/aura/service/MemoryJsonValidator.java:24-34 | the text is valid iff non-null, non-blank, parsed, and conforming; a parse failure is false |
| MemoryJsonValidator.SchemaExamples | aura-backend/src/main/java/com/aura/service/MemoryJsonValidator.java:36-63 | {} and a minimal decision are accepted; an unknown decision key or top-level key is refused |
| MemoryUpdateService.UpdateMemory | aura-backend/src/main/java/com/aura/service/MemoryUpdateService.java:35-60 | no change keeps the stored memory; an update is always valid |
| MemoryUpdateService.UpdateMemoryDecision | aura-backend/src/main/java/com/aura/service/MemoryUpdateService.java:35-60 | updated iff there are new messages, the model answers and the answer is valid, and then the memory is that answer |
| MemoryUpdateService.UpdateMemoryKeepsValidity | aura-backend/src/main/java/com/aura/service/MemoryUpdateService.java:35-60 | valid memory stays valid |
| MemoryUpdateService.NoMessagesNoCall | aura-backend/src/main/java/com/aura/service/MemoryUpdateService.java:36-38 | with no new messages nothing changes and the model is not consulted |
| MemoryUpdateService.UpdateRequestShape | aura-backend/src/main/java/com/aura/service/MemoryUpdateService.java:40-48 | two messages, the fixed system prompt then the user content; the previous memory shown is the stored one if valid, else {} |
| MemoryUpdateService.BuildUpdateUserContent | aura-backend/src/main/java/com/aura/service/MemoryUpdateService.java:62-80 | the markers, the previous memory and one LABEL: content line per message in order |
| MemoryUpdateService.KeepsOldMemoryOnInvalidJson | aura-backend/src/main/java/com/aura/service/MemoryUpdateService.java:56-58 | an answer of "not-json" leaves the stored memory in place |
| PdfPromptBuilder.BuildPrompt | aura-backend/src/main/java/com/aura/service/pdf/PdfPromptBuilder.java:15-43 | the builder produces opening, document section and user section |
| PdfPromptBuilder.PromptOpening | aura-backend/src/main/java/com/aura/service/pdf/PdfPromptBuilder.java:17-18 | every prompt opens with the trimmed warning, a blank line and the document marker |
| PdfPromptBuilder.InstructionTrimmed | aura-backend/src/main/java/com/aura/service/pdf/PdfPromptBuilder.java:10-17 | the trimmed warning is the text block without its final line break |
| PdfPromptBuilder.PromptDirectText | aura-backend/src/main/java/com/aura/service/pdf/PdfPromptBuilder.java:20-25 | direct injection of a text writes it trimmed as the document |
| PdfPromptBuilder.PromptNoText | aura-backend/src/main/java/com/aura/service/pdf/PdfPromptBuilder.java:20-28 | a null or blank text is reported as having no extractable text |
| PdfPromptBuilder.PromptNoExcerpts | aura-backend/src/main/java/com/aura/service/pdf/PdfPromptBuilder.java:26-31 | a text with no selected excerpt says none were selected |
| PdfPromptBuilder.PromptChunkEntry | aura-backend/src/main/java/com/aura/service/pdf/PdfPromptBuilder.java:32-38 | each selected excerpt is written as its entry, in the given order, in place of the full text |
| PdfPromptBuilder.ChunkEntriesAppend | aura-backend/src/main/java/com/aura/service/pdf/PdfPromptBuilder.java:33-37 | entries of two runs are those of the first then the second |
| PdfPromptBuilder.EntryOfEachChunk | aura-backend/src/main/java/com/aura/service/pdf/PdfPromptBuilder.java:33-37 | excerpt i's entry comes right after those before it |
| PdfPromptBuilder.ChunkEntryNumbered | aura-backend/src/main/java/com/aura/service/pdf/PdfPromptBuilder.java:35 | an entry is headed by its one-based number, which reads back |
| PdfPromptBuilder.PromptClosing | aura-backend/src/main/java/com/aura/service/pdf/PdfPromptBuilder.java:40-42 | every prompt ends with the user marker and the trimmed message ("" for null) |
| PdfTextExtractor.AsLong | aura-backend/src/main/java/com/aura/service/pdf/PdfTextExtractor.java:34 | `long` arithmetic stays in range and leaves in-range values alone |
| PdfTextExtractor.ClampText | aura-backend/src/main/java/com/aura/service/pdf/PdfTextExtractor.java:108-117 | null gives ""; a prefix of the text, at most maxChars when positive, whole when within the limit |
| PdfTextExtractor.ExtractText | aura-backend/src/main/java/com/aura/service/pdf/PdfTextExtractor.java:29-77 | every failure is one of the extractor's five codes; a success had a non-empty file declared as PDF with a `%PDF` header, and its text is within a positive character limit |
| PdfTextExtractor.ParsePdf | aura-backend/src/main/java/com/aura/service/pdf/PdfTextExtractor.java:84-98 | parsing succeeds iff PDFBox reads the document, it is not encrypted and its pages are within a positive limit, and then yields the stripped text; otherwise parse-failed, encrypted or too-many-pages |
| PdfTextExtractor.DecodeUsAscii | aura-backend/src/main/java/com/aura/service/pdf/PdfTextExtractor.java:104 | US-ASCII decoding keeps bytes below 0x80 as their characters and turns every other byte into a non-ASCII replacement |
| PdfTextExtractor.HasPdfHeader | aura-backend/src/main/java/com/aura/service/pdf/PdfTextExtractor.java:100-106 | true iff there are at least four bytes and their US-ASCII decoding starts with "%PDF" |
| PdfTextExtractor.NamesPdf | aura-backend/src/main/java/com/aura/service/pdf/PdfTextExtractor.java:39-42 | true iff the letters p, d, f occur consecutively in the content type in any mix of cases |
| PdfTextExtractor.NamesPdfExamples | aura-backend/src/main/java/com/aura/service/pdf/PdfTextExtractor.java:39-42 | "application/pdf" and "APPLICATION/X-PDF" are accepted, "image/png" is not |
| PdfTextExtractor.ExtractTextSucceeds | aura-backend/src/main/java/com/aura/service/pdf/PdfTextExtractor.java:29-77 | success iff every guard passes, and then the text is the stripped text clamped |
| PdfTextExtractor.EmptyFileFirst | aura-backend/src/main/java/com/aura/service/pdf/PdfTextExtractor.java:30-32 | a null or empty file is the wrong type before anything else |
| PdfTextExtractor.SizeBeforeType | aura-backend/src/main/java/com/aura/service/pdf/PdfTextExtractor.java:34-42 | an oversized file is refused for its size before its type is looked at |
| PdfTextExtractor.TypeChecked | aura-backend/src/main/java/com/aura/service/pdf/PdfTextExtractor.java:39-42 | a non-empty file within the size limit whose content type is null or does not name pdf is refused as the wrong type |
| PdfTextExtractor.UnreadableBytesFail | aura-backend/src/main/java/com/aura/service/pdf/PdfTextExtractor.java:44-49 | a file whose bytes cannot be read, past the size and type checks, fails with parse-failed |
| PdfTextExtractor.HeaderChecked | aura-backend/src/main/java/com/aura/service/pdf/PdfTextExtractor.java:51-53 | readable bytes without a `%PDF` header (missing or shorter than four bytes) are refused as the wrong type |
| PdfTextExtractor.TimeoutFails | aura-backend/src/main/java/com/aura/service/pdf/PdfTextExtractor.java:60-66 | with a positive timeout, parsing that takes longer than it fails with parse-failed |
| PdfTextExtractor.ParseErrorPropagates | aura-backend/src/main/java/com/aura/service/pdf/PdfTextExtractor.java:55-72 | when every guard passes and parsing fails, the extractor fails with the parser's own code, with or without a timeout |
| PdfTextExtractor.UnreadableDocumentFails | aura-backend/src/main/java/com/aura/service/pdf/PdfTextExtractor.java:84-98 | data PDFBox cannot load fails with parse-failed |
| PdfTextExtractor.PagesChecked | aura-backend/src/main/java/com/aura/service/pdf/PdfTextExtractor.java:89-92 | an unencrypted document with more pages than a positive limit fails with too-many-pages |
| PdfTextExtractor.EncryptedBeforePages | aura-backend/src/main/java/com/aura/service/pdf/PdfTextExtractor.java:86-92 | an encrypted document is refused as encrypted whatever its pages |
| PdfTextExtractor.PdfHeaderExamples | aura-backend/src/main/java/com/aura/service/pdf/PdfTextExtractor.java:100-106 | %PDF passes; short data, other magic and null fail |
| PdfTextExtractor.DefaultSizeLimit | aura-backend/src/main/java/com/aura/service/pdf/PdfTextExtractor.java:34 | the default limit is 26214400 bytes |
| PdfTextExtractor.HugeSizeLimitWraps | aura-backend/src/main/java/com/aura/service/pdf/PdfTextExtractor.java:34-35 | a limit whose byte count overflows wraps negative and disables the size check |
| RefreshTokens.ActiveKeys | aura-backend/src/main/java/com/aura/service/RefreshTokenService.java:88 | exactly the user's unrevoked tokens |
| RefreshTokens.RequireToken | aura-backend/src/main/java/com/aura/service/RefreshTokenService.java:109-117 | found only for a token that is present and non-empty after trimming and whose trimmed hash is stored; otherwise AUTH_REFRESH_INVALID |
| RefreshTokens.RequireValid | aura-backend/src/main/java/com/aura/service/RefreshTokenService.java:98-107 | accepted tokens are stored, unrevoked and not expired; errors are invalid, revoked or expired |
| RefreshTokens.RequireValidIff | aura-backend/src/main/java/com/aura/service/RefreshTokenService.java:98-117 | accepted iff present and non-empty after trimming, stored, unrevoked and expiring no earlier than now |
| RefreshTokens.RevokedBeforeExpired | aura-backend/src/main/java/com/aura/service/RefreshTokenService.java:100-105 | a revoked token is reported revoked even when also expired |
| RefreshTokens.GeneratedTokenTrimmed | aura-backend/src/main/java/com/aura/service/RefreshTokenService.java:119-123 | a URL-safe Base64 token has nothing to trim, so it is looked up by its own hash |
| RefreshTokens.RefreshTokenService.constructor | aura-backend/src/main/java/com/aura/service/RefreshTokenService.java:34-42 | an empty store with the configured lifetime and hash |
| RefreshTokens.RefreshTokenService.Issue | aura-backend/src/main/java/com/aura/service/RefreshTokenService.java:45-58 | stores the token's hash with its user, creation, expiry and client, saves it, returns the raw token |
| RefreshTokens.IssuedTokenValidUntilExpiry | aura-backend/src/main/java/com/aura/service/RefreshTokenService.java:45-58 | an issued token is accepted exactly until its expiry, inclusive |
| RefreshTokens.IssueOnlyAdds | aura-backend/src/main/java/com/aura/service/RefreshTokenService.java:45-58 | issuing changes no existing token |
| RefreshTokens.RefreshTokenService.Refresh | aura-backend/src/main/java/com/aura/service/RefreshTokenService.java:61-74 | the store and result after `refresh` are those of RefreshSpec |
| RefreshTokens.FailedRefreshChangesNothing | aura-backend/src/main/java/com/aura/service/RefreshTokenService.java:61-66 | a failed refresh leaves the store and saves unchanged |
| RefreshTokens.DisabledUserKeepsToken | aura-backend/src/main/java/com/aura/service/RefreshTokenService.java:63-66 | a disabled user gets FORBIDDEN and the token is not revoked |
| RefreshTokens.RefreshRotates | aura-backend/src/main/java/com/aura/service/RefreshTokenService.java:61-74 | success revokes the presented token, then issues a new one for the same enabled user, saved in that order, and returns the access token, new token and user |
| RefreshTokens.RefreshedTokenCannotBeReused | aura-backend/src/main/java/com/aura/service/RefreshTokenService.java:61-74 | presenting the old token again is refused as revoked and changes nothing |
| RefreshTokens.RefreshOnlyRevokes | aura-backend/src/main/java/com/aura/service/RefreshTokenService.java:61-74 | refreshing only revokes or adds tokens |
| RefreshTokens.RefreshTokenService.Revoke | aura-backend/src/main/java/com/aura/service/RefreshTokenService.java:77-84 | the store and result after `revoke` are those of RevokeSpec |
| RefreshTokens.RevokeIdempotent | aura-backend/src/main/java/com/aura/service/RefreshTokenService.java:79-84 | revoking twice is revoking once |
| RefreshTokens.RevokeRevokes | aura-backend/src/main/java/com/aura/service/RefreshTokenService.java:77-84 | the token ends revoked and every other token is unchanged |
| RefreshTokens.RevokeOnlyRevokes | aura-backend/src/main/java/com/aura/service/RefreshTokenService.java:77-84 | revoking only revokes |
| RefreshTokens.RefreshTokenService.RevokeAll | aura-backend/src/main/java/com/aura/service/RefreshTokenService.java:87-96 | the store and count after `revokeAll` are those of RevokeAllSpec |
| RefreshTokens.RevokeAllRevokesActive | aura-backend/src/main/java/com/aura/service/RefreshTokenService.java:87-96 | no active token is left, the count is the number that were active, other tokens unchanged |
| RefreshTokens.RevokeAllOnlyRevokes | aura-backend/src/main/java/com/aura/service/RefreshTokenService.java:87-96 | revoking all only revokes |
| AuthController.ResolveRefreshToken | aura-backend/src/main/java/com/aura/controller/AuthController.java:104-112 | a non-blank cookie wins, else a non-blank body token, else none; never a blank token |
| AuthController.ResolveIp | aura-backend/src/main/java/com/aura/controller/AuthController.java:114-121 | without a non-blank header, the remote address; with one, a piece of the header that neither starts nor ends with a character up to U+0020 |
| AuthController.ResolveIpWhole | aura-backend/src/main/java/com/aura/controller/AuthController.java:114-121 | no header or a blank one gives the remote address; no comma past index 0 gives the whole header trimmed |
| AuthController.ResolveIpFirstHop | aura-backend/src/main/java/com/aura/controller/AuthController.java:115-118 | with a comma past index 0, the trimmed text before the first comma, which has no comma and no trimmable ends |
| AuthController.ResolveIpClientFirst | aura-backend/src/main/java/com/aura/controller/AuthController.java:115-118 | the client address listed first is the one returned |
| AuthInterceptor.NormalizeBaseUrl | aura-frontend/src/app/core/auth/auth.interceptor.ts:11-13 | a prefix of the base with no trailing slash, dropping only slashes |
| AuthInterceptor.NormalizeUnique | aura-frontend/src/app/core/auth/auth.interceptor.ts:11-13 | those properties determine the result |
| AuthInterceptor.NormalizeIdempotent | aura-frontend/src/app/core/auth/auth.interceptor.ts:11-13 | normalising twice is normalising once |
| AuthInterceptor.IsApiRequest | aura-frontend/src/app/core/auth/auth.interceptor.ts:15-18 | true iff the url is the normalised base, then "/api/", then anything |
| AuthInterceptor.IsAuthExempt | aura-frontend/src/app/core/auth/auth.interceptor.ts:9-22 | true iff the url contains "/api/auth/login" or "/api/auth/register" anywhere |
| AuthInterceptor.AuthExemptExamples | aura-frontend/src/app/core/auth/auth.interceptor.ts:9-22 | login and register calls are exempt on any host; "/api/auth/refresh" is not, so it carries the token |
| AuthInterceptor.OutgoingRequest | aura-frontend/src/app/core/auth/auth.interceptor.ts:29-40 | the url and every header not named Authorization in any case are kept, no other header is added, and a changed request carries a truthy token as "Bearer " + token in its only Authorization header |
| AuthInterceptor.HandleError | aura-frontend/src/app/core/auth/auth.interceptor.ts:42-50 | the error is always re-thrown; auth is cleared exactly when the login page is opened, and only on a 401 from an API request |
| AuthInterceptor.TrailingSlashIgnored | aura-frontend/src/app/core/auth/auth.interceptor.ts:15-18 | a base with an extra trailing slash classifies urls the same |
| AuthInterceptor.AuthorizationHeader | aura-frontend/src/app/core/auth/auth.interceptor.ts:29-40 | Bearer header set iff an API request, not exempt, with a truthy token, replacing an Authorization header of any case; otherwise the request unchanged; url and other headers kept |
| AuthInterceptor.ExistingAuthorizationReplaced | aura-frontend/src/app/core/auth/auth.interceptor.ts:35-37 | a lower-case "authorization" header is replaced by the bearer token, not sent beside it |
| AuthInterceptor.ExemptPathsUntouched | aura-frontend/src/app/core/auth/auth.interceptor.ts:9-22 | login and register requests never carry the token and never sign out |
| AuthInterceptor.UnauthorizedClearsSession | aura-frontend/src/app/core/auth/auth.interceptor.ts:42-50 | auth is cleared, and the login page opened, iff a 401 on a non-exempt API request; the error is always re-thrown |
| TextChunker.EffectiveSize | aura-backend/src/main/java/com/aura/service/pdf/TextChunker.java:15 | the size is at least 1 and the configured one when that is |
| TextChunker.EffectiveOverlap | aura-backend/src/main/java/com/aura/service/pdf/TextChunker.java:16 | the overlap is in [0, size−1], the configured one when in range |
| TextChunker.Chunk | aura-backend/src/main/java/com/aura/service/pdf/TextChunker.java:11-33 | the method computes Chunks |
| TextChunker.ChunkWindows | aura-backend/src/main/java/com/aura/service/pdf/TextChunker.java:18-32 | the loop emits the chunks of the windows from 0 |
| TextChunker.WindowChunkIsTrim | aura-backend/src/main/java/com/aura/service/pdf/TextChunker.java:22-26 | a window gives its trimmed slice, or nothing when that is empty |
| TextChunker.WindowsEnds | aura-backend/src/main/java/com/aura/service/pdf/TextChunker.java:21-29 | windows exist iff the start is inside the text; the first starts there and the last reaches the end |
| TextChunker.WindowsBounded | aura-backend/src/main/java/com/aura/service/pdf/TextChunker.java:22 | every window is non-empty, inside the text and at most size long |
| TextChunker.WindowsStride | aura-backend/src/main/java/com/aura/service/pdf/TextChunker.java:21-30 | consecutive windows overlap by exactly the overlap, every window but the last is full, so starts strictly increase |
| TextChunker.WindowsCover | aura-backend/src/main/java/com/aura/service/pdf/TextChunker.java:21-30 | every position of the text lies in some window |
| TextChunker.ChunksFromNumbered | aura-backend/src/main/java/com/aura/service/pdf/TextChunker.java:19-25 | chunk indices are consecutive from the first one |
| TextChunker.ChunksAreTrimmedWindows | aura-backend/src/main/java/com/aura/service/pdf/TextChunker.java:21-31 | the chunk texts are exactly the non-empty trimmed window texts, in window order: no window with text is skipped |
| TextChunker.ChunksFromWindows | aura-backend/src/main/java/com/aura/service/pdf/TextChunker.java:22-26 | every chunk is the non-empty trimmed slice of a window |
| TextChunker.ChunksFromBounded | aura-backend/src/main/java/com/aura/service/pdf/TextChunker.java:22-26 | every chunk is non-empty and at most size long |
| TextChunker.ChunksProperties | aura-backend/src/main/java/com/aura/service/pdf/TextChunker.java:11-33 | null or blank text gives no chunk; chunks are numbered from 0 and each is 1 to size characters |
| TextChunker.TenLettersInWindowsOfFour | aura-backend/src/main/java/com/aura/service/pdf/TextChunker.java:11-33 | "abcdefghij" with size 4 and overlap 1 gives abcd, defg, ghij |

## Left out

- ChatContextService.ClampMessages: lengths and the truncation cut are counted in Unicode code points (a Dafny `char`), where Java's `String.length` and `substring` count UTF-16 units; a character outside the Basic Multilingual Plane counts 1 here and 2 in Java, and a cut through a surrogate pair, which leaves a lone surrogate in Java, is not modelled because a `char` cannot be one.
- ChatContextService.SumLengths: totals are in code points, not UTF-16 units, for the same reason.
- ChatContextService.TruncateLastMessage: keeps a number of code points, not UTF-16 units, and never splits a surrogate pair.
- PdfTextExtractor.ClampText: cuts after `maxChars` code points, not UTF-16 units, and never splits a surrogate pair.
- TextChunker.Chunk: windows are `chunkSize` code points long and step by code points, where Java steps by UTF-16 units and can split a surrogate pair at a window edge.
- TextChunker.ChunkWindows: the same code-point counting as `TextChunker.Chunk`.
- ChatService.BuildDocumentPrompt: the direct-inject limit compares a length in code points, not UTF-16 units.
- Every other length and index in the model (message lengths and totals, chunk windows, trimming) is likewise counted in code points; the two counts agree on text inside the Basic Multilingual Plane.
- The language model, Jackson, PDFBox, SHA-256, `SecureRandom` with Base64, `Math.log` and `Instant.now()` are parameters; the clock is read once per operation.
- RefreshTokens.RefreshTokenService.Issue: requires the fresh token's hash to be new, which the source leaves to the randomness of 64 bytes; a collision is not modelled.
- RefreshTokens.RefreshTokenService.Refresh: requires the same of the replacement token's hash, for the same reason; a collision is not modelled.
- `JwtService` signing of access tokens is out; `refresh` takes the access token as a function of the user.
- `Instant` overflow in `now.plusSeconds` is out; expiry is `now + seconds` over integers.
- The frontend test for the interceptor expects a full logout on 401; the code calls `clearAuth`, and the model follows the code. Router navigation is the `navigateTo` output.
- ChatContextService.ClampWindowBudget: the budget is met only when the system prompt alone fits, as the code does; no stronger bound holds.
- `toLowerCase(Locale.ROOT)` is modelled for ASCII letters only; non-ASCII case mapping is out.
- LexicalRetriever.Bm25Score: computes over reals with `ln` as a parameter, not IEEE doubles, so rounding is out; only structure and sign are proved.
- A stored message with a null id is kept by the recent-window filter; the Java `equals` on a null id would throw.
- The single-thread executor and `Future` timeout of the extractor are modelled as the upload's parse time against the configured timeout; interruption is out.
- `@Transactional` rollback is out: a failure after a save leaves the save in place, as without a transaction.
- Java `int` overflow of `chunk.index() + 1`, of `totalChars` and of `totalTokens` is out; these are unbounded integers.
- ChatContextService.FetchRecentMessages: the page size `windowSize + 1` is an unbounded integer. In Java it is an `int`, which wraps to -2147483648 when the window size is 2147483647; `PageRequest.of` then throws, so every chat turn fails. The model returns the window instead, and `ChatContextService.RecentMessages` does the same.
- Session resolution and creation, the current user, message timestamps and the `newSession` flag of the response are out.
- Repositories are a sequence of stored messages, a map of tokens and a list of save events; the query methods are specified by what they return.
- `clampMessages` edits a copied `ArrayList`; the model rewrites a sequence, so the aliasing between the clamped list and the input's `ChatMessage` objects is not modelled. `overrideLastUserMessage` works on an array in place.
- Auth, session and UI code outside the named helpers (controllers' request plumbing, Angular components, browser storage) is out.
