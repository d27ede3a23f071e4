# Chat backend core: a Dafny model

This project models the deterministic core of a small Go chat backend. It
uses a Gemini-style text-generation provider and a MongoDB collection of
conversations:

- **POST /chat** (`backend/handlers/chat.go`). The handler defaults the
  model to `"gemini-pro"`. It turns the client's loosely typed prior turns
  into the provider's message list, appends the new user message, and asks
  the provider for a completion. It then records a two-message delta with
  one upsert (`$push $each` plus `$setOnInsert`). A failed completion never
  writes. A model name that makes the provider URL unparsable panics before
  any write. A write reported as failed returns an error and no text, even
  when the server applied it.
- **The completion call** (`backend/utils/openai.go`). It defaults the model
  to `"gemini-1.5-flash"` and builds the `generateContent` URL and body. It
  reads the answer by checking the status, then the candidates and parts,
  and returns the text of part 0 of candidate 0.
- **GET /history[/{id}]** (`backend/handlers/history.go`). An empty id lists
  the conversations the cursor yields as `{conversation_id, created_at,
  title}` summaries, in cursor order, and skips documents that do not decode.
  A driver error part-way through the cursor ends the listing early and still
  answers 200 with what was read. Any other id fetches one conversation or
  yields not-found.

Files:

- `wrappers.dfy`: `Option` and `Result`.
- `sequences.dfy`: the keep-and-transform pattern that both handler loops
  follow (`FilterMap`), with a rank lemma that says where each kept element
  lands.
- `models.dfy`: `ChatMessage` and `Conversation` (`backend/models/chat.go`).
- `gemini.dfy`: the provider call. It is pure; the HTTP round trip is a
  `transport` function parameter.
- `store.dfy`: the collection as a class `ConversationStore`. It has a map
  from conversation id to `Conversation`, plus the order in which a cursor
  visits documents; the store only promises that this order lists each
  stored id once. It has one mutating method, `Append`, specified by the
  pure `Upsert`.
- `chat.dfy`: the chat handler. The context loop is a method proved against
  `AllMessages`, and the handler is a method over the store.
- `history.dfy`: the history handler. The listing loop is a method proved
  against `Summaries`, and the get branch is `GetResponse`.
- `scenario.dfy`: a client method. From the contracts alone, it proves the
  outcome of a first exchange on a new id with an empty model, of the
  history reads that follow, and of a request whose model name makes the
  provider URL unparsable, which leaves the store as it was.

Notes on what the code does:

- A prior turn is the model's only when `is_user` is the boolean `false`.
  A missing or non-boolean `is_user` makes it a user turn.
- An empty text in the first part of the first candidate is a successful,
  empty completion. It is not an error.
- The two defaults differ (`"gemini-pro"` in the handler,
  `"gemini-1.5-flash"` in the provider call). Both are kept. Because the
  handler never passes an empty model, the provider's default is reached
  only if a client names it explicitly.
- The listing's `title` comes from a field that nothing in this backend
  writes, so every summary's title is absent (`None`).

## Model

| member | source | states |
|---|---|---|
| `Chat.ResolveModel` | backend/handlers/chat.go:37-41 | the model is never empty: an empty request model becomes "gemini-pro", any other is kept |
| `Chat.ProviderDefaultUnused` | backend/handlers/chat.go:39-41 | the provider's defaulting never changes the handler's model; an empty request model reaches the provider as "gemini-pro", not "gemini-1.5-flash" |
| `Chat.RoleOf` | backend/handlers/chat.go:45-48 | a turn gets role "model" if and only if its is_user is the boolean false; every other turn (true, missing, non-bool) gets "user" |
| `Chat.TurnText` | backend/handlers/chat.go:49 | a turn is kept if and only if its text is a string and non-empty, and then that string is its text |
| `Chat.AssembledContext` | backend/handlers/chat.go:44-61 | the list has (kept prior turns) + 1 messages; each kept turn sits at its rank among kept turns with its role and text, so input order is kept; the last message is a user turn holding the request message verbatim, even when empty |
| `Chat.EmptyTurnDropped` | backend/handlers/chat.go:44-61 | worked case: an empty user turn is dropped, an is_user false turn becomes "model", and the new message comes last |
| `Chat.AssembleMessages` | backend/handlers/chat.go:42-61 | the append loop over the prior turns, plus the final append, yields exactly `AllMessages` |
| `Chat.DeltaRecordsExchange` | backend/handlers/chat.go:67-70 | the delta has two messages: a user turn with the text last sent to the provider, the request's image URL and the first timestamp; then an assistant turn with the completion, no image URL and the second timestamp |
| `Chat.HandleChat` | backend/handlers/chat.go:32-82 | an unbindable body is a 400 and the store is unchanged; a completion that panics on an unparsable URL is a bodiless 500 and the store is unchanged; a completion error is returned as is and the store is unchanged; a write reported as failed gives "DB error" and no text, with the store unchanged if the write was not applied and upserted if it was; an acknowledged write upserts the delta under the resolved model and the response is exactly the completion |
| `ConversationStore.Upsert` | backend/handlers/chat.go:71-77 | the keys after the upsert are the old keys plus the id, and every other conversation is unchanged |
| `ConversationStore.UpsertCreates` | backend/handlers/chat.go:72-77 | on an absent id, exactly one conversation is added; its id, model and creation time come from the request, and its messages are the delta |
| `ConversationStore.UpsertAppends` | backend/handlers/chat.go:72-75 | on a present id, the delta is appended after the old messages (which stay a prefix), and id, model and creation time are unchanged; no conversation is added |
| `ConversationStore.SecondAppendKeepsFirstModel` | backend/handlers/chat.go:72-77 | two upserts on a new id give both deltas in order, with the first request's model and creation time, whatever model the second one names |
| `ConversationStore.UpsertKeepsConsistent` | backend/handlers/chat.go:71-77 | the upsert keeps the store invariant: each id is listed once in the cursor order (a new id going last is one admissible order), and each conversation is filed under its own conversation_id |
| `ConversationStore.ConversationStore.Append` | backend/handlers/chat.go:71-81 | success is reported only for an acknowledged write; a write not applied changes nothing; an applied write, acknowledged or not, leaves the conversations as `Upsert` of the old ones; the invariant is kept |
| `ConversationStore.Documents` | backend/handlers/history.go:18-27 | over a consistent store, the unfiltered cursor yields only decodable stored conversations, no conversation_id twice, and every stored conversation, in the store's order |
| `Gemini.ResolveModel` | backend/utils/openai.go:40-42 | the model is never empty: an empty model becomes "gemini-1.5-flash", any other is kept |
| `Gemini.EndpointModel` | backend/utils/openai.go:43 | a URL of the generateContent shape is the prefix, then the model it yields, then ":generateContent" |
| `Gemini.EndpointRoundTrip` | backend/utils/openai.go:43 | the model can be read back from the URL built for it |
| `Gemini.EndpointInjective` | backend/utils/openai.go:43 | different models are sent to different URLs |
| `Gemini.BuildCall` | backend/utils/openai.go:43-48 | a request exists if and only if the URL parses; then its body's contents are the input messages in the same order, the API key header is the configured key, and the URL names the defaulted model |
| `Gemini.Interpret` | backend/utils/openai.go:50-66 | a transport error passes through; a non-200 status is "Gemini error: " followed by the body; an undecodable body is the decoder's error; success holds if and only if the status is 200, the body decodes and candidate 0 has a part 0, and its value is that part's text |
| `Gemini.StatusErrorQuotesBody` | backend/utils/openai.go:56-58 | any status other than 200 is an error whose message ends with the whole response body |
| `Gemini.EmptyAnswerFails` | backend/utils/openai.go:63-65 | zero candidates, or a first candidate with zero parts, is the "No candidates or parts returned" error and never a success |
| `Gemini.OnlyFirstPartCounts` | backend/utils/openai.go:63-66 | two 200 answers that agree on part 0 of candidate 0 give the same completion, whatever their bodies, later candidates or later parts |
| `Gemini.GetGeminiCompletion` | backend/utils/openai.go:39-66 | the call panics if and only if the URL for the defaulted model does not parse; otherwise it succeeds if and only if the transport answers the built call with 200 and a first part, the value is then that part's text, and a transport failure is returned unchanged |
| `History.ListSummaries` | backend/handlers/history.go:24-34 | the loop over the cursor yields exactly `Summaries` of the documents visited before the end of the data or a failing `Next` |
| `History.SummariesFollowCursor` | backend/handlers/history.go:25-33 | there is one summary per decodable document, at its rank among the decodable documents (so cursor order is kept); undecodable documents are skipped; each summary has the document's id and creation time and no title |
| `History.Visited` | backend/handlers/history.go:25 | the loop visits at most the whole cursor, and all of it when `Next` meets no driver error |
| `History.CutListingIsPrefix` | backend/handlers/history.go:25-33 | a listing cut short by a driver error is a prefix of the full listing |
| `History.ListingCoversStore` | backend/handlers/history.go:18-34 | listing a whole consistent store gives one summary per stored conversation, in the store's order |
| `History.GetResponse` | backend/handlers/history.go:39-49 | a driver error is a 500; otherwise the response is not-found if and only if the id is absent, and a present id returns the stored conversation unchanged |
| `History.HistoryAfterExchange` | backend/handlers/history.go:39-49 | after an upsert, fetching that id finds a conversation that ends with the delta and carries the first-seen model |
| `History.HandleHistory` | backend/handlers/history.go:15-49 | an empty id takes the list branch: a 500 on a `Find` fault, otherwise the summaries of the documents visited before a failing `Next` (all of them when none fails); any other id takes the get branch; the store is outside the handler's frame, so reads never modify it |

## Left out

- HTTP plumbing: gin binding, JSON rendering and status writing. A body that fails to bind is the input `None`. Rendering quirks are not modelled, such as an empty listing being sent as `null` because the Go slice is nil.
- The debug print of the model in the chat handler.
- The network call, JSON encoding of the request, reading the response body and JSON decoding. The transport's answer is an input (`Exchange`) that already carries the decoding outcome. Errors from Go libraries are opaque strings. The `Content-Type` header is a constant that is not modelled.
- `ConversationStore.ConversationStore.Append`: does not say where a new or updated document falls in the order a cursor visits, because MongoDB promises no natural order and the listing does not sort; the model only keeps that order a listing of the stored ids with none twice.
- `Gemini.BuildCall`: whether Go's URL parser accepts the endpoint URL is a parameter (`parses`); the parser itself is not modelled. The panic that follows from a nil request is the outcome `Panicked`, and for the chat handler it becomes the bodiless 500 (`Crashed`) of the router's recovery.
- The MongoDB driver. The collection is a map plus a cursor order. The `_id` ObjectID that the driver assigns is not modelled. How `UpdateOne` ends is the input `write`: acknowledged, not applied, or applied with an error reported anyway. Errors from `Find` and `FindOne` are a boolean `fault` input. An error met by the cursor's `Next` is the input `failsAt`, the position where it happens. In the get branch, every driver or decode error other than "no documents" falls under that fault.
- Concurrency: interleaving of two requests on the same id, per-document atomicity, and duplicate documents for one id created by racing upserts (the collection has no unique index).
- `time.Now()`: the three clock readings of the chat handler are parameters. No order between them is claimed.
- Configuration loading, server start-up and route registration, file upload and the Cloudinary client: bootstrap and I/O with no logic to state.
