/**
 * POST /chat: default the model, turn the client's prior turns into the
 * provider's message list, ask the provider for a completion, and record
 * the exchange with one upsert.
 */
module Chat {
  import opened Wrappers
  import opened Models
  import opened Sequences
  import Gemini
  import Store = ConversationStore

  const DefaultModel := "gemini-pro"
  const InvalidRequestError := "Invalid request"
  const DbError := "DB error"

  /** A JSON value as `interface{}` holds it, seen through the two type assertions the handler makes. */
  datatype JsonValue = JBool(b: bool) | JString(s: string) | JOther

  /** One element of `context`, a `map[string]interface{}`: its `is_user` and `text` entries, each possibly absent. */
  datatype RawTurn = RawTurn(isUser: Option<JsonValue>, text: Option<JsonValue>)

  datatype ChatRequest = ChatRequest(
    conversationId: string,
    message: string,
    model: string,
    imageUrl: string,
    context: seq<RawTurn>)

  /**
   * The reply: `ai_response`, an error body with its HTTP status, or the
   * bodiless 500 that the router's panic recovery sends.
   */
  datatype ChatResponse = Answered(aiResponse: string) | Rejected(error: string) | Failed(error: string) | Crashed
  {
    function Status(): int
    {
      match this
      case Answered(_) => 200
      case Rejected(_) => 400
      case Failed(_) => 500
      case Crashed => 500
    }
  }

  /** An empty model name selects the handler's own default. */
  function ResolveModel(model: string): (m: string)
    ensures m != ""
    ensures model != "" ==> m == model
    ensures model == "" ==> m == DefaultModel
  {
    if model == "" then DefaultModel else model
  }

  /**
   * The model the handler picks is never empty, so the provider's own
   * default is never used on this path.
   */
  lemma ProviderDefaultUnused(model: string)
    ensures Gemini.ResolveModel(ResolveModel(model)) == ResolveModel(model)
    ensures model == "" ==> Gemini.ResolveModel(ResolveModel(model)) == DefaultModel != Gemini.DefaultModel
  {
  }

  /** Only a boolean `is_user` equal to false makes a turn the model's. */
  function RoleOf(turn: RawTurn): (role: string)
    ensures role == "model" <==> turn.isUser == Some(JBool(false))
    ensures role != "model" ==> role == "user"
  {
    if turn.isUser == Some(JBool(false)) then "model" else "user"
  }

  /** The text of a turn that is kept: a string, and not empty. */
  function TurnText(turn: RawTurn): (t: Option<string>)
    ensures t.Some? <==> exists s :: turn.text == Some(JString(s)) && s != ""
    ensures t.Some? ==> turn.text == Some(JString(t.value))
  {
    match turn.text
    case Some(JString(s)) => if s != "" then Some(s) else None
    case _ => None
  }

  /** The provider message for one prior turn, or nothing if it is dropped. */
  function Translate(turn: RawTurn): Option<Gemini.Message>
  {
    match TurnText(turn)
    case Some(t) => Some(Gemini.Message(RoleOf(turn), [Gemini.Part(t)]))
    case None => None
  }

  function UserMessage(message: string): Gemini.Message
  {
    Gemini.Message("user", [Gemini.Part(message)])
  }

  /** The messages sent to the provider: the kept prior turns, then the new one. */
  function AllMessages(turns: seq<RawTurn>, message: string): seq<Gemini.Message>
  {
    FilterMap(turns, Translate) + [UserMessage(message)]
  }

  /**
   * What the assembled list is: one message per kept prior turn, each at its
   * rank among the kept turns (so input order is kept), with its role and
   * text, and last the new message as a user turn, verbatim even when empty.
   */
  lemma {:induction false} AssembledContext(turns: seq<RawTurn>, message: string)
    ensures |AllMessages(turns, message)| == CountSome(turns, Translate) + 1
    ensures AllMessages(turns, message)[|AllMessages(turns, message)| - 1] == Gemini.Message("user", [Gemini.Part(message)])
    ensures forall i :: 0 <= i < |turns| && TurnText(turns[i]).Some? ==>
              CountSome(turns[..i], Translate) < CountSome(turns, Translate)
              && AllMessages(turns, message)[CountSome(turns[..i], Translate)]
                 == Gemini.Message(RoleOf(turns[i]), [Gemini.Part(TurnText(turns[i]).value)])
  {
    FilterMapByRank(turns, Translate);
  }

  /** A worked case: an empty user turn is dropped and a `false` turn becomes the model's. */
  lemma EmptyTurnDropped()
    ensures AllMessages(
              [RawTurn(Some(JBool(true)), Some(JString(""))), RawTurn(Some(JBool(false)), Some(JString("hi")))],
              "hello")
            == [Gemini.Message("model", [Gemini.Part("hi")]), Gemini.Message("user", [Gemini.Part("hello")])]
  {
    var turns := [RawTurn(Some(JBool(true)), Some(JString(""))), RawTurn(Some(JBool(false)), Some(JString("hi")))];
    assert turns[..1][..0] == [];
    assert FilterMap(turns[..1], Translate) == [];
    assert turns[..2][..1] == turns[..1];
    assert turns[..2] == turns;
  }

  /** The context loop: grows the list turn by turn, then appends the new message. */
  method AssembleMessages(turns: seq<RawTurn>, message: string) returns (allMsgs: seq<Gemini.Message>)
    ensures allMsgs == AllMessages(turns, message)
  {
    var contextMsgs: seq<Gemini.Message> := [];
    if |turns| > 0 {
      for i := 0 to |turns|
        invariant contextMsgs == FilterMap(turns[..i], Translate)
      {
        var role := "user";
        if turns[i].isUser == Some(JBool(false)) {
          role := "model";
        }
        match turns[i].text {
          case Some(JString(text)) =>
            if text != "" {
              contextMsgs := contextMsgs + [Gemini.Message(role, [Gemini.Part(text)])];
            }
          case _ =>
        }
        assert turns[..i + 1][..i] == turns[..i];
      }
    }
    assert turns[..|turns|] == turns;
    allMsgs := contextMsgs + [UserMessage(message)];
  }

  /** The transcript delta: the user's turn, then the assistant's, which has no image. */
  function Delta(req: ChatRequest, aiResp: string, userStamp: Time, replyStamp: Time): seq<ChatMessage>
  {
    [ChatMessage(req.message, true, req.imageUrl, userStamp), ChatMessage(aiResp, false, "", replyStamp)]
  }

  /**
   * The delta records the exchange: its user turn is the message last sent
   * to the provider, with the request's image, and its assistant turn is the
   * completion.
   */
  lemma DeltaRecordsExchange(req: ChatRequest, aiResp: string, userStamp: Time, replyStamp: Time)
    ensures var d, sentMsgs := Delta(req, aiResp, userStamp, replyStamp), AllMessages(req.context, req.message);
            && |d| == 2
            && d[0].isUser && !d[1].isUser
            && sentMsgs[|sentMsgs| - 1] == Gemini.Message("user", [Gemini.Part(d[0].text)])
            && d[0].imageUrl == req.imageUrl && d[0].timestamp == userStamp
            && d[1].text == aiResp && d[1].imageUrl == "" && d[1].timestamp == replyStamp
  {
  }

  /** The completion the handler asks for on a request. */
  function Completion(
    req: ChatRequest, apiKey: string, parses: string -> bool, transport: Gemini.HttpCall -> Gemini.Exchange)
    : Gemini.Outcome
  {
    Gemini.GetGeminiCompletion(AllMessages(req.context, req.message), ResolveModel(req.model), apiKey, parses, transport)
  }

  /**
   * ChatHandler. `body` is None when the JSON does not bind; `parses` is the
   * URL parser's verdict and `transport` the HTTP round trip to the provider;
   * `write` says how the upsert ends; `userStamp`, `replyStamp`
   * and `now` are the three clock readings, all taken after the completion.
   * A completion that panics or fails writes nothing; a write reported as
   * failed returns no text, even when the exchange was stored; a success
   * returns exactly the completion after recording the exchange.
   */
  method HandleChat(
    store: Store.ConversationStore, body: Option<ChatRequest>, apiKey: string,
    parses: string -> bool, transport: Gemini.HttpCall -> Gemini.Exchange, write: Store.WriteResult,
    userStamp: Time, replyStamp: Time, now: Time)
    returns (resp: ChatResponse)
    requires store.Valid()
    modifies store
    ensures store.Valid()
    ensures body.None? ==> resp == Rejected(InvalidRequestError) && unchanged(store)
    ensures body.Some? && Completion(body.value, apiKey, parses, transport).Panicked? ==>
              resp == Crashed && unchanged(store)
    ensures body.Some? && Completion(body.value, apiKey, parses, transport).Returned? ==>
              var req, result := body.value, Completion(body.value, apiKey, parses, transport).result;
              && (result.Err? ==> resp == Failed(result.error) && unchanged(store))
              && (result.Ok? && write.Acknowledged? ==> resp == Answered(result.value))
              && (result.Ok? && !write.Acknowledged? ==> resp == Failed(DbError))
              && (result.Ok? && write.NotApplied? ==> unchanged(store))
              && (result.Ok? && !write.NotApplied? ==>
                    store.conversations
                       == Store.Upsert(old(store.conversations), req.conversationId,
                                       Delta(req, result.value, userStamp, replyStamp), ResolveModel(req.model), now))
  {
    if body.None? {
      return Rejected(InvalidRequestError);
    }
    var req := body.value;
    var model := ResolveModel(req.model);
    var allMsgs := AssembleMessages(req.context, req.message);
    var outcome := Gemini.GetGeminiCompletion(allMsgs, model, apiKey, parses, transport);
    if outcome.Panicked? {
      return Crashed;
    }
    if outcome.result.Err? {
      return Failed(outcome.result.error);
    }
    var aiResp := outcome.result.value;
    var msgList := Delta(req, aiResp, userStamp, replyStamp);
    var ok := store.Append(req.conversationId, msgList, model, now, write);
    if !ok {
      return Failed(DbError);
    }
    resp := Answered(aiResp);
  }
}
