/**
 * GET /history and GET /history/{conversation_id}: a summary listing of the
 * whole collection, or one conversation by id. Both only read the store.
 */
module History {
  import opened Wrappers
  import opened Models
  import opened Sequences
  import Store = ConversationStore

  /** The listing entry: id, creation time and `title`, which no writer of this backend sets. */
  datatype Summary = Summary(conversationId: string, createdAt: Time, title: Option<string>)

  datatype HistoryResponse =
    | Listed(items: seq<Summary>)
    | Found(conv: Conversation)
    | NotFound
    | DbError
  {
    function Status(): int
    {
      match this
      case Listed(_) => 200
      case Found(_) => 200
      case NotFound => 404
      case DbError => 500
    }
  }

  /** The projection of one cursor entry; a document that does not decode is skipped. */
  function Project(item: Store.CursorItem): Option<Summary>
  {
    match item
    case Readable(c) => Some(Summary(c.conversationId, c.createdAt, None))
    case Unreadable => None
  }

  /** The listing a cursor yields. */
  function Summaries(cursor: seq<Store.CursorItem>): seq<Summary>
  {
    FilterMap(cursor, Project)
  }

  /**
   * How many documents the loop visits. `Next` reports a driver error the
   * same way as the end of the data, so an error at position `k` (`failsAt
   * == Some(k)`) ends the loop there.
   */
  function Visited(cursor: seq<Store.CursorItem>, failsAt: Option<nat>): (n: nat)
    ensures n <= |cursor|
    ensures failsAt.None? ==> n == |cursor|
  {
    match failsAt
    case Some(k) => if k < |cursor| then k else |cursor|
    case None => |cursor|
  }

  /** The list branch's loop over the cursor; a failing `Next` ends it like the end of the data. */
  method ListSummaries(cursor: seq<Store.CursorItem>, failsAt: Option<nat>) returns (results: seq<Summary>)
    ensures results == Summaries(cursor[..Visited(cursor, failsAt)])
  {
    results := [];
    var i := 0;
    while i < |cursor| && failsAt != Some(i)
      invariant i <= Visited(cursor, failsAt)
      invariant results == FilterMap(cursor[..i], Project)
    {
      match cursor[i] {
        case Readable(conv) =>
          results := results + [Summary(conv.conversationId, conv.createdAt, None)];
        case Unreadable =>
      }
      assert cursor[..i + 1][..i] == cursor[..i];
      i := i + 1;
    }
  }

  /**
   * A listing cut short by a driver error is a prefix of the full listing:
   * the summaries read so far, each as the full listing has it.
   */
  lemma {:induction false} CutListingIsPrefix(cursor: seq<Store.CursorItem>, failsAt: Option<nat>)
    ensures var cut, full := Summaries(cursor[..Visited(cursor, failsAt)]), Summaries(cursor);
            |cut| <= |full| && cut == full[..|cut|]
  {
    FilterMapPrefix(cursor, Project, Visited(cursor, failsAt));
  }

  /**
   * One summary per decodable document, in cursor order; each carries the
   * document's id and creation time, and no title.
   */
  lemma {:induction false} SummariesFollowCursor(cursor: seq<Store.CursorItem>)
    ensures |Summaries(cursor)| == CountSome(cursor, Project)
    ensures forall i :: 0 <= i < |cursor| && cursor[i].Readable? ==>
              CountSome(cursor[..i], Project) < |Summaries(cursor)|
              && Summaries(cursor)[CountSome(cursor[..i], Project)]
                 == Summary(cursor[i].conv.conversationId, cursor[i].conv.createdAt, None)
  {
    FilterMapByRank(cursor, Project);
  }

  /**
   * Listing a consistent store gives exactly one summary per stored
   * conversation, in the order the store keeps.
   */
  lemma {:induction false} ListingCoversStore(convs: map<string, Conversation>, order: seq<string>)
    requires Store.Consistent(convs, order)
    ensures var items := Summaries(Store.Documents(convs, order));
            && |items| == |order|
            && forall i :: 0 <= i < |order| ==>
                 items[i] == Summary(order[i], convs[order[i]].createdAt, None)
  {
    var docs := Store.Documents(convs, order);
    FilterMapKeepsAll(docs, Project);
  }

  /** The get branch: a driver error, no document, or the stored conversation as it is. */
  function GetResponse(convs: map<string, Conversation>, id: string, fault: bool): (r: HistoryResponse)
    ensures fault <==> r == DbError
    ensures !fault ==> (r == NotFound <==> id !in convs)
    ensures !fault && id in convs ==> r == Found(convs[id])
  {
    if fault then DbError
    else
      match Store.Lookup(convs, id)
      case None => NotFound
      case Some(c) => Found(c)
  }

  /**
   * After a recorded exchange, fetching that conversation finds it, ending
   * with the exchange's delta.
   */
  lemma HistoryAfterExchange(
    convs: map<string, Conversation>, id: string, delta: seq<ChatMessage>, model: string, now: Time)
    ensures var r := GetResponse(Store.Upsert(convs, id, delta, model, now), id, false);
            && r.Found?
            && |r.conv.messages| >= |delta|
            && r.conv.messages[|r.conv.messages| - |delta|..] == delta
            && r.conv.model == (if id in convs then convs[id].model else model)
  {
  }

  /**
   * HistoryHandler. An empty id lists the documents the cursor yields, any
   * other id fetches one conversation. `fault` says whether `Find` or
   * `FindOne` reports an error; `failsAt` is where `Next` meets one, if it
   * does, which still answers 200 with what was read. The handler only
   * reads: the store is not in its frame.
   */
  method HandleHistory(store: Store.ConversationStore, convId: string, fault: bool, failsAt: Option<nat>)
    returns (resp: HistoryResponse)
    requires store.Valid()
    ensures convId == "" ==>
              resp == (if fault then DbError
                       else Listed(Summaries(store.Cursor()[..Visited(store.Cursor(), failsAt)])))
    ensures convId != "" ==> resp == GetResponse(store.conversations, convId, fault)
  {
    if convId == "" {
      if fault {
        return DbError;
      }
      var results := ListSummaries(store.Cursor(), failsAt);
      return Listed(results);
    }
    if fault {
      return DbError;
    }
    match Store.Lookup(store.conversations, convId) {
      case None => resp := NotFound;
      case Some(conv) => resp := Found(conv);
    }
  }
}
