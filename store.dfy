/**
 * The `conversations` collection as a state machine. The only write is the
 * upsert of ChatHandler: push the delta onto `messages`, and on insert set
 * `conversation_id`, `model` and `created_at` once. Reads look a
 * conversation up by id or walk the collection with a cursor.
 */
module ConversationStore {
  import opened Wrappers
  import opened Models

  /**
   * How `UpdateOne` ends: acknowledged, refused before anything was written,
   * or written with an error reported anyway (a write-concern error, or a
   * network error after the server applied the update).
   */
  datatype WriteResult = Acknowledged | NotApplied | AppliedButReported

  /** One document as a cursor over the collection yields it. */
  datatype CursorItem = Readable(conv: Conversation) | Unreadable

  /**
   * The store invariant: `order` lists each stored id once, and every
   * conversation is filed under its own `conversationId`.
   */
  ghost predicate Consistent(convs: map<string, Conversation>, order: seq<string>)
  {
    && (forall i, j :: 0 <= i < j < |order| ==> order[i] != order[j])
    && (forall id :: id in order <==> id in convs)
    && (forall id :: id in convs ==> convs[id].conversationId == id)
  }

  /**
   * The upsert with `$push $each` and `$setOnInsert`: an absent id gets a new
   * conversation holding exactly the delta; a present one gets the delta
   * appended and keeps its id, model and creation time.
   */
  function Upsert(
    convs: map<string, Conversation>, id: string, delta: seq<ChatMessage>, model: string, now: Time)
    : (r: map<string, Conversation>)
    ensures r.Keys == convs.Keys + {id}
    ensures forall other :: other in convs && other != id ==> r[other] == convs[other]
  {
    if id in convs then convs[id := convs[id].(messages := convs[id].messages + delta)]
    else convs[id := Conversation(id, delta, model, now)]
  }

  /** One admissible order after an upsert: a new document goes last. */
  function Enrol(order: seq<string>, convs: map<string, Conversation>, id: string): seq<string>
  {
    if id in convs then order else order + [id]
  }

  /** `FindOne` by `conversation_id`. */
  function Lookup(convs: map<string, Conversation>, id: string): Option<Conversation>
  {
    if id in convs then Some(convs[id]) else None
  }

  /**
   * `Find` with an empty filter over a consistent store: each stored
   * conversation exactly once, in the order `order` gives.
   */
  function Documents(convs: map<string, Conversation>, order: seq<string>): (docs: seq<CursorItem>)
    requires Consistent(convs, order)
    ensures |docs| == |order|
    ensures forall i :: 0 <= i < |order| ==> docs[i] == Readable(convs[order[i]])
    ensures forall i :: 0 <= i < |docs| ==>
              docs[i].Readable? && docs[i].conv.conversationId in convs
              && convs[docs[i].conv.conversationId] == docs[i].conv
    ensures forall i, j :: 0 <= i < j < |docs| ==> docs[i].conv.conversationId != docs[j].conv.conversationId
    ensures forall id :: id in convs ==> exists i :: 0 <= i < |docs| && docs[i] == Readable(convs[id])
  {
    seq(|order|, i requires 0 <= i < |order| => Readable(convs[order[i]]))
  }

  /** The upsert keeps the store invariant. */
  lemma UpsertKeepsConsistent(
    convs: map<string, Conversation>, order: seq<string>, id: string, delta: seq<ChatMessage>, model: string, now: Time)
    requires Consistent(convs, order)
    ensures Consistent(Upsert(convs, id, delta, model, now), Enrol(order, convs, id))
  {
  }

  /** On an absent id the upsert creates one conversation from the request alone. */
  lemma UpsertCreates(
    convs: map<string, Conversation>, id: string, delta: seq<ChatMessage>, model: string, now: Time)
    requires id !in convs
    ensures Lookup(Upsert(convs, id, delta, model, now), id) == Some(Conversation(id, delta, model, now))
    ensures |Upsert(convs, id, delta, model, now)| == |convs| + 1
  {
  }

  /**
   * On a present id the upsert appends the delta at the end and leaves the
   * id, the model and the creation time as they were (`$setOnInsert`).
   */
  lemma UpsertAppends(
    convs: map<string, Conversation>, id: string, delta: seq<ChatMessage>, model: string, now: Time)
    requires id in convs
    ensures var c, c' := convs[id], Upsert(convs, id, delta, model, now)[id];
            && c'.messages == c.messages + delta
            && c'.messages[..|c.messages|] == c.messages
            && c'.conversationId == c.conversationId
            && c'.model == c.model
            && c'.createdAt == c.createdAt
    ensures |Upsert(convs, id, delta, model, now)| == |convs|
  {
  }

  /**
   * Two exchanges on a fresh id: the messages are both deltas in order, and
   * the model and creation time are those of the first, whatever the second
   * request asked for.
   */
  lemma SecondAppendKeepsFirstModel(
    convs: map<string, Conversation>, id: string,
    d1: seq<ChatMessage>, m1: string, t1: Time,
    d2: seq<ChatMessage>, m2: string, t2: Time)
    requires id !in convs
    ensures Lookup(Upsert(Upsert(convs, id, d1, m1, t1), id, d2, m2, t2), id)
            == Some(Conversation(id, d1 + d2, m1, t1))
  {
  }

  /**
   * The collection in memory. `conversations` is keyed by `conversation_id`;
   * `order` is the order in which a cursor visits the documents, which the
   * store does not promise beyond listing each stored id once.
   */
  class ConversationStore {
    var conversations: map<string, Conversation>
    var order: seq<string>

    ghost predicate Valid()
      reads this
    {
      Consistent(conversations, order)
    }

    constructor ()
      ensures Valid()
      ensures conversations == map[] && order == []
    {
      conversations := map[];
      order := [];
    }

    /**
     * `UpdateOne` with `Upsert: true`. `write` says how the driver call ends;
     * `ok` is whether it reported success. An error does not mean nothing was
     * written: an update applied but reported as failed is stored all the same.
     */
    method Append(id: string, delta: seq<ChatMessage>, model: string, now: Time, write: WriteResult)
      returns (ok: bool)
      requires Valid()
      modifies this
      ensures Valid()
      ensures ok <==> write.Acknowledged?
      ensures write.NotApplied? ==> unchanged(this)
      ensures !write.NotApplied? ==> conversations == Upsert(old(conversations), id, delta, model, now)
    {
      if write.NotApplied? {
        return false;
      }
      UpsertKeepsConsistent(conversations, order, id, delta, model, now);
      order := Enrol(order, conversations, id);
      conversations := Upsert(conversations, id, delta, model, now);
      ok := write.Acknowledged?;
    }

    /** The cursor of `Find(bson.M{})`. */
    function Cursor(): (docs: seq<CursorItem>)
      reads this
      requires Valid()
      ensures |docs| == |order|
    {
      Documents(conversations, order)
    }
  }
}
