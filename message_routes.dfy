/**
 * The message routes: sending, reading one message (only its sender or
 * recipient may), the conversation between the caller and another user in
 * creation order, and deletion by the sender only.
 */
module MessageRoutes {
  import opened Wrappers
  import opened Collections
  import opened Models

  const FieldsRequired := "recipientId and content are required"
  const NotFound := "Message not found"
  const NotFoundOrNotAuthorized := "Message not found or not authorized"
  const Removed := "Message removed"

  /**
   * POST /: `recipientId` is None when missing, `content` empty when missing;
   * `now` is the creation time the store stamps. The sender is the caller.
   */
  method Send(store: MessageCollection, caller: Id, recipientId: Option<Id>, content: string, now: int)
    returns (reply: Reply<Message>)
    requires store.Valid()
    modifies store
    ensures store.Valid()
    ensures recipientId.None? || content == [] ==>
      reply == Reject(400, FieldsRequired) && store.docs == old(store.docs) && store.nextId == old(store.nextId)
    ensures recipientId.Some? && content != [] ==>
      && reply.Respond? && reply.status == 201
      && reply.body.sender == caller && reply.body.recipient == recipientId.value
      && reply.body.content == content && reply.body.createdAt == now
      && (forall k :: 0 <= k < |old(store.docs)| ==> old(store.docs)[k].id != reply.body.id)
      && store.docs == old(store.docs) + [reply.body]
      && store.nextId == old(store.nextId) + 1
  {
    if recipientId.None? || content == [] {
      reply := Reject(400, FieldsRequired);
      return;
    }
    var message := Message(store.nextId, caller, recipientId.value, content, now);
    store.docs := store.docs + [message];
    store.nextId := store.nextId + 1;
    reply := Respond(201, message);
  }

  /** The caller takes part in the message. */
  predicate Participant(m: Message, caller: Id) {
    m.sender == caller || m.recipient == caller
  }

  /**
   * GET /:id: `findOne({ _id: id, $or: [{ sender }, { recipient }] })`. A
   * message is returned only to its sender or recipient; for anyone else the
   * answer is the same 404 as for a missing id.
   */
  function GetById(docs: seq<Message>, caller: Id, id: Id): (reply: Reply<Message>)
    ensures reply.Respond? ==> reply.status == 200 && reply.body in docs && reply.body.id == id && Participant(reply.body, caller)
    ensures !reply.Respond? ==> reply == Reject(404, NotFound)
    ensures reply.Respond? <==> exists k :: 0 <= k < |docs| && docs[k].id == id && Participant(docs[k], caller)
  {
    match FirstIndex(docs, (m: Message) => m.id == id && Participant(m, caller))
    case None => Reject(404, NotFound)
    case Some(i) => Respond(200, docs[i])
  }

  /** The message goes from `me` to `other` or from `other` to `me`. */
  predicate Between(m: Message, me: Id, other: Id) {
    (m.sender == me && m.recipient == other) || (m.sender == other && m.recipient == me)
  }

  function CreatedAt(m: Message): int { m.createdAt }

  /**
   * GET /conversation/:userId: the messages between the caller and `other`,
   * sorted by `createdAt` ascending. It holds each such message as often as the
   * store does, and nothing else.
   */
  function Conversation(docs: seq<Message>, me: Id, other: Id): (r: seq<Message>)
    ensures SortedBy(r, CreatedAt)
    ensures multiset(r) == multiset(Filter(docs, (m: Message) => Between(m, me, other)))
    ensures forall k :: 0 <= k < |r| ==> r[k] in docs && Between(r[k], me, other)
    ensures forall k :: 0 <= k < |docs| && Between(docs[k], me, other) ==> docs[k] in r
  {
    var matching := Filter(docs, (m: Message) => Between(m, me, other));
    var sorted := SortBy(matching, CreatedAt);
    SameMultisetSameMembers(sorted, matching);
    sorted
  }

  /**
   * DELETE /:id: only the sender may delete. The recipient, anyone else and a
   * missing id all get 404 and the store is unchanged; otherwise exactly that
   * message is removed.
   */
  method Delete(store: MessageCollection, caller: Id, id: Id) returns (reply: Reply<string>)
    requires store.Valid()
    modifies store
    ensures store.Valid() && store.nextId == old(store.nextId)
    ensures (exists k :: 0 <= k < |old(store.docs)| && old(store.docs)[k].id == id && old(store.docs)[k].sender == caller)
      <==> reply.Respond?
    ensures !reply.Respond? ==> reply == Reject(404, NotFoundOrNotAuthorized) && store.docs == old(store.docs)
    ensures reply.Respond? ==>
      && reply == Respond(200, Removed)
      && (exists i :: 0 <= i < |old(store.docs)| && old(store.docs)[i].id == id && store.docs == RemoveAt(old(store.docs), i))
      && forall k :: 0 <= k < |store.docs| ==> store.docs[k].id != id
  {
    var found := FirstIndex(store.docs, (m: Message) => m.id == id && m.sender == caller);
    if found.None? {
      reply := Reject(404, NotFoundOrNotAuthorized);
      return;
    }
    store.docs := RemoveAt(store.docs, found.value);
    reply := Respond(200, Removed);
  }
}
