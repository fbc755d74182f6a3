/**
 * The wishlist routes: the caller's items, adding an accommodation (at most
 * once per user), and removing one of the caller's own items. Failures are
 * thrown as errors carrying a `status` field and passed on to the error
 * responder.
 */
module WishlistRoutes {
  import opened Wrappers
  import opened Collections
  import opened Models

  const AccommodationRequired := "Accommodation ID is required"
  const AlreadyInWishlist := "Accommodation already in wishlist"
  const ItemNotFound := "Wishlist item not found"
  const ItemRemoved := "Wishlist item removed"

  /** GET /: `find({ user: caller })`, exactly the caller's items, in store order. */
  function List(docs: seq<WishlistItem>, caller: Id): (reply: Reply<seq<WishlistItem>>)
    ensures reply.Respond? && reply.status == 200
    ensures forall k :: 0 <= k < |reply.body| ==> reply.body[k] in docs && reply.body[k].user == caller
    ensures forall k :: 0 <= k < |docs| && docs[k].user == caller ==> docs[k] in reply.body
    ensures reply.body == Filter(docs, (w: WishlistItem) => w.user == caller)
  {
    Respond(200, Filter(docs, (w: WishlistItem) => w.user == caller))
  }

  /** No two items pair the same user with the same accommodation. */
  predicate UniquePairs(docs: seq<WishlistItem>) {
    forall i, j :: 0 <= i < j < |docs| ==>
      docs[i].user != docs[j].user || docs[i].accommodation != docs[j].accommodation
  }

  /** The user already saved the accommodation. */
  predicate Saved(docs: seq<WishlistItem>, user: Id, accommodation: Id) {
    exists k :: 0 <= k < |docs| && docs[k].user == user && docs[k].accommodation == accommodation
  }

  /** Appending a pair that is not saved yet keeps the pairs unique. */
  lemma AppendKeepsPairsUnique(docs: seq<WishlistItem>, item: WishlistItem)
    requires UniquePairs(docs) && !Saved(docs, item.user, item.accommodation)
    ensures UniquePairs(docs + [item])
  {
    var s := docs + [item];
    forall i, j | 0 <= i < j < |s| ensures s[i].user != s[j].user || s[i].accommodation != s[j].accommodation {
      if j == |docs| {
        assert s[i] == docs[i];
      }
    }
  }

  /** Removing an item keeps the pairs unique. */
  lemma RemoveKeepsPairsUnique(docs: seq<WishlistItem>, i: nat)
    requires i < |docs| && UniquePairs(docs)
    ensures UniquePairs(RemoveAt(docs, i))
  {
    var r := RemoveAt(docs, i);
    forall a, b | 0 <= a < b < |r| ensures r[a].user != r[b].user || r[a].accommodation != r[b].accommodation {
      var a', b' := if a < i then a else a + 1, if b < i then b else b + 1;
      assert r[a] == docs[a'] && r[b] == docs[b'];
    }
  }

  /**
   * POST /: a missing accommodation and an accommodation the caller already
   * saved are both rejected with a status-400 error and change nothing;
   * otherwise a new item for the caller is stored and returned with 201.
   * Adding only through this route keeps the pairs unique.
   */
  method Add(store: WishlistCollection, caller: Id, accommodation: Option<Id>) returns (reply: Reply<WishlistItem>)
    requires store.Valid()
    modifies store
    ensures store.Valid()
    ensures UniquePairs(old(store.docs)) ==> UniquePairs(store.docs)
    ensures accommodation.None? ==>
      reply == Forward(StatusError(AccommodationRequired, 400)) && store.docs == old(store.docs) && store.nextId == old(store.nextId)
    ensures accommodation.Some? && Saved(old(store.docs), caller, accommodation.value) ==>
      reply == Forward(StatusError(AlreadyInWishlist, 400)) && store.docs == old(store.docs) && store.nextId == old(store.nextId)
    ensures accommodation.Some? && !Saved(old(store.docs), caller, accommodation.value) ==>
      && reply.Respond? && reply.status == 201
      && reply.body.user == caller && reply.body.accommodation == accommodation.value
      && (forall k :: 0 <= k < |old(store.docs)| ==> old(store.docs)[k].id != reply.body.id)
      && store.docs == old(store.docs) + [reply.body]
      && store.nextId == old(store.nextId) + 1
  {
    if accommodation.None? {
      reply := Forward(StatusError(AccommodationRequired, 400));
      return;
    }
    var existing := FirstIndex(store.docs, (w: WishlistItem) => w.user == caller && w.accommodation == accommodation.value);
    if existing.Some? {
      reply := Forward(StatusError(AlreadyInWishlist, 400));
      return;
    }
    var item := WishlistItem(store.nextId, caller, accommodation.value);
    if UniquePairs(store.docs) {
      AppendKeepsPairsUnique(store.docs, item);
    }
    store.docs := store.docs + [item];
    store.nextId := store.nextId + 1;
    reply := Respond(201, item);
  }

  /**
   * DELETE /:id: `findOneAndDelete({ _id: id, user: caller })`. Only an item of
   * the caller's with that id is removed; otherwise a status-404 error and
   * nothing changes.
   */
  method Delete(store: WishlistCollection, caller: Id, id: Id) returns (reply: Reply<string>)
    requires store.Valid()
    modifies store
    ensures store.Valid() && store.nextId == old(store.nextId)
    ensures UniquePairs(old(store.docs)) ==> UniquePairs(store.docs)
    ensures (exists k :: 0 <= k < |old(store.docs)| && old(store.docs)[k].id == id && old(store.docs)[k].user == caller)
      <==> reply.Respond?
    ensures !reply.Respond? ==> reply == Forward(StatusError(ItemNotFound, 404)) && store.docs == old(store.docs)
    ensures reply.Respond? ==>
      && reply == Respond(200, ItemRemoved)
      && (exists i :: 0 <= i < |old(store.docs)| && old(store.docs)[i].id == id && store.docs == RemoveAt(old(store.docs), i))
      && forall k :: 0 <= k < |store.docs| ==> store.docs[k].id != id
  {
    var found := FirstIndex(store.docs, (w: WishlistItem) => w.id == id && w.user == caller);
    if found.None? {
      reply := Forward(StatusError(ItemNotFound, 404));
      return;
    }
    if UniquePairs(store.docs) {
      RemoveKeepsPairsUnique(store.docs, found.value);
    }
    store.docs := RemoveAt(store.docs, found.value);
    reply := Respond(200, ItemRemoved);
  }
}
