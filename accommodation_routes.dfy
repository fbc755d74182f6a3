/**
 * The accommodation routes: listing, search by city and price range,
 * creation by an authenticated user (who becomes the owner), lookup by id,
 * and update and deletion by the owner only. `caller` is the id of the user
 * the authentication middleware attached.
 */
module AccommodationRoutes {
  import opened Wrappers
  import opened JsValues
  import opened Strings
  import opened Collections
  import opened Models

  const NotFound := "Accommodation not found"
  const NotOwner := "Forbidden: not the owner"

  // ---------------------------------------------------------------------------
  // GET / and GET /search
  // ---------------------------------------------------------------------------

  /** GET /: every accommodation, with 200. */
  method ListAll(store: AccommodationCollection) returns (reply: Reply<seq<Accommodation>>)
    ensures reply.Respond? && reply.status == 200
    ensures reply.body == store.docs
  {
    reply := Respond(200, store.docs);
  }

  /** The query-string parameters of GET /search, as raw strings. */
  datatype SearchParams = SearchParams(city: Option<string>, minPrice: Option<string>, maxPrice: Option<string>)

  /** The store query: a city pattern, and price operators `$gte`/`$lte` when any bound is given. */
  datatype Query = Query(city: Option<string>, price: Option<map<string, real>>)

  /** `if (req.query.x)`: the parameter is present and not empty. */
  predicate Given(param: Option<string>) {
    param.Some? && param.value != []
  }

  /** `{ ...query.price }`: an unset price spreads to no operators. */
  function Spread(price: Option<map<string, real>>): map<string, real> {
    price.GetOr(map[])
  }

  /**
   * Builds the query field by field, as the route does; `toNumber` stands for
   * `Number(...)`. A second price bound is added next to the first, not over it.
   */
  method BuildQuery(params: SearchParams, toNumber: string -> real) returns (query: Query)
    ensures query.city == (if Given(params.city) then params.city else None)
    ensures query.price.Some? <==> Given(params.minPrice) || Given(params.maxPrice)
    ensures query.price.Some? ==> query.price.value.Keys <= {"$gte", "$lte"}
    ensures query.price.Some? ==> ("$gte" in query.price.value <==> Given(params.minPrice))
    ensures query.price.Some? ==> ("$lte" in query.price.value <==> Given(params.maxPrice))
    ensures Given(params.minPrice) ==>
      query.price.Some? && "$gte" in query.price.value && query.price.value["$gte"] == toNumber(params.minPrice.value)
    ensures Given(params.maxPrice) ==>
      query.price.Some? && "$lte" in query.price.value && query.price.value["$lte"] == toNumber(params.maxPrice.value)
  {
    query := Query(None, None);
    if Given(params.city) {
      query := query.(city := params.city);
    }
    if Given(params.minPrice) {
      query := query.(price := Some(Spread(query.price)["$gte" := toNumber(params.minPrice.value)]));
    }
    if Given(params.maxPrice) {
      query := query.(price := Some(Spread(query.price)["$lte" := toNumber(params.maxPrice.value)]));
    }
  }

  /** The numeric `price` field of a document, if it has one. */
  function PriceOf(doc: Accommodation): Option<real> {
    if "price" in doc.fields && doc.fields["price"].Num? then Some(doc.fields["price"].n) else None
  }

  /** The document's `city` is a string containing `pattern`, ignoring case. */
  predicate CityMatches(doc: Accommodation, pattern: string) {
    "city" in doc.fields && doc.fields["city"].Str? && ContainsIgnoringCase(doc.fields["city"].s, pattern)
  }

  /** How the store evaluates the query on one document. */
  predicate Matches(doc: Accommodation, query: Query) {
    && (query.city.Some? ==> CityMatches(doc, query.city.value))
    && (query.price.Some? && "$gte" in query.price.value ==>
          PriceOf(doc).Some? && PriceOf(doc).value >= query.price.value["$gte"])
    && (query.price.Some? && "$lte" in query.price.value ==>
          PriceOf(doc).Some? && PriceOf(doc).value <= query.price.value["$lte"])
  }

  /** What the search promises, stated directly on the parameters. */
  predicate SatisfiesSearch(doc: Accommodation, params: SearchParams, toNumber: string -> real) {
    && (Given(params.city) ==> CityMatches(doc, params.city.value))
    && (Given(params.minPrice) ==> PriceOf(doc).Some? && PriceOf(doc).value >= toNumber(params.minPrice.value))
    && (Given(params.maxPrice) ==> PriceOf(doc).Some? && PriceOf(doc).value <= toNumber(params.maxPrice.value))
  }

  /**
   * GET /search: exactly the accommodations whose city contains the `city`
   * parameter and whose price lies within every bound given, in store order.
   */
  method Search(store: AccommodationCollection, params: SearchParams, toNumber: string -> real)
    returns (reply: Reply<seq<Accommodation>>)
    ensures reply.Respond? && reply.status == 200
    ensures forall k :: 0 <= k < |reply.body| ==>
      reply.body[k] in store.docs && SatisfiesSearch(reply.body[k], params, toNumber)
    ensures forall k :: 0 <= k < |store.docs| && SatisfiesSearch(store.docs[k], params, toNumber) ==>
      store.docs[k] in reply.body
    ensures reply.body == Filter(store.docs, (d: Accommodation) => SatisfiesSearch(d, params, toNumber))
  {
    var query := BuildQuery(params, toNumber);
    assert forall d :: Matches(d, query) <==> SatisfiesSearch(d, params, toNumber);
    var results := Filter(store.docs, (d: Accommodation) => Matches(d, query));
    FilterSame(store.docs, (d: Accommodation) => Matches(d, query), (d: Accommodation) => SatisfiesSearch(d, params, toNumber));
    reply := Respond(200, results);
  }

  // ---------------------------------------------------------------------------
  // POST /, GET /:id, PUT /:id, DELETE /:id
  // ---------------------------------------------------------------------------

  /**
   * POST /: `validation` is the route's validation result (the error message
   * or the validated body). The new document's owner is the caller, whatever
   * the body says.
   */
  method Create(store: AccommodationCollection, caller: Id, validation: Result<map<string, JsValue>, string>)
    returns (reply: Reply<Accommodation>)
    requires store.Valid()
    modifies store
    ensures store.Valid()
    ensures validation.Failure? ==>
      reply == Reject(400, validation.error) && store.docs == old(store.docs) && store.nextId == old(store.nextId)
    ensures validation.Success? ==>
      && reply.Respond? && reply.status == 201
      && reply.body.owner == caller
      && reply.body.fields == validation.value - {"owner"}
      && (forall k :: 0 <= k < |old(store.docs)| ==> old(store.docs)[k].id != reply.body.id)
      && store.docs == old(store.docs) + [reply.body]
      && store.nextId == old(store.nextId) + 1
  {
    if validation.Failure? {
      reply := Reject(400, validation.error);
      return;
    }
    var doc := Accommodation(store.nextId, caller, validation.value - {"owner"});
    store.docs := store.docs + [doc];
    store.nextId := store.nextId + 1;
    reply := Respond(201, doc);
  }

  /** GET /:id: the document with that id, or 404. */
  method GetById(store: AccommodationCollection, id: Id) returns (reply: Reply<Accommodation>)
    ensures (exists k :: 0 <= k < |store.docs| && store.docs[k].id == id) <==> reply.Respond?
    ensures reply.Respond? ==> reply.status == 200 && reply.body in store.docs && reply.body.id == id
    ensures !reply.Respond? ==> reply == Reject(404, NotFound)
  {
    var found := store.IndexOf(id);
    if found.None? {
      reply := Reject(404, NotFound);
    } else {
      reply := Respond(200, store.docs[found.value]);
    }
  }

  /**
   * `Object.assign(accommodation, value)`: the body's fields replace or extend
   * the document's; id and owner stay.
   */
  function Merge(doc: Accommodation, value: map<string, JsValue>): (r: Accommodation)
    ensures r.id == doc.id && r.owner == doc.owner
    ensures r.fields.Keys == doc.fields.Keys + (value.Keys - {"owner"})
    ensures forall key :: key in value && key != "owner" ==> r.fields[key] == value[key]
    ensures forall key :: key in doc.fields && key !in value ==> r.fields[key] == doc.fields[key]
  {
    doc.(fields := doc.fields + (value - {"owner"}))
  }

  /**
   * PUT /:id: 404 when there is no such document, whoever asks; then 403 when
   * the caller is not the owner, before the body is looked at; then 400 when
   * the body does not validate; otherwise that one document is updated and
   * returned with 200. Every error leaves the store unchanged.
   */
  method Update(store: AccommodationCollection, caller: Id, id: Id, validation: Result<map<string, JsValue>, string>)
    returns (reply: Reply<Accommodation>)
    requires store.Valid()
    modifies store
    ensures store.Valid() && store.nextId == old(store.nextId)
    ensures !reply.Respond? ==> store.docs == old(store.docs)
    ensures old(store.IndexOf(id)).None? ==> reply == Reject(404, NotFound)
    ensures var found := old(store.IndexOf(id));
      found.Some? && old(store.docs[found.value]).owner != caller ==> reply == Reject(403, NotOwner)
    ensures var found := old(store.IndexOf(id));
      found.Some? && old(store.docs[found.value]).owner == caller && validation.Failure? ==>
        reply == Reject(400, validation.error)
    ensures var found := old(store.IndexOf(id));
      found.Some? && old(store.docs[found.value]).owner == caller && validation.Success? ==>
        && reply == Respond(200, Merge(old(store.docs[found.value]), validation.value))
        && store.docs == old(store.docs)[found.value := reply.body]
  {
    var found := store.IndexOf(id);
    if found.None? {
      reply := Reject(404, NotFound);
      return;
    }
    var doc := store.docs[found.value];
    if doc.owner != caller {
      reply := Reject(403, NotOwner);
      return;
    }
    if validation.Failure? {
      reply := Reject(400, validation.error);
      return;
    }
    var updated := Merge(doc, validation.value);
    store.docs := store.docs[found.value := updated];
    reply := Respond(200, updated);
  }

  /**
   * DELETE /:id: 404 for a missing id, whoever asks; 403 for a caller who is
   * not the owner; otherwise exactly that document is removed, with 204.
   */
  method Delete(store: AccommodationCollection, caller: Id, id: Id) returns (reply: Reply<()>)
    requires store.Valid()
    modifies store
    ensures store.Valid() && store.nextId == old(store.nextId)
    ensures !reply.Respond? ==> store.docs == old(store.docs)
    ensures old(store.IndexOf(id)).None? ==> reply == Reject(404, NotFound)
    ensures var found := old(store.IndexOf(id));
      found.Some? && old(store.docs[found.value]).owner != caller ==> reply == Reject(403, NotOwner)
    ensures var found := old(store.IndexOf(id));
      found.Some? && old(store.docs[found.value]).owner == caller ==>
        && reply == Respond(204, ())
        && store.docs == RemoveAt(old(store.docs), found.value)
        && forall k :: 0 <= k < |store.docs| ==> store.docs[k].id != id
  {
    var found := store.IndexOf(id);
    if found.None? {
      reply := Reject(404, NotFound);
      return;
    }
    if store.docs[found.value].owner != caller {
      reply := Reject(403, NotOwner);
      return;
    }
    store.docs := RemoveAt(store.docs, found.value);
    reply := Respond(204, ());
  }
}
