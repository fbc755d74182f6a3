/**
 * The documents of the store and the collections holding them. A collection
 * is a sequence of documents in natural (insertion) order; documents get
 * their ids from a per-collection counter, standing for the store's id
 * generator, so ids are unique.
 */
module Models {
  import opened Wrappers
  import opened JsValues
  import opened Collections

  type Id = nat

  /** A stored user; `password` holds the hash. */
  datatype UserRecord = UserRecord(id: Id, name: string, email: string, password: string, role: string)

  /** A user as loaded with `.select('-password')`: every field but the password. */
  datatype Profile = Profile(id: Id, name: string, email: string, role: string)

  function ProfileOf(u: UserRecord): (p: Profile)
    ensures p.id == u.id && p.name == u.name && p.email == u.email && p.role == u.role
  {
    Profile(u.id, u.name, u.email, u.role)
  }

  /** An accommodation: its owner and the remaining fields of its body. */
  datatype Accommodation = Accommodation(id: Id, owner: Id, fields: map<string, JsValue>)

  /** A message; `createdAt` is the creation timestamp. */
  datatype Message = Message(id: Id, sender: Id, recipient: Id, content: string, createdAt: int)

  /** A wishlist entry: `user` saved `accommodation`. */
  datatype WishlistItem = WishlistItem(id: Id, user: Id, accommodation: Id)

  /**
   * A JavaScript Error as the handlers throw it: `status` is the field the
   * handlers set, `statusCode` the field the error responder reads.
   */
  datatype ErrorValue = ErrorValue(message: string, status: Option<int>, statusCode: Option<int>, stack: string)

  /** `const err = new Error(message); err.status = status;` (the stack text is not modelled). */
  function StatusError(message: string, status: int): (e: ErrorValue)
    ensures e.message == message && e.status == Some(status) && e.statusCode.None?
  {
    ErrorValue(message, Some(status), None, "")
  }

  /**
   * What a route handler does: respond with a status and a body, reject with
   * an error status and `{ message }`, or pass an error on with `next(err)`.
   */
  datatype Reply<T> = Respond(status: int, body: T) | Reject(status: int, message: string) | Forward(err: ErrorValue)

  /** No two documents share an id. */
  predicate UniqueIds<T>(docs: seq<T>, id: T -> Id) {
    forall i, j :: 0 <= i < j < |docs| ==> id(docs[i]) != id(docs[j])
  }

  /** Every id was handed out before `next`. */
  predicate IdsBelow<T>(docs: seq<T>, id: T -> Id, next: nat) {
    forall i :: 0 <= i < |docs| ==> id(docs[i]) < next
  }

  function UserIdOf(u: UserRecord): Id { u.id }
  function AccommodationIdOf(a: Accommodation): Id { a.id }
  function MessageIdOf(m: Message): Id { m.id }
  function WishlistIdOf(w: WishlistItem): Id { w.id }

  /** The users collection. `defaultRole` is the role the schema gives a new user. */
  class UserCollection {
    var docs: seq<UserRecord>
    var nextId: nat
    const defaultRole: string

    ghost predicate Valid()
      reads this
    {
      UniqueIds(docs, UserIdOf) && IdsBelow(docs, UserIdOf, nextId)
    }

    constructor (defaultRole: string)
      ensures Valid() && docs == [] && this.defaultRole == defaultRole
    {
      docs := [];
      nextId := 0;
      this.defaultRole := defaultRole;
    }

    /** `User.findById(id)`, as a position. */
    function IndexOf(id: Id): (r: Option<nat>)
      reads this
      ensures r.Some? ==> r.value < |docs| && docs[r.value].id == id
      ensures r.None? <==> forall k :: 0 <= k < |docs| ==> docs[k].id != id
    {
      FirstIndex(docs, (u: UserRecord) => u.id == id)
    }

    /** `User.findOne({ email })`: the first user with that email, as a position. */
    function IndexOfEmail(email: string): (r: Option<nat>)
      reads this
      ensures r.Some? ==> r.value < |docs| && docs[r.value].email == email
      ensures r.Some? ==> forall k :: 0 <= k < r.value ==> docs[k].email != email
      ensures r.None? <==> forall k :: 0 <= k < |docs| ==> docs[k].email != email
    {
      FirstIndex(docs, (u: UserRecord) => u.email == email)
    }
  }

  class AccommodationCollection {
    var docs: seq<Accommodation>
    var nextId: nat

    ghost predicate Valid()
      reads this
    {
      UniqueIds(docs, AccommodationIdOf) && IdsBelow(docs, AccommodationIdOf, nextId)
    }

    constructor ()
      ensures Valid() && docs == []
    {
      docs := [];
      nextId := 0;
    }

    /** `Accommodation.findById(id)`, as a position. */
    function IndexOf(id: Id): (r: Option<nat>)
      reads this
      ensures r.Some? ==> r.value < |docs| && docs[r.value].id == id
      ensures r.None? <==> forall k :: 0 <= k < |docs| ==> docs[k].id != id
    {
      FirstIndex(docs, (a: Accommodation) => a.id == id)
    }
  }

  class MessageCollection {
    var docs: seq<Message>
    var nextId: nat

    ghost predicate Valid()
      reads this
    {
      UniqueIds(docs, MessageIdOf) && IdsBelow(docs, MessageIdOf, nextId)
    }

    constructor ()
      ensures Valid() && docs == []
    {
      docs := [];
      nextId := 0;
    }
  }

  class WishlistCollection {
    var docs: seq<WishlistItem>
    var nextId: nat

    ghost predicate Valid()
      reads this
    {
      UniqueIds(docs, WishlistIdOf) && IdsBelow(docs, WishlistIdOf, nextId)
    }

    constructor ()
      ensures Valid() && docs == []
    {
      docs := [];
      nextId := 0;
    }
  }
}
