/** The `User` collection: documents, the two lookups the routes use, and insertion. */
module Users {

  import opened Wrappers
  import opened Primitives
  import opened Collections

  /** The `type` a buyer account gets from the user schema's default. */
  const DefaultType := "user"

  /** The `type` seller signup stores explicitly. */
  const SellerType := "seller"

  /** A user document; `password` is what is stored (the hash), `kind` is the `type` field. */
  datatype User = User(id: UserId, name: string, email: string, password: string, kind: string)

  /** `User.findOne({ email })`: the first document, in collection order, with that email. */
  function FindOne(users: seq<User>, email: string): (r: Option<User>)
    ensures r.None? <==> forall i :: 0 <= i < |users| ==> users[i].email != email
    ensures r.Some? ==> r.value in users && r.value.email == email
  {
    var i := FirstIndex(users, (u: User) => u.email == email);
    if i < |users| then Some(users[i]) else None
  }

  /** `User.findById(id)`, awaited: the document with that `_id`, or null. */
  function FindById(users: seq<User>, id: UserId): (r: Option<User>)
    ensures r.None? <==> forall i :: 0 <= i < |users| ==> users[i].id != id
    ensures r.Some? ==> r.value in users && r.value.id == id
  {
    var i := FirstIndex(users, (u: User) => u.id == id);
    if i < |users| then Some(users[i]) else None
  }

  /** No two documents share an email. */
  ghost predicate UniqueEmails(users: seq<User>)
  {
    forall i, j :: 0 <= i < j < |users| ==> users[i].email != users[j].email
  }

  /** No two documents share an `_id`. */
  ghost predicate UniqueIds(users: seq<User>)
  {
    forall i, j :: 0 <= i < j < |users| ==> users[i].id != users[j].id
  }

  /** With unique emails, looking up a user's email finds exactly that user. */
  lemma FindOneUnique(users: seq<User>, k: nat)
    requires UniqueEmails(users)
    requires k < |users|
    ensures FindOne(users, users[k].email) == Some(users[k])
  {
    var i := FirstIndex(users, (u: User) => u.email == users[k].email);
    assert i <= k;
  }

  /** With unique ids, looking up a user's id finds exactly that user. */
  lemma FindByIdUnique(users: seq<User>, k: nat)
    requires UniqueIds(users)
    requires k < |users|
    ensures FindById(users, users[k].id) == Some(users[k])
  {
    var i := FirstIndex(users, (u: User) => u.id == users[k].id);
    assert i <= k;
  }

  /** An email that is not yet registered finds the user appended with it. */
  lemma FindOneAppended(users: seq<User>, u: User)
    requires FindOne(users, u.email).None?
    ensures FindOne(users + [u], u.email) == Some(u)
  {
    FirstIndexAppend(users, u, (v: User) => v.email == u.email);
  }

  /** The collection, with the `_id` generator MongoDB keeps beside it. */
  class UserStore {
    var users: seq<User>
    var nextId: UserId

    /** Every stored `_id` was issued earlier, so ids are unique. */
    ghost predicate Valid()
      reads this
    {
      UniqueIds(users) && forall i :: 0 <= i < |users| ==> users[i].id < nextId
    }

    constructor ()
      ensures Valid() && users == []
    {
      users := [];
      nextId := 0;
    }

    /** `new User({ ... }).save()`: stores the document under a fresh `_id` and returns it. */
    method Save(name: string, email: string, password: string, kind: string) returns (u: User)
      requires Valid()
      modifies this
      ensures Valid()
      ensures u == User(old(nextId), name, email, password, kind)
      ensures users == old(users) + [u]
      ensures forall i :: 0 <= i < |old(users)| ==> old(users)[i].id != u.id
    {
      u := User(nextId, name, email, password, kind);
      users := users + [u];
      nextId := nextId + 1;
    }
  }
}
