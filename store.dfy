/** The collections the controllers work on, the records kept in them, the
    responses the controllers send and the token they issue. Mongo is a set of
    maps from id to record; ids come from a counter, so a new one is never in
    use. */
module Store {
  import opened Json
  import opened ProjectModel

  /** A stored client: the body fields clientValidation admits, the creator,
      and timestamps. */
  datatype Client = Client(
    id: Id,
    name: string,
    email: string,
    phone: string,
    company: string,
    address: Option<string>,
    createdBy: Id,
    createdAt: int,
    updatedAt: int)

  /** A stored user: what signup passes to the User model. */
  datatype User = User(
    id: Id,
    name: string,
    email: string,
    phone: string,
    password: string,
    role: Option<string>)

  /** A signed token's payload and validity: the user id, issue time and expiry
      in seconds. The signature is not modelled. */
  datatype Token = Token(userId: Id, issuedAt: int, expiresAt: int)

  /** expiresIn: '7d'. */
  const Week: int := 7 * 24 * 60 * 60

  /** jwt.sign({ userId }, secret, { expiresIn: '7d' }) at `nowMs`: issued at
      the current second, valid for seven days. */
  function IssueToken(userId: Id, nowMs: int): (t: Token)
    ensures t.userId == userId
    ensures t.issuedAt * 1000 <= nowMs < t.issuedAt * 1000 + 1000
    ensures t.expiresAt == t.issuedAt + 604800
  {
    Token(userId, nowMs / 1000, nowMs / 1000 + Week)
  }

  /** What a handler sends: the JSON body of each kind of response. */
  datatype Payload<T> =
    | Error(error: string)
    | Note(message: string)
    | Saved(message: string, record: T)
    | Found(record: T)
    | Listed(records: seq<T>)

  datatype Response<T> = Response(status: int, payload: Payload<T>)

  const ClientNotFound: string := "Client not found"
  const ProjectNotFound: string := "Project not found"

  /** What a CastError message says before the offending value. */
  const CastPrefix: string := "Cast to ObjectId failed for value \""

  /** What it says after the value: the closing quote, the path and the model. */
  function CastSuffix(path: string, model: string): string
  {
    "\" (type string) at path \"" + path + "\" for model \"" + model + "\""
  }

  /** The message of the CastError Mongoose throws when `value` is not an
      ObjectId: the value, quoted, between the fixed prefix and the suffix. */
  function CastMessage(value: string, path: string, model: string): (m: string)
    ensures |m| == |CastPrefix| + |value| + |CastSuffix(path, model)|
    ensures m[..|CastPrefix|] == CastPrefix
    ensures m[|CastPrefix|..|CastPrefix| + |value|] == value
    ensures m[|CastPrefix| + |value|..] == CastSuffix(path, model)
  {
    CastPrefix + value + CastSuffix(path, model)
  }

  /** The message gives the value back: two values with the same message, path
      and model are the same value. */
  lemma {:induction false} CastMessageNamesValue(a: string, b: string, path: string, model: string)
    requires CastMessage(a, path, model) == CastMessage(b, path, model)
    ensures a == b
  {
    var m := CastMessage(a, path, model);
    assert |a| == |b|;
    assert a == m[|CastPrefix|..|CastPrefix| + |a|] == b;
  }

  class Database {
    var projects: map<Id, Project>
    var clients: map<Id, Client>
    var users: map<Id, User>
    var nextId: nat

    /** Every record is filed under its own id, every id in use is below the
        counter, stored projects satisfy the schema, and no two users share an
        e-mail address. */
    ghost predicate Valid()
      reads this
    {
      && (forall id :: id in projects ==> id < nextId && projects[id].id == id && ValidProject(projects[id]))
      && (forall id :: id in clients ==> id < nextId && clients[id].id == id)
      && (forall id :: id in users ==> id < nextId && users[id].id == id)
      && (forall a, b :: a in users && b in users && users[a].email == users[b].email ==> a == b)
    }

    constructor()
      ensures Valid() && projects == map[] && clients == map[] && users == map[]
    {
      projects := map[];
      clients := map[];
      users := map[];
      nextId := 0;
    }

    /** An id no stored record has. */
    method FreshId() returns (id: Id)
      requires Valid()
      modifies this
      ensures Valid()
      ensures id == old(nextId) && nextId == id + 1
      ensures id !in projects && id !in clients && id !in users
      ensures projects == old(projects) && clients == old(clients) && users == old(users)
    {
      id := nextId;
      nextId := nextId + 1;
    }

    /** Saves a new project under a fresh id. */
    method AddProject(c: Changes, createdBy: Id, now: int) returns (p: Project)
      requires Valid() && CreateErrors(c) == [] && WellCast(c)
      modifies this
      ensures Valid()
      ensures p == NewProject(c, old(nextId), createdBy, now) && p.id !in old(projects)
      ensures projects == old(projects)[p.id := p]
      ensures clients == old(clients) && users == old(users)
    {
      var id := FreshId();
      p := NewProject(c, id, createdBy, now);
      projects := projects[id := p];
    }

    /** Stores `p` in place of the project with its id. */
    method PutProject(p: Project)
      requires Valid() && p.id in projects && ValidProject(p)
      modifies this
      ensures Valid()
      ensures projects == old(projects)[p.id := p]
      ensures clients == old(clients) && users == old(users) && nextId == old(nextId)
    {
      projects := projects[p.id := p];
    }

    /** Stores `k` in place of the client with its id. */
    method PutClient(k: Client)
      requires Valid() && k.id in clients
      modifies this
      ensures Valid()
      ensures clients == old(clients)[k.id := k]
      ensures projects == old(projects) && users == old(users) && nextId == old(nextId)
    {
      clients := clients[k.id := k];
    }

    /** Whether some user has this e-mail address. */
    predicate EmailTaken(email: string)
      reads this
    {
      exists id :: id in users && users[id].email == email
    }

    /** Saves a new user under a fresh id. */
    method AddUser(name: string, email: string, phone: string, password: string, role: Option<string>)
      returns (u: User)
      requires Valid() && !EmailTaken(email)
      modifies this
      ensures Valid()
      ensures u == User(old(nextId), name, email, phone, password, role) && u.id !in old(users)
      ensures users == old(users)[u.id := u]
      ensures projects == old(projects) && clients == old(clients)
    {
      var id := FreshId();
      u := User(id, name, email, phone, password, role);
      users := users[id := u];
    }
  }
}
