/** The handlers of src/controllers/clientController.js. The Client model's own
    schema (src/models/Client.js) is not part of this model: a client is stored
    with the strings of the body as they are, and no model-side validator is
    assumed to fail. */
module ClientController {
  import opened Json
  import opened Validation
  import opened ClientValidation
  import opened ProjectModel
  import opened Store
  import opened Listing

  /** The client fields a body carries. */
  datatype ClientChanges = ClientChanges(
    name: Option<string>,
    email: Option<string>,
    phone: Option<string>,
    company: Option<string>,
    address: Option<string>)

  function CastClient(body: Body): (c: ClientChanges)
    ensures c.address.Some? <==> StringAt(body, "address").Some?
  {
    ClientChanges(StringAt(body, "name"), StringAt(body, "email"), StringAt(body, "phone"),
      StringAt(body, "company"), StringAt(body, "address"))
  }

  /** All four required fields are given. */
  predicate Complete(c: ClientChanges)
  {
    c.name.Some? && c.email.Some? && c.phone.Some? && c.company.Some?
  }

  /** An accepted body gives every required field, within the validator's bounds,
      and an address exactly when the body has one. */
  lemma {:induction false} AcceptedClientCasts(env: Env, body: Body)
    requires CheckClient(env, body).Accepted?
    ensures var c := CastClient(body);
      && Complete(c)
      && 2 <= |c.name.value| <= 100 && 10 <= |c.phone.value| <= 15 && 2 <= |c.company.value| <= 100
      && c.email.value != "" && env.isEmail(c.email.value)
      && (c.address.Some? <==> "address" in Keys(body))
      && (c.address.Some? ==> 1 <= |c.address.value| <= 200)
  {
    CheckClientSpec(env, body);
  }

  /** `new Client({...body, createdBy})`, saved at `now`. */
  function NewClient(c: ClientChanges, id: Id, createdBy: Id, now: int): (k: Client)
    requires Complete(c)
    ensures k.id == id && k.createdBy == createdBy && k.createdAt == now && k.updatedAt == now
    ensures k.name == c.name.value && k.email == c.email.value && k.phone == c.phone.value
    ensures k.company == c.company.value && k.address == c.address
  {
    Client(id, c.name.value, c.email.value, c.phone.value, c.company.value, c.address, createdBy, now, now)
  }

  /** findByIdAndUpdate(id, body): given fields are set, an absent address is kept. */
  function MergeClient(k: Client, c: ClientChanges, now: int): (r: Client)
    requires Complete(c)
    ensures r.id == k.id && r.createdBy == k.createdBy && r.createdAt == k.createdAt && r.updatedAt == now
    ensures r.name == c.name.value && r.email == c.email.value && r.phone == c.phone.value
    ensures r.company == c.company.value
    ensures r.address == (if c.address.Some? then c.address else k.address)
  {
    k.(name := c.name.value, email := c.email.value, phone := c.phone.value, company := c.company.value,
       address := if c.address.Some? then c.address else k.address, updatedAt := now)
  }

  function ClientId(k: Client): Id { k.id }

  /** The ids of a list of clients, in order. */
  function ClientIds(ks: seq<Client>): seq<Id>
  {
    IdsOf(ks, ClientId)
  }

  /** createClient. */
  method CreateClient(db: Database, env: Env, body: Body, caller: Id, now: int) returns (r: Response<Client>)
    requires db.Valid()
    modifies db
    ensures db.Valid()
    ensures db.projects == old(db.projects) && db.users == old(db.users)
    ensures CheckClient(env, body).Rejected? ==>
      r == Response(400, Error(Message(CheckClient(env, body).first))) && db.clients == old(db.clients)
    ensures CheckClient(env, body).Accepted? ==>
      var k := NewClient(CastClient(body), old(db.nextId), caller, now);
      && r == Response(201, Saved("Client created successfully", k))
      && k.id !in old(db.clients)
      && db.clients == old(db.clients)[k.id := k]
  {
    var verdict := CheckClient(env, body);
    if verdict.Rejected? {
      return Response(400, Error(Message(verdict.first)));
    }
    AcceptedClientCasts(env, body);
    var id := db.FreshId();
    var k := NewClient(CastClient(body), id, caller, now);
    db.clients := db.clients[id := k];
    r := Response(201, Saved("Client created successfully", k));
  }

  /** getAllClients: every client, newest first. */
  method GetAllClients(db: Database) returns (r: Response<Client>)
    requires db.Valid()
    ensures r.status == 200 && r.payload.Listed?
    ensures forall id :: id in ClientIds(r.payload.records) <==> id in db.clients
    ensures Distinct(ClientIds(r.payload.records))
    ensures forall k :: k in r.payload.records ==> k.id in db.clients && db.clients[k.id] == k
    ensures forall i, j :: 0 <= i < j < |r.payload.records| ==>
      r.payload.records[i].createdAt >= r.payload.records[j].createdAt
  {
    var m := db.clients;
    var ids := NewestKeys(m, (k: Client) => k.createdAt, (k: Client) => true);
    var ks := RecordsOf(ids, m);
    assert ClientIds(ks) == ids;
    r := Response(200, Listed(ks));
  }

  /** getClientById. A parameter that is not an ObjectId fails the cast: 500
      with the cast's message. */
  method GetClientById(db: Database, idParam: string) returns (r: Response<Client>)
    requires db.Valid()
    ensures ParseId(idParam).None? ==> r == Response(500, Error(CastMessage(idParam, "_id", "Client")))
    ensures ParseId(idParam).Some? && ParseId(idParam).value !in db.clients ==>
      r == Response(404, Error(ClientNotFound))
    ensures ParseId(idParam).Some? && ParseId(idParam).value in db.clients ==>
      r == Response(200, Found(db.clients[ParseId(idParam).value]))
  {
    var id := ParseId(idParam);
    if id.None? {
      return Response(500, Error(CastMessage(idParam, "_id", "Client")));
    }
    if id.value !in db.clients {
      return Response(404, Error(ClientNotFound));
    }
    r := Response(200, Found(db.clients[id.value]));
  }

  /** updateClient. */
  method UpdateClient(db: Database, env: Env, body: Body, idParam: string, now: int) returns (r: Response<Client>)
    requires db.Valid()
    modifies db
    ensures db.Valid()
    ensures db.projects == old(db.projects) && db.users == old(db.users) && db.nextId == old(db.nextId)
    ensures r.status != 200 ==> db.clients == old(db.clients)
    ensures CheckClient(env, body).Rejected? ==> r == Response(400, Error(Message(CheckClient(env, body).first)))
    ensures CheckClient(env, body).Accepted? ==>
      var id := ParseId(idParam);
      && (id.None? ==> r == Response(500, Error(CastMessage(idParam, "_id", "Client"))))
      && (id.Some? && id.value !in old(db.clients) ==> r == Response(404, Error(ClientNotFound)))
      && (id.Some? && id.value in old(db.clients) ==>
            var k := MergeClient(old(db.clients)[id.value], CastClient(body), now);
            && r == Response(200, Saved("Client updated successfully", k))
            && db.clients == old(db.clients)[id.value := k])
  {
    var verdict := CheckClient(env, body);
    if verdict.Rejected? {
      return Response(400, Error(Message(verdict.first)));
    }
    AcceptedClientCasts(env, body);
    var id := ParseId(idParam);
    if id.None? {
      return Response(500, Error(CastMessage(idParam, "_id", "Client")));
    }
    if id.value !in db.clients {
      return Response(404, Error(ClientNotFound));
    }
    var k := MergeClient(db.clients[id.value], CastClient(body), now);
    db.PutClient(k);
    r := Response(200, Saved("Client updated successfully", k));
  }

  /** deleteClient: only the named client goes. Its projects stay, still naming it. */
  method DeleteClient(db: Database, idParam: string) returns (r: Response<Client>)
    requires db.Valid()
    modifies db
    ensures db.Valid()
    ensures db.projects == old(db.projects) && db.users == old(db.users) && db.nextId == old(db.nextId)
    ensures ParseId(idParam).None? ==>
      r == Response(500, Error(CastMessage(idParam, "_id", "Client"))) && db.clients == old(db.clients)
    ensures ParseId(idParam).Some? && ParseId(idParam).value !in old(db.clients) ==>
      r == Response(404, Error(ClientNotFound)) && db.clients == old(db.clients)
    ensures ParseId(idParam).Some? && ParseId(idParam).value in old(db.clients) ==>
      r == Response(200, Note("Client deleted successfully"))
      && db.clients == old(db.clients) - {ParseId(idParam).value}
  {
    var id := ParseId(idParam);
    if id.None? {
      return Response(500, Error(CastMessage(idParam, "_id", "Client")));
    }
    if id.value !in db.clients {
      return Response(404, Error(ClientNotFound));
    }
    db.clients := db.clients - {id.value};
    r := Response(200, Note("Client deleted successfully"));
  }

  /** Deleting the same client twice: the second attempt finds nothing. */
  method DeleteTwice(db: Database, idParam: string) returns (first: Response<Client>, second: Response<Client>)
    requires db.Valid()
    requires ParseId(idParam).Some? && ParseId(idParam).value in db.clients
    modifies db
    ensures first.status == 200
    ensures second == Response(404, Error(ClientNotFound))
  {
    first := DeleteClient(db, idParam);
    second := DeleteClient(db, idParam);
  }
}
