/** The handlers of src/controllers/projectController.js. Each takes the request
    parts it reads (body, route parameter, the authenticated user's id), the
    current time, and the store; each sends exactly one response. A failure
    thrown inside a handler is caught there and answered with 500 and the
    failure's own message. */
module ProjectController {
  import opened Json
  import opened Text
  import opened Validation
  import opened ProjectValidation
  import opened ProjectModel
  import opened Store
  import opened Listing

  /** The 400 answer to a body the validator refuses: its first detail message. */
  function Refusal<T>(v: Verdict): (r: Response<T>)
    requires v.Rejected?
    ensures r.status == 400 && r.payload.Error?
    ensures |r.payload.error| > |v.first.key| + 2 && r.payload.error[..|v.first.key| + 2] == Label(v.first.key)
  {
    Response(400, Error(Message(v.first)))
  }

  function ProjectId(p: Project): Id { p.id }

  /** The ids of a list of projects, in order. */
  function ProjectIds(ps: seq<Project>): seq<Id>
  {
    IdsOf(ps, ProjectId)
  }

  /** The stored projects that `keep` selects, each once, newest first. */
  method ListProjects(db: Database, keep: Project -> bool) returns (ps: seq<Project>)
    requires db.Valid()
    ensures forall id :: id in ProjectIds(ps) <==> id in db.projects && keep(db.projects[id])
    ensures Distinct(ProjectIds(ps))
    ensures forall i :: 0 <= i < |ps| ==> ps[i].id in db.projects && db.projects[ps[i].id] == ps[i]
    ensures forall i, j :: 0 <= i < j < |ps| ==> ps[i].createdAt >= ps[j].createdAt
  {
    var m := db.projects;
    var at := (p: Project) => p.createdAt;
    var ks := NewestKeys(m, at, keep);
    ps := RecordsOf(ks, m);
    assert ProjectIds(ps) == ks;
  }

  /** createProject. */
  method CreateProject(db: Database, env: Env, body: Body, caller: Id, now: int, show: real -> string)
    returns (r: Response<Project>)
    requires db.Valid()
    modifies db
    ensures db.Valid()
    ensures db.clients == old(db.clients) && db.users == old(db.users)
    ensures r.status != 201 ==> db.projects == old(db.projects)
    ensures CheckProject(env, body).Rejected? ==> r == Refusal(CheckProject(env, body))
    ensures CheckProject(env, body).Accepted? ==>
      var c := CastChanges(env, body);
      && c.client.Some?
      && (c.client.value !in old(db.clients) ==> r == Response(404, Error(ClientNotFound)))
      && (c.client.value in old(db.clients) && CreateErrors(c) != [] ==>
            r == Response(500, Error(ValidationMessage("Project validation failed", CreateErrors(c), show))))
      && (c.client.value in old(db.clients) && CreateErrors(c) == [] ==>
            var p := NewProject(c, old(db.nextId), caller, now);
            && r == Response(201, Saved("Project created successfully", p))
            && p.id !in old(db.projects)
            && db.projects == old(db.projects)[p.id := p])
  {
    var verdict := CheckProject(env, body);
    if verdict.Rejected? {
      return Refusal(verdict);
    }
    AcceptedBodyCasts(env, body);
    var c := CastChanges(env, body);
    if c.client.value !in db.clients {
      return Response(404, Error(ClientNotFound));
    }
    var errs := CreateErrors(c);
    if errs != [] {
      return Response(500, Error(ValidationMessage("Project validation failed", errs, show)));
    }
    var p := db.AddProject(c, caller, now);
    r := Response(201, Saved("Project created successfully", p));
  }

  /** A body cannot name the project's creator: the key is not in the schema, so
      the body is refused before it is spread into the document, and a created
      project's createdBy is always the caller. */
  lemma {:induction false} CreatorComesFromCaller(env: Env, body: Body)
    ensures "createdBy" in Keys(body) ==> CheckProject(env, body).Rejected?
  {
    ProjectSchemaKeys();
  }

  /** getAllProjects: every project, newest first. */
  method GetAllProjects(db: Database) returns (r: Response<Project>)
    requires db.Valid()
    ensures r.status == 200 && r.payload.Listed?
    ensures forall id :: id in ProjectIds(r.payload.records) <==> id in db.projects
    ensures Distinct(ProjectIds(r.payload.records))
    ensures forall p :: p in r.payload.records ==> p.id in db.projects && db.projects[p.id] == p
    ensures forall i, j :: 0 <= i < j < |r.payload.records| ==>
      r.payload.records[i].createdAt >= r.payload.records[j].createdAt
  {
    var ps := ListProjects(db, (p: Project) => true);
    r := Response(200, Listed(ps));
  }

  /** getProjectsByClient: the projects of one client, newest first. A
      parameter that is not an ObjectId fails the cast: 500 with its message. */
  method GetProjectsByClient(db: Database, clientParam: string) returns (r: Response<Project>)
    requires db.Valid()
    ensures ParseId(clientParam).None? ==>
      r == Response(500, Error(CastMessage(clientParam, "client", "Project")))
    ensures ParseId(clientParam).Some? ==>
      var cid := ParseId(clientParam).value;
      && r.status == 200 && r.payload.Listed?
      && (forall id :: id in ProjectIds(r.payload.records) <==> id in db.projects && db.projects[id].client == cid)
      && Distinct(ProjectIds(r.payload.records))
      && (forall p :: p in r.payload.records ==> p.id in db.projects && db.projects[p.id] == p)
      && (forall i, j :: 0 <= i < j < |r.payload.records| ==>
            r.payload.records[i].createdAt >= r.payload.records[j].createdAt)
  {
    var cid := ParseId(clientParam);
    if cid.None? {
      return Response(500, Error(CastMessage(clientParam, "client", "Project")));
    }
    var wanted := cid.value;
    var ps := ListProjects(db, (p: Project) => p.client == wanted);
    r := Response(200, Listed(ps));
  }

  /** getProjectById. */
  method GetProjectById(db: Database, idParam: string) returns (r: Response<Project>)
    requires db.Valid()
    ensures ParseId(idParam).None? ==> r == Response(500, Error(CastMessage(idParam, "_id", "Project")))
    ensures ParseId(idParam).Some? && ParseId(idParam).value !in db.projects ==>
      r == Response(404, Error(ProjectNotFound))
    ensures ParseId(idParam).Some? && ParseId(idParam).value in db.projects ==>
      r == Response(200, Found(db.projects[ParseId(idParam).value]))
  {
    var id := ParseId(idParam);
    if id.None? {
      return Response(500, Error(CastMessage(idParam, "_id", "Project")));
    }
    if id.value !in db.projects {
      return Response(404, Error(ProjectNotFound));
    }
    r := Response(200, Found(db.projects[id.value]));
  }

  /** updateProject. The checks run in this order: the body, the referenced
      client, the id's cast, the update validators, the project's existence. */
  method UpdateProject(db: Database, env: Env, body: Body, idParam: string, now: int, show: real -> string)
    returns (r: Response<Project>)
    requires db.Valid()
    modifies db
    ensures db.Valid()
    ensures db.clients == old(db.clients) && db.users == old(db.users) && db.nextId == old(db.nextId)
    ensures r.status != 200 ==> db.projects == old(db.projects)
    ensures CheckProject(env, body).Rejected? ==> r == Refusal(CheckProject(env, body))
    ensures CheckProject(env, body).Accepted? ==>
      var c := CastChanges(env, body);
      var id := ParseId(idParam);
      && c.client.Some?
      && (c.client.value !in old(db.clients) ==> r == Response(404, Error(ClientNotFound)))
      && (c.client.value in old(db.clients) && id.None? ==>
            r == Response(500, Error(CastMessage(idParam, "_id", "Project"))))
      && (c.client.value in old(db.clients) && id.Some? && UpdateErrors(c) != [] ==>
            r == Response(500, Error(ValidationMessage("Validation failed", UpdateErrors(c), show))))
      && (c.client.value in old(db.clients) && id.Some? && UpdateErrors(c) == [] && id.value !in old(db.projects) ==>
            r == Response(404, Error(ProjectNotFound)))
      && (c.client.value in old(db.clients) && id.Some? && UpdateErrors(c) == [] && id.value in old(db.projects) ==>
            var p := Merge(old(db.projects)[id.value], c, now);
            && r == Response(200, Saved("Project updated successfully", p))
            && db.projects == old(db.projects)[id.value := p])
  {
    var verdict := CheckProject(env, body);
    if verdict.Rejected? {
      return Refusal(verdict);
    }
    AcceptedBodyCasts(env, body);
    var c := CastChanges(env, body);
    if c.client.value !in db.clients {
      return Response(404, Error(ClientNotFound));
    }
    var id := ParseId(idParam);
    if id.None? {
      return Response(500, Error(CastMessage(idParam, "_id", "Project")));
    }
    var errs := UpdateErrors(c);
    if errs != [] {
      return Response(500, Error(ValidationMessage("Validation failed", errs, show)));
    }
    if id.value !in db.projects {
      return Response(404, Error(ProjectNotFound));
    }
    var p := Merge(db.projects[id.value], c, now);
    db.PutProject(p);
    r := Response(200, Saved("Project updated successfully", p));
  }

  /** deleteProject: only the named project goes. */
  method DeleteProject(db: Database, idParam: string) returns (r: Response<Project>)
    requires db.Valid()
    modifies db
    ensures db.Valid()
    ensures db.clients == old(db.clients) && db.users == old(db.users) && db.nextId == old(db.nextId)
    ensures ParseId(idParam).None? ==>
      r == Response(500, Error(CastMessage(idParam, "_id", "Project"))) && db.projects == old(db.projects)
    ensures ParseId(idParam).Some? && ParseId(idParam).value !in old(db.projects) ==>
      r == Response(404, Error(ProjectNotFound)) && db.projects == old(db.projects)
    ensures ParseId(idParam).Some? && ParseId(idParam).value in old(db.projects) ==>
      r == Response(200, Note("Project deleted successfully"))
      && db.projects == old(db.projects) - {ParseId(idParam).value}
  {
    var id := ParseId(idParam);
    if id.None? {
      return Response(500, Error(CastMessage(idParam, "_id", "Project")));
    }
    if id.value !in db.projects {
      return Response(404, Error(ProjectNotFound));
    }
    db.projects := db.projects - {id.value};
    r := Response(200, Note("Project deleted successfully"));
  }

  /** Deleting the same project twice: the second attempt finds nothing. */
  method DeleteTwice(db: Database, idParam: string) returns (first: Response<Project>, second: Response<Project>)
    requires db.Valid()
    requires ParseId(idParam).Some? && ParseId(idParam).value in db.projects
    modifies db
    ensures first.status == 200
    ensures second == Response(404, Error(ProjectNotFound))
  {
    first := DeleteProject(db, idParam);
    second := DeleteProject(db, idParam);
  }
}
