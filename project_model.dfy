/** The Project document (src/models/Project.js): what Mongoose makes of a
    request body (casting, trimming, the status default, timestamps), which of
    its path validators fail, and how an update is merged into a stored
    document. */
module ProjectModel {
  import opened Json
  import opened Text
  import opened Validation
  import opened ProjectValidation

  /** A document id: the number a 24-digit hexadecimal ObjectId string denotes. */
  type Id = nat

  /** A stored project. Times are milliseconds since the epoch. */
  datatype Project = Project(
    id: Id,
    name: string,
    description: string,
    status: string,
    startDate: int,
    endDate: Option<int>,
    budget: Option<real>,
    client: Id,
    createdBy: Id,
    createdAt: int,
    updatedAt: int)

  /** The invariants of the schema: trimmed, non-empty name and description,
      a status from the enum, a budget no less than 0. The references and
      startDate are present by construction of the record. Nothing relates
      endDate to startDate. */
  predicate ValidProject(p: Project)
  {
    && p.name != "" && Trimmed(p.name)
    && p.description != "" && Trimmed(p.description)
    && p.status in Statuses
    && (p.budget.Some? ==> p.budget.value >= 0.0)
  }

  /** The id a request parameter or body member names, if it is an ObjectId string. */
  function ParseId(s: string): (r: Option<Id>)
    ensures r.Some? <==> |s| == 24 && IsHex(s)
    ensures r.Some? ==> r.value < Pow16(24)
  {
    if |s| == 24 && IsHex(s) then Some(HexValue(s)) else None
  }

  /** Every id below 16^24 has a spelling that ParseId reads back. */
  lemma {:induction false} ParseIdRoundTrip(id: Id)
    requires id < Pow16(24)
    ensures ParseId(HexString(id, 24)) == Some(id)
  {
    var s := HexString(id, 24);
    assert |s| == 24 && IsHex(s);
  }

  // ---------------------------------------------------------------------------
  // Casting a body

  /** The paths of a body after Mongoose has cast them: strings trimmed (the
      trim setters), dates and numbers converted, the client id read. A member
      that is absent, or that cannot be cast, gives None. */
  datatype Changes = Changes(
    name: Option<string>,
    description: Option<string>,
    status: Option<string>,
    startDate: Option<int>,
    endDate: Option<int>,
    budget: Option<real>,
    client: Option<Id>)

  function TrimAt(body: Body, key: string): (r: Option<string>)
    ensures r.Some? <==> StringAt(body, key).Some?
    ensures r.Some? ==> Trimmed(r.value) && |r.value| <= |StringAt(body, key).value|
  {
    var t := StringAt(body, key);
    if t.Some? then
      TrimIdempotent(t.value);
      Some(Trim(t.value))
    else None
  }

  function DateAt(env: Env, body: Body, key: string): Option<int>
  {
    var v := Lookup(body, key);
    if v.Some? then DateOf(env, v.value) else None
  }

  function NumberAt(env: Env, body: Body, key: string): Option<real>
  {
    var v := Lookup(body, key);
    if v.Some? then NumberOf(env, v.value) else None
  }

  function IdAt(body: Body, key: string): Option<Id>
  {
    var t := StringAt(body, key);
    if t.Some? then ParseId(t.value) else None
  }

  /** The strings of `c` have been through the trim setters. */
  predicate WellCast(c: Changes)
  {
    (c.name.Some? ==> Trimmed(c.name.value)) && (c.description.Some? ==> Trimmed(c.description.value))
  }

  function CastChanges(env: Env, body: Body): (c: Changes)
    ensures WellCast(c)
    ensures c.status == StringAt(body, "status")
  {
    Changes(
      TrimAt(body, "name"),
      TrimAt(body, "description"),
      StringAt(body, "status"),
      DateAt(env, body, "startDate"),
      DateAt(env, body, "endDate"),
      NumberAt(env, body, "budget"),
      IdAt(body, "client"))
  }

  // ---------------------------------------------------------------------------
  // Path validators

  /** The ValidatorErrors the schema can raise on a path. */
  datatype PathError =
    | PathRequired(path: string)
    | PathNotEnum(path: string, given: string)
    | PathBelowMin(path: string, amount: real)

  /** Mongoose's default validator messages; `show` renders a number as
      JavaScript's String(x) does. */
  function ErrorMessage(e: PathError, show: real -> string): (m: string)
    ensures e.PathRequired? ==> m == "Path `" + e.path + "` is required."
  {
    match e
    case PathRequired(p) => "Path `" + p + "` is required."
    case PathNotEnum(p, v) => "`" + v + "` is not a valid enum value for path `" + p + "`."
    case PathBelowMin(p, x) => "Path `" + p + "` (" + show(x) + ") is less than minimum allowed value (0)."
  }

  /** The message of a ValidationError: its prefix, then each failing path with
      its message, separated by commas. */
  function ValidationMessage(prefix: string, errors: seq<PathError>, show: real -> string): (m: string)
    ensures |errors| == 1 ==> m == prefix + ": " + errors[0].path + ": " + ErrorMessage(errors[0], show)
  {
    prefix + ": " + Join(PathMessages(errors, show), ", ")
  }

  /** One more failing path adds a comma, the path and its message at the end;
      with the single-error case this fixes the message for any number of errors. */
  lemma {:induction false} ValidationMessageAppend(prefix: string, errors: seq<PathError>, e: PathError, show: real -> string)
    requires errors != []
    ensures ValidationMessage(prefix, errors + [e], show)
      == ValidationMessage(prefix, errors, show) + ", " + (e.path + ": " + ErrorMessage(e, show))
  {
    var ms := PathMessages(errors, show);
    var x := e.path + ": " + ErrorMessage(e, show);
    var longer := PathMessages(errors + [e], show);
    assert longer == ms + [x] by {
      assert |longer| == |ms + [x]|;
      forall i | 0 <= i < |longer| ensures longer[i] == (ms + [x])[i] {
        assert (errors + [e])[i] == if i < |errors| then errors[i] else e;
      }
    }
    JoinAppend(ms, x, ", ");
    var j := Join(ms, ", ");
    var joined := Join(longer, ", ");
    assert joined == j + ", " + x;
    var head := prefix + ": ";
    assert ValidationMessage(prefix, errors + [e], show) == head + joined;
    assert ValidationMessage(prefix, errors, show) == head + j;
    Regroup(head, j, ", ", x);
  }

  lemma Regroup(a: string, b: string, c: string, d: string)
    ensures a + (b + c + d) == a + b + c + d
  {
    assert b + c + d == b + (c + d);
    assert a + (b + (c + d)) == (a + b) + (c + d);
  }

  function PathMessages(errors: seq<PathError>, show: real -> string): (r: seq<string>)
    ensures |r| == |errors|
    ensures forall i :: 0 <= i < |r| ==> r[i] == errors[i].path + ": " + ErrorMessage(errors[i], show)
  {
    if errors == [] then [] else [errors[0].path + ": " + ErrorMessage(errors[0], show)] + PathMessages(errors[1..], show)
  }

  /** A required String path fails on a missing or (after trim) empty value. */
  function RequiredTextErrors(path: string, v: Option<string>): seq<PathError>
  {
    if v.None? || v.value == "" then [PathRequired(path)] else []
  }

  function StatusErrors(v: Option<string>): seq<PathError>
  {
    if v.Some? && v.value !in Statuses then [PathNotEnum("status", v.value)] else []
  }

  function BudgetErrors(v: Option<real>): seq<PathError>
  {
    if v.Some? && v.value < 0.0 then [PathBelowMin("budget", v.value)] else []
  }

  /** document.validate() on a new document built from `c` (status already
      defaulted, createdBy set by the caller), path by path in schema order. */
  function CreateErrors(c: Changes): (errs: seq<PathError>)
    ensures errs == [] <==>
      && c.name.Some? && c.name.value != "" && c.description.Some? && c.description.value != ""
      && (c.status.Some? ==> c.status.value in Statuses) && c.startDate.Some?
      && (c.budget.Some? ==> c.budget.value >= 0.0) && c.client.Some?
  {
    RequiredTextErrors("name", c.name) + RequiredTextErrors("description", c.description) + StatusErrors(c.status)
    + (if c.startDate.None? then [PathRequired("startDate")] else [])
    + BudgetErrors(c.budget)
    + (if c.client.None? then [PathRequired("client")] else [])
  }

  /** The update validators (runValidators): only the paths being set are checked. */
  function UpdateErrors(c: Changes): (errs: seq<PathError>)
    ensures errs == [] <==>
      && (c.name.Some? ==> c.name.value != "") && (c.description.Some? ==> c.description.value != "")
      && (c.status.Some? ==> c.status.value in Statuses) && (c.budget.Some? ==> c.budget.value >= 0.0)
  {
    (if c.name.Some? then RequiredTextErrors("name", c.name) else [])
    + (if c.description.Some? then RequiredTextErrors("description", c.description) else [])
    + StatusErrors(c.status) + BudgetErrors(c.budget)
  }

  // ---------------------------------------------------------------------------
  // Documents

  /** The document `new Project({...body, createdBy})` saves, with its
      timestamps both set to `now`. */
  function NewProject(c: Changes, id: Id, createdBy: Id, now: int): (p: Project)
    requires CreateErrors(c) == [] && WellCast(c)
    ensures ValidProject(p)
    ensures p.id == id && p.createdBy == createdBy && p.createdAt == now && p.updatedAt == now
    ensures p.status == (if c.status.Some? then c.status.value else "planning")
    ensures p.name == c.name.value && p.description == c.description.value
    ensures p.startDate == c.startDate.value && p.endDate == c.endDate && p.budget == c.budget
    ensures p.client == c.client.value
  {
    Project(id, c.name.value, c.description.value,
      if c.status.Some? then c.status.value else "planning",
      c.startDate.value, c.endDate, c.budget, c.client.value, createdBy, now, now)
  }

  function Pick<T>(given: Option<T>, old_: T): T
  {
    if given.Some? then given.value else old_
  }

  function PickOption<T>(given: Option<T>, old_: Option<T>): Option<T>
  {
    if given.Some? then given else old_
  }

  /** findByIdAndUpdate(id, body): each given path is set, the others keep their
      values, createdAt is kept and updatedAt becomes `now`. */
  function Merge(p: Project, c: Changes, now: int): (r: Project)
    requires UpdateErrors(c) == [] && WellCast(c)
    ensures ValidProject(p) ==> ValidProject(r)
    ensures r.id == p.id && r.createdBy == p.createdBy
    ensures r.createdAt == p.createdAt && r.updatedAt == now
    ensures c.name.Some? ==> r.name == c.name.value
    ensures c.name.None? ==> r.name == p.name
    ensures c.description.Some? ==> r.description == c.description.value
    ensures c.description.None? ==> r.description == p.description
    ensures c.status.Some? ==> r.status == c.status.value
    ensures c.status.None? ==> r.status == p.status
    ensures c.startDate.Some? ==> r.startDate == c.startDate.value
    ensures c.startDate.None? ==> r.startDate == p.startDate
    ensures c.endDate.Some? ==> r.endDate == c.endDate
    ensures c.endDate.None? ==> r.endDate == p.endDate
    ensures c.budget.Some? ==> r.budget == c.budget
    ensures c.budget.None? ==> r.budget == p.budget
    ensures c.client.Some? ==> r.client == c.client.value
    ensures c.client.None? ==> r.client == p.client
  {
    p.(name := Pick(c.name, p.name),
       description := Pick(c.description, p.description),
       status := Pick(c.status, p.status),
       startDate := Pick(c.startDate, p.startDate),
       endDate := PickOption(c.endDate, p.endDate),
       budget := PickOption(c.budget, p.budget),
       client := Pick(c.client, p.client),
       updatedAt := now)
  }

  /** With a clock that does not run backwards, an update keeps createdAt and
      never moves updatedAt back. */
  lemma {:induction false} MergeTimestamps(p: Project, c: Changes, now: int)
    requires UpdateErrors(c) == [] && WellCast(c) && p.updatedAt <= now
    ensures Merge(p, c, now).createdAt == p.createdAt
    ensures p.updatedAt <= Merge(p, c, now).updatedAt
  {
  }

  // ---------------------------------------------------------------------------
  // What an accepted body becomes

  /** A body the validator accepts casts to changes in which every path the
      schema requires is present and in range; the only thing that can still
      fail is a name or description made only of whitespace, which the trim
      setter empties. */
  lemma {:induction false} AcceptedBodyCasts(env: Env, body: Body)
    requires CheckProject(env, body).Accepted?
    ensures var c := CastChanges(env, body);
      && c.name.Some? && c.description.Some? && c.startDate.Some? && c.client.Some?
      && (Lookup(body, "endDate").Some? <==> c.endDate.Some?)
      && (Lookup(body, "budget").Some? <==> c.budget.Some?)
      && (CreateErrors(c) == [] <==> c.name.value != "" && c.description.value != "")
      && (UpdateErrors(c) == [] <==> c.name.value != "" && c.description.value != "")
  {
    CheckProjectSpec(env, body);
  }

  /** A name and a description made only of whitespace pass the validator (it
      does not trim) but are both emptied by the trim setters, so the document
      fails `required` on both paths and the message names both. */
  lemma {:induction false} BlankTextsBothReported(env: Env, body: Body, show: real -> string)
    requires CheckProject(env, body).Accepted?
    requires "status" !in Keys(body) && "budget" !in Keys(body)
    requires StringAt(body, "name").Some? && AllSpace(StringAt(body, "name").value)
    requires StringAt(body, "description").Some? && AllSpace(StringAt(body, "description").value)
    ensures CreateErrors(CastChanges(env, body)) == [PathRequired("name"), PathRequired("description")]
    ensures ValidationMessage("Project validation failed", CreateErrors(CastChanges(env, body)), show)
      == "Project validation failed" + ": " + ("name" + ": " + ErrorMessage(PathRequired("name"), show))
         + ", " + ("description" + ": " + ErrorMessage(PathRequired("description"), show))
  {
    BlankTextsErrors(env, body);
    var name := PathRequired("name");
    var description := PathRequired("description");
    ValidationMessageAppend("Project validation failed", [name], description, show);
    assert [name] + [description] == [name, description];
  }

  lemma {:induction false} BlankTextsErrors(env: Env, body: Body)
    requires CheckProject(env, body).Accepted?
    requires "status" !in Keys(body) && "budget" !in Keys(body)
    requires StringAt(body, "name").Some? && AllSpace(StringAt(body, "name").value)
    requires StringAt(body, "description").Some? && AllSpace(StringAt(body, "description").value)
    ensures CreateErrors(CastChanges(env, body)) == [PathRequired("name"), PathRequired("description")]
  {
    AcceptedBodyCasts(env, body);
    var c := CastChanges(env, body);
    assert c.name == Some("") && c.description == Some("");
    assert c.status.None? && c.budget.None?;
  }

  /** A project created from a body without status is stored as 'planning'. */
  lemma {:induction false} CreatedStatusDefaultsToPlanning(env: Env, body: Body, id: Id, createdBy: Id, now: int)
    requires "status" !in Keys(body)
    requires CreateErrors(CastChanges(env, body)) == []
    ensures NewProject(CastChanges(env, body), id, createdBy, now).status == "planning"
  {
    assert StringAt(body, "status").None?;
  }

  /** The name is stored trimmed, so it can be shorter than the two characters
      the validator asked of the raw string: "  A  " is accepted and stored as "A". */
  lemma StoredNameCanBeShort()
    ensures StringAt([("name", JString("  A  "))], "name") == Some("  A  ")
    ensures TrimAt([("name", JString("  A  "))], "name") == Some("A")
  {
    var s := "  A  ";
    assert Leading(s[1..][1..]) == 0 by { assert s[1..][1..][0] == 'A'; }
    assert Leading(s) == 2;
    var front := s[2..];
    assert front == "A  ";
    assert Trailing(front[..2][..1]) == 0 by { assert front[..2][..1] == "A"; }
    assert Trailing(front) == 2;
    assert Trim(s) == front[..1] == "A";
    assert StringAt([("name", JString(s))], "name") == Some(s);
  }

  /** The schema itself puts no order on the dates: a document whose endDate is
      before its startDate raises no validator error. */
  lemma EndBeforeStartIsStorable()
    ensures var c := Changes(Some("Site"), Some("Rebuild the site"), None, Some(1000), Some(0), None, Some(7));
      CreateErrors(c) == [] && ValidProject(NewProject(c, 1, 2, 0))
  {
    var c := Changes(Some("Site"), Some("Rebuild the site"), None, Some(1000), Some(0), None, Some(7));
    assert Trimmed("Site") && Trimmed("Rebuild the site");
  }
}
