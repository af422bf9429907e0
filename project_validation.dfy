/** projectValidation (src/validation/project.js): the Joi schema a project
    body must satisfy on create and on update. */
module ProjectValidation {
  import opened Json
  import opened Text
  import opened Validation

  const Statuses: seq<string> := ["planning", "in-progress", "completed", "on-hold"]

  const ProjectSchema: Schema := [
    Field("name", Str([MinLen(2), MaxLen(100)]), Required),
    Field("description", Str([MinLen(10), MaxLen(500)]), Required),
    Field("status", OneOf(Statuses), Default(JString("planning"))),
    Field("startDate", Date(None), Required),
    Field("endDate", Date(Some("startDate")), Optional),
    Field("budget", Number(Some(0)), Optional),
    Field("client", Str([Hex, Len(24)]), Required)
  ]

  function CheckProject(env: Env, body: Body): Verdict
  {
    Validate(env, ProjectSchema, body)
  }

  /** What an acceptable project body is, stated field by field. */
  predicate ProjectBodyOk(env: Env, body: Body)
  {
    && TextBetween(body, "name", 2, 100)
    && TextBetween(body, "description", 10, 500)
    && StatusOk(body)
    && StartOk(env, body)
    && EndOk(env, body)
    && BudgetOk(env, body)
    && ClientOk(body)
    && Keys(body) <= {"name", "description", "status", "startDate", "endDate", "budget", "client"}
  }

  /** status is absent or one of the four names. */
  predicate StatusOk(body: Body)
  {
    Lookup(body, "status").Some? ==> StringAt(body, "status").Some? && StringAt(body, "status").value in Statuses
  }

  predicate StartOk(env: Env, body: Body)
  {
    Lookup(body, "startDate").Some? && DateOf(env, Lookup(body, "startDate").value).Some?
  }

  /** endDate is absent or a date strictly after startDate. */
  predicate EndOk(env: Env, body: Body)
    requires StartOk(env, body)
  {
    var end := Lookup(body, "endDate");
    end.Some? ==> DateOf(env, end.value).Some? && DateOf(env, end.value).value > DateOf(env, Lookup(body, "startDate").value).value
  }

  /** budget is absent or a (safe) number no less than 0. */
  predicate BudgetOk(env: Env, body: Body)
  {
    var budget := Lookup(body, "budget");
    budget.Some? ==> NumberOf(env, budget.value).Some? && 0.0 <= NumberOf(env, budget.value).value <= MaxSafe
  }

  /** client is 24 hexadecimal characters. */
  predicate ClientOk(body: Body)
  {
    StringAt(body, "client").Some? && |StringAt(body, "client").value| == 24 && IsHex(StringAt(body, "client").value)
  }

  lemma ProjectSchemaKeys()
    ensures SchemaKeys(ProjectSchema) == {"name", "description", "status", "startDate", "endDate", "budget", "client"}
  {
    var s := ProjectSchema;
    assert s[0].key == "name" && s[1].key == "description" && s[2].key == "status";
    assert s[3].key == "startDate" && s[4].key == "endDate" && s[5].key == "budget" && s[6].key == "client";
  }

  /** projectValidation accepts exactly the bodies ProjectBodyOk describes. */
  lemma {:induction false} CheckProjectSpec(env: Env, body: Body)
    ensures CheckProject(env, body).Accepted? <==> ProjectBodyOk(env, body)
  {
    ProjectSchemaKeys();
    ProjectFields(env, body);
  }

  /** The declared fields, in order. */
  lemma ProjectFields(env: Env, body: Body)
    ensures CheckFields(env, ProjectSchema, body, 0, map[]).None? <==>
      TextBetween(body, "name", 2, 100) && TextBetween(body, "description", 10, 500) && StatusOk(body) &&
      StartOk(env, body) && EndOk(env, body) && BudgetOk(env, body) && ClientOk(body)
  {
    var s := ProjectSchema;
    var none: map<string, int> := map[];
    StringStep(env, s, body, 0, none);
    RulesOfText(env, StringAt(body, "name"), 2, 100);
    StringStep(env, s, body, 1, none);
    RulesOfText(env, StringAt(body, "description"), 10, 500);
    OneOfStep(env, s, body, 2, none);
    DateStep(env, s, body, 3, none);
    if StartOk(env, body) {
      ProjectTail(env, body);
    }
  }

  /** The fields after startDate, once startDate has been accepted. */
  lemma ProjectTail(env: Env, body: Body)
    requires StartOk(env, body)
    ensures var d1 := map["startDate" := DateOf(env, Lookup(body, "startDate").value).value];
      CheckFields(env, ProjectSchema, body, 4, d1).None? <==> EndOk(env, body) && BudgetOk(env, body) && ClientOk(body)
  {
    var s := ProjectSchema;
    var d1 := map["startDate" := DateOf(env, Lookup(body, "startDate").value).value];
    var end := Lookup(body, "endDate");
    LaterDateStep(env, s, body, 4, d1);
    var d2 := if end.Some? && DateOf(env, end.value).Some? then d1["endDate" := DateOf(env, end.value).value] else d1;
    NumberStep(env, s, body, 5, d2);
    StringStep(env, s, body, 6, d2);
    EndStep(env, s, body, d2);
    RulesOfClient(env, body);
  }

  lemma RulesOfClient(env: Env, body: Body)
    ensures var t := StringAt(body, "client");
      t.Some? ==> (t.value != "" && AllHold(env, t.value, [Hex, Len(24)]) <==> |t.value| == 24 && IsHex(t.value))
  {
    var t := StringAt(body, "client");
    if t.Some? {
      var rules := [Hex, Len(24)];
      assert AllHold(env, t.value, rules) <==> Holds(env, t.value, rules[0]) && Holds(env, t.value, rules[1]);
    }
  }

  /** A missing name is the first thing reported, whatever else the body holds. */
  lemma MissingNameFirst(env: Env, body: Body)
    requires "name" !in Keys(body)
    ensures CheckProject(env, body) == Rejected(Missing("name"))
  {
  }

  /** Create and update share this schema, so an update that gives only some
      fields is refused for the first required one it lacks: a valid name with a
      status and no description is refused for the description. */
  lemma {:induction false} PartialUpdateRefused(env: Env, body: Body)
    requires TextBetween(body, "name", 2, 100)
    requires "description" !in Keys(body)
    ensures CheckProject(env, body) == Rejected(Missing("description"))
  {
    var s := ProjectSchema;
    var none: map<string, int> := map[];
    TextRules(env, "name", StringAt(body, "name").value, 2, 100);
    PassField(env, s, body, 0, none);
  }

  /** With an acceptable name, a description over 500 characters is what is reported
      ('A'.repeat(501) in the project tests). */
  lemma LongDescriptionRejected(env: Env, body: Body)
    requires TextBetween(body, "name", 2, 100)
    requires StringAt(body, "description").Some? && |StringAt(body, "description").value| > 500
    ensures CheckProject(env, body) == Rejected(TooLong("description", 500))
  {
    var s := ProjectSchema;
    var none: map<string, int> := map[];
    TextRules(env, "name", StringAt(body, "name").value, 2, 100);
    TextRules(env, "description", StringAt(body, "description").value, 10, 500);
    PassField(env, s, body, 0, none);
    FailField(env, s, body, 1, none);
  }

  /** Name, description, status and startDate acceptable: checking resumes at
      endDate with startDate's date known. */
  lemma ProjectHeadPasses(env: Env, body: Body)
    requires TextBetween(body, "name", 2, 100) && TextBetween(body, "description", 10, 500)
    requires StatusOk(body) && StartOk(env, body)
    ensures CheckFields(env, ProjectSchema, body, 0, map[]) ==
      CheckFields(env, ProjectSchema, body, 4, map["startDate" := DateOf(env, Lookup(body, "startDate").value).value])
  {
    var s := ProjectSchema;
    var d0: map<string, int> := map[];
    TextRules(env, "name", StringAt(body, "name").value, 2, 100);
    TextRules(env, "description", StringAt(body, "description").value, 10, 500);
    PassField(env, s, body, 0, d0);
    PassField(env, s, body, 1, d0);
    PassField(env, s, body, 2, d0);
    PassField(env, s, body, 3, d0);
  }

  /** When everything before it is acceptable, a budget below 0 (the tests use -1000)
      is reported as below the minimum. */
  lemma NegativeBudgetRejected(env: Env, body: Body, x: real)
    requires TextBetween(body, "name", 2, 100) && TextBetween(body, "description", 10, 500)
    requires StatusOk(body) && StartOk(env, body) && EndOk(env, body)
    requires Lookup(body, "budget") == Some(JNumber(x)) && -MaxSafe <= x < 0.0
    ensures CheckProject(env, body) == Rejected(BelowMin("budget", 0))
  {
    var s := ProjectSchema;
    ProjectHeadPasses(env, body);
    var d1 := map["startDate" := DateOf(env, Lookup(body, "startDate").value).value];
    PassField(env, s, body, 4, d1);
    var d2 := After(env, s[4], Lookup(body, "endDate"), d1);
    FailField(env, s, body, 5, d2);
  }

  /** The 'Valid edge case data' body of the project tests: name 'AB', a
      ten-character description and budget 0, the lower boundaries. */
  const EdgeCaseBody: Body := [
    ("name", JString("AB")),
    ("description", JString("Valid desc")),
    ("startDate", JString("2024-01-01")),
    ("budget", JNumber(0.0)),
    ("client", JString("64b7f0c2a1d3e4f5a6b7c8d9"))]

  /** The lower boundaries are accepted, given that '2024-01-01' parses as a date. */
  lemma EdgeCaseAccepted(env: Env)
    requires env.parseDate("2024-01-01").Some?
    ensures CheckProject(env, EdgeCaseBody).Accepted?
  {
    EdgeCaseBodyOk(env);
    CheckProjectSpec(env, EdgeCaseBody);
  }

  lemma EdgeCaseBodyOk(env: Env)
    requires env.parseDate("2024-01-01").Some?
    ensures ProjectBodyOk(env, EdgeCaseBody)
  {
    EdgeCaseKeys();
    EdgeCaseFields(env);
  }

  lemma EdgeCaseFields(env: Env)
    requires env.parseDate("2024-01-01").Some?
    ensures TextBetween(EdgeCaseBody, "name", 2, 100) && TextBetween(EdgeCaseBody, "description", 10, 500)
    ensures StartOk(env, EdgeCaseBody) && BudgetOk(env, EdgeCaseBody) && ClientOk(EdgeCaseBody)
  {
    EdgeCaseTexts();
    EdgeCaseStart(env);
    EdgeCaseBudget(env);
    EdgeCaseClient();
  }

  lemma EdgeCaseTexts()
    ensures TextBetween(EdgeCaseBody, "name", 2, 100) && TextBetween(EdgeCaseBody, "description", 10, 500)
  {
    LookupAt(EdgeCaseBody, "name", 0);
    LookupAt(EdgeCaseBody, "description", 1);
  }

  lemma EdgeCaseStart(env: Env)
    requires env.parseDate("2024-01-01").Some?
    ensures StartOk(env, EdgeCaseBody)
  {
    LookupAt(EdgeCaseBody, "startDate", 2);
  }

  lemma EdgeCaseBudget(env: Env)
    ensures BudgetOk(env, EdgeCaseBody)
  {
    LookupAt(EdgeCaseBody, "budget", 3);
  }

  lemma EdgeCaseClient()
    ensures ClientOk(EdgeCaseBody)
  {
    LookupAt(EdgeCaseBody, "client", 4);
    assert IsHex("64b7f0c2a1d3e4f5a6b7c8d9");
  }

  lemma EdgeCaseKeys()
    ensures Keys(EdgeCaseBody) <= {"name", "description", "status", "startDate", "endDate", "budget", "client"}
    ensures "status" !in Keys(EdgeCaseBody) && "endDate" !in Keys(EdgeCaseBody)
  {
    var body := EdgeCaseBody;
    var allowed := {"name", "description", "status", "startDate", "endDate", "budget", "client"};
    forall i | 0 <= i < |body| ensures body[i].0 in allowed - {"status", "endDate"} {}
  }

  /** When the status key is absent, the value Joi returns carries 'planning'. */
  lemma StatusDefaultsToPlanning(body: Body)
    ensures "status" !in Keys(body) ==> Lookup(WithDefaults(ProjectSchema, body), "status") == Some(JString("planning"))
    ensures "status" in Keys(body) ==> Lookup(WithDefaults(ProjectSchema, body), "status") == Lookup(body, "status")
  {
    var s := ProjectSchema;
    assert s[0].key == "name" && s[1].key == "description" && s[2].key == "status";
    assert "status" !in Keys(body) ==> FirstDefault(s, body, 2);
  }
}
