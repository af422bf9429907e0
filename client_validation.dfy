/** clientValidation (src/validation/client.js): the Joi schema a client body
    must satisfy on create and on update. */
module ClientValidation {
  import opened Json
  import opened Validation

  const ClientSchema: Schema := [
    Field("name", Str([MinLen(2), MaxLen(100)]), Required),
    Field("email", Str([Email]), Required),
    Field("phone", Str([MinLen(10), MaxLen(15)]), Required),
    Field("company", Str([MinLen(2), MaxLen(100)]), Required),
    Field("address", Str([MaxLen(200)]), Optional)
  ]

  function CheckClient(env: Env, body: Body): Verdict
  {
    Validate(env, ClientSchema, body)
  }

  const ClientKeys: set<string> := {"name", "email", "phone", "company", "address"}

  /** What an acceptable client body is, stated field by field. */
  predicate ClientBodyOk(env: Env, body: Body)
  {
    && TextBetween(body, "name", 2, 100)
    && EmailAt(env, body, "email")
    && TextBetween(body, "phone", 10, 15)
    && ClientTail(body)
    && Keys(body) <= ClientKeys
  }

  lemma ClientSchemaKeys()
    ensures SchemaKeys(ClientSchema) == ClientKeys
  {
    var s := ClientSchema;
    assert s[0].key == "name" && s[1].key == "email" && s[2].key == "phone";
    assert s[3].key == "company" && s[4].key == "address";
  }

  /** clientValidation accepts exactly the bodies ClientBodyOk describes. */
  lemma {:induction false} CheckClientSpec(env: Env, body: Body)
    ensures CheckClient(env, body).Accepted? <==> ClientBodyOk(env, body)
  {
    ClientSchemaKeys();
    ClientFields(env, body);
  }

  /** The declared fields, in order. */
  lemma ClientFields(env: Env, body: Body)
    ensures CheckFields(env, ClientSchema, body, 0, map[]).None? <==>
      TextBetween(body, "name", 2, 100) && EmailAt(env, body, "email") && TextBetween(body, "phone", 10, 15) &&
      ClientTail(body)
  {
    var s := ClientSchema;
    var none: map<string, int> := map[];
    RequiredText(env, s, body, 0, none, 2, 100);
    RequiredEmail(env, s, body, 1, none);
    RequiredText(env, s, body, 2, none, 10, 15);
    ClientTailFields(env, body);
  }

  /** company and address acceptable. */
  predicate ClientTail(body: Body)
  {
    TextBetween(body, "company", 2, 100) && (Lookup(body, "address").Some? ==> TextBetween(body, "address", 1, 200))
  }

  lemma ClientTailFields(env: Env, body: Body)
    ensures CheckFields(env, ClientSchema, body, 3, map[]).None? <==> ClientTail(body)
  {
    var s := ClientSchema;
    var none: map<string, int> := map[];
    RequiredText(env, s, body, 3, none, 2, 100);
    OptionalText(env, s, body, 4, none, 200);
    EndStep(env, s, body, none);
  }

  /** With an acceptable name and e-mail, a missing phone is what is reported, and
      a phone of fewer than ten characters ('123' in the client tests) is too short. */
  lemma {:induction false} PhoneRejected(env: Env, body: Body)
    requires TextBetween(body, "name", 2, 100) && EmailAt(env, body, "email")
    ensures "phone" !in Keys(body) ==> CheckClient(env, body) == Rejected(Missing("phone"))
    ensures StringAt(body, "phone").Some? && 1 <= |StringAt(body, "phone").value| < 10 ==>
      CheckClient(env, body) == Rejected(TooShort("phone", 10))
  {
    var s := ClientSchema;
    var none: map<string, int> := map[];
    TextRules(env, "name", StringAt(body, "name").value, 2, 100);
    PassField(env, s, body, 0, none);
    assert s[1].kind.rules == [Email];
    assert BrokenRule(env, "email", StringAt(body, "email").value, [Email]).None?;
    PassField(env, s, body, 1, none);
    if StringAt(body, "phone").Some? {
      TextRules(env, "phone", StringAt(body, "phone").value, 10, 15);
    }
  }

  /** With name, e-mail and phone acceptable, a missing company is what is reported. */
  lemma {:induction false} MissingCompanyRejected(env: Env, body: Body)
    requires TextBetween(body, "name", 2, 100) && EmailAt(env, body, "email")
    requires TextBetween(body, "phone", 10, 15)
    requires "company" !in Keys(body)
    ensures CheckClient(env, body) == Rejected(Missing("company"))
  {
    var s := ClientSchema;
    var none: map<string, int> := map[];
    TextRules(env, "name", StringAt(body, "name").value, 2, 100);
    TextRules(env, "phone", StringAt(body, "phone").value, 10, 15);
    assert BrokenRule(env, "email", StringAt(body, "email").value, [Email]).None?;
    PassField(env, s, body, 0, none);
    PassField(env, s, body, 1, none);
    PassField(env, s, body, 2, none);
  }

  /** An empty name is refused as empty before any length rule is looked at. */
  lemma EmptyNameRejected(env: Env, body: Body)
    requires Lookup(body, "name") == Some(JString(""))
    ensures CheckClient(env, body) == Rejected(Empty("name"))
  {
  }
}
