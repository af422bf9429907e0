/** signupValidation and loginValidation (src/validation/auth.js). */
module AuthValidation {
  import opened Json
  import opened Validation

  const Roles: seq<string> := ["admin", "user"]

  const SignupSchema: Schema := [
    Field("name", Str([MinLen(2), MaxLen(50)]), Required),
    Field("email", Str([Email]), Required),
    Field("phone", Str([MinLen(10), MaxLen(15)]), Required),
    Field("password", Str([MinLen(6)]), Required),
    Field("role", OneOf(Roles), Default(JString("user")))
  ]

  const LoginSchema: Schema := [
    Field("email", Str([Email]), Required),
    Field("password", Str([]), Required)
  ]

  function CheckSignup(env: Env, body: Body): Verdict
  {
    Validate(env, SignupSchema, body)
  }

  function CheckLogin(env: Env, body: Body): Verdict
  {
    Validate(env, LoginSchema, body)
  }

  const SignupKeys: set<string> := {"name", "email", "phone", "password", "role"}
  const LoginKeys: set<string> := {"email", "password"}

  /** What an acceptable signup body is: name of 2 to 50 characters, an e-mail,
      a phone of 10 to 15 characters, a password of at least 6, and a role, if
      given, that is admin or user. */
  predicate SignupBodyOk(env: Env, body: Body)
  {
    && TextBetween(body, "name", 2, 50)
    && EmailAt(env, body, "email")
    && SignupTail(body)
    && Keys(body) <= SignupKeys
  }

  /** phone, password and role acceptable. */
  predicate SignupTail(body: Body)
  {
    && TextBetween(body, "phone", 10, 15)
    && TextAtLeast(body, "password", 6)
    && (Lookup(body, "role").Some? ==> StringAt(body, "role").Some? && StringAt(body, "role").value in Roles)
  }

  /** What an acceptable login body is: an e-mail and a non-empty password of any length. */
  predicate LoginBodyOk(env: Env, body: Body)
  {
    EmailAt(env, body, "email") && TextAtLeast(body, "password", 1) && Keys(body) <= LoginKeys
  }

  lemma SignupSchemaKeys()
    ensures SchemaKeys(SignupSchema) == SignupKeys
  {
    var s := SignupSchema;
    assert s[0].key == "name" && s[1].key == "email" && s[2].key == "phone";
    assert s[3].key == "password" && s[4].key == "role";
  }

  lemma LoginSchemaKeys()
    ensures SchemaKeys(LoginSchema) == LoginKeys
  {
    var s := LoginSchema;
    assert s[0].key == "email" && s[1].key == "password";
  }

  /** signupValidation accepts exactly the bodies SignupBodyOk describes. */
  lemma {:induction false} CheckSignupSpec(env: Env, body: Body)
    ensures CheckSignup(env, body).Accepted? <==> SignupBodyOk(env, body)
  {
    SignupSchemaKeys();
    SignupFields(env, body);
  }

  lemma SignupFields(env: Env, body: Body)
    ensures CheckFields(env, SignupSchema, body, 0, map[]).None? <==>
      TextBetween(body, "name", 2, 50) && EmailAt(env, body, "email") && SignupTail(body)
  {
    var s := SignupSchema;
    var none: map<string, int> := map[];
    RequiredText(env, s, body, 0, none, 2, 50);
    RequiredEmail(env, s, body, 1, none);
    SignupTailFields(env, body);
  }

  lemma SignupTailFields(env: Env, body: Body)
    ensures CheckFields(env, SignupSchema, body, 2, map[]).None? <==> SignupTail(body)
  {
    var s := SignupSchema;
    var none: map<string, int> := map[];
    RequiredText(env, s, body, 2, none, 10, 15);
    RequiredAtLeast(env, s, body, 3, none, 6);
    OneOfStep(env, s, body, 4, none);
    EndStep(env, s, body, none);
  }

  /** loginValidation accepts exactly the bodies LoginBodyOk describes; in
      particular a one-character password is not refused for its length. */
  lemma {:induction false} CheckLoginSpec(env: Env, body: Body)
    ensures CheckLogin(env, body).Accepted? <==> LoginBodyOk(env, body)
  {
    var s := LoginSchema;
    var none: map<string, int> := map[];
    LoginSchemaKeys();
    RequiredEmail(env, s, body, 0, none);
    RequiredAtLeast(env, s, body, 1, none, 1);
    EndStep(env, s, body, none);
  }

  /** The e-mail and password of an accepted signup body satisfy the login
      rules for those fields: login is weaker on the fields they share. */
  lemma {:induction false} SignupPasswordIsLoginPassword(env: Env, body: Body)
    requires CheckSignup(env, body).Accepted?
    ensures EmailAt(env, body, "email") && TextAtLeast(body, "password", 1)
  {
    CheckSignupSpec(env, body);
  }

  /** When the role key is absent, the value Joi returns carries 'user'. */
  lemma RoleDefaultsToUser(body: Body)
    ensures "role" !in Keys(body) ==> Lookup(WithDefaults(SignupSchema, body), "role") == Some(JString("user"))
    ensures "role" in Keys(body) ==> Lookup(WithDefaults(SignupSchema, body), "role") == Lookup(body, "role")
  {
    var s := SignupSchema;
    assert s[0].key == "name" && s[1].key == "email" && s[2].key == "phone" && s[3].key == "password";
    assert "role" !in Keys(body) ==> FirstDefault(s, body, 4);
  }

  /** With everything else acceptable, a password of fewer than 6 characters is what
      signup reports. */
  lemma {:induction false} ShortPasswordRejected(env: Env, body: Body)
    requires TextBetween(body, "name", 2, 50) && EmailAt(env, body, "email") && TextBetween(body, "phone", 10, 15)
    requires StringAt(body, "password").Some? && 1 <= |StringAt(body, "password").value| < 6
    ensures CheckSignup(env, body) == Rejected(TooShort("password", 6))
  {
    var s := SignupSchema;
    var none: map<string, int> := map[];
    TextRules(env, "name", StringAt(body, "name").value, 2, 50);
    TextRules(env, "phone", StringAt(body, "phone").value, 10, 15);
    assert BrokenRule(env, "email", StringAt(body, "email").value, [Email]).None?;
    PassField(env, s, body, 0, none);
    PassField(env, s, body, 1, none);
    PassField(env, s, body, 2, none);
    FailField(env, s, body, 3, none);
  }
}
