/** The handlers of src/controllers/authController.js. The User model
    (src/models/User.js) is not part of this model: a user is stored with the
    fields signup passes, and password comparison is a parameter. The token is
    its payload and lifetime; signing is not modelled. */
module AuthController {
  import opened Json
  import opened Validation
  import opened AuthValidation
  import opened ProjectModel
  import opened Store

  const InvalidCredentials: string := "Invalid credentials"

  /** The body of a successful signup or login, beside its message. */
  datatype Session = Session(token: Token, user: User)

  /** signup. */
  method Signup(db: Database, env: Env, body: Body, now: int) returns (r: Response<Session>)
    requires db.Valid()
    modifies db
    ensures db.Valid()
    ensures db.projects == old(db.projects) && db.clients == old(db.clients)
    ensures r.status != 201 ==> db.users == old(db.users)
    ensures CheckSignup(env, body).Rejected? ==> r == Response(400, Error(Message(CheckSignup(env, body).first)))
    ensures CheckSignup(env, body).Accepted? ==>
      && StringAt(body, "name").Some? && StringAt(body, "email").Some?
      && StringAt(body, "phone").Some? && StringAt(body, "password").Some?
      && (old(db.EmailTaken(StringAt(body, "email").value)) ==> r == Response(400, Error("User already exists")))
      && (!old(db.EmailTaken(StringAt(body, "email").value)) ==>
            var u := User(old(db.nextId), StringAt(body, "name").value, StringAt(body, "email").value,
              StringAt(body, "phone").value, StringAt(body, "password").value, StringAt(body, "role"));
            && u.id !in old(db.users)
            && db.users == old(db.users)[u.id := u]
            && r == Response(201, Saved("User created successfully", Session(IssueToken(u.id, now), u))))
  {
    var verdict := CheckSignup(env, body);
    if verdict.Rejected? {
      return Response(400, Error(Message(verdict.first)));
    }
    CheckSignupSpec(env, body);
    var email := StringAt(body, "email").value;
    if db.EmailTaken(email) {
      return Response(400, Error("User already exists"));
    }
    var u := db.AddUser(StringAt(body, "name").value, email, StringAt(body, "phone").value,
      StringAt(body, "password").value, StringAt(body, "role"));
    r := Response(201, Saved("User created successfully", Session(IssueToken(u.id, now), u)));
  }

  /** login. `matches` stands for comparing a password with the stored hash. An
      unknown e-mail and a wrong password get the same answer. */
  method Login(db: Database, env: Env, body: Body, now: int, matches: (User, string) -> bool)
    returns (r: Response<Session>)
    requires db.Valid()
    ensures CheckLogin(env, body).Rejected? ==> r == Response(400, Error(Message(CheckLogin(env, body).first)))
    ensures CheckLogin(env, body).Accepted? ==>
      && StringAt(body, "email").Some? && StringAt(body, "password").Some?
      && (!db.EmailTaken(StringAt(body, "email").value) ==> r == Response(400, Error(InvalidCredentials)))
      && (forall id :: id in db.users && db.users[id].email == StringAt(body, "email").value ==>
            if matches(db.users[id], StringAt(body, "password").value)
            then r == Response(200, Saved("Login successful", Session(IssueToken(id, now), db.users[id])))
            else r == Response(400, Error(InvalidCredentials)))
  {
    var verdict := CheckLogin(env, body);
    if verdict.Rejected? {
      return Response(400, Error(Message(verdict.first)));
    }
    CheckLoginSpec(env, body);
    var email := StringAt(body, "email").value;
    if !db.EmailTaken(email) {
      return Response(400, Error(InvalidCredentials));
    }
    var id :| id in db.users && db.users[id].email == email;
    var u := db.users[id];
    if !matches(u, StringAt(body, "password").value) {
      return Response(400, Error(InvalidCredentials));
    }
    r := Response(200, Saved("Login successful", Session(IssueToken(u.id, now), u)));
  }
}
