# Project management API — a Dafny model

The model covers the core of an Express/Mongoose REST service for clients and their
projects:

- **Request validators.** These are the Joi schemas for projects, clients, signup and
  login. They are modelled as one generic validator (`Validation`) that checks an
  object schema field by field and stops at the first failure (abortEarly). It
  produces the first detail message that the controllers send back.
- **The Project document.** This covers how the Mongoose schema turns a request body
  into a stored document:
  - it trims strings;
  - it supplies the status default;
  - it runs the required, enum and min validators;
  - it casts ObjectIds;
  - it sets the timestamps.
- **Controllers.** These are the project, client and auth handlers. They work on an
  in-memory `Database` class whose maps are the Mongo collections.
- **The error middleware.** It maps a thrown failure to a JSON response.
- **The rate limiter tiers.** Each tier is a `Limiter` object, and each client key
  has a fixed counting window.

External behaviour becomes a parameter:

- e-mail syntax (`Env.isEmail`);
- date-string parsing (`Env.parseDate`);
- numeric-string conversion (`Env.parseNumber`);
- number rendering in Mongoose messages (`show`);
- password comparison (`matches`);
- the clock (`now`).

The code differs from what its tests and their titles describe in these places,
and the model follows the code:

- The controllers spread the raw request body into Mongoose
  (src/controllers/projectController.js:18-21). They do not use Joi's converted value.
  A name of spaces therefore passes Joi but fails Mongoose's required check after
  trimming (src/models/Project.js:4-8). That answer is a 500 carrying Mongoose's
  message, not a 400 (`ProjectModel.BlankTextsBothReported`).
- A malformed id in a route parameter reaches `findById` and fails there with a
  CastError. The handler's own `catch` answers that with 500
  (src/controllers/clientController.js:50-52). It never reaches the error
  middleware. The test titled as expecting 400 for a malformed id
  (tests/clients.test.js:309-317) itself asserts 500.
- Create and update use the same Joi schema, which requires every field. The
  partial updates in tests/clients.test.js:374-393 and tests/projects.test.js:564-583
  expect 200, but the code refuses them with 400: the client one for the missing
  phone (`ClientValidation.PhoneRejected`), the project one for the missing
  description (`ProjectValidation.PartialUpdateRefused`).

## Model

| member | source | states |
|---|---|---|
| Json.Lookup | src/controllers/projectController.js:13 | a key is found exactly when the body has it, and the value found is one the body pairs with that key |
| Json.LookupAt | src/controllers/projectController.js:13 | the last occurrence of a duplicated key is the one read |
| Text.HexValue | src/validation/project.js:11 | a string of n hex digits denotes a number below 16^n |
| Text.HexString | src/validation/project.js:11 | every number below 16^width has a width-digit hex spelling that denotes it |
| Text.Trim | src/models/Project.js:4-13 | the result is the input with its leading white space and trailing white space cut off: it is the slice that starts after the leading run, everything after it is white space, and it is trimmed; it is empty iff the input is all white space |
| Text.TrimIdempotent | src/models/Project.js:4-13 | trimming twice equals trimming once, and the result is trimmed |
| Text.NatToString | src/validation/project.js:5-6 | decimal rendering: a canonical digit string (no leading zero) whose decimal value is the number |
| Text.DecimalRoundTrip | src/validation/project.js:5-6 | every canonical digit string is the rendering of its own value, so rendering is one-to-one onto canonical strings |
| Text.JoinAppend | src/controllers/projectController.js:33-35 | joining one more item appends the separator and that item |
| Validation.Message | src/controllers/projectController.js:7-10 | the first detail message starts with the quoted label of the failing key |
| Validation.Truncate | src/validation/project.js:8-9 | a number given as a date is truncated toward zero |
| Validation.BrokenRule | src/validation/project.js:5-6 | no string rule is reported iff every rule holds; a reported rule names the field |
| Validation.CheckValue | src/validation/project.js:5-11 | a failure names its field; a checked date is the date the value denotes |
| Validation.CheckFields | src/validation/project.js:4-12 | passing means every required field from here on is present; a failure names a schema field |
| Validation.FirstUnknown | src/validation/project.js:4-12 | there is no unknown-key failure iff every body key is in the schema; the key reported is unknown, and is the unknown array-index key of least value when there is one, else the first unknown key in written order |
| Validation.LeastUnknownIndex | src/validation/project.js:4-12 | finds an unknown array-index key iff there is one, and the one found has the least value of them |
| Validation.FirstUnknownAt | src/validation/project.js:4-12 | the position of the first unknown key in written order: every earlier key is in the schema |
| Validation.ZeroKeyReportedFirst | src/validation/project.js:4-12 | an unknown key "0" is reported before every other unknown key, wherever it was written |
| Validation.ZeroKeyRefused | src/validation/project.js:13 | a body whose fields pass but which has a key "0" is refused for "0" |
| Validation.Validate | src/validation/project.js:13 | an accepted body has only schema keys and every required key |
| Validation.WithDefaults | src/validation/project.js:7 | defaults add only missing schema keys and keep every given value |
| Validation.StringStep | src/validation/project.js:5 | one string field passes iff it is absent and optional, or a non-empty string obeying its rules |
| Validation.OneOfStep | src/validation/project.js:7 | an enumerated field passes iff it is absent or one of the allowed values |
| Validation.NumberStep | src/validation/project.js:10 | a number field passes iff it is absent, or a safe number at or above its minimum |
| Validation.DateStep | src/validation/project.js:8 | a required date passes iff it is present and converts to a date |
| Validation.LaterDateStep | src/validation/project.js:9 | an optional later date passes iff it is absent, or strictly after its reference |
| Validation.RulesOfText | src/validation/project.js:5-6 | non-empty plus min/max rules means a length between the bounds |
| Validation.RequiredText | src/validation/client.js:5 | a required bounded string passes iff its length is in range and the rest passes |
| Validation.OptionalText | src/validation/client.js:9 | an optional bounded string passes iff it is absent or within its maximum |
| Validation.RequiredAtLeast | src/validation/auth.js:8 | a required string with only a minimum passes iff it is at least that long |
| Validation.RequiredEmail | src/validation/client.js:6 | a required e-mail passes iff it is a non-empty address |
| ProjectValidation.ProjectSchemaKeys | src/validation/project.js:4-12 | the project schema has exactly the seven listed keys |
| ProjectValidation.CheckProjectSpec | src/validation/project.js:3-14 | a project body is accepted iff every field meets its rule and no other key is present |
| ProjectValidation.ProjectFields | src/validation/project.js:5-11 | all seven fields pass iff each field's condition holds |
| ProjectValidation.ProjectTail | src/validation/project.js:8-11 | the fields after the start date pass iff end date, budget and client hold |
| ProjectValidation.RulesOfClient | src/validation/project.js:11 | the client field is exactly a 24-character hex string |
| ProjectValidation.MissingNameFirst | src/validation/project.js:5 | a body without a name is refused for the name first |
| ProjectValidation.PartialUpdateRefused | tests/projects.test.js:564-583 | a body with a valid name and no description is refused for the description, so the partial update in the tests cannot pass |
| ProjectValidation.LongDescriptionRejected | tests/projects.test.js:997-1006 | a description over 500 characters is refused with the max-length message |
| ProjectValidation.ProjectHeadPasses | src/validation/project.js:5-8 | a valid name, description, status and start date hand over to the end date |
| ProjectValidation.NegativeBudgetRejected | tests/projects.test.js:165-180 | a negative budget is refused with the min-0 message |
| ProjectValidation.EdgeCaseAccepted | tests/projects.test.js:1017-1027 | a two-character name, ten-character description and zero budget are accepted |
| ProjectValidation.EdgeCaseBodyOk | tests/projects.test.js:1017-1027 | the edge-case body meets every field's condition |
| ProjectValidation.StatusDefaultsToPlanning | src/validation/project.js:7 | a missing status defaults to planning; a given one is kept |
| ClientValidation.ClientSchemaKeys | src/validation/client.js:4-10 | the client schema has exactly the five listed keys |
| ClientValidation.CheckClientSpec | src/validation/client.js:3-12 | a client body is accepted iff every field meets its bounds and no other key is present |
| ClientValidation.ClientFields | src/validation/client.js:5-9 | the five fields pass iff each field's condition holds |
| ClientValidation.ClientTailFields | src/validation/client.js:8-9 | company and address pass iff their bounds hold |
| ClientValidation.PhoneRejected | tests/clients.test.js:111-126 | a missing phone is refused as required; a one-to-nine-character phone as too short |
| ClientValidation.MissingCompanyRejected | src/validation/client.js:8 | a body without a company is refused as required |
| ClientValidation.EmptyNameRejected | src/validation/client.js:5 | an empty name is refused as empty, before any length rule |
| AuthValidation.SignupSchemaKeys | src/validation/auth.js:4-10 | the signup schema has exactly the five listed keys |
| AuthValidation.LoginSchemaKeys | src/validation/auth.js:15-18 | the login schema has exactly e-mail and password |
| AuthValidation.CheckSignupSpec | src/validation/auth.js:3-12 | a signup body is accepted iff every field meets its rule and no other key is present |
| AuthValidation.SignupFields | src/validation/auth.js:5-9 | the signup fields pass iff each condition holds |
| AuthValidation.SignupTailFields | src/validation/auth.js:7-9 | phone, password and role pass iff their conditions hold |
| AuthValidation.CheckLoginSpec | src/validation/auth.js:14-20 | a login body is accepted iff it has an e-mail, a non-empty password and nothing else |
| AuthValidation.SignupPasswordIsLoginPassword | src/validation/auth.js:6-8 | an accepted signup's e-mail and password would pass the login schema |
| AuthValidation.RoleDefaultsToUser | src/validation/auth.js:9 | a missing role defaults to user |
| AuthValidation.ShortPasswordRejected | src/validation/auth.js:8 | a password under six characters is refused with the min-6 message |
| ProjectModel.ParseId | src/models/Project.js:30-39 | a string is an ObjectId iff it is 24 hex digits |
| ProjectModel.ParseIdRoundTrip | src/models/Project.js:30-39 | every id parses back from its 24-digit spelling |
| ProjectModel.TrimAt | src/models/Project.js:4-13 | a trimmed string field is present iff given, and is trimmed and no longer |
| ProjectModel.CastChanges | src/models/Project.js:3-39 | casting yields trimmed text and keeps the given status as it is |
| ProjectModel.ErrorMessage | src/models/Project.js:6 | the required validator's message is "Path `p` is required." |
| ProjectModel.ValidationMessage | src/controllers/projectController.js:33-35 | with one failing path the error text is the prefix, ": ", that path, ": " and its message (more paths: `ProjectModel.ValidationMessageAppend`) |
| ProjectModel.ValidationMessageAppend | src/controllers/projectController.js:33-35 | one more failing path adds ", " then that path and its message to the end of the text |
| ProjectModel.BlankTextsBothReported | src/models/Project.js:4-13 | an accepted body whose name and description are only spaces fails both required checks, and the text names name, then description |
| ProjectModel.PathMessages | src/controllers/projectController.js:33-35 | one message per failing path, in order |
| ProjectModel.CreateErrors | src/models/Project.js:4-29 | a new document has no validator failure iff its required text is non-empty, status is allowed and budget is not negative |
| ProjectModel.UpdateErrors | src/controllers/projectController.js:95-98 | an update has no validator failure iff each given field meets its validator |
| ProjectModel.NewProject | src/controllers/projectController.js:18-23 | a new document satisfies the schema, takes the body's fields, defaults status to planning, and has both timestamps at now |
| ProjectModel.Merge | src/controllers/projectController.js:95-98 | each of the seven fields takes the cast value when the update gives it and keeps the stored one otherwise; the creation time is kept and the document stays valid |
| ProjectModel.MergeTimestamps | src/models/Project.js:40-42 | an update keeps createdAt and never moves updatedAt back |
| ProjectModel.AcceptedBodyCasts | src/controllers/projectController.js:7-21 | an accepted body casts with every required field; the document's validators pass iff trimmed name and description are non-empty |
| ProjectModel.CreatedStatusDefaultsToPlanning | src/models/Project.js:14-18 | a project created without a status is in planning |
| ProjectModel.StoredNameCanBeShort | src/models/Project.js:4-8 | a name that passes the two-character minimum can be stored as one character after trimming |
| ProjectModel.EndBeforeStartIsStorable | src/models/Project.js:19-25 | the document itself accepts an end date before the start date |
| ErrorHandler.DuplicateMessage | src/middleware/errorHandler.js:13-16 | the duplicate-key message names the first key |
| ErrorHandler.Normalize | src/middleware/errorHandler.js:1-18 | 400 for validation, cast and duplicate-key failures, else 500; details only for validation failures; the fixed texts |
| ErrorHandler.MessageNeverShown | src/middleware/errorHandler.js:1-18 | the failure's own message never reaches the response |
| ErrorHandler.FirstCheckWins | src/middleware/errorHandler.js:4-11 | a ValidationError or CastError is reported as such whatever its code |
| ErrorHandler.DuplicateNamesFirstKey | src/middleware/errorHandler.js:13-16 | a duplicate-key error answers "<first key> already exists" |
| ErrorHandler.OtherCodesAreInternal | src/middleware/errorHandler.js:18 | any other failure answers 500 "Internal server error" |
| RateLimiter.PolicyOf | src/middleware/rateLimiter.js:4-67 | each tier's window and retryAfter text, a positive limit, no tier skips failures, and only auth skips successes |
| RateLimiter.Limits | src/middleware/rateLimiter.js:5-62 | the limits 100, 5, 50, 3 and 30, the 15-minute and 1-hour windows, and each tier's 429 error text |
| RateLimiter.Current | src/middleware/rateLimiter.js:5 | a request counts in the live window, or in a fresh one windowMs long |
| RateLimiter.Step | src/middleware/rateLimiter.js:4-31 | a request is admitted iff the window held fewer than max hits; a refusal is 429 with the tier's message; the hit stays counted iff the policy does not skip the answer (the route's status, or 429 when refused) |
| RateLimiter.Limiter.Handle | src/middleware/rateLimiter.js:4-67 | one request updates only its key's window, as Step says; the admitted count restarts with a new window and grows by one per admitted, counted request; the counting invariant is kept |
| RateLimiter.WindowBound | src/middleware/rateLimiter.js:6 | within one window no client gets more than max counted requests admitted |
| RateLimiter.FreshWindowBound | src/middleware/rateLimiter.js:22 | from a fresh window, at most max counted requests are admitted before it ends |
| RateLimiter.NextIsLimited | src/middleware/rateLimiter.js:7-10 | once max hits are counted, the next request in the window gets 429 |
| RateLimiter.ExpiredWindowAdmits | src/middleware/rateLimiter.js:5 | after the window ends the next request opens a new window and is admitted |
| RateLimiter.AuthSuccessesNotCounted | src/middleware/rateLimiter.js:29-30 | successful auth requests leave the hit count unchanged |
| RateLimiter.AuthFailuresCount | src/middleware/rateLimiter.js:29-30 | on the auth tier a failed request inside a window, or its 429, adds one hit |
| RateLimiter.AuthFailuresAccumulate | src/middleware/rateLimiter.js:29-30 | failed auth requests inside a window each leave their hit in it |
| RateLimiter.SixthFailedAttemptLimited | src/middleware/rateLimiter.js:20-31 | five failed auth attempts opening a window make the sixth inside fifteen minutes get 429 with the auth message |
| RateLimiter.EveryRequestCounts | src/middleware/rateLimiter.js:13-16 | on the other tiers every request in a window adds a hit |
| Listing.Slot | src/controllers/projectController.js:43 | the insertion point splits the listing into newer-or-equal and older records |
| Listing.Insert | src/controllers/projectController.js:43 | inserting puts the id at its slot and shifts the rest |
| Listing.InsertSorted | src/controllers/projectController.js:43 | insertion keeps newest-first order |
| Listing.InsertMembers | src/controllers/projectController.js:43 | insertion adds that id and nothing else |
| Listing.InsertDistinct | src/controllers/projectController.js:43 | inserting a new id keeps the ids distinct |
| Listing.NewestKeys | src/controllers/projectController.js:40-43 | the listed ids are exactly the selected records, each once, newest first |
| Listing.RecordsOf | src/controllers/projectController.js:45 | the listed records are those of the ids, in order |
| Listing.IdsOf | src/controllers/projectController.js:45 | the ids of a record list, one per record, in order |
| Store.IssueToken | src/controllers/authController.js:24 | the token names the user and expires seven days after its issue second |
| Store.CastMessage | src/controllers/projectController.js:66 | the cast failure's message is the fixed opening, the value, then the closing naming path and model |
| Store.CastMessageNamesValue | src/controllers/projectController.js:66 | two values with the same cast message on the same path are the same value |
| Store.Database.constructor | src/models/Project.js:3-44 | an empty database is valid |
| Store.Database.FreshId | src/models/Project.js:3-44 | a fresh id is in no collection |
| Store.Database.AddProject | src/controllers/projectController.js:18-23 | saving adds exactly the new project under a fresh id |
| Store.Database.PutProject | src/controllers/projectController.js:95-98 | replacing a project changes only that entry |
| Store.Database.PutClient | src/controllers/clientController.js:62-66 | replacing a client changes only that entry |
| Store.Database.AddUser | src/controllers/authController.js:21-22 | saving adds exactly the new user, keeping e-mails unique |
| ProjectController.Refusal | src/controllers/projectController.js:8-10 | a refused body answers 400 with a message led by the failing key's label |
| ProjectController.ListProjects | src/controllers/projectController.js:40-43 | exactly the selected stored projects, each once, newest first |
| ProjectController.CreateProject | src/controllers/projectController.js:5-36 | 400 on a refused body, 404 on an unknown client, 500 on a document validator failure, else 201 and exactly one new project |
| ProjectController.CreatorComesFromCaller | src/controllers/projectController.js:18-21 | a body naming createdBy is refused, so the creator is always the caller |
| ProjectController.GetAllProjects | src/controllers/projectController.js:38-49 | 200 with every project once, newest first |
| ProjectController.GetProjectsByClient | src/controllers/projectController.js:51-62 | 500 on a malformed id, else 200 with exactly that client's projects, newest first |
| ProjectController.GetProjectById | src/controllers/projectController.js:64-78 | 500 on a malformed id, 404 when absent, else 200 with the project |
| ProjectController.UpdateProject | src/controllers/projectController.js:80-115 | refusal, unknown client, bad id, validator failure and missing project in that order; otherwise only that project is replaced by the merge |
| ProjectController.DeleteProject | src/controllers/projectController.js:117-129 | 500 on a malformed id, 404 when absent, else exactly that project is removed |
| ProjectController.DeleteTwice | tests/projects.test.js:782-796 | deleting twice answers 200, then 404 "Project not found" |
| ClientController.CastClient | src/controllers/clientController.js:11-14 | the stored address is present iff the body gives one |
| ClientController.AcceptedClientCasts | src/controllers/clientController.js:6-14 | an accepted body gives every required client field within its bounds |
| ClientController.NewClient | src/controllers/clientController.js:11-16 | a new client takes the body's fields, the caller and both timestamps |
| ClientController.MergeClient | src/controllers/clientController.js:62-66 | an update sets the given fields and keeps id, creator, creation time and an absent address |
| ClientController.CreateClient | src/controllers/clientController.js:4-26 | 400 on a refused body, else 201 and exactly one new client |
| ClientController.GetAllClients | src/controllers/clientController.js:28-38 | 200 with every client once, newest first |
| ClientController.GetClientById | src/controllers/clientController.js:40-53 | 500 on a malformed id, 404 when absent, else 200 with the client |
| ClientController.UpdateClient | src/controllers/clientController.js:55-79 | refusal, bad id and missing client in that order; otherwise only that client is replaced |
| ClientController.DeleteClient | src/controllers/clientController.js:81-93 | only the client is removed; its projects stay and keep referring to it |
| ClientController.DeleteTwice | src/controllers/clientController.js:81-93 | deleting twice answers 200, then 404 "Client not found" |
| AuthController.Signup | src/controllers/authController.js:6-34 | 400 on a refused body or a taken e-mail, else 201, exactly one new user and a token for them |
| AuthController.Login | src/controllers/authController.js:37-66 | 400 on a refused body; the same 400 "Invalid credentials" for an unknown e-mail and a wrong password; else 200 with a token |

## Left out

- Joi's e-mail grammar, date-string parsing and string-to-number conversion are parameters (`Env`). Numbers are reals, not IEEE doubles.
- Lengths count characters. JavaScript counts UTF-16 code units, so characters outside the Basic Multilingual Plane count differently.
- src/models/Client.js and src/models/User.js are not part of this model:
  - Client fields are stored as given, with no trimming and no model-side validator.
  - Users are stored as signup passes them, with no password hashing and no role default applied by the model.
  - E-mail uniqueness is kept by the signup check. No unique index is modelled.
- src/middleware/auth.js is not part of this model. The caller's id is a parameter.
- src/controllers/userController.js, the routes, app.js and config/database.js are not part of this model.
- Mongoose's `populate` and field selection are not modelled. Responses carry the stored records.
- Input and output, the database driver, database failures other than cast and validation errors, and concurrency between requests are left out.
- Ids are counters whose 24-digit hex spelling is the ObjectId string. The 12-byte string form of an ObjectId and the timestamp/counter structure of a real ObjectId are not modelled.
- ProjectModel.CastChanges: dates in the body are cast with the same date parser Joi uses (`Env.parseDate`). Mongoose's own Date cast differs for some strings, such as digit-only ones ("2024" is a year there and a millisecond count in Joi). Such dates are stored differently from the source, and the model's stored dates are the values Joi compared.
- ProjectModel.CastChanges: a value that Mongoose cannot cast (a date or number string that does not convert) is treated as absent. Such a value is not raised as a CastError.
- ProjectModel.CreateErrors: the validator failures are listed in schema order. Mongoose lists them in the order its validators finish.
- ErrorHandler.Normalize: a failure named ValidationError without `errors`, or one with code 11000 without `keyValue`, would make the handler itself throw. The model takes these as empty lists instead.
- RateLimiter.Limiter.Handle: the decrement after a skipped response is applied to the current window at once. An asynchronous decrement that lands after a window reset is not modelled.
- The RateLimit-* headers are not modelled.
- RateLimiter.Limiter: each key's window starts at its own first request and is reset for that key alone, as the in-memory store of express-rate-limit version 7 does. The installed library version is not pinned by the code. Version 6's store resets every key on one shared timer, and that is not modelled.
- Validation.CheckValue: a JSON number too large for a double (such as 1e400) is Infinity in JavaScript, and Joi refuses it as "cannot be infinity". The model's numbers are reals, so it refuses such a number as unsafe instead.
- JWT signing is not modelled. The secret and the signature are left out, and a token is its payload and expiry.
