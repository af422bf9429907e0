/** The request validators of the files under src/validation. Each validator there builds a
    Joi object schema and returns `schema.validate(data)`; the controllers only
    ever look at the first reported error. Here a schema is data (a list of field
    rules, in the order the source declares them) and `Validate` is the part of
    Joi's behaviour those schemas use: with abortEarly, children are checked in
    declaration order, then unknown keys are refused, and the verdict is the
    first violation met. */
module Validation {
  import opened Json
  import opened Text

  /** The checks Joi delegates to code outside this model: e-mail syntax, and
      turning a string into a date or a number. */
  datatype Env = Env(
    isEmail: string -> bool,
    parseDate: string -> Option<int>,
    parseNumber: string -> Option<real>)

  /** Rules of Joi.string(), applied in the order they were chained. */
  datatype StrRule = MinLen(n: nat) | MaxLen(n: nat) | Len(n: nat) | Hex | Email

  datatype Kind =
    | Str(rules: seq<StrRule>)           // Joi.string() with its chained rules
    | OneOf(allowed: seq<string>)        // Joi.string().valid(...)
    | Date(after: Option<string>)        // Joi.date(), optionally .greater(Joi.ref(key))
    | Number(min: Option<nat>)           // Joi.number(), optionally .min(m)

  datatype Presence = Required | Optional | Default(value: Value)

  datatype Field = Field(key: string, kind: Kind, presence: Presence)

  type Schema = seq<Field>

  /** The Joi error kinds these schemas can raise, with the key they concern. */
  datatype Violation =
    | Missing(key: string)                        // any.required
    | NotString(key: string)                      // string.base
    | Empty(key: string)                          // string.empty
    | TooShort(key: string, limit: nat)           // string.min
    | TooLong(key: string, limit: nat)            // string.max
    | WrongLength(key: string, limit: nat)        // string.length
    | NotHex(key: string)                         // string.hex
    | NotEmail(key: string)                       // string.email
    | NotOneOf(key: string, allowed: seq<string>) // any.only
    | NotDate(key: string)                        // date.base
    | NotAfter(key: string, ref: string)          // date.greater
    | BadRef(key: string, ref: string)            // any.ref
    | NotNumber(key: string)                      // number.base
    | Unsafe(key: string)                         // number.unsafe
    | BelowMin(key: string, limit: nat)           // number.min
    | NotAllowed(key: string)                     // object.unknown

  datatype Verdict = Accepted | Rejected(first: Violation)

  /** Joi's default message for a violation; the key is wrapped in double quotes. */
  function Message(v: Violation): (m: string)
    ensures |m| > |v.key| + 2 && m[..|v.key| + 2] == Label(v.key)
  {
    var l := Label(v.key);
    match v
    case Missing(_) => l + " is required"
    case NotString(_) => l + " must be a string"
    case Empty(_) => l + " is not allowed to be empty"
    case TooShort(_, n) => l + " length must be at least " + NatToString(n) + " characters long"
    case TooLong(_, n) => l + " length must be less than or equal to " + NatToString(n) + " characters long"
    case WrongLength(_, n) => l + " length must be " + NatToString(n) + " characters long"
    case NotHex(_) => l + " must only contain hexadecimal characters"
    case NotEmail(_) => l + " must be a valid email"
    case NotOneOf(_, vs) =>
      l + (if |vs| == 1 then " must be [" else " must be one of [") + Join(vs, ", ") + "]"
    case NotDate(_) => l + " must be a valid date"
    case NotAfter(_, r) => l + " must be greater than \"ref:" + r + "\""
    case BadRef(_, r) => l + " date references \"ref:" + r + "\" which must have a valid date format or reference"
    case NotNumber(_) => l + " must be a number"
    case Unsafe(_) => l + " must be a safe number"
    case BelowMin(_, n) => l + " must be greater than or equal to " + NatToString(n)
    case NotAllowed(_) => l + " is not allowed"
  }

  function Label(key: string): string { "\"" + key + "\"" }

  // ---------------------------------------------------------------------------
  // Conversions Joi applies before checking (convert is on by default)

  /** The largest time value a JavaScript Date can hold, in milliseconds. */
  const MaxTime: real := 8640000000000000.0

  /** Number.MAX_SAFE_INTEGER. */
  const MaxSafe: real := 9007199254740991.0

  /** ToIntegerOrInfinity on a finite number: truncation toward zero. */
  function Truncate(x: real): (t: int)
    ensures x >= 0.0 ==> t as real <= x < t as real + 1.0
    ensures x < 0.0 ==> t as real - 1.0 < x <= t as real
  {
    if x >= 0.0 then x.Floor else -((-x).Floor)
  }

  /** The time in milliseconds Joi.date() makes of a value: a number is a time
      stamp (new Date(x)), a string goes through date parsing, nothing else is a date. */
  function DateOf(env: Env, v: Value): Option<int>
  {
    match v
    case JNumber(x) => if -MaxTime <= x <= MaxTime then Some(Truncate(x)) else None
    case JString(s) => env.parseDate(s)
    case _ => None
  }

  /** The number Joi.number() makes of a value: numbers as they are, numeric strings parsed. */
  function NumberOf(env: Env, v: Value): Option<real>
  {
    match v
    case JNumber(x) => Some(x)
    case JString(s) => env.parseNumber(s)
    case _ => None
  }

  // ---------------------------------------------------------------------------
  // The checks

  /** The first chained string rule that `s` breaks. */
  function BrokenRule(env: Env, key: string, s: string, rules: seq<StrRule>): (r: Option<Violation>)
    ensures r.None? <==> forall i :: 0 <= i < |rules| ==> Holds(env, s, rules[i])
    ensures r.Some? ==> r.value.key == key
  {
    if |rules| == 0 then None
    else if !Holds(env, s, rules[0]) then Some(RuleViolation(key, rules[0]))
    else
      assert forall i :: 1 <= i < |rules| ==> rules[i] == rules[1..][i - 1];
      BrokenRule(env, key, s, rules[1..])
  }

  predicate Holds(env: Env, s: string, rule: StrRule)
  {
    match rule
    case MinLen(n) => |s| >= n
    case MaxLen(n) => |s| <= n
    case Len(n) => |s| == n
    case Hex => IsHex(s)
    case Email => env.isEmail(s)
  }

  function RuleViolation(key: string, rule: StrRule): (v: Violation)
    ensures v.key == key
  {
    match rule
    case MinLen(n) => TooShort(key, n)
    case MaxLen(n) => TooLong(key, n)
    case Len(n) => WrongLength(key, n)
    case Hex => NotHex(key)
    case Email => NotEmail(key)
  }

  /** The outcome of checking one present value: a violation, or success with
      the date it converted to (kept so a later field can refer to it). */
  datatype Checked = Bad(violation: Violation) | Good(date: Option<int>)

  function CheckValue(env: Env, f: Field, v: Value, dates: map<string, int>): (c: Checked)
    ensures c.Bad? ==> c.violation.key == f.key
    ensures c.Good? && c.date.Some? ==> f.kind.Date? && DateOf(env, v) == c.date
  {
    match f.kind
    case Str(rules) =>
      if !v.JString? then Bad(NotString(f.key))
      else if v.s == "" then Bad(Empty(f.key))
      else
        var broken := BrokenRule(env, f.key, v.s, rules);
        if broken.Some? then Bad(broken.value) else Good(None)
    case OneOf(allowed) =>
      if v.JString? && v.s in allowed then Good(None) else Bad(NotOneOf(f.key, allowed))
    case Date(after) =>
      var d := DateOf(env, v);
      if d.None? then Bad(NotDate(f.key))
      else if after.None? then Good(d)
      else if after.value !in dates then Bad(BadRef(f.key, after.value))
      else if d.value > dates[after.value] then Good(d)
      else Bad(NotAfter(f.key, after.value))
    case Number(min) =>
      var x := NumberOf(env, v);
      if x.None? then Bad(NotNumber(f.key))
      else if x.value > MaxSafe || x.value < -MaxSafe then Bad(Unsafe(f.key))
      else if min.Some? && x.value < min.value as real then Bad(BelowMin(f.key, min.value))
      else Good(None)
  }

  /** The keys a schema declares. */
  function SchemaKeys(schema: Schema): set<string>
  {
    set i | 0 <= i < |schema| :: schema[i].key
  }

  /** Children from position `i` on, in declaration order; `dates` holds the
      converted dates of the fields already checked. */
  function CheckFields(env: Env, schema: Schema, body: Body, i: nat, dates: map<string, int>): (r: Option<Violation>)
    requires i <= |schema|
    ensures r.None? ==> forall j :: i <= j < |schema| && schema[j].presence.Required? ==> schema[j].key in Keys(body)
    ensures r.Some? ==> exists j :: i <= j < |schema| && schema[j].key == r.value.key
    decreases |schema| - i
  {
    if i == |schema| then None
    else
      var f := schema[i];
      var v := Lookup(body, f.key);
      if v.None? then
        if f.presence.Required? then Some(Missing(f.key))
        else CheckFields(env, schema, body, i + 1, dates)
      else
        var c := CheckValue(env, f, v.value, dates);
        if c.Bad? then Some(c.violation)
        else CheckFields(env, schema, body, i + 1, if c.date.Some? then dates[f.key := c.date.value] else dates)
  }

  /** 2^32 - 2, the largest array index. */
  const MaxArrayIndex: nat := 0xFFFF_FFFE

  /** A key ECMAScript treats as an array index: the canonical decimal spelling
      of a number no greater than 2^32 - 2. Object.keys lists such keys first, in
      ascending numeric order, and then the other keys in the order they were
      first written. */
  predicate IsArrayIndex(k: string)
  {
    Canonical(k) && DecimalValue(k) <= MaxArrayIndex
  }

  /** The body member at position i has a key the schema does not declare. */
  predicate UnknownAt(schema: Schema, body: Body, i: int)
  {
    0 <= i < |body| && body[i].0 !in SchemaKeys(schema)
  }

  /** The unknown array-index key of least value, if there is one. */
  function LeastUnknownIndex(schema: Schema, body: Body): (r: Option<string>)
    ensures r.None? <==> forall i :: UnknownAt(schema, body, i) ==> !IsArrayIndex(body[i].0)
    ensures r.Some? ==> IsArrayIndex(r.value) && r.value in Keys(body) && r.value !in SchemaKeys(schema)
    ensures r.Some? ==> forall i :: UnknownAt(schema, body, i) && IsArrayIndex(body[i].0) ==>
      DecimalValue(r.value) <= DecimalValue(body[i].0)
  {
    if |body| == 0 then None
    else
      var rest := LeastUnknownIndex(schema, body[1..]);
      var k := body[0].0;
      assert forall i :: 1 <= i < |body| ==> body[1..][i - 1] == body[i];
      assert forall i :: 1 <= i < |body| ==> (UnknownAt(schema, body, i) <==> UnknownAt(schema, body[1..], i - 1));
      assert Keys(body[1..]) <= Keys(body) by {
        forall x | x in Keys(body[1..]) ensures x in Keys(body) {
          var j :| 0 <= j < |body[1..]| && body[1..][j].0 == x;
          assert body[j + 1].0 == x;
        }
      }
      assert k in Keys(body) by { assert body[0].0 == k; }
      if k in SchemaKeys(schema) || !IsArrayIndex(k) then rest
      else if rest.Some? && DecimalValue(rest.value) <= DecimalValue(k) then rest
      else Some(k)
  }

  /** The position of the first body member whose key the schema does not
      declare, or |body| when there is none. */
  function FirstUnknownAt(schema: Schema, body: Body): (i: nat)
    ensures i <= |body|
    ensures forall j :: 0 <= j < i ==> !UnknownAt(schema, body, j)
    ensures i < |body| ==> UnknownAt(schema, body, i)
    decreases |body|
  {
    if |body| == 0 then 0
    else if body[0].0 !in SchemaKeys(schema) then 0
    else
      var i := 1 + FirstUnknownAt(schema, body[1..]);
      assert forall j :: 1 <= j < |body| ==> body[1..][j - 1] == body[j];
      assert forall j :: 1 <= j < |body| ==> (UnknownAt(schema, body, j) <==> UnknownAt(schema, body[1..], j - 1));
      assert !UnknownAt(schema, body, 0);
      i
  }

  /** The unknown key Joi reports (object.unknown): it checks the keys of
      Object.keys(value) that no child consumed, in that order, so the least
      unknown array index comes first and otherwise the first unknown key as
      written. */
  function FirstUnknown(schema: Schema, body: Body): (r: Option<Violation>)
    ensures r.None? <==> Keys(body) <= SchemaKeys(schema)
    ensures r.Some? ==> r.value.NotAllowed? && r.value.key in Keys(body) && r.value.key !in SchemaKeys(schema)
    ensures r.Some? && !(forall i :: UnknownAt(schema, body, i) ==> !IsArrayIndex(body[i].0)) ==>
      && IsArrayIndex(r.value.key)
      && forall i :: UnknownAt(schema, body, i) && IsArrayIndex(body[i].0) ==> DecimalValue(r.value.key) <= DecimalValue(body[i].0)
    ensures r.Some? && (forall i :: UnknownAt(schema, body, i) ==> !IsArrayIndex(body[i].0)) ==>
      && FirstUnknownAt(schema, body) < |body|
      && r.value.key == body[FirstUnknownAt(schema, body)].0
  {
    var least := LeastUnknownIndex(schema, body);
    var first := FirstUnknownAt(schema, body);
    assert Keys(body) <= SchemaKeys(schema) <==> first == |body| by {
      if first < |body| {
        assert body[first].0 in Keys(body);
      }
      if first == |body| {
        forall k | k in Keys(body) ensures k in SchemaKeys(schema) {
          var i :| 0 <= i < |body| && body[i].0 == k;
          assert !UnknownAt(schema, body, i);
        }
      }
    }
    if least.Some? then Some(NotAllowed(least.value))
    else if first < |body| then
      assert body[first].0 in Keys(body);
      Some(NotAllowed(body[first].0))
    else None
  }

  /** An unknown key "0" is the one reported, wherever it stands in the body:
      no array index is smaller, and "0" is the only spelling of zero. */
  lemma {:induction false} ZeroKeyReportedFirst(schema: Schema, body: Body, i: nat)
    requires UnknownAt(schema, body, i) && body[i].0 == "0"
    ensures FirstUnknown(schema, body) == Some(NotAllowed("0"))
  {
    assert IsArrayIndex("0");
    var r := FirstUnknown(schema, body);
    assert r.Some? by { assert "0" in Keys(body); }
    var k := r.value.key;
    assert DecimalValue(k) <= DecimalValue("0") == 0;
    DecimalRoundTrip(k);
  }

  /** schema.validate(data) with Joi's default options: the first violation, if any. */
  function Validate(env: Env, schema: Schema, body: Body): (v: Verdict)
    ensures v.Accepted? ==> Keys(body) <= SchemaKeys(schema)
    ensures v.Accepted? ==> forall j :: 0 <= j < |schema| && schema[j].presence.Required? ==> schema[j].key in Keys(body)
    ensures v.Rejected? ==> v.first.key in SchemaKeys(schema) + Keys(body)
  {
    var known := CheckFields(env, schema, body, 0, map[]);
    if known.Some? then Rejected(known.value)
    else
      var unknown := FirstUnknown(schema, body);
      if unknown.Some? then Rejected(unknown.value) else Accepted
  }

  /** A body whose declared fields all pass but which carries an unknown key "0"
      is refused for that key, whatever other unknown keys come before it. */
  lemma {:induction false} ZeroKeyRefused(env: Env, schema: Schema, body: Body, i: nat)
    requires CheckFields(env, schema, body, 0, map[]).None?
    requires UnknownAt(schema, body, i) && body[i].0 == "0"
    ensures Validate(env, schema, body) == Rejected(NotAllowed("0"))
  {
    ZeroKeyReportedFirst(schema, body, i);
  }

  /** Field j declares a default, its key is absent from the body, and no earlier field has that key. */
  predicate FirstDefault(schema: Schema, body: Body, j: int)
  {
    && 0 <= j < |schema| && schema[j].presence.Default? && schema[j].key !in Keys(body)
    && forall i :: 0 <= i < j ==> schema[i].key != schema[j].key
  }

  /** The body with the declared defaults added for absent keys. This is the
      part of the value Joi hands back beside the verdict that the schemas'
      defaults produce; Joi's conversions of dates and numeric strings are not
      part of it. (The controllers never use that value.) */
  function WithDefaults(schema: Schema, body: Body): (r: Body)
    ensures Keys(body) <= Keys(r) <= Keys(body) + SchemaKeys(schema)
    ensures forall k :: k in Keys(body) ==> Lookup(r, k) == Lookup(body, k)
    ensures forall j :: FirstDefault(schema, body, j) ==> Lookup(r, schema[j].key) == Some(schema[j].presence.value)
  {
    if |schema| == 0 then body
    else
      var f := schema[|schema| - 1];
      var prefix := WithDefaults(schema[..|schema| - 1], body);
      assert forall j :: 0 <= j < |schema| - 1 ==> schema[..|schema| - 1][j] == schema[j];
      if f.presence.Default? && f.key !in Keys(prefix) then
        var r := prefix + [(f.key, f.presence.value)];
        assert r[..|r| - 1] == prefix;
        assert forall k :: k in Keys(prefix) ==> k in Keys(r) by {
          forall k | k in Keys(prefix) ensures k in Keys(r) {
            var i :| 0 <= i < |prefix| && prefix[i].0 == k;
            assert r[i] == prefix[i];
          }
        }
        assert r[|r| - 1].0 == f.key;
        assert Keys(r) <= Keys(prefix) + {f.key} by {
          forall k | k in Keys(r) ensures k in Keys(prefix) + {f.key} {
            var i :| 0 <= i < |r| && r[i].0 == k;
            if i < |prefix| { assert r[i] == prefix[i]; }
          }
        }
        assert f.key in SchemaKeys(schema);
        r
      else prefix
  }

  // ---------------------------------------------------------------------------
  // Unfolding CheckFields one field at a time, by kind of field

  /** The string stored under `key`, if the body has one there. */
  function StringAt(body: Body, key: string): Option<string>
  {
    var v := Lookup(body, key);
    if v.Some? && v.value.JString? then Some(v.value.s) else None
  }

  /** All chained rules hold of `s`. */
  predicate AllHold(env: Env, s: string, rules: seq<StrRule>)
  {
    forall r :: 0 <= r < |rules| ==> Holds(env, s, rules[r])
  }

  lemma StringStep(env: Env, schema: Schema, body: Body, i: nat, dates: map<string, int>)
    requires i < |schema| && schema[i].kind.Str?
    ensures CheckFields(env, schema, body, i, dates).None? <==>
      && (Lookup(body, schema[i].key).None? ==> !schema[i].presence.Required?)
      && (Lookup(body, schema[i].key).Some? ==>
            var t := StringAt(body, schema[i].key);
            t.Some? && t.value != "" && AllHold(env, t.value, schema[i].kind.rules))
      && CheckFields(env, schema, body, i + 1, dates).None?
  {
  }

  lemma OneOfStep(env: Env, schema: Schema, body: Body, i: nat, dates: map<string, int>)
    requires i < |schema| && schema[i].kind.OneOf? && !schema[i].presence.Required?
    ensures CheckFields(env, schema, body, i, dates).None? <==>
      && (Lookup(body, schema[i].key).Some? ==>
            var t := StringAt(body, schema[i].key);
            t.Some? && t.value in schema[i].kind.allowed)
      && CheckFields(env, schema, body, i + 1, dates).None?
  {
  }

  lemma NumberStep(env: Env, schema: Schema, body: Body, i: nat, dates: map<string, int>)
    requires i < |schema| && schema[i].kind.Number? && schema[i].kind.min.Some? && schema[i].presence.Optional?
    ensures CheckFields(env, schema, body, i, dates).None? <==>
      && (Lookup(body, schema[i].key).Some? ==>
            var x := NumberOf(env, Lookup(body, schema[i].key).value);
            x.Some? && schema[i].kind.min.value as real <= x.value <= MaxSafe)
      && CheckFields(env, schema, body, i + 1, dates).None?
  {
  }

  lemma DateStep(env: Env, schema: Schema, body: Body, i: nat, dates: map<string, int>)
    requires i < |schema| && schema[i].kind.Date? && schema[i].kind.after.None? && schema[i].presence.Required?
    ensures var v := Lookup(body, schema[i].key);
      CheckFields(env, schema, body, i, dates).None? <==>
      && v.Some? && DateOf(env, v.value).Some?
      && CheckFields(env, schema, body, i + 1, dates[schema[i].key := DateOf(env, v.value).value]).None?
  {
  }

  lemma LaterDateStep(env: Env, schema: Schema, body: Body, i: nat, dates: map<string, int>)
    requires i < |schema| && schema[i].kind.Date? && schema[i].kind.after.Some? && schema[i].presence.Optional?
    requires schema[i].kind.after.value in dates
    ensures var v := Lookup(body, schema[i].key);
      CheckFields(env, schema, body, i, dates).None? <==>
      && (v.Some? ==> DateOf(env, v.value).Some? && DateOf(env, v.value).value > dates[schema[i].kind.after.value])
      && CheckFields(env, schema, body, i + 1, if v.Some? then dates[schema[i].key := DateOf(env, v.value).value] else dates).None?
  {
  }

  /** CheckFields past the last field finds nothing, whatever the dates. */
  lemma EndStep(env: Env, schema: Schema, body: Body, dates: map<string, int>)
    ensures CheckFields(env, schema, body, |schema|, dates).None?
  {
  }

  /** The dates known after field `f` has been accepted with value `v`. */
  function After(env: Env, f: Field, v: Option<Value>, dates: map<string, int>): map<string, int>
  {
    if v.Some? && CheckValue(env, f, v.value, dates).Good? && CheckValue(env, f, v.value, dates).date.Some?
    then dates[f.key := CheckValue(env, f, v.value, dates).date.value]
    else dates
  }

  /** A field that raises nothing hands over to the next one. */
  lemma PassField(env: Env, schema: Schema, body: Body, i: nat, dates: map<string, int>)
    requires i < |schema|
    requires var v := Lookup(body, schema[i].key);
      (v.None? && !schema[i].presence.Required?) || (v.Some? && CheckValue(env, schema[i], v.value, dates).Good?)
    ensures CheckFields(env, schema, body, i, dates) ==
      CheckFields(env, schema, body, i + 1, After(env, schema[i], Lookup(body, schema[i].key), dates))
  {
  }

  /** A present field whose value is refused is the verdict. */
  lemma FailField(env: Env, schema: Schema, body: Body, i: nat, dates: map<string, int>)
    requires i < |schema|
    requires var v := Lookup(body, schema[i].key); v.Some? && CheckValue(env, schema[i], v.value, dates).Bad?
    ensures CheckFields(env, schema, body, i, dates) ==
      Some(CheckValue(env, schema[i], Lookup(body, schema[i].key).value, dates).violation)
  {
  }

  // ---------------------------------------------------------------------------
  // What the string fields of the schemas accept, stated without Joi

  /** A string whose length lies between lo and hi is stored under key. */
  predicate TextBetween(body: Body, key: string, lo: nat, hi: nat)
  {
    StringAt(body, key).Some? && lo <= |StringAt(body, key).value| <= hi
  }

  /** A string of at least lo characters is stored under key. */
  predicate TextAtLeast(body: Body, key: string, lo: nat)
  {
    StringAt(body, key).Some? && lo <= |StringAt(body, key).value|
  }

  /** A non-empty string that passes the e-mail check is stored under key. */
  predicate EmailAt(env: Env, body: Body, key: string)
  {
    StringAt(body, key).Some? && StringAt(body, key).value != "" && env.isEmail(StringAt(body, key).value)
  }

  lemma RulesOfText(env: Env, t: Option<string>, lo: nat, hi: nat)
    requires lo >= 1
    ensures t.Some? ==> (t.value != "" && AllHold(env, t.value, [MinLen(lo), MaxLen(hi)]) <==> lo <= |t.value| <= hi)
  {
    if t.Some? {
      var rules := [MinLen(lo), MaxLen(hi)];
      assert AllHold(env, t.value, rules) <==> Holds(env, t.value, rules[0]) && Holds(env, t.value, rules[1]);
    }
  }

  /** What a length-bounded string rule pair reports. */
  lemma TextRules(env: Env, key: string, t: string, lo: nat, hi: nat)
    requires lo <= hi
    ensures BrokenRule(env, key, t, [MinLen(lo), MaxLen(hi)]) ==
      if |t| < lo then Some(TooShort(key, lo)) else if |t| > hi then Some(TooLong(key, hi)) else None
  {
    var rules := [MinLen(lo), MaxLen(hi)];
    assert rules[1..] == [MaxLen(hi)];
    assert rules[1..][1..] == [];
  }

  /** A required Joi.string().min(lo).max(hi) field accepts exactly TextBetween. */
  lemma RequiredText(env: Env, schema: Schema, body: Body, i: nat, dates: map<string, int>, lo: nat, hi: nat)
    requires i < |schema| && schema[i].kind == Str([MinLen(lo), MaxLen(hi)]) && schema[i].presence.Required?
    requires lo >= 1
    ensures CheckFields(env, schema, body, i, dates).None? <==>
      TextBetween(body, schema[i].key, lo, hi) && CheckFields(env, schema, body, i + 1, dates).None?
  {
    StringStep(env, schema, body, i, dates);
    RulesOfText(env, StringAt(body, schema[i].key), lo, hi);
  }

  /** An optional Joi.string().max(hi) field accepts absence or a string of 1 to hi
      characters (the empty string is refused as string.empty). */
  lemma OptionalText(env: Env, schema: Schema, body: Body, i: nat, dates: map<string, int>, hi: nat)
    requires i < |schema| && schema[i].kind == Str([MaxLen(hi)]) && schema[i].presence.Optional?
    ensures CheckFields(env, schema, body, i, dates).None? <==>
      (Lookup(body, schema[i].key).Some? ==> TextBetween(body, schema[i].key, 1, hi)) &&
      CheckFields(env, schema, body, i + 1, dates).None?
  {
    StringStep(env, schema, body, i, dates);
    var rules := [MaxLen(hi)];
    var t := StringAt(body, schema[i].key);
    if t.Some? {
      assert AllHold(env, t.value, rules) <==> Holds(env, t.value, rules[0]);
    }
  }

  /** A required Joi.string().min(lo) field accepts exactly TextAtLeast (with lo
      at least 1; a bare Joi.string() is the case lo = 1). */
  lemma RequiredAtLeast(env: Env, schema: Schema, body: Body, i: nat, dates: map<string, int>, lo: nat)
    requires i < |schema| && schema[i].presence.Required?
    requires (lo >= 1 && schema[i].kind == Str([MinLen(lo)])) || (lo == 1 && schema[i].kind == Str([]))
    ensures CheckFields(env, schema, body, i, dates).None? <==>
      TextAtLeast(body, schema[i].key, lo) && CheckFields(env, schema, body, i + 1, dates).None?
  {
    StringStep(env, schema, body, i, dates);
    var rules := schema[i].kind.rules;
    var t := StringAt(body, schema[i].key);
    if t.Some? && rules != [] {
      assert AllHold(env, t.value, rules) <==> Holds(env, t.value, rules[0]);
    }
  }

  /** A required Joi.string().email() field accepts exactly EmailAt. */
  lemma RequiredEmail(env: Env, schema: Schema, body: Body, i: nat, dates: map<string, int>)
    requires i < |schema| && schema[i].kind == Str([Email]) && schema[i].presence.Required?
    ensures CheckFields(env, schema, body, i, dates).None? <==>
      EmailAt(env, body, schema[i].key) && CheckFields(env, schema, body, i + 1, dates).None?
  {
    StringStep(env, schema, body, i, dates);
    var rules := [Email];
    var t := StringAt(body, schema[i].key);
    if t.Some? {
      assert AllHold(env, t.value, rules) <==> Holds(env, t.value, rules[0]);
    }
  }
}
