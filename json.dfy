/** JSON request bodies as the route handlers receive them from express.json(),
    and the optional values used throughout the model. */
module Json {

  datatype Option<+T> = None | Some(value: T)

  /** A JSON member value. Arrays and nested objects are never looked into by
      this backend, so they share one case. */
  datatype Value =
    | JString(s: string)
    | JNumber(x: real)
    | JBool(b: bool)
    | JNull
    | JCompound

  /** A parsed request body: its members in the order they were written. */
  type Body = seq<(string, Value)>

  /** The keys a body carries. */
  function Keys(body: Body): set<string>
  {
    set i | 0 <= i < |body| :: body[i].0
  }

  /** The value of `key`. A later duplicate overrides an earlier one, as JSON.parse does. */
  function Lookup(body: Body, key: string): (r: Option<Value>)
    ensures r.Some? <==> key in Keys(body)
    ensures r.Some? ==> (key, r.value) in body
  {
    if |body| == 0 then None
    else
      var last := |body| - 1;
      assert Keys(body) == Keys(body[..last]) + {body[last].0} by {
        forall k | k in Keys(body) ensures k in Keys(body[..last]) + {body[last].0} {
          var i :| 0 <= i < |body| && body[i].0 == k;
          if i < last { assert body[..last][i] == body[i]; }
        }
      }
      if body[last].0 == key then Some(body[last].1)
      else Lookup(body[..last], key)
  }

  /** The member at `i` is the last one with key `k`, so it is the one Lookup finds. */
  lemma {:induction false} LookupAt(body: Body, k: string, i: nat)
    requires i < |body| && body[i].0 == k
    requires forall j :: i < j < |body| ==> body[j].0 != k
    ensures Lookup(body, k) == Some(body[i].1)
    decreases |body|
  {
    var last := |body| - 1;
    if i < last {
      LookupAt(body[..last], k, i);
    }
  }
}
