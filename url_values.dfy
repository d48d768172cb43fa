/** Go's `url.Values`: a query string as a map from each key to its list of values.
    `Encode` writes the keys in sorted order, so only the order of the values under one key is
    meaningful, and the map keeps exactly that. The text `Encode` produces (and its escaping) is not
    modelled; what callers test of it is whether it is empty. */
module UrlValues {

  type Values = map<string, seq<string>>

  /** The values under `key`, none when the key is absent (`q[key]`). */
  function All(q: Values, key: string): seq<string>
  {
    if key in q then q[key] else []
  }

  /** `q.Add(key, value)`: append `value` to the values under `key`. */
  function Add(q: Values, key: string, value: string): (r: Values)
    ensures key in r && All(r, key) == All(q, key) + [value]
    ensures forall k :: k != key ==> (k in r <==> k in q)
    ensures forall k :: k in q && k != key ==> r[k] == q[k]
  {
    q[key := All(q, key) + [value]]
  }

  /** `q.Set(key, value)`: replace the values under `key` by `value` alone. */
  function Set(q: Values, key: string, value: string): (r: Values)
    ensures key in r && r[key] == [value]
    ensures forall k :: k != key ==> (k in r <==> k in q)
    ensures forall k :: k in q && k != key ==> r[k] == q[k]
  {
    q[key := [value]]
  }

  /** `q.Encode() != ""`: some key carries at least one value. */
  predicate Encodes(q: Values)
  {
    exists k :: k in q && q[k] != []
  }

  /** Every key carries a value; `Add` and `Set` keep this, so every query the provider builds has it. */
  predicate WellFormed(q: Values)
  {
    forall k :: k in q ==> q[k] != []
  }

  /** For a well-formed query, encoding to a non-empty string is the same as having a key. */
  lemma EncodesIffNonEmpty(q: Values)
    requires WellFormed(q)
    ensures Encodes(q) <==> q != map[]
  {
    if q != map[] {
      var k :| k in q;
      assert q[k] != [];
    }
  }

  /** The query after adding each of `vs` under `key`, in order. */
  function AddEach(q: Values, key: string, vs: seq<string>): (r: Values)
    ensures vs == [] ==> r == q
    ensures vs != [] ==> r.Keys == q.Keys + {key} && r[key] == All(q, key) + vs
    ensures forall k :: k in q && k != key ==> r[k] == q[k]
  {
    if vs == [] then q else q[key := All(q, key) + vs]
  }

  /** Adding values keeps every key carrying a value, and the query encodes to something after
      the additions exactly when it did before or something was added. */
  lemma AddEachKeepsWellFormed(q: Values, key: string, vs: seq<string>)
    requires WellFormed(q)
    ensures WellFormed(AddEach(q, key, vs))
    ensures Encodes(AddEach(q, key, vs)) <==> Encodes(q) || vs != []
  {
    var r := AddEach(q, key, vs);
    if vs != [] {
      assert r[key] != [];
    }
    if Encodes(q) {
      var k :| k in q && q[k] != [];
      assert k in r && r[k] != [] by {
        if k != key { assert r[k] == q[k]; }
      }
    }
    if Encodes(r) && vs == [] {
      assert r == q;
    }
  }

  /** One more `Add` extends the values added so far. */
  lemma AddEachStep(q: Values, key: string, vs: seq<string>, v: string)
    ensures Add(AddEach(q, key, vs), key, v) == AddEach(q, key, vs + [v])
  {
    if vs == [] {
      assert vs + [v] == [v];
    } else {
      assert All(q, key) + vs + [v] == All(q, key) + (vs + [v]);
    }
  }
}
