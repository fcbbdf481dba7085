// Plain JavaScript objects used as tables (documents by id, queries by id): own properties in
// the order Object.keys gives, array-index keys first and ascending, all others in the order of
// their creation.

module Tables {
  import opened Text

  datatype Entry<+V> = Entry(key: string, value: V)

  type Table<V> = seq<Entry<V>>

  const INDEX_LIMIT := 0xffff_ffff

  /** Keys that are array indices: canonical decimals below 2^32 - 1. */
  predicate IsIndexKey(k: string) {
    k != "" && AllDigits(k) && (|k| == 1 || k[0] != '0') && Value(k) < INDEX_LIMIT
  }

  /** Whether a new key `k` is enumerated before the existing key `other`. */
  predicate Before(k: string, other: string) {
    IsIndexKey(k) && (!IsIndexKey(other) || Value(k) < Value(other))
  }

  predicate Has<V>(t: Table<V>, k: string) {
    exists i :: 0 <= i < |t| && t[i].key == k
  }

  function Lookup<V>(t: Table<V>, k: string): (r: Option<V>)
    ensures r.Some? <==> Has(t, k)
  {
    if t == [] then None
    else if t[0].key == k then Some(t[0].value)
    else
      assert Has(t, k) <==> Has(t[1..], k) by {
        if Has(t, k) {
          var i :| 0 <= i < |t| && t[i].key == k;
          assert t[1..][i - 1].key == k;
        }
      }
      Lookup(t[1..], k)
  }

  /** `t[k] = v`: an existing key keeps its place. */
  function Put<V>(t: Table<V>, k: string, v: V): Table<V> {
    if t == [] then [Entry(k, v)]
    else if t[0].key == k then [Entry(k, v)] + t[1..]
    else if Before(k, t[0].key) then [Entry(k, v)] + t
    else [t[0]] + Put(t[1..], k, v)
  }

  /** `delete t[k]` */
  function Remove<V>(t: Table<V>, k: string): Table<V> {
    if t == [] then []
    else if t[0].key == k then Remove(t[1..], k)
    else [t[0]] + Remove(t[1..], k)
  }

  lemma {:induction false} LookupPut<V>(t: Table<V>, k: string, v: V, j: string)
    ensures Lookup(Put(t, k, v), j) == if j == k then Some(v) else Lookup(t, j)
  {
    if t != [] && t[0].key != k && !Before(k, t[0].key) {
      LookupPut(t[1..], k, v, j);
      assert ([t[0]] + Put(t[1..], k, v))[1..] == Put(t[1..], k, v);
    } else if t != [] {
      assert ([Entry(k, v)] + t)[1..] == t;
      assert ([Entry(k, v)] + t[1..])[1..] == t[1..];
    }
  }

  lemma {:induction false} LookupRemove<V>(t: Table<V>, k: string, j: string)
    ensures Lookup(Remove(t, k), j) == if j == k then None else Lookup(t, j)
  {
    if t != [] {
      LookupRemove(t[1..], k, j);
      assert ([t[0]] + Remove(t[1..], k))[1..] == Remove(t[1..], k);
    }
  }

  lemma {:induction false} PutPut<V>(t: Table<V>, k: string, v: V, w: V)
    ensures Put(Put(t, k, v), k, w) == Put(t, k, w)
  {
    if t != [] && t[0].key != k && !Before(k, t[0].key) {
      PutPut(t[1..], k, v, w);
      assert ([t[0]] + Put(t[1..], k, v))[1..] == Put(t[1..], k, v);
    } else if t != [] {
      assert ([Entry(k, v)] + t)[1..] == t;
      assert ([Entry(k, v)] + t[1..])[1..] == t[1..];
    }
  }

  // ---------------------------------------------------------------------------
  // Enumeration order
  // ---------------------------------------------------------------------------

  /** Keys once each, index keys first and ascending. */
  ghost predicate Ordered<V>(t: Table<V>) {
    (forall i, j :: 0 <= i < j < |t| ==> t[i].key != t[j].key) &&
    (forall i, j :: 0 <= i < j < |t| ==> !Before(t[j].key, t[i].key))
  }

  lemma BeforeTransitive(a: string, b: string, c: string)
    requires Before(a, b) && !Before(c, b) && b != c
    ensures Before(a, c)
  {
  }

  lemma {:induction false} PutKeys<V>(t: Table<V>, k: string, v: V, e: Entry<V>)
    requires e in Put(t, k, v)
    ensures e == Entry(k, v) || e in t
  {
    if t != [] && t[0].key != k && !Before(k, t[0].key) && e != t[0] {
      PutKeys(t[1..], k, v, e);
    }
  }

  /** Writing a key keeps the enumeration order a JavaScript object has. */
  lemma {:induction false} PutOrdered<V>(t: Table<V>, k: string, v: V)
    requires Ordered(t)
    ensures Ordered(Put(t, k, v))
  {
    if t == [] {
    } else if t[0].key == k {
    } else if Before(k, t[0].key) {
      forall j | 0 <= j < |t| ensures t[j].key != k && !Before(t[j].key, k) {
        if j > 0 {
          BeforeTransitive(k, t[0].key, t[j].key);
        }
      }
    } else {
      var rest := Put(t[1..], k, v);
      PutOrdered(t[1..], k, v);
      forall j | 0 <= j < |rest| ensures rest[j].key != t[0].key && !Before(rest[j].key, t[0].key) {
        PutKeys(t[1..], k, v, rest[j]);
        if rest[j] in t[1..] {
          var i :| 0 <= i < |t[1..]| && t[1..][i] == rest[j];
          assert t[i + 1] == rest[j];
        }
      }
    }
  }

  /** Writing the value that is there changes nothing. */
  lemma {:induction false} PutSame<V>(t: Table<V>, k: string, v: V)
    requires Ordered(t) && Lookup(t, k) == Some(v)
    ensures Put(t, k, v) == t
  {
    if t[0].key != k {
      PutSame(t[1..], k, v);
      var i :| 0 <= i < |t| && t[i].key == k;
      assert !Before(k, t[0].key);
    } else {
      assert t == [t[0]] + t[1..];
    }
  }

  lemma {:induction false} RemoveKeys<V>(t: Table<V>, k: string, e: Entry<V>)
    requires e in Remove(t, k)
    ensures e in t && e.key != k
  {
    if t[0].key == k || e != t[0] {
      RemoveKeys(t[1..], k, e);
    }
  }

  lemma {:induction false} RemoveOrdered<V>(t: Table<V>, k: string)
    requires Ordered(t)
    ensures Ordered(Remove(t, k))
  {
    if t != [] {
      RemoveOrdered(t[1..], k);
      var rest := Remove(t[1..], k);
      forall j | 0 <= j < |rest| ensures rest[j].key != t[0].key && !Before(rest[j].key, t[0].key) {
        RemoveKeys(t[1..], k, rest[j]);
        var i :| 0 <= i < |t[1..]| && t[1..][i] == rest[j];
        assert t[i + 1] == rest[j];
      }
    }
  }
}
