/** Plain JavaScript objects with string keys, as the generator builds and
    reads them: an ordered list of own properties in insertion order.
    Assigning to a key that is already present replaces its value in place;
    assigning to a new key appends it. */
module Objects {
  import opened Wrappers

  type Object<V> = seq<(string, V)>

  /** The keys `Object.keys` would list, as a set. */
  function KeySet<V>(o: Object<V>): set<string>
  {
    if |o| == 0 then {} else {o[0].0} + KeySet(o[1..])
  }

  /** No key occurs twice, as in every real JavaScript object. */
  predicate DistinctKeys<V>(o: Object<V>)
  {
    forall i, j :: 0 <= i < j < |o| ==> o[i].0 != o[j].0
  }

  /** Property lookup `o[k]`; `None` stands for `undefined`. */
  function Get<V>(o: Object<V>, k: string): Option<V>
  {
    if |o| == 0 then None
    else if o[0].0 == k then Some(o[0].1)
    else Get(o[1..], k)
  }

  /** Property assignment `o[k] = v`. */
  function Put<V>(o: Object<V>, k: string, v: V): (r: Object<V>)
    ensures KeySet(r) == KeySet(o) + {k}
    ensures Get(r, k) == Some(v)
    ensures forall k' :: k' != k ==> Get(r, k') == Get(o, k')
  {
    if |o| == 0 then [(k, v)]
    else if o[0].0 == k then [(k, v)] + o[1..]
    else [o[0]] + Put(o[1..], k, v)
  }

  /** Assignment never repeats a key and never reorders the existing ones:
      it replaces the existing entry in place, or appends a new one at the
      end; every entry under another key stays where it was. */
  lemma {:induction false} PutShape<V>(o: Object<V>, k: string, v: V)
    ensures DistinctKeys(o) ==> DistinctKeys(Put(o, k, v))
    ensures k in KeySet(o) ==> |Put(o, k, v)| == |o|
    ensures k !in KeySet(o) ==> Put(o, k, v) == o + [(k, v)]
    ensures |Put(o, k, v)| >= |o|
    ensures forall i :: 0 <= i < |o| ==> Put(o, k, v)[i].0 == o[i].0
    ensures forall i :: 0 <= i < |o| && o[i].0 != k ==> Put(o, k, v)[i] == o[i]
  {
    if |o| > 0 && o[0].0 != k {
      PutShape(o[1..], k, v);
      forall i | 1 <= i < |o|
        ensures Put(o, k, v)[i] == Put(o[1..], k, v)[i - 1] && o[i] == o[1..][i - 1]
      {
      }
      if DistinctKeys(o) {
        DistinctUncons(o);
        DistinctCons(o[0], Put(o[1..], k, v));
      }
      if k !in KeySet(o) {
        assert o == [o[0]] + o[1..];
      }
    }
  }

  lemma DistinctUncons<V>(o: Object<V>)
    requires DistinctKeys(o) && |o| > 0
    ensures DistinctKeys(o[1..]) && o[0].0 !in KeySet(o[1..])
  {
    KeySetMembership(o[1..], o[0].0);
    assert forall i :: 0 <= i < |o[1..]| ==> o[1..][i] == o[i + 1];
  }

  lemma DistinctCons<V>(x: (string, V), t: Object<V>)
    requires DistinctKeys(t) && x.0 !in KeySet(t)
    ensures DistinctKeys([x] + t)
  {
    KeySetMembership(t, x.0);
    var o := [x] + t;
    forall i, j | 0 <= i < j < |o| ensures o[i].0 != o[j].0 {
      assert o[j] == t[j - 1];
      if i > 0 {
        assert o[i] == t[i - 1];
      }
    }
  }

  lemma {:induction false} KeySetMembership<V>(o: Object<V>, k: string)
    ensures k in KeySet(o) <==> exists i :: 0 <= i < |o| && o[i].0 == k
  {
    if |o| > 0 {
      KeySetMembership(o[1..], k);
      if k in KeySet(o[1..]) {
        var i :| 0 <= i < |o[1..]| && o[1..][i].0 == k;
        assert o[i + 1].0 == k;
      }
      if exists i :: 0 <= i < |o| && o[i].0 == k {
        var i :| 0 <= i < |o| && o[i].0 == k;
        if i > 0 {
          assert o[1..][i - 1].0 == k;
        }
      }
    }
  }

  /** A key is present exactly when the lookup is not `undefined`. */
  lemma {:induction false} GetDefined<V>(o: Object<V>, k: string)
    ensures Get(o, k).Some? <==> k in KeySet(o)
  {
    if |o| > 0 {
      GetDefined(o[1..], k);
    }
  }

  /** In an object without repeated keys, looking up the key at position
      `i` finds the value at position `i`. */
  lemma {:induction false} GetAt<V>(o: Object<V>, i: nat)
    requires DistinctKeys(o)
    requires i < |o|
    ensures Get(o, o[i].0) == Some(o[i].1)
  {
    if i > 0 {
      DistinctUncons(o);
      assert o[0].0 != o[i].0;
      GetAt(o[1..], i - 1);
      assert o[1..][i - 1] == o[i];
    }
  }
}
