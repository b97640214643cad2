/**
 * JSON values as the deserializer sees them (a parsed value whose objects are
 * maps from keys to values) and JSON objects as a serializer writes them (an
 * ordered list of members).
 */
module Json {
  import opened Wrappers

  /** A parsed JSON value. Numbers are kept as integers. */
  datatype Json =
    | Null
    | Bool(b: bool)
    | Number(n: int)
    | String(s: string)
    | Array(items: seq<Json>)
    | Object(members: map<string, Json>)

  /** One member of an object on the wire: its key and its value. */
  type Member = (string, Json)

  /** The keys of a member list, in order. */
  function Keys(ms: seq<Member>): (ks: seq<string>)
    ensures |ks| == |ms|
    ensures forall i :: 0 <= i < |ms| ==> ks[i] == ms[i].0
  {
    if ms == [] then [] else Keys(ms[..|ms| - 1]) + [ms[|ms| - 1].0]
  }

  /** No key occurs twice in the member list. */
  predicate DistinctKeys(ms: seq<Member>) {
    forall i, j :: 0 <= i < j < |ms| ==> ms[i].0 != ms[j].0
  }

  /** No member after position `i` has the key of `ms[i]`: its value is the one kept. */
  predicate LastWithKey(ms: seq<Member>, i: int)
    requires 0 <= i < |ms|
  {
    forall j :: i < j < |ms| ==> ms[j].0 != ms[i].0
  }

  /**
   * The map that reading an object's text builds, member by member: a key
   * written twice keeps the value written last (see `ToMapKeys`, `ToMapLast`).
   */
  function ToMap(ms: seq<Member>): map<string, Json> {
    if ms == [] then map[] else ToMap(ms[..|ms| - 1])[ms[|ms| - 1].0 := ms[|ms| - 1].1]
  }

  /** Every key written, and no other, is a key of the object read. */
  lemma {:induction false} ToMapKeys(ms: seq<Member>)
    ensures ToMap(ms).Keys == set i | 0 <= i < |ms| :: ms[i].0
  {
    if ms != [] {
      var n := |ms| - 1;
      var init := ms[..n];
      ToMapKeys(init);
      var written := set i | 0 <= i < |ms| :: ms[i].0;
      var before := set i | 0 <= i < n :: init[i].0;
      assert written == before + {ms[n].0} by {
        forall k | k in written ensures k in before + {ms[n].0} {
          var i :| 0 <= i < |ms| && ms[i].0 == k;
          if i < n { assert init[i].0 == k; }
        }
        forall k | k in before ensures k in written {
          var i :| 0 <= i < n && init[i].0 == k;
          assert ms[i].0 == k;
        }
      }
    }
  }

  /** The member written last with a given key gives that key's value. */
  lemma {:induction false} ToMapLast(ms: seq<Member>, i: int)
    requires 0 <= i < |ms| && LastWithKey(ms, i)
    ensures ms[i].0 in ToMap(ms) && ToMap(ms)[ms[i].0] == ms[i].1
  {
    var n := |ms| - 1;
    if i < n {
      var init := ms[..n];
      assert init[i] == ms[i];
      assert LastWithKey(init, i) by {
        forall j | i < j < |init| ensures init[j].0 != init[i].0 {
          assert init[j] == ms[j];
        }
      }
      ToMapLast(init, i);
      assert ms[n].0 != ms[i].0;
    }
  }

  /** With distinct keys, every member written gives its key's value. */
  lemma ToMapDistinct(ms: seq<Member>, i: int)
    requires DistinctKeys(ms) && 0 <= i < |ms|
    ensures ms[i].0 in ToMap(ms) && ToMap(ms)[ms[i].0] == ms[i].1
  {
    ToMapLast(ms, i);
  }

  /** Reading the text of an object that was written as the member list `ms`. */
  function ParseObject(ms: seq<Member>): (v: Json)
    ensures v.Object?
  {
    Object(ToMap(ms))
  }

  /** The value stored under `key`, if `v` is an object that has that key. */
  function Get(v: Json, key: string): (r: Option<Json>)
    ensures r.Some? <==> v.Object? && key in v.members
    ensures r.Some? ==> r.value == v.members[key]
  {
    match v
    case Object(m) => if key in m then Some(m[key]) else None
    case _ => None
  }

  /**
   * Takes the value stored under `key` out of `v`, leaving `Null` in its place;
   * returns the changed value and what was taken. A value that is not an
   * object, or has no such key, is left as it is and nothing is taken.
   */
  function Take(v: Json, key: string): (r: (Json, Option<Json>))
    ensures r.1 == Get(v, key)
    ensures r.1.Some? ==> Get(r.0, key) == Some(Null)
    ensures forall k :: k != key ==> Get(r.0, k) == Get(v, k)
  {
    match v
    case Object(m) => if key in m then (Object(m[key := Null]), Some(m[key])) else (v, None)
    case _ => (v, None)
  }

  /**
   * A member list whose keys are distinct reads as the same object whatever
   * order its members are written in.
   */
  lemma {:induction false} ToMapIgnoresOrder(ms: seq<Member>, ns: seq<Member>)
    requires DistinctKeys(ms)
    requires multiset(ms) == multiset(ns)
    ensures ToMap(ms) == ToMap(ns)
  {
    DistinctKeysReordered(ms, ns);
    ToMapKeys(ms);
    ToMapKeys(ns);
    var a, b := ToMap(ms), ToMap(ns);
    forall k | k in a
      ensures k in b && a[k] == b[k]
    {
      var i :| 0 <= i < |ms| && ms[i].0 == k;
      assert ms[i] in multiset(ns);
      var j :| 0 <= j < |ns| && ns[j] == ms[i];
      ToMapDistinct(ms, i);
      ToMapDistinct(ns, j);
    }
    forall k | k in b
      ensures k in a
    {
      var j :| 0 <= j < |ns| && ns[j].0 == k;
      assert ns[j] in multiset(ms);
      var i :| 0 <= i < |ms| && ms[i] == ns[j];
    }
  }

  /** In a member list with distinct keys every member occurs once. */
  lemma {:induction false} OccursOnce(ms: seq<Member>, p: int)
    requires DistinctKeys(ms) && 0 <= p < |ms|
    ensures multiset(ms)[ms[p]] == 1
  {
    var n := |ms| - 1;
    var init := ms[..n];
    assert ms == init + [ms[n]];
    assert DistinctKeys(init);
    if p == n {
      assert ms[n] !in init by {
        forall i | 0 <= i < n ensures init[i] != ms[n] {
          assert ms[i].0 != ms[n].0;
        }
      }
    } else {
      OccursOnce(init, p);
      assert init[p] == ms[p];
      assert ms[n] != ms[p] by { assert ms[p].0 != ms[n].0; }
    }
  }

  /** An element at two positions of a sequence occurs there at least twice. */
  lemma OccursTwice(s: seq<Member>, i: int, j: int)
    requires 0 <= i < j < |s| && s[i] == s[j]
    ensures multiset(s)[s[i]] >= 2
  {
    assert s == s[..j] + [s[j]] + s[j + 1..];
    assert s[i] in s[..j];
  }

  /** Reordering a member list with distinct keys keeps its keys distinct. */
  lemma DistinctKeysReordered(ms: seq<Member>, ns: seq<Member>)
    requires DistinctKeys(ms)
    requires multiset(ms) == multiset(ns)
    ensures DistinctKeys(ns)
  {
    forall i, j | 0 <= i < j < |ns|
      ensures ns[i].0 != ns[j].0
    {
      if ns[i].0 == ns[j].0 {
        assert ns[i] in multiset(ms) && ns[j] in multiset(ms);
        var p :| 0 <= p < |ms| && ms[p] == ns[i];
        var q :| 0 <= q < |ms| && ms[q] == ns[j];
        assert p == q;
        OccursTwice(ns, i, j);
        OccursOnce(ms, p);
        assert false;
      }
    }
  }
}
