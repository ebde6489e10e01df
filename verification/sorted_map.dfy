/**
 * `BTreeMap<String, V>` as its in-order list of entries: a sequence of
 * (key, value) pairs whose keys are strictly increasing in Rust's order on
 * `String`. Both the loaded type environment and the maps that `to_json`
 * and `get_functions` build are of this kind, so their iteration order and
 * their serialized order is key order, whatever order the keys arrive in.
 */
module SortedMap {
  import opened Results

  /**
   * Rust's `Ord` on `String`: lexicographic over the UTF-8 bytes, which
   * orders exactly like lexicographic comparison of the code points.
   */
  predicate Less(a: string, b: string)
    decreases |a|
  {
    if |a| == 0 then |b| > 0
    else if |b| == 0 then false
    else if a[0] != b[0] then a[0] < b[0]
    else Less(a[1..], b[1..])
  }

  lemma {:induction false} LessIrreflexive(a: string)
    ensures !Less(a, a)
    decreases |a|
  {
    if |a| > 0 {
      LessIrreflexive(a[1..]);
    }
  }

  lemma {:induction false} LessTransitive(a: string, b: string, c: string)
    requires Less(a, b) && Less(b, c)
    ensures Less(a, c)
    decreases |a|
  {
    if |a| > 0 && a[0] == b[0] && b[0] == c[0] {
      LessTransitive(a[1..], b[1..], c[1..]);
    }
  }

  /** Any two distinct strings are ordered one way or the other. */
  lemma {:induction false} LessTotal(a: string, b: string)
    ensures a == b || Less(a, b) || Less(b, a)
    decreases |a|
  {
    if |a| > 0 && |b| > 0 && a[0] == b[0] {
      LessTotal(a[1..], b[1..]);
      if a[1..] == b[1..] {
        assert a == [a[0]] + a[1..] && b == [b[0]] + b[1..];
      }
    }
  }

  predicate Sorted<V>(s: seq<(string, V)>)
  {
    forall i, j :: 0 <= i < j < |s| ==> Less(s[i].0, s[j].0)
  }

  /** A `BTreeMap<String, V>`: its entries in key order. */
  type Map<V> = s: seq<(string, V)> | Sorted(s) witness []

  function Keys<V>(s: seq<(string, V)>): set<string>
  {
    set i | 0 <= i < |s| :: s[i].0
  }

  /** `BTreeMap::get`. */
  function Get<V>(m: Map<V>, k: string): (r: Option<V>)
    ensures r.Some? <==> k in Keys(m)
    ensures r.Some? ==> exists i :: 0 <= i < |m| && m[i].0 == k && m[i].1 == r.value
  {
    if |m| == 0 then None
    else if m[0].0 == k then Some(m[0].1)
    else
      var r := Get(m[1..], k);
      KeysCons(m);
      assert r.Some? ==> exists i :: 0 <= i < |m| && m[i].0 == k && m[i].1 == r.value by {
        if r.Some? {
          var i :| 0 <= i < |m[1..]| && m[1..][i].0 == k && m[1..][i].1 == r.value;
          assert m[i + 1] == m[1..][i];
        }
      }
      r
  }

  /** Keys are unique: the entry at index `i` is what a lookup of its key finds. */
  lemma GetAt<V>(m: Map<V>, i: int)
    requires 0 <= i < |m|
    ensures Get(m, m[i].0) == Some(m[i].1)
  {
    var r := Get(m, m[i].0);
    var j :| 0 <= j < |m| && m[j].0 == m[i].0 && m[j].1 == r.value;
    if i != j {
      LessIrreflexive(m[i].0);
    }
  }

  /** In a sorted map the entries and the keys are in one-to-one correspondence. */
  lemma {:induction false} KeyCount<V>(m: Map<V>)
    ensures |Keys(m)| == |m|
    decreases |m|
  {
    if |m| > 0 {
      KeyCount(m[1..]);
      KeysCons(m);
      assert m[0].0 !in Keys(m[1..]) by {
        if m[0].0 in Keys(m[1..]) {
          var i :| 0 <= i < |m[1..]| && m[1..][i].0 == m[0].0;
          assert Less(m[0].0, m[i + 1].0);
          LessIrreflexive(m[0].0);
        }
      }
    }
  }

  /** The keys of a non-empty entry list are its first key and the keys of the rest. */
  lemma KeysCons<V>(s: seq<(string, V)>)
    requires |s| > 0
    ensures Keys(s) == {s[0].0} + Keys(s[1..])
  {
  }

  /** An entry whose key is below every key of a sorted map can go in front of it. */
  lemma SortedCons<V>(e: (string, V), tail: Map<V>)
    requires forall x :: x in Keys(tail) ==> Less(e.0, x)
    ensures Sorted([e] + tail)
    ensures e.0 !in Keys(tail)
  {
    var r := [e] + tail;
    forall i, j | 0 <= i < j < |r| ensures Less(r[i].0, r[j].0) {
      assert r[j] == tail[j - 1];
      if i == 0 {
        assert tail[j - 1].0 in Keys(tail);
      } else {
        assert r[i] == tail[i - 1];
      }
    }
    if e.0 in Keys(tail) {
      LessIrreflexive(e.0);
    }
  }

  /** The first key of a sorted map is below all of its other keys. */
  lemma HeadBelowTail<V>(m: Map<V>)
    requires |m| > 0
    ensures forall x :: x in Keys(m[1..]) ==> Less(m[0].0, x)
  {
  }

  /** A lookup in a non-empty map checks the first entry, then the rest. */
  lemma GetCons<V>(e: (string, V), tail: Map<V>, k: string)
    requires Sorted([e] + tail)
    ensures Get([e] + tail, k) == if e.0 == k then Some(e.1) else Get(tail, k)
  {
  }

  /** `r` is `m` with `k` bound to `v`: the contract of `Insert`. */
  ghost predicate Inserted<V>(m: Map<V>, k: string, v: V, r: Map<V>)
  {
    && Keys(r) == Keys(m) + {k}
    && Get(r, k) == Some(v)
    && (forall k' :: k' != k ==> Get(r, k') == Get(m, k'))
    && |r| == if k in Keys(m) then |m| else |m| + 1
  }

  /** Inserting an existing first key replaces its value. */
  lemma InsertAtHead<V>(m: Map<V>, k: string, v: V)
    requires |m| > 0 && m[0].0 == k
    ensures Sorted([(k, v)] + m[1..]) && Inserted(m, k, v, [(k, v)] + m[1..])
  {
    KeysCons(m);
    HeadBelowTail(m);
    SortedCons((k, v), m[1..]);
    var r := [(k, v)] + m[1..];
    KeysCons(r);
    assert r[1..] == m[1..];
    forall k' ensures Get(r, k') == (if k' == k then Some(v) else Get(m, k')) {
      GetCons((k, v), m[1..], k');
      GetCons(m[0], m[1..], k');
    }
  }

  /** A key below every key goes in front. */
  lemma InsertInFront<V>(m: Map<V>, k: string, v: V)
    requires |m| == 0 || Less(k, m[0].0)
    ensures Sorted([(k, v)] + m) && Inserted(m, k, v, [(k, v)] + m)
  {
    if |m| > 0 {
      KeysCons(m);
      HeadBelowTail(m);
    }
    forall x | x in Keys(m) ensures Less(k, x) {
      if x != m[0].0 { LessTransitive(k, m[0].0, x); }
    }
    SortedCons((k, v), m);
    var r := [(k, v)] + m;
    KeysCons(r);
    assert r[1..] == m;
    forall k' ensures Get(r, k') == (if k' == k then Some(v) else Get(m, k')) {
      GetCons((k, v), m, k');
    }
  }

  /** A key above the first key goes into the rest of the map. */
  lemma InsertBehindHead<V>(m: Map<V>, k: string, v: V, tail: Map<V>)
    requires |m| > 0 && Less(m[0].0, k)
    requires Inserted(m[1..], k, v, tail)
    ensures Sorted([m[0]] + tail) && Inserted(m, k, v, [m[0]] + tail)
  {
    KeysCons(m);
    HeadBelowTail(m);
    SortedCons(m[0], tail);
    var r := [m[0]] + tail;
    KeysCons(r);
    assert r[1..] == tail;
    forall k' ensures Get(r, k') == (if k' == k then Some(v) else Get(m, k')) {
      GetCons(m[0], tail, k');
      GetCons(m[0], m[1..], k');
    }
  }

  /**
   * `BTreeMap::insert`: the key is bound to the new value, replacing an
   * earlier binding of the same key; every other binding is kept, and the
   * entries stay in key order.
   */
  function Insert<V>(m: Map<V>, k: string, v: V): (r: Map<V>)
    ensures Keys(r) == Keys(m) + {k}
    ensures Get(r, k) == Some(v)
    ensures forall k' :: k' != k ==> Get(r, k') == Get(m, k')
    ensures |r| == if k in Keys(m) then |m| else |m| + 1
    decreases |m|
  {
    if |m| == 0 || Less(k, m[0].0) then
      InsertInFront(m, k, v);
      [(k, v)] + m
    else if m[0].0 == k then
      InsertAtHead(m, k, v);
      [(k, v)] + m[1..]
    else
      LessTotal(k, m[0].0);
      var tail := Insert(m[1..], k, v);
      InsertBehindHead(m, k, v, tail);
      [m[0]] + tail
  }

  /** Two entries of a sorted map never share a key. */
  lemma DistinctKeys<V>(m: Map<V>, i: int, j: int)
    requires 0 <= i < |m| && 0 <= j < |m| && i != j
    ensures m[i].0 != m[j].0
  {
    if i < j { LessIrreflexive(m[i].0); } else { LessIrreflexive(m[j].0); }
  }

  /** The keys of a prefix grow by one key per entry. */
  lemma KeysSnoc<V>(s: seq<(string, V)>, n: int)
    requires 0 <= n < |s|
    ensures Keys(s[..n + 1]) == Keys(s[..n]) + {s[n].0}
  {
  }
}
