/** Ordered PHP arrays: a sequence of key/value entries in insertion order
 *  with no key twice, the assignment and removal the code performs on them,
 *  and `ksort`. */
module PhpArray {
  import opened Base
  import opened Strings

  predicate UniqueKeys<K(==), V>(m: seq<(K, V)>) {
    forall i, j :: 0 <= i < j < |m| ==> m[i].0 != m[j].0
  }

  function KeySet<K(==), V(==)>(m: seq<(K, V)>): set<K> {
    set p | p in m :: p.0
  }

  function Lookup<K(==), V(==)>(m: seq<(K, V)>, k: K): (r: Option<V>)
    ensures r.Some? ==> (k, r.value) in m
    ensures r.None? ==> k !in KeySet(m)
    decreases |m|
  {
    if m == [] then None
    else if m[0].0 == k then Some(m[0].1)
    else Lookup(m[1..], k)
  }

  lemma KeyedEntryUnique<K, V>(m: seq<(K, V)>, k: K, v: V, w: V)
    requires UniqueKeys(m) && (k, v) in m && (k, w) in m
    ensures v == w
  {
    var i :| 0 <= i < |m| && m[i] == (k, v);
    var j :| 0 <= j < |m| && m[j] == (k, w);
    if i < j { assert m[i].0 == m[j].0; } else if j < i { assert m[j].0 == m[i].0; }
  }

  lemma LookupFinds<K, V>(m: seq<(K, V)>, k: K, v: V)
    requires UniqueKeys(m) && (k, v) in m
    ensures Lookup(m, k) == Some(v)
  {
    var r := Lookup(m, k);
    assert r.Some?;
    KeyedEntryUnique(m, k, v, r.value);
  }

  /** `$m[$k] = $v`: replaces the value in place when `k` is already a key,
   *  and appends a new entry otherwise. */
  function Assign<K(==), V(==)>(m: seq<(K, V)>, k: K, v: V): (r: seq<(K, V)>)
    requires UniqueKeys(m)
    ensures UniqueKeys(r)
    ensures KeySet(r) == KeySet(m) + {k}
    ensures (k, v) in r
    ensures forall p :: p in r ==> p == (k, v) || (p in m && p.0 != k)
    ensures forall p :: p in m && p.0 != k ==> p in r
    decreases |m|
  {
    if m == [] then [(k, v)]
    else if m[0].0 == k then
      assert forall j :: 0 <= j < |m[1..]| ==> m[1..][j].0 != k by {
        forall j | 0 <= j < |m[1..]| ensures m[1..][j].0 != k {
          assert m[1..][j] == m[j + 1];
        }
      }
      assert m == [m[0]] + m[1..];
      [(k, v)] + m[1..]
    else
      var rest := Assign(m[1..], k, v);
      assert forall j :: 0 <= j < |m[1..]| ==> m[1..][j].0 != m[0].0 by {
        forall j | 0 <= j < |m[1..]| ensures m[1..][j].0 != m[0].0 {
          assert m[1..][j] == m[j + 1];
        }
      }
      assert m == [m[0]] + m[1..];
      [m[0]] + rest
  }

  /** Reading back after `$m[$k] = $v`: the assigned key gives the new
   *  value, every other key what it gave before. */
  lemma LookupAssign<K, V>(m: seq<(K, V)>, k: K, v: V, x: K)
    requires UniqueKeys(m)
    ensures Lookup(Assign(m, k, v), x) == if x == k then Some(v) else Lookup(m, x)
  {
    var r := Assign(m, k, v);
    if x == k {
      LookupFinds(r, k, v);
    } else {
      match Lookup(m, x)
      case Some(w) => LookupFinds(r, x, w);
      case None =>
        assert x !in KeySet(r);
    }
  }

  /** `foreach ($es as $k => $v) $m[$k] = $v;`: every entry assigned in
   *  turn. */
  function AssignAll<K(==), V(==)>(m: seq<(K, V)>, es: seq<(K, V)>): (r: seq<(K, V)>)
    requires UniqueKeys(m)
    ensures UniqueKeys(r)
    ensures KeySet(r) == KeySet(m) + KeySet(es)
    decreases |es|
  {
    if es == [] then m
    else
      assert KeySet(es) == {es[0].0} + KeySet(es[1..]) by {
        assert es == [es[0]] + es[1..];
      }
      AssignAll(Assign(m, es[0].0, es[0].1), es[1..])
  }

  /** A key the entries do not name keeps its value. */
  lemma {:induction false} AssignAllKeeps<K, V>(m: seq<(K, V)>, es: seq<(K, V)>, k: K, v: V)
    requires UniqueKeys(m) && (k, v) in m
    requires forall p :: p in es ==> p.0 != k
    ensures (k, v) in AssignAll(m, es)
    decreases |es|
  {
    if es != [] {
      assert es[0] in es;
      AssignAllKeeps(Assign(m, es[0].0, es[0].1), es[1..], k, v);
    }
  }

  /** Every entry of the result was there before or was assigned. */
  lemma {:induction false} AssignAllFrom<K, V>(m: seq<(K, V)>, es: seq<(K, V)>)
    requires UniqueKeys(m)
    ensures forall p :: p in AssignAll(m, es) ==> p in m || p in es
    decreases |es|
  {
    if es != [] {
      var next := Assign(m, es[0].0, es[0].1);
      AssignAllFrom(next, es[1..]);
      forall p | p in AssignAll(m, es) ensures p in m || p in es {
        if p in es[1..] {
          var j :| 0 <= j < |es[1..]| && es[1..][j] == p;
          assert es[j + 1] == p;
        } else {
          assert p in next;
          if p == (es[0].0, es[0].1) {
            assert es[0] in es;
          }
        }
      }
    }
  }

  /** The last entry with a key wins. */
  lemma {:induction false} AssignAllLastWins<K, V>(m: seq<(K, V)>, es: seq<(K, V)>, i: nat)
    requires UniqueKeys(m) && i < |es|
    requires forall j :: i < j < |es| ==> es[j].0 != es[i].0
    ensures es[i] in AssignAll(m, es)
    decreases |es|
  {
    var next := Assign(m, es[0].0, es[0].1);
    if i == 0 {
      assert forall p :: p in es[1..] ==> p.0 != es[0].0 by {
        forall p | p in es[1..] ensures p.0 != es[0].0 {
          var j :| 0 <= j < |es[1..]| && es[1..][j] == p;
          assert es[j + 1] == p;
        }
      }
      AssignAllKeeps(next, es[1..], es[0].0, es[0].1);
    } else {
      assert forall j :: i - 1 < j < |es[1..]| ==> es[1..][j].0 != es[1..][i - 1].0 by {
        forall j | i - 1 < j < |es[1..]| ensures es[1..][j].0 != es[1..][i - 1].0 {
          assert es[1..][j] == es[j + 1];
        }
      }
      AssignAllLastWins(next, es[1..], i - 1);
    }
  }

  /** `unset($m[$k])`. */
  function Unset<K(==), V(==)>(m: seq<(K, V)>, k: K): (r: seq<(K, V)>)
    ensures forall p :: p in r ==> p in m && p.0 != k
    ensures forall p :: p in m && p.0 != k ==> p in r
    ensures UniqueKeys(m) ==> UniqueKeys(r)
    decreases |m|
  {
    if m == [] then []
    else if m[0].0 == k then Unset(m[1..], k)
    else [m[0]] + Unset(m[1..], k)
  }

  predicate KeysAscending<V>(m: seq<(string, V)>) {
    forall i, j :: 0 <= i < j < |m| ==> StrLess(m[i].0, m[j].0)
  }

  lemma AscendingIsUnique<V>(m: seq<(string, V)>)
    requires KeysAscending(m)
    ensures UniqueKeys(m)
  {
    forall i, j | 0 <= i < j < |m| ensures m[i].0 != m[j].0 {
      StrLessIrreflexive(m[i].0);
    }
  }

  function InsertByKey<V>(x: (string, V), s: seq<(string, V)>): seq<(string, V)>
    decreases |s|
  {
    if s == [] || StrLess(x.0, s[0].0) then [x] + s
    else [s[0]] + InsertByKey(x, s[1..])
  }

  lemma {:induction false} InsertByKeySorted<V>(x: (string, V), s: seq<(string, V)>)
    requires KeysAscending(s) && x.0 !in KeySet(s)
    ensures KeysAscending(InsertByKey(x, s))
    ensures multiset(InsertByKey(x, s)) == multiset(s) + multiset{x}
    decreases |s|
  {
    if s == [] || StrLess(x.0, s[0].0) {
      var r := [x] + s;
      forall i, j | 0 <= i < j < |r| ensures StrLess(r[i].0, r[j].0) {
        if i == 0 && j > 1 {
          StrLessTransitive(x.0, s[0].0, s[j - 1].0);
        }
      }
    } else {
      assert s[0] in s;
      StrLessTotal(x.0, s[0].0);
      var rest := InsertByKey(x, s[1..]);
      assert KeySet(s[1..]) <= KeySet(s) by {
        forall p | p in s[1..] ensures p in s { }
      }
      InsertByKeySorted(x, s[1..]);
      var r := [s[0]] + rest;
      assert s == [s[0]] + s[1..];
      forall i, j | 0 <= i < j < |r| ensures StrLess(r[i].0, r[j].0) {
        if i == 0 {
          var q := rest[j - 1];
          assert q in multiset(rest);
          if q != x {
            assert q in multiset(s[1..]);
            var t :| 0 <= t < |s[1..]| && s[1..][t] == q;
            assert s[t + 1] == q;
          }
        } else {
          assert r[i] == rest[i - 1] && r[j] == rest[j - 1];
        }
      }
    }
  }

  /** `ksort` on an array whose keys are compared as byte strings. */
  function KSort<V>(m: seq<(string, V)>): seq<(string, V)>
    decreases |m|
  {
    if m == [] then [] else InsertByKey(m[0], KSort(m[1..]))
  }

  /** `ksort` leaves the keys in ascending order and only reorders the
   *  entries. */
  lemma {:induction false} KSortSorted<V>(m: seq<(string, V)>)
    requires UniqueKeys(m)
    ensures KeysAscending(KSort(m))
    ensures multiset(KSort(m)) == multiset(m)
    decreases |m|
  {
    if m != [] {
      assert m == [m[0]] + m[1..];
      var rest := KSort(m[1..]);
      KSortSorted(m[1..]);
      assert forall j :: 0 <= j < |m[1..]| ==> m[1..][j].0 != m[0].0 by {
        forall j | 0 <= j < |m[1..]| ensures m[1..][j].0 != m[0].0 {
          assert m[1..][j] == m[j + 1];
        }
      }
      assert m[0].0 !in KeySet(rest) by {
        forall p | p in rest ensures p.0 != m[0].0 {
          assert p in multiset(m[1..]);
        }
      }
      InsertByKeySorted(m[0], rest);
    }
  }

  /** `ksort` keeps every entry and only reorders them. */
  lemma KSortSameEntries<V>(m: seq<(string, V)>)
    requires UniqueKeys(m)
    ensures KeysAscending(KSort(m))
    ensures forall p :: p in KSort(m) ==> p in m
    ensures forall p :: p in m ==> p in KSort(m)
  {
    KSortSorted(m);
    var r := KSort(m);
    forall p | p in r ensures p in m {
      assert p in multiset(r);
    }
    forall p | p in m ensures p in r {
      assert p in multiset(m);
    }
  }
}
