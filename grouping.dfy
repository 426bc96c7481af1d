/** Generic list-building and grouping, the shape shared by every loop of the source that
    walks a list of database rows, skips the rows it cannot use and files the rest into an
    array or into a `Map<string, T[]>` by key. A row's fate is described by a function: `None`
    skips it, `Some(v)` (or `Some((key, v))`) keeps value `v` (under `key`). */
module Grouping {
  import opened Wrappers
  import opened Intervals

  /** `map.get(key) ?? []`. */
  function Lookup<V>(m: map<string, seq<V>>, key: string): seq<V> {
    if key in m then m[key] else []
  }

  /** `list = map.get(key) ?? []; list.push(v); map.set(key, list)`. */
  function Append<V>(m: map<string, seq<V>>, key: string, v: V): (r: map<string, seq<V>>)
    ensures r.Keys == m.Keys + {key}
    ensures Lookup(r, key) == Lookup(m, key) + [v]
    ensures forall k :: k != key ==> Lookup(r, k) == Lookup(m, k)
  {
    m[key := Lookup(m, key) + [v]]
  }

  /** The values kept from `rows`, in row order. */
  function Pick<R, V>(rows: seq<R>, f: R -> Option<V>): seq<V> {
    if rows == [] then []
    else
      var init := Pick(rows[..|rows| - 1], f);
      match f(rows[|rows| - 1])
      case Some(v) => init + [v]
      case None => init
  }

  lemma PickStep<R, V>(rows: seq<R>, i: int, f: R -> Option<V>)
    requires 0 <= i < |rows|
    ensures Pick(rows[..i + 1], f) == Pick(rows[..i], f) + (if f(rows[i]).Some? then [f(rows[i]).value] else [])
  {
    assert rows[..i + 1][..i] == rows[..i];
  }

  lemma {:induction false} PickMembers<R, V>(rows: seq<R>, f: R -> Option<V>, v: V)
    ensures v in Pick(rows, f) <==> exists r :: r in rows && f(r) == Some(v)
  {
    if rows != [] {
      var init := rows[..|rows| - 1];
      PickMembers(init, f, v);
      assert rows == init + [rows[|rows| - 1]];
      if exists r :: r in rows && f(r) == Some(v) {
        var r :| r in rows && f(r) == Some(v);
        if r != rows[|rows| - 1] {
          assert r in init;
        }
      }
    }
  }

  /** Picking from a concatenation picks from each part in turn. */
  lemma {:induction false} PickAppend<R, V>(a: seq<R>, b: seq<R>, f: R -> Option<V>)
    ensures Pick(a + b, f) == Pick(a, f) + Pick(b, f)
  {
    if b == [] {
      assert a + b == a;
    } else {
      var init := b[..|b| - 1];
      PickAppend(a, init, f);
      assert (a + b)[..|a + b| - 1] == a + init;
      assert (a + b)[|a + b| - 1] == b[|b| - 1];
    }
  }

  lemma {:induction false} PickLength<R, V>(rows: seq<R>, f: R -> Option<V>)
    ensures |Pick(rows, f)| <= |rows|
  {
    if rows != [] {
      PickLength(rows[..|rows| - 1], f);
    }
  }

  /** The rows filed under each key, in row order; a key is present once a row is filed under
      it. */
  function GroupBy<R, V>(rows: seq<R>, f: R -> Option<(string, V)>): map<string, seq<V>> {
    if rows == [] then map[]
    else
      var m := GroupBy(rows[..|rows| - 1], f);
      match f(rows[|rows| - 1])
      case Some(e) => Append(m, e.0, e.1)
      case None => m
  }

  lemma GroupByStep<R, V>(rows: seq<R>, i: int, f: R -> Option<(string, V)>)
    requires 0 <= i < |rows|
    ensures GroupBy(rows[..i + 1], f) ==
      if f(rows[i]).Some? then Append(GroupBy(rows[..i], f), f(rows[i]).value.0, f(rows[i]).value.1)
      else GroupBy(rows[..i], f)
  {
    assert rows[..i + 1][..i] == rows[..i];
  }

  /** The part of `f` that files rows under `key`. */
  function Under<R, V>(f: R -> Option<(string, V)>, key: string): R -> Option<V> {
    r => if f(r).Some? && f(r).value.0 == key then Some(f(r).value.1) else None
  }

  /** Grouping by key agrees with picking each key's rows separately: a key's list holds
      exactly the values filed under it, in row order, and a key is present exactly when that
      list is non-empty. */
  lemma {:induction false} GroupByIsPickPerKey<R, V>(rows: seq<R>, f: R -> Option<(string, V)>, key: string)
    ensures Lookup(GroupBy(rows, f), key) == Pick(rows, Under(f, key))
    ensures key in GroupBy(rows, f) <==> Pick(rows, Under(f, key)) != []
  {
    if rows != [] {
      GroupByIsPickPerKey(rows[..|rows| - 1], f, key);
    }
  }

  lemma GroupMembers<R, V>(rows: seq<R>, f: R -> Option<(string, V)>, key: string, v: V)
    ensures v in Lookup(GroupBy(rows, f), key) <==> exists r :: r in rows && f(r) == Some((key, v))
  {
    GroupByIsPickPerKey(rows, f, key);
    PickMembers(rows, Under(f, key), v);
    if exists r :: r in rows && f(r) == Some((key, v)) {
      var r :| r in rows && f(r) == Some((key, v));
      assert Under(f, key)(r) == Some(v);
    }
  }

  /** Each list of the map sorted by start, as the source's `map.forEach(list => list.sort(...))`. */
  function SortGroups(m: map<string, seq<Interval>>): (r: map<string, seq<Interval>>)
    ensures r.Keys == m.Keys
    ensures forall k :: k in m ==> r[k] == SortByStart(m[k])
  {
    map k | k in m :: SortByStart(m[k])
  }

  lemma SortedGroupMembers(m: map<string, seq<Interval>>, key: string, iv: Interval)
    ensures iv in Lookup(SortGroups(m), key) <==> iv in Lookup(m, key)
  {
    if key in m {
      Sorting.SameElements(SortByStart(m[key]), m[key], iv);
    }
  }

  /** `for (const row of rows) map.set(key(row), row)`: each key maps to the LAST row with
      that key. */
  function IndexBy<V>(rows: seq<V>, key: V -> string): map<string, V> {
    if rows == [] then map[]
    else IndexBy(rows[..|rows| - 1], key)[key(rows[|rows| - 1]) := rows[|rows| - 1]]
  }

  lemma IndexByStep<V>(rows: seq<V>, i: int, key: V -> string)
    requires 0 <= i < |rows|
    ensures IndexBy(rows[..i + 1], key) == IndexBy(rows[..i], key)[key(rows[i]) := rows[i]]
  {
    assert rows[..i + 1][..i] == rows[..i];
  }

  /** A key is present exactly when some row has it, and then it maps to a row with that key
      after which no row has it. */
  lemma {:induction false} IndexByLastWins<V>(rows: seq<V>, key: V -> string, k: string)
    ensures k in IndexBy(rows, key) <==> exists i :: 0 <= i < |rows| && key(rows[i]) == k
    ensures k in IndexBy(rows, key) ==>
      exists i :: 0 <= i < |rows| && rows[i] == IndexBy(rows, key)[k] && key(rows[i]) == k &&
        forall j :: i < j < |rows| ==> key(rows[j]) != k
  {
    if rows != [] {
      var n := |rows| - 1;
      var init := rows[..n];
      IndexByLastWins(init, key, k);
      if key(rows[n]) != k {
        if exists i :: 0 <= i < |rows| && key(rows[i]) == k {
          var i :| 0 <= i < |rows| && key(rows[i]) == k;
          assert init[i] == rows[i];
        }
        if k in IndexBy(rows, key) {
          var i :| 0 <= i < |init| && init[i] == IndexBy(init, key)[k] && key(init[i]) == k &&
            forall j :: i < j < |init| ==> key(init[j]) != k;
          assert rows[i] == init[i];
          forall j | i < j < |rows| ensures key(rows[j]) != k {
            if j < n {
              assert rows[j] == init[j];
            }
          }
        }
      }
    }
  }
}
