/** What the two list queries (`findAll({ where: { activo: true }, order:
    [['nombre', 'ASC']] })`) return: the rows of a table that pass a filter,
    ordered by name. Names are compared character by character, which is the
    binary collation of the development database. */
module Listing {

  /** Lexicographic order on strings. */
  predicate NameLe(a: string, b: string)
  {
    |a| == 0 || (|b| > 0 && (a[0] < b[0] || (a[0] == b[0] && NameLe(a[1..], b[1..]))))
  }

  lemma {:induction false} NameLeTotal(a: string, b: string)
    ensures NameLe(a, b) || NameLe(b, a)
  {
    if |a| > 0 && |b| > 0 && a[0] == b[0] {
      NameLeTotal(a[1..], b[1..]);
    }
  }

  lemma {:induction false} NameLeTransitive(a: string, b: string, c: string)
    requires NameLe(a, b) && NameLe(b, c)
    ensures NameLe(a, c)
  {
    if |a| > 0 && a[0] == b[0] && b[0] == c[0] {
      NameLeTransitive(a[1..], b[1..], c[1..]);
    }
  }

  predicate SortedByName<V>(s: seq<V>, name: V -> string)
  {
    forall i, j :: 0 <= i < j < |s| ==> NameLe(name(s[i]), name(s[j]))
  }

  /** No value occurs twice. */
  ghost predicate NoDup<V(!new)>(s: seq<V>)
  {
    forall x :: multiset(s)[x] <= 1
  }

  /** Insert one row into a list ordered by name. */
  function InsertByName<V>(x: V, s: seq<V>, name: V -> string): (r: seq<V>)
    requires SortedByName(s, name)
    ensures SortedByName(r, name)
    ensures multiset(r) == multiset(s) + multiset{x}
  {
    if s == [] then [x]
    else if NameLe(name(x), name(s[0])) then
      SortedCons(x, s, name);
      [x] + s
    else
      var rest := InsertByName(x, s[1..], name);
      NameLeTotal(name(x), name(s[0]));
      SortedConsAfter(x, s, rest, name);
      [s[0]] + rest
  }

  lemma SortedCons<V>(x: V, s: seq<V>, name: V -> string)
    requires SortedByName(s, name) && s != [] && NameLe(name(x), name(s[0]))
    ensures SortedByName([x] + s, name)
  {
    forall j | 0 < j < |s| ensures NameLe(name(x), name(s[j])) {
      NameLeTransitive(name(x), name(s[0]), name(s[j]));
    }
  }

  lemma SortedConsAfter<V>(x: V, s: seq<V>, rest: seq<V>, name: V -> string)
    requires SortedByName(s, name) && s != [] && NameLe(name(s[0]), name(x))
    requires SortedByName(rest, name) && multiset(rest) == multiset(s[1..]) + multiset{x}
    ensures SortedByName([s[0]] + rest, name)
    ensures multiset([s[0]] + rest) == multiset(s) + multiset{x}
  {
    forall j | 0 <= j < |rest| ensures NameLe(name(s[0]), name(rest[j])) {
      assert rest[j] in multiset(rest);
      if rest[j] != x {
        assert rest[j] in s[1..];
      }
    }
    assert s == [s[0]] + s[1..];
  }

  /** Insertion sort by name. Rows with equal names may come in any order. */
  function SortByName<V>(s: seq<V>, name: V -> string): (r: seq<V>)
    ensures SortedByName(r, name)
    ensures multiset(r) == multiset(s)
  {
    if s == [] then []
    else
      assert s == [s[0]] + s[1..];
      InsertByName(s[0], SortByName(s[1..], name), name)
  }

  /** The rows that `keep` accepts, each as often as in `s`, in the order of `s`. */
  function Filter<V(!new)>(s: seq<V>, keep: V -> bool): (r: seq<V>)
    ensures forall x :: multiset(r)[x] == if keep(x) then multiset(s)[x] else 0
  {
    if s == [] then []
    else
      assert s == [s[0]] + s[1..];
      (if keep(s[0]) then [s[0]] else []) + Filter(s[1..], keep)
  }

  /** Every row is stored under its own id, and the ids lie in [1, next). */
  ghost predicate Keyed<V>(m: map<int, V>, next: int, id: V -> int)
  {
    forall k :: k in m ==> id(m[k]) == k && 1 <= k < next
  }

  /** A scan of the table in id order over the ids in [lo, hi). */
  function RowsIn<V(!new)>(m: map<int, V>, lo: int, hi: int, ghost id: V -> int): (r: seq<V>)
    requires forall k :: k in m ==> id(m[k]) == k
    ensures forall k :: lo <= k < hi && k in m ==> m[k] in r
    ensures forall x :: x in r ==> id(x) in m && m[id(x)] == x && lo <= id(x) < hi
    ensures NoDup(r)
    decreases hi - lo
  {
    if lo >= hi then []
    else
      var rest := RowsIn(m, lo + 1, hi, id);
      assert lo in m ==> m[lo] !in rest;
      (if lo in m then [m[lo]] else []) + rest
  }

  /** The listing query over a table whose ids lie below `next`: the rows that
      `keep` accepts, ordered by name. */
  function ListBy<V(!new)>(m: map<int, V>, next: int, keep: V -> bool, name: V -> string, ghost id: V -> int): (r: seq<V>)
    requires Keyed(m, next, id)
    ensures SortedByName(r, name)
    ensures forall k :: k in m && keep(m[k]) ==> m[k] in r
    ensures forall x :: x in r ==> id(x) in m && m[id(x)] == x && keep(x)
    ensures NoDup(r)
  {
    var rows := RowsIn(m, 1, next, id);
    var r := SortByName(Filter(rows, keep), name);
    assert forall x :: x in r <==> multiset(r)[x] > 0;
    assert forall x :: x in rows <==> multiset(rows)[x] > 0;
    r
  }
}
