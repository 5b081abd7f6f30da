/** The orders the backend's queries ask the database for: `ORDER BY name ASC`
    (a lexicographic order on strings), composite keys such as
    `(order_index, id)`, and row enumeration by primary key. */
module Ordering {

  // ---------------------------------------------------------------------------
  // Lexicographic order on strings, by code point (a binary collation).

  predicate LexLe(a: string, b: string) {
    a == [] || (b != [] && (a[0] < b[0] || (a[0] == b[0] && LexLe(a[1..], b[1..]))))
  }

  lemma {:induction false} LexLeReflexive(a: string)
    ensures LexLe(a, a)
  {
    if a != [] {
      LexLeReflexive(a[1..]);
    }
  }

  lemma {:induction false} LexLeTotal(a: string, b: string)
    ensures LexLe(a, b) || LexLe(b, a)
  {
    if a != [] && b != [] && a[0] == b[0] {
      LexLeTotal(a[1..], b[1..]);
    }
  }

  lemma {:induction false} LexLeTransitive(a: string, b: string, c: string)
    requires LexLe(a, b) && LexLe(b, c)
    ensures LexLe(a, c)
  {
    if a != [] && b != [] && c != [] && a[0] == b[0] == c[0] {
      LexLeTransitive(a[1..], b[1..], c[1..]);
    }
  }

  lemma {:induction false} LexLeAntisymmetric(a: string, b: string)
    requires LexLe(a, b) && LexLe(b, a)
    ensures a == b
  {
    if a != [] && b != [] {
      LexLeAntisymmetric(a[1..], b[1..]);
      assert a == [a[0]] + a[1..];
      assert b == [b[0]] + b[1..];
    }
  }

  // ---------------------------------------------------------------------------
  // Sorting a sequence by a total preorder.

  ghost predicate TotalPreorder<T(!new)>(le: (T, T) -> bool) {
    && (forall a, b :: le(a, b) || le(b, a))
    && (forall a, b, c :: le(a, b) && le(b, c) ==> le(a, c))
  }

  predicate SortedBy<T>(s: seq<T>, le: (T, T) -> bool) {
    forall i, j :: 0 <= i < j < |s| ==> le(s[i], s[j])
  }

  /** Inserts `x` before the first element it precedes. */
  function Insert<T(!new)>(x: T, s: seq<T>, le: (T, T) -> bool): (r: seq<T>)
    ensures multiset(r) == multiset(s) + multiset{x} && |r| == |s| + 1
  {
    if s == [] then [x]
    else if le(x, s[0]) then [x] + s
    else
      assert s == [s[0]] + s[1..];
      [s[0]] + Insert(x, s[1..], le)
  }

  /** An element that precedes the head of a sorted sequence can be put in front. */
  lemma ConsSorted<T(!new)>(x: T, s: seq<T>, le: (T, T) -> bool)
    requires TotalPreorder(le) && SortedBy(s, le) && s != [] && le(x, s[0])
    ensures SortedBy([x] + s, le)
  {
    forall i, j | 0 <= i < j < |[x] + s| ensures le(([x] + s)[i], ([x] + s)[j]) {
      if i == 0 && j > 1 {
        assert le(s[0], s[j - 1]);
      }
    }
  }

  /** Inserting into a sorted sequence keeps it sorted, and the new head is
      either `x` or the old head. */
  lemma {:induction false} InsertSorted<T(!new)>(x: T, s: seq<T>, le: (T, T) -> bool)
    requires TotalPreorder(le) && SortedBy(s, le)
    ensures SortedBy(Insert(x, s, le), le)
    ensures Insert(x, s, le)[0] == x || (s != [] && Insert(x, s, le)[0] == s[0])
  {
    if s != [] {
      if le(x, s[0]) {
        ConsSorted(x, s, le);
      } else {
        var rest := Insert(x, s[1..], le);
        InsertSorted(x, s[1..], le);
        assert le(s[0], rest[0]) by {
          if rest[0] != x {
            assert rest[0] == s[1];
          }
        }
        ConsSorted(s[0], rest, le);
      }
    }
  }

  /** Insertion sort; stable, so elements the preorder ties keep their input order. */
  function SortBy<T(!new)>(s: seq<T>, le: (T, T) -> bool): (r: seq<T>)
    ensures multiset(r) == multiset(s) && |r| == |s|
    ensures TotalPreorder(le) ==> SortedBy(r, le)
  {
    if s == [] then []
    else
      assert s == [s[0]] + s[1..];
      var rest := SortBy(s[1..], le);
      assert TotalPreorder(le) ==> SortedBy(Insert(s[0], rest, le), le) by {
        if TotalPreorder(le) {
          InsertSorted(s[0], rest, le);
        }
      }
      Insert(s[0], rest, le)
  }

  /** Two sorted sequences with the same elements begin alike when the order
      is antisymmetric on those elements. */
  lemma SortedHeads<T>(r: seq<T>, s: seq<T>, le: (T, T) -> bool)
    requires r != [] && SortedBy(r, le) && SortedBy(s, le) && multiset(r) == multiset(s)
    requires forall a, b :: a in r && b in r && le(a, b) && le(b, a) ==> a == b
    ensures s != [] && r[0] == s[0]
  {
    assert |s| == |multiset(s)| == |multiset(r)| == |r|;
    assert r[0] in multiset(s);
    assert s[0] in multiset(r);
    var i :| 0 <= i < |s| && s[i] == r[0];
    var j :| 0 <= j < |r| && r[j] == s[0];
    if i != 0 && j != 0 {
      assert le(s[0], s[i]) && le(r[0], r[j]);
      assert s[0] in r;
    }
  }

  /** Two sorted permutations of each other are equal when the order is
      antisymmetric on their elements: the sorted listing is unique. */
  lemma {:induction false} SortedUnique<T>(r: seq<T>, s: seq<T>, le: (T, T) -> bool)
    requires SortedBy(r, le) && SortedBy(s, le) && multiset(r) == multiset(s)
    requires forall a, b :: a in r && b in r && le(a, b) && le(b, a) ==> a == b
    ensures r == s
  {
    if r == [] {
      assert |s| == |multiset(s)| == |multiset(r)| == |r|;
    } else {
      SortedHeads(r, s, le);
      assert r == [r[0]] + r[1..];
      assert s == [s[0]] + s[1..];
      assert multiset(r[1..]) == multiset(r) - multiset{r[0]};
      assert multiset(s[1..]) == multiset(s) - multiset{s[0]};
      SortedUnique(r[1..], s[1..], le);
    }
  }

  /** In a sequence without repeats every element occurs once. */
  lemma {:induction false} DistinctCount<T>(s: seq<T>, x: T)
    requires forall i, j :: 0 <= i < j < |s| ==> s[i] != s[j]
    ensures multiset(s)[x] == if x in s then 1 else 0
  {
    if s != [] {
      var n := |s| - 1;
      assert s == s[..n] + [s[n]];
      DistinctCount(s[..n], x);
      assert x == s[n] ==> x !in s[..n];
    }
  }

  /** Two sequences without repeats holding the same elements are
      permutations of each other. */
  lemma SameElementsSameMultiset<T>(a: seq<T>, b: seq<T>)
    requires forall x :: x in a <==> x in b
    requires forall i, j :: 0 <= i < j < |a| ==> a[i] != a[j]
    requires forall i, j :: 0 <= i < j < |b| ==> b[i] != b[j]
    ensures multiset(a) == multiset(b)
  {
    forall x ensures multiset(a)[x] == multiset(b)[x] {
      DistinctCount(a, x);
      DistinctCount(b, x);
    }
  }

  // ---------------------------------------------------------------------------
  // Rows of a table in primary-key order.

  /** The keys of `m` below `n`, in ascending order. */
  function KeysBelow<T>(m: map<int, T>, n: nat): (ks: seq<int>)
    ensures forall k :: k in ks <==> k in m && 0 <= k < n
    ensures forall i, j :: 0 <= i < j < |ks| ==> ks[i] < ks[j]
  {
    if n == 0 then []
    else
      var rest := KeysBelow(m, n - 1);
      assert forall i :: 0 <= i < |rest| ==> rest[i] < n - 1 by {
        forall i | 0 <= i < |rest| ensures rest[i] < n - 1 {
          assert rest[i] in rest;
        }
      }
      if n - 1 in m then rest + [n - 1] else rest
  }

  /** The keys below `n` of the rows that satisfy `p`, ascending
      (`SELECT id ... WHERE p ORDER BY id` over a table whose ids are below `n`). */
  function Select<T>(m: map<int, T>, n: nat, p: T -> bool): (ks: seq<int>)
    ensures forall k :: k in ks <==> k in m && 0 <= k < n && p(m[k])
    ensures forall i, j :: 0 <= i < j < |ks| ==> ks[i] < ks[j]
  {
    KeysBelow(m - (set k | k in m && !p(m[k])), n)
  }

  /** No key below `n`: nothing is enumerated. */
  lemma {:induction false} KeysBelowNone<T>(m: map<int, T>, n: nat)
    requires forall k :: 0 <= k < n ==> k !in m
    ensures KeysBelow(m, n) == []
  {
    if n > 0 {
      KeysBelowNone(m, n - 1);
    }
  }

  /** Nothing satisfies `p`: the selection is empty. */
  lemma SelectNone<T>(m: map<int, T>, n: nat, p: T -> bool)
    requires forall k :: k in m ==> !p(m[k])
    ensures Select(m, n, p) == []
  {
    KeysBelowNone(m - (set k | k in m && !p(m[k])), n);
  }

  /** A sorted selection holds exactly the selected rows, when every row carries
      its own key (`key`): the rows of `SELECT ... WHERE p ORDER BY ...`. */
  lemma SortedSelectionMembers<T(!new)>(m: map<int, T>, n: nat, p: T -> bool, le: (T, T) -> bool, key: T -> int)
    requires forall k :: k in m ==> key(m[k]) == k
    ensures forall x :: x in SortBy(Lookup(m, Select(m, n, p)), le) <==>
      key(x) in m && m[key(x)] == x && 0 <= key(x) < n && p(x)
  {
    var ids := Select(m, n, p);
    var rows := Lookup(m, ids);
    var r := SortBy(rows, le);
    forall x ensures x in r <==> key(x) in m && m[key(x)] == x && 0 <= key(x) < n && p(x) {
      if x in r {
        assert x in multiset(rows);
        var i :| 0 <= i < |rows| && rows[i] == x;
        assert ids[i] in ids;
      }
      if key(x) in m && m[key(x)] == x && 0 <= key(x) < n && p(x) {
        assert key(x) in ids;
        var i :| 0 <= i < |ids| && ids[i] == key(x);
        assert rows[i] == x;
        assert x in multiset(rows);
      }
    }
  }

  /** The rows stored under `ids`, in that order. */
  function Lookup<T>(m: map<int, T>, ids: seq<int>): (rows: seq<T>)
    requires forall i :: 0 <= i < |ids| ==> ids[i] in m
    ensures |rows| == |ids|
    ensures forall i :: 0 <= i < |ids| ==> rows[i] == m[ids[i]]
  {
    if ids == [] then [] else [m[ids[0]]] + Lookup(m, ids[1..])
  }
}
