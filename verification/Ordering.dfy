/** Python's `sorted`: string order, and the stable sorting of a sequence by a total preorder. */
module Ordering {

  /** Lexicographic order by character. */
  predicate StrLe(a: string, b: string) {
    a == "" || (b != "" && (a[0] < b[0] || (a[0] == b[0] && StrLe(a[1..], b[1..]))))
  }

  lemma {:induction false} StrLeTotal(a: string, b: string)
    ensures StrLe(a, b) || StrLe(b, a)
    ensures StrLe(a, b) && StrLe(b, a) ==> a == b
  {
    if a != "" && b != "" {
      StrLeTotal(a[1..], b[1..]);
      assert a == [a[0]] + a[1..] && b == [b[0]] + b[1..];
    }
  }

  lemma {:induction false} StrLeTransitive(a: string, b: string, c: string)
    requires StrLe(a, b) && StrLe(b, c)
    ensures StrLe(a, c)
  {
    if a != "" && a[0] == b[0] == c[0] {
      StrLeTransitive(a[1..], b[1..], c[1..]);
    }
  }

  ghost predicate Preorder<T(!new)>(le: (T, T) -> bool) {
    && (forall a, b :: le(a, b) || le(b, a))
    && (forall a, b, c :: le(a, b) && le(b, c) ==> le(a, c))
  }

  predicate Sorted<T>(le: (T, T) -> bool, s: seq<T>) {
    forall i, j :: 0 <= i < j < |s| ==> le(s[i], s[j])
  }

  function Insert<T>(le: (T, T) -> bool, x: T, s: seq<T>): seq<T> {
    if s == [] || le(x, s[0]) then [x] + s else [s[0]] + Insert(le, x, s[1..])
  }

  /** The stable sort; equal elements keep their order. */
  function Sort<T>(le: (T, T) -> bool, s: seq<T>): seq<T> {
    if s == [] then [] else Insert(le, s[0], Sort(le, s[1..]))
  }

  lemma {:induction false} InsertMembers<T(!new)>(le: (T, T) -> bool, x: T, s: seq<T>)
    ensures multiset(Insert(le, x, s)) == multiset(s) + multiset{x}
    ensures forall y :: y in Insert(le, x, s) <==> y == x || y in s
  {
    if s != [] && !le(x, s[0]) {
      InsertMembers(le, x, s[1..]);
      assert s == [s[0]] + s[1..];
    }
  }

  lemma ConsSorted<T(!new)>(le: (T, T) -> bool, x: T, s: seq<T>)
    requires Sorted(le, s) && forall y :: y in s ==> le(x, y)
    ensures Sorted(le, [x] + s)
  {}

  lemma {:induction false} InsertSorted<T(!new)>(le: (T, T) -> bool, x: T, s: seq<T>)
    requires Preorder(le) && Sorted(le, s)
    ensures Sorted(le, Insert(le, x, s))
  {
    if s == [] {
      assert Insert(le, x, s) == [x];
    } else if le(x, s[0]) {
      ConsSorted(le, x, s);
    } else {
      InsertSorted(le, x, s[1..]);
      InsertMembers(le, x, s[1..]);
      ConsSorted(le, s[0], Insert(le, x, s[1..]));
    }
  }

  lemma {:induction false} SortSorts<T(!new)>(le: (T, T) -> bool, s: seq<T>)
    requires Preorder(le)
    ensures multiset(Sort(le, s)) == multiset(s) && Sorted(le, Sort(le, s))
  {
    if s != [] {
      SortSorts(le, s[1..]);
      InsertMembers(le, s[0], Sort(le, s[1..]));
      InsertSorted(le, s[0], Sort(le, s[1..]));
      assert s == [s[0]] + s[1..];
    }
  }

  predicate Antisymmetric<T(==)>(le: (T, T) -> bool, s: seq<T>) {
    forall x, y :: x in s && y in s && le(x, y) && le(y, x) ==> x == y
  }

  lemma SameHead<T(!new)>(le: (T, T) -> bool, s: seq<T>, t: seq<T>)
    requires s != [] && t != [] && Sorted(le, s) && Sorted(le, t) && s[0] in t && t[0] in s
    requires Antisymmetric(le, s)
    ensures s[0] == t[0]
  {
    var i :| 0 <= i < |t| && t[i] == s[0];
    var j :| 0 <= j < |s| && s[j] == t[0];
    if i > 0 && j > 0 {
      assert le(t[0], t[i]) && le(s[0], s[j]);
    }
  }

  lemma SameContents<T>(s: seq<T>, t: seq<T>)
    requires multiset(s) == multiset(t)
    ensures |s| == |t| && (s != [] ==> s[0] in t && t[0] in s)
  {
    assert |t| == |multiset(t)| == |multiset(s)| == |s|;
    if s != [] {
      assert s[0] in multiset(t) && t[0] in multiset(s);
    }
  }

  lemma TailContents<T>(s: seq<T>)
    requires s != []
    ensures multiset(s[1..]) == multiset(s) - multiset{s[0]}
  {
    assert s == [s[0]] + s[1..];
  }

  lemma HeadAndTail<T>(s: seq<T>, t: seq<T>)
    requires s != [] && t != [] && s[0] == t[0] && s[1..] == t[1..]
    ensures s == t
  {
    assert s == [s[0]] + s[1..] && t == [t[0]] + t[1..];
  }

  lemma TailSorted<T(!new)>(le: (T, T) -> bool, s: seq<T>)
    requires s != [] && Sorted(le, s)
    ensures Sorted(le, s[1..]) && (Antisymmetric(le, s) ==> Antisymmetric(le, s[1..]))
  {
    assert forall x :: x in s[1..] ==> x in s;
  }

  /** Sorting is determined by the elements, when no two of them are equivalent. */
  lemma {:induction false} SortedUnique<T(!new)>(le: (T, T) -> bool, s: seq<T>, t: seq<T>)
    requires Sorted(le, s) && Sorted(le, t) && multiset(s) == multiset(t)
    requires Antisymmetric(le, s)
    ensures s == t
  {
    SameContents(s, t);
    if s != [] {
      SameHead(le, s, t);
      TailContents(s);
      TailContents(t);
      TailSorted(le, s);
      TailSorted(le, t);
      SortedUnique(le, s[1..], t[1..]);
      HeadAndTail(s, t);
    }
  }

  lemma PrefixFirst<T>(le: (T, T) -> bool, s: seq<T>, n: nat, a: T, b: T)
    requires Sorted(le, s) && n <= |s| && a in s[..n] && b in s && b !in s[..n]
    ensures le(a, b)
  {
    assert s == s[..n] + s[n..];
    var i :| 0 <= i < n && s[..n][i] == a;
    var j :| 0 <= j < |s| - n && s[n..][j] == b;
    assert le(s[i], s[n + j]);
  }

  lemma StrLePreorder()
    ensures Preorder(StrLe)
  {
    forall a: string, b: string ensures StrLe(a, b) || StrLe(b, a) { StrLeTotal(a, b); }
    forall a: string, b: string, c: string | StrLe(a, b) && StrLe(b, c)
      ensures StrLe(a, c) { StrLeTransitive(a, b, c); }
  }

  // ----- sorted(set) -----

  predicate Least(x: string, s: set<string>) { x in s && forall y :: y in s ==> StrLe(x, y) }

  lemma LeastAdded(x: string, m: string, s: set<string>)
    requires Least(m, s - {x}) && x in s
    ensures Least(x, s) || Least(m, s)
  {
    StrLeTotal(x, x);
    StrLeTotal(x, m);
    if StrLe(x, m) {
      forall y | y in s - {x} ensures StrLe(x, y) { StrLeTransitive(x, m, y); }
    }
  }

  lemma {:induction false} LeastExists(s: set<string>)
    requires s != {}
    ensures exists x :: Least(x, s)
  {
    var x :| x in s;
    if s - {x} != {} {
      LeastExists(s - {x});
      var m :| Least(m, s - {x});
      LeastAdded(x, m, s);
    } else {
      StrLeTotal(x, x);
      assert s == {x} + (s - {x});
      assert Least(x, s);
    }
  }

  ghost function SortedSet(s: set<string>): (r: seq<string>)
    ensures forall x :: x in r <==> x in s
  {
    if s == {} then []
    else
      LeastExists(s);
      var x :| Least(x, s);
      [x] + SortedSet(s - {x})
  }

  lemma {:induction false} SortedSetSorted(s: set<string>)
    ensures Sorted(StrLe, SortedSet(s)) && multiset(SortedSet(s)) == multiset(s)
  {
    if s != {} {
      LeastExists(s);
      var r := SortedSet(s);
      assert s == {r[0]} + (s - {r[0]});
      assert r == [r[0]] + r[1..];
      SortedSetSorted(s - {r[0]});
      assert r[1..] == SortedSet(s - {r[0]});
      ConsSorted(StrLe, r[0], r[1..]);
    }
  }

  method SortedElements(s: set<string>) returns (r: seq<string>)
    ensures r == SortedSet(s)
  {
    var rest, found := s, [];
    while rest != {}
      invariant rest <= s && multiset(found) + multiset(rest) == multiset(s)
      decreases rest
    {
      var x :| x in rest;
      found, rest := found + [x], rest - {x};
    }
    StrLePreorder();
    SortSorts(StrLe, found);
    SortedSetSorted(s);
    r := Sort(StrLe, found);
    forall x: string, y: string | StrLe(x, y) && StrLe(y, x) ensures x == y { StrLeTotal(x, y); }
    SortedUnique(StrLe, r, SortedSet(s));
  }
}
