/** Order-preserving deduplication and other sequence vocabulary shared by the model. */
module Sequences {

  datatype Option<+T> = None | Some(value: T)

  datatype Result<+T, +E> = Ok(value: T) | Err(error: E)

  predicate Distinct<T(==)>(s: seq<T>) {
    forall i, j :: 0 <= i < j < |s| ==> s[i] != s[j]
  }

  /** Python's `tuple(dict.fromkeys(s))`: the first occurrence of each element, in order. */
  function Dedup<T(==)>(s: seq<T>): (r: seq<T>)
  {
    if s == [] then []
    else
      var r := Dedup(s[..|s| - 1]);
      if s[|s| - 1] in r then r else r + [s[|s| - 1]]
  }

  lemma {:induction false} DedupElements<T(!new)>(s: seq<T>)
    ensures forall x :: x in Dedup(s) <==> x in s
    ensures Distinct(Dedup(s))
  {
    if s != [] {
      DedupElements(s[..|s| - 1]);
      assert s == s[..|s| - 1] + [s[|s| - 1]];
    }
  }

  lemma {:induction false} DedupConcat<T(!new)>(a: seq<T>, b: seq<T>)
    ensures Dedup(Dedup(a) + b) == Dedup(a + b)
  {
    if b == [] {
      assert Dedup(a) + b == Dedup(a) && a + b == a;
      DedupElements(a);
      DedupDistinct(Dedup(a));
    } else {
      var n := |b| - 1;
      assert (Dedup(a) + b)[..|Dedup(a) + b| - 1] == Dedup(a) + b[..n];
      assert (a + b)[..|a + b| - 1] == a + b[..n];
      DedupConcat(a, b[..n]);
    }
  }

  lemma {:induction false} DedupDistinct<T(!new)>(s: seq<T>)
    requires Distinct(s)
    ensures Dedup(s) == s
  {
    if s != [] {
      DedupElements(s[..|s| - 1]);
      DedupDistinct(s[..|s| - 1]);
      assert s == s[..|s| - 1] + [s[|s| - 1]];
    }
  }

  lemma {:induction false} DedupPrefixed<T(!new)>(a: seq<T>, b: seq<T>)
    ensures Dedup(a + b) == Dedup(a + Dedup(b))
  {
    if b != [] {
      var init, last := b[..|b| - 1], b[|b| - 1];
      DedupPrefixed(a, init);
      DedupElements(init);
      DedupElements(a + init);
      assert (a + b)[..|a + b| - 1] == a + init;
      assert last in init ==> last in a + init;
      if last !in init {
        assert (a + Dedup(b))[..|a + Dedup(b)| - 1] == a + Dedup(init);
      }
    }
  }

  lemma ConcatAssociative<T>(a: seq<T>, b: seq<T>, c: seq<T>)
    ensures (a + b) + c == a + (b + c)
  {}

  lemma DedupInfix<T(!new)>(a: seq<T>, b: seq<T>, c: seq<T>)
    ensures Dedup((a + b) + c) == Dedup(a + (Dedup(b) + c))
  {
    var d := Dedup(b);
    calc {
      Dedup((a + b) + c);
      { DedupConcat(a + b, c); }
      Dedup(Dedup(a + b) + c);
      { DedupPrefixed(a, b); }
      Dedup(Dedup(a + d) + c);
      { DedupConcat(a + d, c); }
      Dedup((a + d) + c);
      { ConcatAssociative(a, d, c); }
      Dedup(a + (d + c));
    }
  }

  function Flatten<T>(ss: seq<seq<T>>): seq<T> {
    if ss == [] then [] else ss[0] + Flatten(ss[1..])
  }

  lemma {:induction false} FlattenContains<T>(ss: seq<seq<T>>, x: T)
    ensures x in Flatten(ss) <==> exists i :: 0 <= i < |ss| && x in ss[i]
  {
    if ss != [] {
      FlattenContains(ss[1..], x);
      if x in Flatten(ss[1..]) {
        var i :| 0 <= i < |ss[1..]| && x in ss[1..][i];
        assert x in ss[i + 1];
      }
      if i :| 0 < i < |ss| && x in ss[i] {
        assert x in ss[1..][i - 1];
      }
    }
  }
}
