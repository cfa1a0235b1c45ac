/** The bounded, field-balanced view of a long evidence section that an Agent receives. */
module Projection {
  import opened Sequences
  import opened Ordering

  datatype Item = Item(id: string, field: string, effectiveAt: int, observedAt: int, value: string)

  /** The order of `sorted(..., reverse=True)` by effective time, observation time and id. */
  predicate Newer(a: Item, b: Item) {
    || a.effectiveAt > b.effectiveAt
    || (a.effectiveAt == b.effectiveAt
        && (a.observedAt > b.observedAt || (a.observedAt == b.observedAt && StrLe(b.id, a.id))))
  }

  /** The order of the projected section: effective time, field path, id. */
  predicate Earlier(a: Item, b: Item) {
    || a.effectiveAt < b.effectiveAt
    || (a.effectiveAt == b.effectiveAt && (if a.field == b.field then StrLe(a.id, b.id) else StrLe(a.field, b.field)))
  }

  lemma NewerPreorder()
    ensures Preorder(Newer)
  {
    forall a: Item, b: Item ensures Newer(a, b) || Newer(b, a) { StrLeTotal(a.id, b.id); }
    forall a: Item, b: Item, c: Item | Newer(a, b) && Newer(b, c) ensures Newer(a, c) {
      if StrLe(c.id, b.id) && StrLe(b.id, a.id) {
        StrLeTransitive(c.id, b.id, a.id);
      }
    }
  }

  lemma EarlierPreorder()
    ensures Preorder(Earlier)
  {
    forall a: Item, b: Item ensures Earlier(a, b) || Earlier(b, a) {
      StrLeTotal(a.id, b.id);
      StrLeTotal(a.field, b.field);
    }
    forall a: Item, b: Item, c: Item | Earlier(a, b) && Earlier(b, c) ensures Earlier(a, c) {
      StrLeTotal(a.field, b.field);
      StrLeTotal(b.field, c.field);
      if StrLe(a.id, b.id) && StrLe(b.id, c.id) {
        StrLeTransitive(a.id, b.id, c.id);
      }
      if StrLe(a.field, b.field) && StrLe(b.field, c.field) {
        StrLeTransitive(a.field, b.field, c.field);
      }
    }
  }

  /** The items of one field, in order. */
  function OfField(s: seq<Item>, field: string): seq<Item> {
    if s == [] then []
    else
      var n := |s| - 1;
      OfField(s[..n], field) + if s[n].field == field then [s[n]] else []
  }

  lemma OfFieldAppend(s: seq<Item>, x: Item, field: string)
    ensures OfField(s + [x], field) == OfField(s, field) + if x.field == field then [x] else []
  {
    assert (s + [x])[..|s|] == s;
  }

  lemma {:induction false} OfFieldCounts(s: seq<Item>, x: Item, field: string)
    ensures multiset(OfField(s, field))[x] == if x.field == field then multiset(s)[x] else 0
  {
    if s != [] {
      OfFieldCounts(s[..|s| - 1], x, field);
      assert s == s[..|s| - 1] + [s[|s| - 1]];
    }
  }

  lemma OfFieldMembers(s: seq<Item>, x: Item, field: string)
    ensures x in OfField(s, field) <==> x in s && x.field == field
  {
    OfFieldCounts(s, x, field);
    assert x in s <==> multiset(s)[x] > 0;
    assert x in OfField(s, field) <==> multiset(OfField(s, field))[x] > 0;
  }

  function Newest(items: seq<Item>, field: string): seq<Item> { OfField(Sort(Newer, items), field) }

  function Count(s: seq<Item>, field: string): nat { |OfField(s, field)| }

  function Take<T>(s: seq<T>, n: nat): seq<T> { if n <= |s| then s[..n] else s }

  /** `selected` holds, of one field, its newest items. */
  predicate KeepsField(newest: seq<Item>, selected: seq<Item>, field: string) {
    && Count(selected, field) <= Count(newest, field)
    && multiset(OfField(selected, field)) == multiset(Take(OfField(newest, field), Count(selected, field)))
  }

  ghost predicate KeepsNewest(newest: seq<Item>, selected: seq<Item>) {
    forall field :: KeepsField(newest, selected, field)
  }

  /**
   Max-min fairness with its tie rule: a field with items left over holds at most one item less
   than any other field, and only less than a field whose name comes before its own.
   */
  predicate FairPair(newest: seq<Item>, selected: seq<Item>, f: string, g: string) {
    Count(selected, f) < Count(newest, f) ==>
      && Count(selected, g) <= Count(selected, f) + 1
      && (Count(selected, g) == Count(selected, f) + 1 ==> StrLe(g, f) && f != g)
  }

  ghost predicate Fair(newest: seq<Item>, selected: seq<Item>) {
    forall f, g :: FairPair(newest, selected, f, g)
  }

  ghost predicate FairProjection(items: seq<Item>, limit: nat, r: seq<Item>) {
    && |r| == limit && Sorted(Earlier, r)
    && KeepsNewest(Sort(Newer, items), r)
    && Fair(Sort(Newer, items), r)
  }

  // ----- the allocator -----

  function Due(depth: nat, k: nat, j: nat): nat { if j < k then depth + 1 else depth }

  /** `selected` holds the first `n` items of one field. */
  predicate Holds(newest: seq<Item>, selected: seq<Item>, field: string, n: nat) {
    OfField(selected, field) == Take(OfField(newest, field), n)
  }

  /** `depth` whole rounds and, of one more round, the first `k` fields. */
  ghost predicate Level(newest: seq<Item>, names: seq<string>, selected: seq<Item>, depth: nat, k: nat) {
    && (forall j :: 0 <= j < |names| ==> Holds(newest, selected, names[j], Due(depth, k, j)))
    && (forall x :: x in selected ==> x.field in names)
  }

  ghost predicate Grouped(newest: seq<Item>, names: seq<string>, groups: map<string, seq<Item>>) {
    && Distinct(names)
    && (forall f :: f in groups <==> f in names)
    && (forall f :: f in names ==> groups[f] == OfField(newest, f))
    && (forall x :: x in newest ==> x.field in names)
  }

  method GroupByField(newest: seq<Item>) returns (names: seq<string>, groups: map<string, seq<Item>>)
    ensures Grouped(newest, names, groups) && Sorted(StrLe, names)
  {
    groups := map[];
    var keys: seq<string> := [];
    for i := 0 to |newest|
      invariant Grouped(newest[..i], keys, groups)
    {
      var x := newest[i];
      assert newest[..i + 1] == newest[..i] + [x];
      forall f ensures OfField(newest[..i + 1], f) == OfField(newest[..i], f) + if x.field == f then [x] else [] {
        OfFieldAppend(newest[..i], x, f);
      }
      if x.field in groups {
        groups := groups[x.field := groups[x.field] + [x]];
      } else {
        if OfField(newest[..i], x.field) != [] {
          OfFieldMembers(newest[..i], OfField(newest[..i], x.field)[0], x.field);
          assert false;
        }
        keys := keys + [x.field];
        groups := groups[x.field := [x]];
      }
    }
    assert newest[..|newest|] == newest;
    StrLePreorder();
    SortSorts(StrLe, keys);
    names := Sort(StrLe, keys);
    SameElements(keys, names);
  }

  lemma SameElements<T(!new)>(a: seq<T>, b: seq<T>)
    requires multiset(a) == multiset(b)
    ensures forall x :: x in a <==> x in b
    ensures Distinct(a) ==> Distinct(b)
  {
    forall x ensures x in a <==> x in b {
      assert x in a <==> x in multiset(a);
      assert x in b <==> x in multiset(b);
    }
    if Distinct(a) && !Distinct(b) {
      var i, j :| 0 <= i < j < |b| && b[i] == b[j];
      TwiceCounted(b, i, j);
      DistinctCounts(a, b[i]);
    }
  }

  lemma TwiceCounted<T>(s: seq<T>, i: nat, j: nat)
    requires i < j < |s| && s[i] == s[j]
    ensures multiset(s)[s[i]] >= 2
  {
    assert s == s[..j] + [s[j]] + s[j + 1..];
    assert s[i] in s[..j];
    assert multiset(s) == multiset(s[..j]) + multiset{s[j]} + multiset(s[j + 1..]);
  }

  lemma {:induction false} DistinctCounts<T>(s: seq<T>, x: T)
    requires Distinct(s)
    ensures multiset(s)[x] <= 1
  {
    if s != [] {
      DistinctCounts(s[1..], x);
      assert s == [s[0]] + s[1..];
      if x == s[0] {
        assert x !in s[1..];
        assert multiset(s[1..])[x] == 0;
      }
    }
  }

  lemma TakeNext<T>(s: seq<T>, n: nat)
    requires n < |s|
    ensures Take(s, n + 1) == Take(s, n) + [s[n]]
  {}

  lemma HoldsNext(newest: seq<Item>, selected: seq<Item>, field: string, n: nat, x: Item)
    requires Holds(newest, selected, field, n) && n < Count(newest, field) && x == OfField(newest, field)[n]
    ensures Holds(newest, selected + [x], field, n + 1) && x.field == field
  {
    OfFieldMembers(newest, x, field);
    OfFieldAppend(selected, x, field);
    TakeNext(OfField(newest, field), n);
  }

  lemma HoldsStill(newest: seq<Item>, selected: seq<Item>, field: string, n: nat, x: Item)
    requires Holds(newest, selected, field, n) && x.field != field
    ensures Holds(newest, selected + [x], field, n)
  {
    OfFieldAppend(selected, x, field);
  }

  lemma HoldsAll(newest: seq<Item>, selected: seq<Item>, field: string, n: nat)
    requires Holds(newest, selected, field, n) && Count(newest, field) <= n
    ensures Holds(newest, selected, field, n + 1) && OfField(selected, field) == OfField(newest, field)
  {}

  lemma HoldsKeeps(newest: seq<Item>, selected: seq<Item>, field: string, n: nat)
    requires Holds(newest, selected, field, n)
    ensures KeepsField(newest, selected, field)
  {
    assert OfField(selected, field) == Take(OfField(newest, field), Count(selected, field));
  }

  lemma LevelStep(newest: seq<Item>, names: seq<string>, selected: seq<Item>, depth: nat, k: nat)
    requires Level(newest, names, selected, depth, k) && k < |names| && Distinct(names)
    requires depth < Count(newest, names[k])
    ensures Level(newest, names, selected + [OfField(newest, names[k])[depth]], depth, k + 1)
  {
    var x := OfField(newest, names[k])[depth];
    assert Holds(newest, selected, names[k], Due(depth, k, k));
    HoldsNext(newest, selected, names[k], depth, x);
    forall j | 0 <= j < |names|
      ensures Holds(newest, selected + [x], names[j], Due(depth, k + 1, j))
    {
      if j != k {
        HoldsStill(newest, selected, names[j], Due(depth, k, j), x);
      }
    }
  }

  lemma LevelSkip(newest: seq<Item>, names: seq<string>, selected: seq<Item>, depth: nat, k: nat)
    requires Level(newest, names, selected, depth, k) && k < |names| && Count(newest, names[k]) <= depth
    ensures Level(newest, names, selected, depth, k + 1)
  {
    assert Holds(newest, selected, names[k], Due(depth, k, k));
    HoldsAll(newest, selected, names[k], depth);
    forall j | 0 <= j < |names| ensures Holds(newest, selected, names[j], Due(depth, k + 1, j)) {
      assert j != k ==> Due(depth, k + 1, j) == Due(depth, k, j);
    }
  }

  /** One round over the fields, cut short at the limit. */
  method AddRound(newest: seq<Item>, names: seq<string>, groups: map<string, seq<Item>>, start: seq<Item>,
                  depth: nat, limit: nat)
    returns (selected: seq<Item>, added: bool, k: nat)
    requires Grouped(newest, names, groups) && Level(newest, names, start, depth, 0) && |start| < limit
    ensures k <= |names| && Level(newest, names, selected, depth, k)
    ensures |start| <= |selected| <= limit
    ensures |selected| == limit || k == |names|
    ensures added <==> |selected| > |start|
    ensures !added ==> selected == start && forall j :: 0 <= j < |names| ==> Count(newest, names[j]) <= depth
  {
    selected, added, k := start, false, 0;
    while k < |names|
      invariant k <= |names| && Level(newest, names, selected, depth, k)
      invariant |start| <= |selected| < limit
      invariant added <==> |selected| > |start|
      invariant !added ==> selected == start && forall j :: 0 <= j < k ==> Count(newest, names[j]) <= depth
    {
      var items := groups[names[k]];
      if depth < |items| {
        LevelStep(newest, names, selected, depth, k);
        selected := selected + [items[depth]];
        added := true;
        if |selected| == limit {
          k := k + 1;
          break;
        }
      } else {
        LevelSkip(newest, names, selected, depth, k);
      }
      k := k + 1;
    }
  }

  lemma LevelStarts(newest: seq<Item>, names: seq<string>)
    ensures Level(newest, names, [], 0, 0)
  {}

  lemma LevelTurns(newest: seq<Item>, names: seq<string>, selected: seq<Item>, depth: nat)
    requires Level(newest, names, selected, depth, |names|)
    ensures Level(newest, names, selected, depth + 1, 0)
  {
    forall j | 0 <= j < |names| ensures Holds(newest, selected, names[j], Due(depth + 1, 0, j)) {
      assert Holds(newest, selected, names[j], Due(depth, |names|, j));
    }
  }

  /** Sequences with the same items of every field have the same items. */
  lemma SameByField(s: seq<Item>, t: seq<Item>)
    requires forall f :: multiset(OfField(s, f)) == multiset(OfField(t, f))
    ensures multiset(s) == multiset(t)
  {
    forall x: Item ensures multiset(s)[x] == multiset(t)[x] {
      OfFieldCounts(s, x, x.field);
      OfFieldCounts(t, x, x.field);
    }
  }

  lemma NoStrayField(newest: seq<Item>, names: seq<string>, selected: seq<Item>, field: string)
    requires field !in names
    requires (forall x :: x in newest ==> x.field in names) && (forall x :: x in selected ==> x.field in names)
    ensures OfField(newest, field) == [] && OfField(selected, field) == []
  {
    if OfField(newest, field) != [] {
      OfFieldMembers(newest, OfField(newest, field)[0], field);
    }
    if OfField(selected, field) != [] {
      OfFieldMembers(selected, OfField(selected, field)[0], field);
    }
  }

  /** A round without additions has used up every field, and so every item. */
  lemma ExhaustedRound(newest: seq<Item>, names: seq<string>, groups: map<string, seq<Item>>, selected: seq<Item>,
                       depth: nat)
    requires Grouped(newest, names, groups) && Level(newest, names, selected, depth, 0)
    requires forall j :: 0 <= j < |names| ==> Count(newest, names[j]) <= depth
    ensures |selected| == |newest|
  {
    forall f ensures OfField(selected, f) == OfField(newest, f) {
      if f in names {
        var j :| 0 <= j < |names| && names[j] == f;
        HoldsAll(newest, selected, f, depth);
      } else {
        NoStrayField(newest, names, selected, f);
      }
    }
    SameByField(selected, newest);
    assert |selected| == |multiset(selected)| == |multiset(newest)| == |newest|;
  }

  lemma LevelKeepsNewest(newest: seq<Item>, names: seq<string>, groups: map<string, seq<Item>>, selected: seq<Item>,
                         depth: nat, k: nat)
    requires Grouped(newest, names, groups) && Level(newest, names, selected, depth, k)
    ensures KeepsNewest(newest, selected)
  {
    forall f ensures KeepsField(newest, selected, f) {
      if f in names {
        var j :| 0 <= j < |names| && names[j] == f;
        HoldsKeeps(newest, selected, f, Due(depth, k, j));
      } else {
        NoStrayField(newest, names, selected, f);
      }
    }
  }

  lemma LevelCount(newest: seq<Item>, names: seq<string>, selected: seq<Item>, depth: nat, k: nat, j: nat)
    requires Level(newest, names, selected, depth, k) && j < |names|
    ensures var all := Count(newest, names[j]);
            Count(selected, names[j]) == if all <= Due(depth, k, j) then all else Due(depth, k, j)
  {
    assert Holds(newest, selected, names[j], Due(depth, k, j));
  }

  lemma LevelPair(newest: seq<Item>, names: seq<string>, selected: seq<Item>, depth: nat, k: nat, i: nat, j: nat)
    requires Sorted(StrLe, names) && Distinct(names) && Level(newest, names, selected, depth, k)
    requires i < |names| && j < |names|
    ensures FairPair(newest, selected, names[i], names[j])
  {
    LevelCount(newest, names, selected, depth, k, i);
    LevelCount(newest, names, selected, depth, k, j);
  }

  lemma LevelIsFair(newest: seq<Item>, names: seq<string>, groups: map<string, seq<Item>>, selected: seq<Item>,
                    depth: nat, k: nat)
    requires Grouped(newest, names, groups) && Sorted(StrLe, names) && Level(newest, names, selected, depth, k)
    ensures Fair(newest, selected)
  {
    forall f, g ensures FairPair(newest, selected, f, g) {
      if f !in names {
        NoStrayField(newest, names, selected, f);
      } else if g !in names {
        NoStrayField(newest, names, selected, g);
      } else {
        var i :| 0 <= i < |names| && names[i] == f;
        var j :| 0 <= j < |names| && names[j] == g;
        LevelPair(newest, names, selected, depth, k, i, j);
      }
    }
  }

  method RoundRobin(newest: seq<Item>, names: seq<string>, groups: map<string, seq<Item>>, limit: nat)
    returns (selected: seq<Item>)
    requires Grouped(newest, names, groups) && Sorted(StrLe, names) && limit < |newest|
    ensures |selected| == limit && KeepsNewest(newest, selected) && Fair(newest, selected)
  {
    selected := [];
    var depth := 0;
    ghost var d, k := 0, 0;
    LevelStarts(newest, names);
    while |selected| < limit
      invariant |selected| <= limit && Level(newest, names, selected, d, k)
      invariant |selected| < limit ==> d == depth && k == 0
      decreases limit - |selected|
    {
      var next, added, reached := AddRound(newest, names, groups, selected, depth, limit);
      if !added {
        ExhaustedRound(newest, names, groups, selected, depth);
        assert false;
        break;
      }
      selected, d, k := next, depth, reached;
      if |selected| < limit {
        LevelTurns(newest, names, selected, depth);
        d, k := depth + 1, 0;
      }
      depth := depth + 1;
    }
    LevelKeepsNewest(newest, names, groups, selected, d, k);
    LevelIsFair(newest, names, groups, selected, d, k);
  }

  lemma CountsOfSorted(s: seq<Item>, t: seq<Item>, field: string)
    requires multiset(s) == multiset(t)
    ensures multiset(OfField(s, field)) == multiset(OfField(t, field)) && Count(s, field) == Count(t, field)
  {
    forall x: Item ensures multiset(OfField(s, field))[x] == multiset(OfField(t, field))[x] {
      OfFieldCounts(s, x, field);
      OfFieldCounts(t, x, field);
    }
    assert multiset(OfField(s, field)) == multiset(OfField(t, field));
    assert |OfField(s, field)| == |multiset(OfField(s, field))| == |multiset(OfField(t, field))| == |OfField(t, field)|;
  }

  lemma SortedIsFair(items: seq<Item>, limit: nat, selected: seq<Item>)
    requires |selected| == limit && KeepsNewest(Sort(Newer, items), selected) && Fair(Sort(Newer, items), selected)
    ensures FairProjection(items, limit, Sort(Earlier, selected))
  {
    var newest, r := Sort(Newer, items), Sort(Earlier, selected);
    EarlierPreorder();
    SortSorts(Earlier, selected);
    assert |r| == |multiset(r)| == |multiset(selected)| == |selected|;
    forall f ensures KeepsField(newest, r, f) {
      CountsOfSorted(r, selected, f);
      assert KeepsField(newest, selected, f);
    }
    forall f, g ensures FairPair(newest, r, f, g) {
      CountsOfSorted(r, selected, f);
      CountsOfSorted(r, selected, g);
      assert FairPair(newest, selected, f, g);
    }
  }

  /** A section within its limit is passed on unchanged; a longer one is projected fairly. */
  method ProjectDataSection(items: seq<Item>, limit: nat) returns (r: seq<Item>)
    ensures |items| <= limit ==> r == items
    ensures |items| > limit ==> FairProjection(items, limit, r)
  {
    if |items| <= limit {
      return items;
    }
    NewerPreorder();
    SortSorts(Newer, items);
    var newest := Sort(Newer, items);
    assert |newest| == |multiset(newest)| == |multiset(items)| == |items|;
    var names, groups := GroupByField(newest);
    var selected := RoundRobin(newest, names, groups, limit);
    r := Sort(Earlier, selected);
    SortedIsFair(items, limit, selected);
  }

  // ----- what a fair projection means -----

  lemma {:induction false} TakeGrows<T>(s: seq<T>, m: nat, n: nat)
    requires m <= n <= |s|
    ensures multiset(s[..m]) <= multiset(s[..n])
    ensures n <= |s| ==> multiset(s[..m]) <= multiset(s)
  {
    assert s[..n] == s[..m] + s[m..n];
    assert s == s[..m] + s[m..];
  }

  /** Every projected item is a source item, no more often than in the source. */
  lemma ProjectionIsPart(items: seq<Item>, limit: nat, r: seq<Item>)
    requires FairProjection(items, limit, r)
    ensures multiset(r) <= multiset(items)
  {
    NewerPreorder();
    SortSorts(Newer, items);
    forall x: Item ensures multiset(r)[x] <= multiset(items)[x] {
      assert KeepsField(Sort(Newer, items), r, x.field);
      OfFieldCounts(r, x, x.field);
      OfFieldCounts(Sort(Newer, items), x, x.field);
      TakeGrows(Newest(items, x.field), Count(r, x.field), Count(Sort(Newer, items), x.field));
    }
  }

  lemma OfFieldSorted(s: seq<Item>, field: string)
    requires Sorted(Newer, s)
    ensures Sorted(Newer, OfField(s, field))
  {
    if s != [] {
      var n := |s| - 1;
      OfFieldSorted(s[..n], field);
      var before := OfField(s[..n], field);
      forall i | 0 <= i < |before| ensures Newer(before[i], s[n]) {
        OfFieldMembers(s[..n], before[i], field);
      }
    }
  }

  /** No item left out is newer than one that was kept from its field. */
  lemma KeptAreNewer(items: seq<Item>, limit: nat, r: seq<Item>, kept: Item, dropped: Item)
    requires FairProjection(items, limit, r) && kept in r && dropped in items && dropped !in r
    requires kept.field == dropped.field
    ensures Newer(kept, dropped)
  {
    var f := kept.field;
    assert KeepsField(Sort(Newer, items), r, f);
    NewerPreorder();
    SortSorts(Newer, items);
    var newest, n := Newest(items, f), Count(r, f);
    OfFieldSorted(Sort(Newer, items), f);
    OfFieldMembers(r, kept, f);
    OfFieldMembers(r, dropped, f);
    OfFieldMembers(Sort(Newer, items), dropped, f);
    assert dropped in multiset(items);
    assert kept in multiset(newest[..n]) && dropped !in multiset(newest[..n]);
    PrefixFirst(Newer, newest, n, kept, dropped);
  }

  // ----- a fair projection is determined by the set of items -----

  lemma PartOfSameSize<T>(m: multiset<T>, n: multiset<T>)
    requires m <= n && |m| == |n|
    ensures m == n
  {
    assert n == m + (n - m);
    assert |n - m| == 0;
  }

  lemma Dominated(newest: seq<Item>, r: seq<Item>, s: seq<Item>, field: string)
    requires KeepsNewest(newest, r) && KeepsNewest(newest, s) && |r| == |s|
    requires forall g :: Count(s, g) <= Count(r, g)
    ensures Count(s, field) == Count(r, field)
  {
    forall x: Item ensures multiset(s)[x] <= multiset(r)[x] {
      assert KeepsField(newest, r, x.field) && KeepsField(newest, s, x.field);
      OfFieldCounts(r, x, x.field);
      OfFieldCounts(s, x, x.field);
      TakeGrows(OfField(newest, x.field), Count(s, x.field), Count(r, x.field));
    }
    assert |multiset(s)| == |s| && |multiset(r)| == |r|;
    PartOfSameSize(multiset(s), multiset(r));
    CountsOfSorted(s, r, field);
  }

  lemma NoMoreThan(newest: seq<Item>, r: seq<Item>, s: seq<Item>, field: string)
    requires KeepsNewest(newest, r) && KeepsNewest(newest, s) && Fair(newest, r) && Fair(newest, s) && |r| == |s|
    ensures Count(r, field) <= Count(s, field)
  {
    if Count(r, field) > Count(s, field) {
      if g :| Count(s, g) > Count(r, g) {
        assert KeepsField(newest, r, field) && KeepsField(newest, s, g);
        assert FairPair(newest, s, field, g) && FairPair(newest, r, g, field);
        StrLeTotal(field, g);
        assert false;
      } else {
        Dominated(newest, r, s, field);
      }
    }
  }

  /** The schema's ids: an id stands for one item. */
  predicate IdsIdentify(items: seq<Item>) {
    forall x, y :: x in items && y in items && x.id == y.id ==> x == y
  }

  lemma TimeOrdersAntisymmetric(items: seq<Item>)
    requires IdsIdentify(items)
    ensures Antisymmetric(Newer, items) && Antisymmetric(Earlier, items)
  {
    forall x, y | x in items && y in items && ((Newer(x, y) && Newer(y, x)) || (Earlier(x, y) && Earlier(y, x)))
      ensures x == y
    {
      StrLeTotal(x.id, y.id);
      StrLeTotal(x.field, y.field);
    }
  }

  lemma SameNewest(items: seq<Item>, other: seq<Item>)
    requires multiset(items) == multiset(other) && IdsIdentify(items)
    ensures Sort(Newer, items) == Sort(Newer, other)
  {
    NewerPreorder();
    SortSorts(Newer, items);
    SortSorts(Newer, other);
    TimeOrdersAntisymmetric(items);
    forall x | x in Sort(Newer, items) ensures x in items {
      assert x in multiset(Sort(Newer, items));
    }
    SortedUnique(Newer, Sort(Newer, items), Sort(Newer, other));
  }

  lemma SameProjectedItems(items: seq<Item>, limit: nat, r: seq<Item>, s: seq<Item>)
    requires FairProjection(items, limit, r) && FairProjection(items, limit, s)
    ensures multiset(r) == multiset(s)
  {
    var newest := Sort(Newer, items);
    forall f ensures multiset(OfField(r, f)) == multiset(OfField(s, f)) {
      NoMoreThan(newest, r, s, f);
      NoMoreThan(newest, s, r, f);
      assert KeepsField(newest, r, f) && KeepsField(newest, s, f);
    }
    SameByField(r, s);
  }

  /**
   Selection, prefix and tie rule leave no choice: the projection depends on the items alone, not
   on the order in which the section lists them.
   */
  lemma ProjectionIsDetermined(items: seq<Item>, other: seq<Item>, limit: nat, r: seq<Item>, s: seq<Item>)
    requires multiset(items) == multiset(other) && IdsIdentify(items)
    requires FairProjection(items, limit, r) && FairProjection(other, limit, s)
    ensures r == s
  {
    SameNewest(items, other);
    assert FairProjection(items, limit, s);
    SameProjectedItems(items, limit, r, s);
    ProjectionIsPart(items, limit, r);
    forall x | x in r ensures x in items {
      assert multiset(r)[x] <= multiset(items)[x];
    }
    TimeOrdersAntisymmetric(items);
    SortedUnique(Earlier, r, s);
  }
}
