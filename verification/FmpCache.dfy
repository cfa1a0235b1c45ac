/** The run-scoped snapshot cache in front of the standardized-fundamentals provider. */
module FmpCache {
  import opened Sequences
  import opened Ordering

  type Values = map<string, string>

  /** A provider record: a dictionary that its holder may change in place. */
  class Record {
    var values: Values

    constructor (values: Values)
      ensures this.values == values
    {
      this.values := values;
    }
  }

  function Contents(records: seq<Record>): (r: seq<Values>)
    reads records
    ensures |r| == |records|
  {
    seq(|records|, i requires 0 <= i < |records| reads records => records[i].values)
  }

  method NewRecords(values: seq<Values>) returns (records: seq<Record>)
    ensures Contents(records) == values && forall r :: r in records ==> fresh(r)
  {
    records := [];
    for i := 0 to |values|
      invariant |records| == i && forall r :: r in records ==> fresh(r)
      invariant forall k :: 0 <= k < i ==> records[k].values == values[k]
    {
      var r := new Record(values[i]);
      records := records + [r];
    }
  }

  method DeepCopy(records: seq<Record>) returns (copies: seq<Record>)
    ensures Contents(copies) == Contents(records) && forall r :: r in copies ==> fresh(r)
  {
    copies := NewRecords(Contents(records));
  }

  // ----- keys -----

  datatype Timestamp = Naive(local: int) | Aware(instant: int)

  const DAY: int := 86400

  /** The exact acquisition contract: canonical assets sorted without repetition, window, cutoff. */
  datatype Key = Key(assets: seq<string>, startDate: int, endDate: int, asOf: int)

  datatype FmpError = NaiveTimestamp | EmptyWindow | WindowExceedsCutoff | NotCanonical | ProviderUnavailable

  function Upper(s: string): (r: string)
    ensures |r| == |s|
  {
    seq(|s|, i requires 0 <= i < |s| => if 'a' <= s[i] <= 'z' then (s[i] as int - 32) as char else s[i])
  }

  function Canonical(id: string): Option<string> {
    if "US:" <= Upper(id) && |id| > 3 then Some(Upper(id)) else None
  }

  predicate AllCanonical(ids: seq<string>) { forall i :: 0 <= i < |ids| ==> Canonical(ids[i]).Some? }

  function CanonicalSet(ids: seq<string>, n: nat): set<string>
    requires n <= |ids|
  {
    if n == 0 then {}
    else CanonicalSet(ids, n - 1) + match Canonical(ids[n - 1]) case Some(id) => {id} case None => {}
  }

  ghost function KeyFor(ids: seq<string>, startDate: int, endDate: int, asOf: Timestamp): Result<Key, FmpError> {
    match asOf
    case Naive(_) => Err(NaiveTimestamp)
    case Aware(instant) =>
      if endDate < startDate then Err(EmptyWindow)
      else if endDate > instant / DAY then Err(WindowExceedsCutoff)
      else if !AllCanonical(ids) then Err(NotCanonical)
      else Ok(Key(SortedSet(CanonicalSet(ids, |ids|)), startDate, endDate, instant))
  }

  lemma {:induction false} CanonicalSetMembers(ids: seq<string>, n: nat)
    requires n <= |ids|
    ensures forall x :: x in CanonicalSet(ids, n) <==> exists i :: 0 <= i < n && Canonical(ids[i]) == Some(x)
  {
    if n > 0 {
      CanonicalSetMembers(ids, n - 1);
    }
  }

  /** The requested ids up to letter case, order and repetition. */
  function Spelled(ids: seq<string>): set<string> { set i | 0 <= i < |ids| :: Upper(ids[i]) }

  lemma SpelledIds(a: seq<string>, b: seq<string>)
    requires Spelled(a) <= Spelled(b)
    ensures CanonicalSet(a, |a|) <= CanonicalSet(b, |b|) && (AllCanonical(b) ==> AllCanonical(a))
  {
    CanonicalSetMembers(a, |a|);
    CanonicalSetMembers(b, |b|);
    forall i | 0 <= i < |a| ensures exists k :: 0 <= k < |b| && Canonical(a[i]) == Canonical(b[k]) {
      assert Upper(a[i]) in Spelled(a);
      var k :| 0 <= k < |b| && Upper(a[i]) == Upper(b[k]);
      assert |Upper(a[i])| == |Upper(b[k])|;
    }
  }

  lemma SameIds(a: seq<string>, b: seq<string>)
    requires Spelled(a) == Spelled(b)
    ensures CanonicalSet(a, |a|) == CanonicalSet(b, |b|) && AllCanonical(a) == AllCanonical(b)
  {
    SpelledIds(a, b);
    SpelledIds(b, a);
  }

  lemma SameKey(a: seq<string>, b: seq<string>, startDate: int, endDate: int, asOf: Timestamp)
    requires CanonicalSet(a, |a|) == CanonicalSet(b, |b|) && AllCanonical(a) == AllCanonical(b)
    ensures KeyFor(a, startDate, endDate, asOf) == KeyFor(b, startDate, endDate, asOf)
  {}

  /** The key ignores order, repetition and letter case of the requested ids. */
  lemma KeyIgnoresSpelling(a: seq<string>, b: seq<string>, startDate: int, endDate: int, asOf: Timestamp)
    requires Spelled(a) == Spelled(b)
    ensures KeyFor(a, startDate, endDate, asOf) == KeyFor(b, startDate, endDate, asOf)
  {
    SameIds(a, b);
    SameKey(a, b, startDate, endDate, asOf);
  }

  /** Ids that differ in more than spelling get different keys. */
  lemma KeySeparatesAssets(a: seq<string>, b: seq<string>, startDate: int, endDate: int, asOf: Timestamp)
    requires KeyFor(a, startDate, endDate, asOf).Ok?
    requires KeyFor(a, startDate, endDate, asOf) == KeyFor(b, startDate, endDate, asOf)
    ensures Spelled(a) == Spelled(b)
  {
    KeyedIds(a, b);
    KeyedIds(b, a);
  }

  lemma KeyedIds(a: seq<string>, b: seq<string>)
    requires AllCanonical(a) && AllCanonical(b) && SortedSet(CanonicalSet(a, |a|)) == SortedSet(CanonicalSet(b, |b|))
    ensures Spelled(a) <= Spelled(b)
  {
    CanonicalSetMembers(a, |a|);
    CanonicalSetMembers(b, |b|);
    forall i | 0 <= i < |a| ensures Upper(a[i]) in Spelled(b) {
      assert Canonical(a[i]) == Some(Upper(a[i])) && Upper(a[i]) in SortedSet(CanonicalSet(a, |a|));
      var k :| 0 <= k < |b| && Canonical(b[k]) == Some(Upper(a[i]));
    }
  }

  method NormalizeAssets(ids: seq<string>) returns (r: Option<seq<string>>)
    ensures r == if AllCanonical(ids) then Some(SortedSet(CanonicalSet(ids, |ids|))) else None
  {
    var found: set<string> := {};
    for i := 0 to |ids|
      invariant AllCanonical(ids[..i]) && found == CanonicalSet(ids, i)
    {
      match Canonical(ids[i]) {
        case None => return None;
        case Some(id) => found := found + {id};
      }
    }
    assert ids[..|ids|] == ids;
    var sorted := SortedElements(found);
    r := Some(sorted);
  }

  method NormalizeKey(ids: seq<string>, startDate: int, endDate: int, asOf: Timestamp)
    returns (r: Result<Key, FmpError>)
    ensures r == KeyFor(ids, startDate, endDate, asOf)
  {
    match asOf {
      case Naive(_) => return Err(NaiveTimestamp);
      case Aware(instant) =>
        if endDate < startDate {
          return Err(EmptyWindow);
        }
        if endDate > instant / DAY {
          return Err(WindowExceedsCutoff);
        }
        var assets := NormalizeAssets(ids);
        match assets {
          case None => r := Err(NotCanonical);
          case Some(sorted) => r := Ok(Key(sorted, startDate, endDate, instant));
        }
    }
  }

  // ----- the provider -----

  /** The uncached acquisition: four endpoint calls per asset, then the acquisition clock; either may fail. */
  class Provider {
    constructor () {}

    method Acquire(key: Key) returns (r: Option<seq<Record>>)
      ensures r.Some? ==> forall x :: x in r.value ==> fresh(x)
    {
      var response: Option<seq<Values>> := *;
      match response {
        case None => r := None;
        case Some(values) =>
          var records := NewRecords(values);
          r := Some(records);
      }
    }
  }

  // ----- the cache -----

  class FinancialModelingPrepAdapter {
    const provider: Provider

    var snapshots: map<Key, seq<Record>>
    var externalAcquisitionCount: nat
    var snapshotReuseCount: nat

    /** What each key delivered first; calls past validation; acquisitions that failed; owned objects. */
    ghost var acquired: map<Key, seq<Values>>
    ghost var validated: nat
    ghost var failures: nat
    ghost var Repr: set<object>

    /** The owned records hold what each key delivered first. */
    ghost predicate Stored()
      reads this, Repr
    {
      && this in Repr
      && (forall k :: k in snapshots <==> k in acquired)
      && (forall k :: k in snapshots ==> forall r :: r in snapshots[k] ==> r in Repr)
      && (forall k :: k in snapshots ==> Contents(snapshots[k]) == acquired[k])
    }

    ghost predicate Valid()
      reads this, Repr
    {
      && Stored()
      && externalAcquisitionCount == |acquired| + failures
      && externalAcquisitionCount + snapshotReuseCount == validated
    }

    constructor (provider: Provider)
      ensures Valid() && fresh(Repr) && acquired == map[] && validated == 0
    {
      this.provider := provider;
      snapshots, externalAcquisitionCount, snapshotReuseCount := map[], 0, 0;
      acquired, validated, failures, Repr := map[], 0, 0, {this};
    }

    /**
     Memoized fetch: a key acquired before delivers what it delivered first, in records that the
     caller owns alone.
     */
    method FetchFundamentalsRangeAt(ids: seq<string>, startDate: int, endDate: int, asOf: Timestamp)
      returns (r: Result<seq<Record>, FmpError>)
      requires Valid()
      modifies this
      ensures Valid() && fresh(Repr - old(Repr)) && old(Repr) <= Repr
      ensures r.Ok? ==> forall x :: x in r.value ==> fresh(x) && x !in Repr
      ensures match KeyFor(ids, startDate, endDate, asOf)
              case Err(e) => r == Err(e) && acquired == old(acquired) && validated == old(validated)
                && snapshotReuseCount == old(snapshotReuseCount)
              case Ok(key) =>
                validated == old(validated) + 1 &&
                if key in old(acquired) then
                  && r.Ok? && Contents(r.value) == old(acquired)[key] && acquired == old(acquired)
                  && externalAcquisitionCount == old(externalAcquisitionCount)
                  && snapshotReuseCount == old(snapshotReuseCount) + 1
                else
                  && externalAcquisitionCount == old(externalAcquisitionCount) + 1
                  && snapshotReuseCount == old(snapshotReuseCount)
                  && acquired == if r.Ok? then old(acquired)[key := Contents(r.value)] else old(acquired)
    {
      var checked := NormalizeKey(ids, startDate, endDate, asOf);
      match checked {
        case Err(e) => r := Err(e);
        case Ok(key) => r := Deliver(key);
      }
    }

    method Deliver(key: Key) returns (r: Result<seq<Record>, FmpError>)
      requires Valid()
      modifies this
      ensures Valid() && fresh(Repr - old(Repr)) && old(Repr) <= Repr
      ensures r.Ok? ==> forall x :: x in r.value ==> fresh(x) && x !in Repr
      ensures validated == old(validated) + 1
      ensures key in old(acquired) ==>
                && r.Ok? && Contents(r.value) == old(acquired)[key] && acquired == old(acquired)
                && externalAcquisitionCount == old(externalAcquisitionCount)
                && snapshotReuseCount == old(snapshotReuseCount) + 1
      ensures key !in old(acquired) ==>
                && externalAcquisitionCount == old(externalAcquisitionCount) + 1
                && snapshotReuseCount == old(snapshotReuseCount)
                && acquired == if r.Ok? then old(acquired)[key := Contents(r.value)] else old(acquired)
    {
      validated := validated + 1;
      if key in snapshots {
        snapshotReuseCount := snapshotReuseCount + 1;
        var copies := DeepCopy(snapshots[key]);
        r := Ok(copies);
      } else {
        r := Store(key);
      }
    }

    method Keep(key: Key, records: seq<Record>)
      requires Stored()
      modifies this`snapshots, this`acquired, this`Repr
      ensures Stored() && fresh(Repr - old(Repr)) && old(Repr) <= Repr
      ensures acquired == old(acquired)[key := Contents(records)]
    {
      var kept := DeepCopy(records);
      snapshots := snapshots[key := kept];
      acquired := acquired[key := Contents(kept)];
      Repr := Repr + set x | x in kept;
    }

    /** An acquisition: its records go to the caller, and copies of them to the cache. */
    method Store(key: Key) returns (r: Result<seq<Record>, FmpError>)
      requires Stored() && key !in snapshots
      requires externalAcquisitionCount == |acquired| + failures
      requires externalAcquisitionCount + snapshotReuseCount + 1 == validated
      modifies this
      ensures Valid() && fresh(Repr - old(Repr)) && old(Repr) <= Repr && validated == old(validated)
      ensures r.Ok? ==> forall x :: x in r.value ==> fresh(x) && x !in Repr
      ensures externalAcquisitionCount == old(externalAcquisitionCount) + 1
      ensures snapshotReuseCount == old(snapshotReuseCount)
      ensures acquired == if r.Ok? then old(acquired)[key := Contents(r.value)] else old(acquired)
    {
      externalAcquisitionCount := externalAcquisitionCount + 1;
      var response := provider.Acquire(key);
      match response {
        case None =>
          failures := failures + 1;
          r := Err(ProviderUnavailable);
        case Some(records) =>
          Keep(key, records);
          var copies := DeepCopy(records);
          r := Ok(copies);
      }
    }

    /** The snapshot behind an exact contract, shared and not copied. */
    method AcquisitionSnapshot(ids: seq<string>, startDate: int, endDate: int, cutoff: Timestamp)
      returns (r: Result<Option<seq<Record>>, FmpError>)
      requires Valid()
      ensures match r
              case Err(e) => e == if !AllCanonical(ids) then NotCanonical else NaiveTimestamp
              case Ok(found) =>
                && AllCanonical(ids) && cutoff.Aware?
                && var key := Key(SortedSet(CanonicalSet(ids, |ids|)), startDate, endDate, cutoff.instant);
                   (found.Some? <==> key in acquired) && (found.Some? ==> Contents(found.value) == acquired[key])
    {
      var assets := NormalizeAssets(ids);
      match assets {
        case None => r := Err(NotCanonical);
        case Some(sorted) =>
          match cutoff {
            case Naive(_) => r := Err(NaiveTimestamp);
            case Aware(instant) =>
              var key := Key(sorted, startDate, endDate, instant);
              r := Ok(if key in snapshots then Some(snapshots[key]) else None);
          }
      }
    }
  }

  /** A caller's own changes to returned records. */
  method Tamper(records: seq<Record>, values: Values)
    modifies records
    ensures forall r :: r in records ==> r.values == values
  {
    for i := 0 to |records|
      invariant forall k :: 0 <= k < i ==> records[k].values == values
    {
      records[i].values := values;
    }
  }

  /**
   Isolation: after any overwriting of what a fetch returned, a second request for the same assets,
   however spelled, still delivers what the first one did.
   */
  method FetchTamperFetch(adapter: FinancialModelingPrepAdapter, ids: seq<string>, respelled: seq<string>,
                          startDate: int, endDate: int, asOf: Timestamp, values: Values)
    returns (first: Option<seq<Values>>, second: Result<seq<Record>, FmpError>)
    requires adapter.Valid() && Spelled(ids) == Spelled(respelled)
    modifies adapter
    ensures adapter.Valid()
    ensures first.Some? ==> second.Ok? && Contents(second.value) == first.value
    ensures first.Some? ==> adapter.snapshotReuseCount > old(adapter.snapshotReuseCount)
  {
    var fetched := adapter.FetchFundamentalsRangeAt(ids, startDate, endDate, asOf);
    first := None;
    if fetched.Ok? {
      first := Some(Contents(fetched.value));
      Tamper(fetched.value, values);
    }
    assert adapter.Valid();
    KeyIgnoresSpelling(ids, respelled, startDate, endDate, asOf);
    second := adapter.FetchFundamentalsRangeAt(respelled, startDate, endDate, asOf);
  }
}
