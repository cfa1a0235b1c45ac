/** Selection of one filed fact per filing and field among the company facts of a regulator's archive. */
module SecFacts {
  import opened Sequences
  import opened Scanner

  datatype ReportType = TenQ | TenK

  datatype Candidate = Candidate(
    field: string, value: real, filedDate: int, periodEnd: int, periodStart: Option<int>,
    accession: string, reportType: ReportType, priority: nat)

  datatype Key = Key(accession: string, periodEnd: int, reportType: ReportType, filedDate: int)

  function KeyOf(c: Candidate): Key { Key(c.accession, c.periodEnd, c.reportType, c.filedDate) }

  // ----- preference -----

  function DurationDays(c: Candidate): int {
    match c.periodStart
    case None => 0
    case Some(start) => if c.periodEnd - start > 0 then c.periodEnd - start else 0
  }

  predicate Prefer(c: Candidate, selected: Candidate) {
    if c.priority != selected.priority then c.priority < selected.priority
    else if c.reportType == TenK then DurationDays(c) > DurationDays(selected)
    else DurationDays(c) < DurationDays(selected)
  }

  predicate Tied(a: Candidate, b: Candidate) { !Prefer(a, b) && !Prefer(b, a) }

  /** Within one report type preference is a strict weak order: asymmetric, transitive, ties transitive. */
  lemma PreferenceIsStrictWeakOrder(a: Candidate, b: Candidate, c: Candidate)
    requires a.reportType == b.reportType == c.reportType
    ensures !(Prefer(a, b) && Prefer(b, a))
    ensures Prefer(a, b) && Prefer(b, c) ==> Prefer(a, c)
    ensures Tied(a, b) && Tied(b, c) ==> Tied(a, c)
    ensures Tied(a, b) <==> a.priority == b.priority && DurationDays(a) == DurationDays(b)
  {}

  /**
   Across report types it is no order: two candidates are each preferred to the other exactly when
   they have one priority and the annual one is longer.  The fold never compares such candidates,
   since its key holds the report type.
   */
  lemma PreferenceNeedsOneReportType(annual: Candidate, quarterly: Candidate)
    requires annual.reportType == TenK && quarterly.reportType == TenQ
    ensures Prefer(annual, quarterly) && Prefer(quarterly, annual) <==>
              annual.priority == quarterly.priority && DurationDays(annual) > DurationDays(quarterly)
    ensures KeyOf(annual) != KeyOf(quarterly)
  {}

  // ----- the fold -----

  type Grouped = map<Key, map<string, Candidate>>

  function Fields(g: Grouped, key: Key): map<string, Candidate> { if key in g then g[key] else map[] }

  function Place(g: Grouped, c: Candidate): Grouped {
    var fields := Fields(g, KeyOf(c));
    if c.field !in fields || Prefer(c, fields[c.field]) then g[KeyOf(c) := fields[c.field := c]]
    else g[KeyOf(c) := fields]
  }

  function Fold(cs: seq<Candidate>): Grouped {
    if cs == [] then map[] else Place(Fold(cs[..|cs| - 1]), cs[|cs| - 1])
  }

  predicate Matches(c: Candidate, key: Key, field: string) { KeyOf(c) == key && c.field == field }

  /** `i` is the earliest matching candidate that no other matching candidate beats. */
  ghost predicate Chosen(cs: seq<Candidate>, key: Key, field: string, i: nat) {
    && i < |cs| && Matches(cs[i], key, field)
    && (forall j :: 0 <= j < |cs| && Matches(cs[j], key, field) ==> !Prefer(cs[j], cs[i]))
    && (forall j :: 0 <= j < i && Matches(cs[j], key, field) ==> Prefer(cs[i], cs[j]))
  }

  lemma ChosenKeeps(cs: seq<Candidate>, c: Candidate, key: Key, field: string, i: nat)
    requires Chosen(cs, key, field, i) && (!Matches(c, key, field) || !Prefer(c, cs[i]))
    ensures Chosen(cs + [c], key, field, i)
  {}

  lemma ChosenMoves(cs: seq<Candidate>, c: Candidate, key: Key, field: string, i: nat)
    requires Chosen(cs, key, field, i) && Matches(c, key, field) && Prefer(c, cs[i])
    ensures Chosen(cs + [c], key, field, |cs|)
  {
    var more := cs + [c];
    forall j | 0 <= j < |more| && Matches(more[j], key, field)
      ensures !Prefer(more[j], c) && (j < |cs| ==> Prefer(c, more[j]))
    {
      if j < |cs| {
        PreferenceIsStrictWeakOrder(c, cs[i], cs[j]);
        PreferenceIsStrictWeakOrder(cs[i], cs[j], c);
      }
    }
  }

  lemma ChosenFirst(cs: seq<Candidate>, c: Candidate, key: Key, field: string)
    requires Matches(c, key, field) && forall j :: 0 <= j < |cs| ==> !Matches(cs[j], key, field)
    ensures Chosen(cs + [c], key, field, |cs|)
  {}

  /** What the fold holds for a filing and a field. */
  function Slot(g: Grouped, key: Key, field: string): Option<Candidate> {
    if key in g && field in g[key] then Some(g[key][field]) else None
  }

  lemma PlaceSlot(g: Grouped, c: Candidate, key: Key, field: string)
    ensures Slot(Place(g, c), key, field)
         == var before := Slot(g, key, field);
            if Matches(c, key, field) && (before.None? || Prefer(c, before.value)) then Some(c) else before
  {}

  /** The slot is empty for want of a candidate, or holds the earliest unbeaten one. */
  ghost predicate Kept(cs: seq<Candidate>, key: Key, field: string, slot: Option<Candidate>) {
    match slot
    case None => forall i :: 0 <= i < |cs| ==> !Matches(cs[i], key, field)
    case Some(c) => exists i: nat :: Chosen(cs, key, field, i) && cs[i] == c
  }

  /** The fold keeps, per filing and field, the earliest unbeaten candidate, and nothing else. */
  lemma {:induction false} FoldChooses(cs: seq<Candidate>, key: Key, field: string)
    ensures Kept(cs, key, field, Slot(Fold(cs), key, field))
  {
    if cs != [] {
      var before, c := cs[..|cs| - 1], cs[|cs| - 1];
      FoldChooses(before, key, field);
      PlaceSlot(Fold(before), c, key, field);
      assert cs == before + [c];
      KeptNext(before, c, key, field, Slot(Fold(before), key, field));
    }
  }

  lemma KeptNext(before: seq<Candidate>, c: Candidate, key: Key, field: string, slot: Option<Candidate>)
    requires Kept(before, key, field, slot)
    ensures Kept(before + [c], key, field,
                 if Matches(c, key, field) && (slot.None? || Prefer(c, slot.value)) then Some(c) else slot)
  {
    var cs := before + [c];
    match slot {
      case None =>
        if Matches(c, key, field) {
          ChosenFirst(before, c, key, field);
          assert cs[|before|] == c;
        }
      case Some(x) =>
        var i: nat :| Chosen(before, key, field, i) && before[i] == x;
        if Matches(c, key, field) && Prefer(c, x) {
          ChosenMoves(before, c, key, field, i);
          assert cs[|before|] == c;
        } else {
          ChosenKeeps(before, c, key, field, i);
          assert cs[i] == x;
        }
    }
  }

  lemma KeptIsUnbeaten(cs: seq<Candidate>, key: Key, field: string, x: Candidate)
    requires Kept(cs, key, field, Some(x))
    ensures x in cs && Matches(x, key, field) && forall c :: c in cs && Matches(c, key, field) ==> !Prefer(c, x)
  {
    var i: nat :| Chosen(cs, key, field, i) && cs[i] == x;
    forall c | c in cs && Matches(c, key, field) ensures !Prefer(c, x) {
      var j :| 0 <= j < |cs| && cs[j] == c;
    }
  }

  lemma SameMembers<T>(a: seq<T>, b: seq<T>, x: T)
    requires multiset(a) == multiset(b)
    ensures x in a <==> x in b
  {
    assert x in a <==> x in multiset(a);
    assert x in b <==> x in multiset(b);
  }

  /** Whatever the order of the facts, the same slots are filled, with equally preferred candidates. */
  lemma RankIgnoresOrder(a: seq<Candidate>, b: seq<Candidate>, key: Key, field: string)
    requires multiset(a) == multiset(b)
    ensures var x, y := Slot(Fold(a), key, field), Slot(Fold(b), key, field);
            (x.Some? <==> y.Some?) && (x.Some? ==> x.value in a && y.value in a && Tied(x.value, y.value))
            && (x.Some? ==> Matches(x.value, key, field) && Matches(y.value, key, field))
  {
    var x, y := Slot(Fold(a), key, field), Slot(Fold(b), key, field);
    FoldChooses(a, key, field);
    FoldChooses(b, key, field);
    if x.Some? {
      KeptIsUnbeaten(a, key, field, x.value);
      SameMembers(a, b, x.value);
    }
    if y.Some? {
      KeptIsUnbeaten(b, key, field, y.value);
      SameMembers(a, b, y.value);
    }
  }

  /** Among candidates of different rank, the kept candidate itself does not depend on the order. */
  lemma ChoiceIgnoresOrder(a: seq<Candidate>, b: seq<Candidate>, key: Key, field: string)
    requires multiset(a) == multiset(b)
    requires forall x, y :: x in a && y in a && Matches(x, key, field) && Matches(y, key, field) && Tied(x, y) ==>
      x == y
    ensures Slot(Fold(a), key, field) == Slot(Fold(b), key, field)
  {
    RankIgnoresOrder(a, b, key, field);
  }

  /** Of two tied candidates the first one listed is kept: there the order does decide. */
  lemma TiesKeepTheFirst(x: Candidate, y: Candidate)
    requires KeyOf(x) == KeyOf(y) && x.field == y.field && Tied(x, y)
    ensures Slot(Fold([x, y]), KeyOf(x), x.field) == Some(x)
    ensures Slot(Fold([y, x]), KeyOf(x), x.field) == Some(y)
  {
    assert [x, y][..1] == [x] && [y, x][..1] == [y] && [x][..0] == [] == [y][..0];
    assert Fold([x]) == Place(map[], x) && Fold([y]) == Place(map[], y);
  }

  // ----- reading the facts -----

  datatype RawValue = Number(value: real) | NotNumeric | NotFinite

  datatype RawFact =
    | NotAnObject
    | Fact(form: string, filed: Option<int>, end: Option<int>, start: Option<int>, accession: string, value: RawValue)

  datatype Values = Absent | Misshapen | Listed(facts: seq<RawFact>)

  /** The values of one concept in its expected unit; a concept's priority is its rank for the field. */
  datatype Concept = Concept(field: string, priority: nat, values: Values)

  datatype FactError = ConceptMisshapen | FactMisshapen | FactUndated | ValueNotNumeric | ValueNotFinite

  function ReportTypeOf(form: string): Option<ReportType> {
    if form == "10-Q" || form == "10-Q/A" then Some(TenQ)
    else if form == "10-K" || form == "10-K/A" then Some(TenK)
    else None
  }

  predicate IsAccession(s: string) { |s| == 20 && Shape(s, 0, "dddddddddd-dd-dddddd") }

  datatype Window = Window(startDate: int, endDate: int)

  /** The candidate of one fact: none when its form or filing date is out of scope. */
  function FactCandidate(w: Window, concept: Concept, fact: RawFact): Result<Option<Candidate>, FactError> {
    match fact
    case NotAnObject => Err(FactMisshapen)
    case Fact(form, filed, end, start, accession, value) =>
      var reportType := ReportTypeOf(form);
      if reportType.None? || filed.None? || !(w.startDate <= filed.value <= w.endDate) then Ok(None)
      else if end.None? || !IsAccession(accession) then Err(FactUndated)
      else match value
        case NotNumeric => Err(ValueNotNumeric)
        case NotFinite => Err(ValueNotFinite)
        case Number(v) =>
          Ok(Some(Candidate(concept.field, v, filed.value, end.value, start, accession, reportType.value,
                            concept.priority)))
  }

  type Read = Result<seq<Candidate>, FactError>

  /** The candidates of the first `n` facts of a concept, after those read `before`. */
  function ReadFacts(w: Window, concept: Concept, facts: seq<RawFact>, before: seq<Candidate>, n: nat): Read
    requires n <= |facts|
  {
    if n == 0 then Ok(before)
    else match ReadFacts(w, concept, facts, before, n - 1)
      case Err(e) => Err(e)
      case Ok(cs) =>
        match FactCandidate(w, concept, facts[n - 1])
        case Err(e) => Err(e)
        case Ok(None) => Ok(cs)
        case Ok(Some(c)) => Ok(cs + [c])
  }

  function ReadConcepts(w: Window, concepts: seq<Concept>, n: nat): Read
    requires n <= |concepts|
  {
    if n == 0 then Ok([])
    else match ReadConcepts(w, concepts, n - 1)
      case Err(e) => Err(e)
      case Ok(cs) =>
        match concepts[n - 1].values
        case Absent => Ok(cs)
        case Misshapen => Err(ConceptMisshapen)
        case Listed(facts) => ReadFacts(w, concepts[n - 1], facts, cs, |facts|)
  }

  lemma {:induction false} ReadFactsFails(w: Window, concept: Concept, facts: seq<RawFact>, before: seq<Candidate>,
                                          i: nat, n: nat)
    requires i <= n <= |facts| && ReadFacts(w, concept, facts, before, i).Err?
    ensures ReadFacts(w, concept, facts, before, n) == ReadFacts(w, concept, facts, before, i)
    decreases n
  {
    if i < n {
      ReadFactsFails(w, concept, facts, before, i, n - 1);
    }
  }

  lemma {:induction false} ReadConceptsFails(w: Window, concepts: seq<Concept>, i: nat, n: nat)
    requires i <= n <= |concepts| && ReadConcepts(w, concepts, i).Err?
    ensures ReadConcepts(w, concepts, n) == ReadConcepts(w, concepts, i)
    decreases n
  {
    if i < n {
      ReadConceptsFails(w, concepts, i, n - 1);
    }
  }

  lemma FoldNext(cs: seq<Candidate>, c: Candidate)
    ensures Fold(cs + [c]) == Place(Fold(cs), c)
  {
    assert (cs + [c])[..|cs|] == cs;
  }

  method PlaceFacts(w: Window, concept: Concept, facts: seq<RawFact>, start: Grouped, ghost before: seq<Candidate>)
    returns (r: Result<Grouped, FactError>, ghost read: seq<Candidate>)
    requires start == Fold(before)
    ensures match ReadFacts(w, concept, facts, before, |facts|)
            case Err(e) => r == Err(e)
            case Ok(cs) => r == Ok(Fold(cs)) && read == cs
  {
    var grouped := start;
    read := before;
    for i := 0 to |facts|
      invariant ReadFacts(w, concept, facts, before, i) == Ok(read) && grouped == Fold(read)
    {
      match FactCandidate(w, concept, facts[i]) {
        case Err(e) =>
          ReadFactsFails(w, concept, facts, before, i + 1, |facts|);
          return Err(e), read;
        case Ok(None) =>
        case Ok(Some(c)) =>
          FoldNext(read, c);
          read := read + [c];
          var fields := Fields(grouped, KeyOf(c));
          if c.field !in fields || Prefer(c, fields[c.field]) {
            fields := fields[c.field := c];
          }
          grouped := grouped[KeyOf(c) := fields];
      }
    }
    r := Ok(grouped);
  }

  /** The grouped records: the fold of every candidate in reading order, or the first error met. */
  method FundamentalRecords(w: Window, concepts: seq<Concept>) returns (r: Result<Grouped, FactError>)
    ensures match ReadConcepts(w, concepts, |concepts|)
            case Err(e) => r == Err(e)
            case Ok(cs) => r == Ok(Fold(cs))
  {
    var grouped: Grouped := map[];
    ghost var read: seq<Candidate> := [];
    for i := 0 to |concepts|
      invariant ReadConcepts(w, concepts, i) == Ok(read) && grouped == Fold(read)
    {
      match concepts[i].values {
        case Absent =>
        case Misshapen =>
          ReadConceptsFails(w, concepts, i + 1, |concepts|);
          return Err(ConceptMisshapen);
        case Listed(facts) =>
          var placed;
          placed, read := PlaceFacts(w, concepts[i], facts, grouped, read);
          if placed.Err? {
            ReadConceptsFails(w, concepts, i + 1, |concepts|);
            return Err(placed.error);
          }
          grouped := placed.value;
      }
    }
    r := Ok(grouped);
  }
}
