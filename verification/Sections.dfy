/**
 Presentation sections: Claims are regrouped into named lists of texts and their bindings are
 renumbered, so that every binding's path leads back to its own text.
 */
module Sections {
  import opened Sequences
  import opened Scanner
  import opened Decimals
  import opened Json

  /** The lists of a role, found under "analysis" when `nested`. */
  datatype Shape = Shape(nested: bool, sections: seq<string>) {
    predicate Valid() {
      && Distinct(sections)
      && forall s :: s in sections ==> s != "" && '.' !in s && '[' !in s
    }

    function Prefix(): string { if nested then "analysis." else "" }

    function Path(section: string, index: nat): string {
      Prefix() + section + "[" + Numeral(index) + "]"
    }
  }

  // ----- decimal numerals -----

  function Numeral(n: nat): (s: string)
    ensures s != "" && AllDigits(s)
  {
    if n < 10 then [(n + '0' as int) as char] else Numeral(n / 10) + [(n % 10 + '0' as int) as char]
  }

  lemma {:induction false} NumeralValue(n: nat)
    ensures DigitsValue(Numeral(n)) == n
  {
    if n < 10 {
      assert Numeral(n)[..0] == "";
    } else {
      NumeralValue(n / 10);
      assert Numeral(n)[..|Numeral(n)| - 1] == Numeral(n / 10);
    }
  }

  // ----- cutting strings -----

  function Find(s: string, c: char): (k: nat)
    ensures k <= |s| && c !in s[..k] && (k < |s| ==> s[k] == c)
  {
    if s == "" || s[0] == c then 0
    else
      var k := Find(s[1..], c);
      assert s[..k + 1] == [s[0]] + s[1..][..k];
      k + 1
  }

  lemma {:induction false} FindFirst(a: string, c: char, b: string)
    requires c !in a
    ensures Find(a + [c] + b, c) == |a|
  {
    if a != "" {
      assert (a + [c] + b)[1..] == a[1..] + [c] + b;
      FindFirst(a[1..], c, b);
    }
  }

  lemma {:induction false} FindNone(a: string, c: char)
    requires c !in a
    ensures Find(a, c) == |a|
  {
    if a != "" {
      FindNone(a[1..], c);
    }
  }

  function Before(s: string, c: char): string { s[..Find(s, c)] }

  function After(s: string, c: char): string {
    if Find(s, c) < |s| then s[Find(s, c) + 1..] else ""
  }

  function Split(s: string, c: char): seq<string>
    decreases |s|
  {
    if Find(s, c) == |s| then [s] else [Before(s, c)] + Split(After(s, c), c)
  }

  // ----- reading a value at an indexed path -----

  datatype Step = Step(key: string, index: Option<nat>)

  /** One path component: a key without brackets, then possibly one bracketed index. */
  function ParseStep(part: string): Option<Step> {
    var key := Before(part, '[');
    var rest := part[|key|..];
    if key == "" then None
    else if rest == "" then Some(Step(key, None))
    else if |rest| > 2 && rest[|rest| - 1] == ']' && AllDigits(rest[1..|rest| - 1]) then
      Some(Step(key, Some(DigitsValue(rest[1..|rest| - 1]))))
    else None
  }

  function Follow(j: Json, step: Step): Json
    requires IsDict(j)
  {
    var v := Member(j, step.key);
    if step.index.None? then v
    else if v.Arr? && step.index.value < |v.items| then v.items[step.index.value]
    else Null
  }

  function ValueAtParts(j: Json, parts: seq<string>): Json
    decreases |parts|
  {
    if parts == [] then j
    else
      var step := ParseStep(parts[0]);
      if step.None? || !IsDict(j) then Null else ValueAtParts(Follow(j, step.value), parts[1..])
  }

  /** `Null` stands for Python's `None`. */
  function ValueAtIndexedPath(j: Json, path: string): Json { ValueAtParts(j, Split(path, '.')) }

  lemma ParseIndexed(section: string, index: nat)
    requires section != "" && '[' !in section
    ensures ParseStep(section + "[" + Numeral(index) + "]") == Some(Step(section, Some(index)))
  {
    var digits := Numeral(index);
    var part := section + "[" + digits + "]";
    assert part == section + ['['] + (digits + "]");
    FindFirst(section, '[', digits + "]");
    var rest := "[" + digits + "]";
    assert Before(part, '[') == section;
    assert part[|section|..] == rest;
    assert rest[1..|rest| - 1] == digits;
    NumeralValue(index);
  }

  lemma NoPointInDigits(s: string, c: char)
    requires AllDigits(s) && !IsDigit(c)
    ensures c !in s
  {}

  lemma SplitLeaf(leaf: string)
    requires '.' !in leaf
    ensures Split(leaf, '.') == [leaf]
  {
    FindNone(leaf, '.');
  }

  lemma SplitNested(leaf: string)
    requires '.' !in leaf
    ensures Split("analysis" + ['.'] + leaf, '.') == ["analysis", leaf]
  {
    var path := "analysis" + ['.'] + leaf;
    FindFirst("analysis", '.', leaf);
    assert path[..8] == "analysis" && path[9..] == leaf;
    SplitLeaf(leaf);
  }

  lemma SplitPath(shape: Shape, section: string, index: nat)
    requires '.' !in section
    ensures var leaf := section + "[" + Numeral(index) + "]";
            Split(shape.Path(section, index), '.') == if shape.nested then ["analysis", leaf] else [leaf]
  {
    var leaf := section + "[" + Numeral(index) + "]";
    NoPointInDigits(Numeral(index), '.');
    assert '.' !in leaf;
    if shape.nested {
      assert shape.Path(section, index) == "analysis" + ['.'] + leaf;
      SplitNested(leaf);
    } else {
      assert shape.Path(section, index) == leaf;
      SplitLeaf(leaf);
    }
  }

  // ----- regrouping -----

  /** The section a Claim path names: what stands between the first point and the first bracket. */
  function SectionName(shape: Shape, path: string): string {
    Before(if shape.nested then After(path, '.') else path, '[')
  }

  /** A path that the role's schema admits: a section's prefix, digits, and a closing bracket. */
  predicate Legal(shape: Shape, path: string) {
    exists k :: 0 <= k < |shape.sections| && IsPath(shape, path, shape.sections[k])
  }

  predicate IsPath(shape: Shape, path: string, section: string) {
    var opening := shape.Prefix() + section + "[";
    && |path| > |opening| + 1
    && opening <= path
    && path[|path| - 1] == ']'
    && AllDigits(path[|opening|..|path| - 1])
  }

  lemma SectionOfPath(shape: Shape, path: string, section: string)
    requires IsPath(shape, path, section) && '.' !in section && '[' !in section
    ensures SectionName(shape, path) == section
  {
    var rest := path[|shape.Prefix() + section + "["|..];
    var tail := section + ['['] + rest;
    FindFirst(section, '[', rest);
    if shape.nested {
      assert path == "analysis" + ['.'] + tail;
      FindFirst("analysis", '.', tail);
      assert path[9..] == tail;
    } else {
      assert path == tail;
    }
  }

  lemma LegalSection(shape: Shape, path: string)
    requires shape.Valid() && Legal(shape, path)
    ensures SectionName(shape, path) in shape.sections
  {
    var k :| 0 <= k < |shape.sections| && IsPath(shape, path, shape.sections[k]);
    SectionOfPath(shape, path, shape.sections[k]);
  }

  predicate AllLegal(shape: Shape, claims: seq<Binding>) {
    forall c :: c in claims ==> Legal(shape, c.path)
  }

  /** The section each Claim goes to. */
  type Naming = Binding -> string

  function NamingOf(shape: Shape): Naming { (c: Binding) => SectionName(shape, c.path) }

  /** The texts that the first `n` Claims put into one section, in order. */
  function TextsIn(naming: Naming, claims: seq<Binding>, n: nat, section: string): seq<string>
    requires n <= |claims|
  {
    if n == 0 then []
    else
      TextsIn(naming, claims, n - 1, section)
      + if naming(claims[n - 1]) == section then [claims[n - 1].text] else []
  }

  type Lists = map<string, seq<string>>

  function SectionLists(sections: seq<string>, naming: Naming, claims: seq<Binding>): Lists {
    map s | s in sections :: TextsIn(naming, claims, |claims|, s)
  }

  /** The position that Claim `i` takes in its section. */
  function Position(naming: Naming, claims: seq<Binding>, i: nat): nat
    requires i < |claims|
  {
    |TextsIn(naming, claims, i, naming(claims[i]))|
  }

  /** What a role makes of a Claim, given its section and its position there. */
  type Completion = (Binding, string, nat) -> Binding

  function Rebound(naming: Naming, complete: Completion, claims: seq<Binding>, n: nat): (r: seq<Binding>)
    requires n <= |claims|
    ensures |r| == n
  {
    if n == 0 then []
    else
      Rebound(naming, complete, claims, n - 1)
      + [complete(claims[n - 1], naming(claims[n - 1]), Position(naming, claims, n - 1))]
  }

  lemma {:induction false} ReboundAt(naming: Naming, complete: Completion, claims: seq<Binding>, n: nat, i: nat)
    requires i < n <= |claims|
    ensures Rebound(naming, complete, claims, n)[i]
         == complete(claims[i], naming(claims[i]), Position(naming, claims, i))
    decreases n
  {
    if i < n - 1 {
      ReboundAt(naming, complete, claims, n - 1, i);
    }
  }

  /** The texts of each section among the first `n` Claims. */
  function Tally(naming: Naming, claims: seq<Binding>, n: nat): string -> seq<string>
    requires n <= |claims|
  {
    (s: string) => TextsIn(naming, claims, n, s)
  }

  /** Lists and counters hold these texts and their numbers. */
  ghost predicate Tallied(sections: seq<string>, tally: string -> seq<string>, lists: Lists,
                          counters: map<string, nat>)
  {
    && (forall s :: s in lists <==> s in sections) && (forall s :: s in counters <==> s in sections)
    && (forall s :: s in lists ==> lists[s] == tally(s))
    && (forall s :: s in counters ==> counters[s] == |tally(s)|)
  }

  lemma TallyNext(naming: Naming, claims: seq<Binding>, n: nat, section: string)
    requires n < |claims| && section == naming(claims[n])
    ensures Tally(naming, claims, n + 1)(section) == Tally(naming, claims, n)(section) + [claims[n].text]
    ensures forall s :: s != section ==> Tally(naming, claims, n + 1)(s) == Tally(naming, claims, n)(s)
    ensures |Tally(naming, claims, n)(section)| == Position(naming, claims, n)
  {}

  lemma TalliedNext(sections: seq<string>, before: string -> seq<string>, after: string -> seq<string>, lists: Lists,
                    counters: map<string, nat>, section: string, text: string)
    requires Tallied(sections, before, lists, counters) && section in sections
    requires after(section) == before(section) + [text] && forall s :: s != section ==> after(s) == before(s)
    ensures section in lists && section in counters && counters[section] == |before(section)|
    ensures Tallied(sections, after, lists[section := lists[section] + [text]],
                    counters[section := counters[section] + 1])
  {}

  lemma TalliedLists(sections: seq<string>, naming: Naming, claims: seq<Binding>, lists: Lists,
                     counters: map<string, nat>)
    requires Tallied(sections, Tally(naming, claims, |claims|), lists, counters)
    ensures lists == SectionLists(sections, naming, claims)
  {}

  method NormalizeClaimResponse(sections: seq<string>, naming: Naming, complete: Completion, claims: seq<Binding>)
    returns (lists: Lists, bindings: seq<Binding>)
    requires forall c :: c in claims ==> naming(c) in sections
    ensures lists == SectionLists(sections, naming, claims)
    ensures bindings == Rebound(naming, complete, claims, |claims|)
  {
    lists := map s | s in sections :: [];
    var counters: map<string, nat> := map s | s in sections :: 0;
    bindings := [];
    for i := 0 to |claims|
      invariant Tallied(sections, Tally(naming, claims, i), lists, counters)
      invariant bindings == Rebound(naming, complete, claims, i)
    {
      var section := naming(claims[i]);
      TallyNext(naming, claims, i, section);
      TalliedNext(sections, Tally(naming, claims, i), Tally(naming, claims, i + 1), lists, counters, section,
                  claims[i].text);
      var index := counters[section];
      counters := counters[section := index + 1];
      lists := lists[section := lists[section] + [claims[i].text]];
      bindings := bindings + [complete(claims[i], section, index)];
    }
    TalliedLists(sections, naming, claims, lists, counters);
  }

  function SectionPaths(shape: Shape, section: string, n: nat): (r: seq<string>)
    ensures |r| == n
    ensures forall i :: 0 <= i < n ==> r[i] == shape.Path(section, i)
  {
    seq(n, i requires 0 <= i < n => shape.Path(section, i))
  }

  predicate HasSections(shape: Shape, lists: Lists) { forall s :: s in shape.sections ==> s in lists }

  function PathsUpTo(shape: Shape, lists: Lists, k: nat): seq<string>
    requires k <= |shape.sections| && HasSections(shape, lists)
  {
    if k == 0 then []
    else
      var s := shape.sections[k - 1];
      PathsUpTo(shape, lists, k - 1) + SectionPaths(shape, s, |lists[s]|)
  }

  /** The paths of all texts, section after section. */
  function TextPaths(shape: Shape, lists: Lists): seq<string>
    requires HasSections(shape, lists)
  {
    PathsUpTo(shape, lists, |shape.sections|)
  }

  predicate IsTextPath(shape: Shape, lists: Lists, path: string, k: nat)
    requires k <= |shape.sections| && HasSections(shape, lists)
  {
    exists j, i :: 0 <= j < k && 0 <= i < |lists[shape.sections[j]]| && path == shape.Path(shape.sections[j], i)
  }

  lemma {:induction false} PathsUpToMembers(shape: Shape, lists: Lists, k: nat, path: string)
    requires k <= |shape.sections| && HasSections(shape, lists)
    ensures path in PathsUpTo(shape, lists, k) <==> IsTextPath(shape, lists, path, k)
  {
    if k > 0 {
      PathsUpToMembers(shape, lists, k - 1, path);
      var s := shape.sections[k - 1];
      if path in SectionPaths(shape, s, |lists[s]|) {
        var i :| 0 <= i < |lists[s]| && SectionPaths(shape, s, |lists[s]|)[i] == path;
      }
      if i :| 0 <= i < |lists[s]| && path == shape.Path(s, i) {
        assert SectionPaths(shape, s, |lists[s]|)[i] == path;
      }
    }
  }

  lemma TextPathsMembers(shape: Shape, lists: Lists, path: string)
    requires HasSections(shape, lists)
    ensures path in TextPaths(shape, lists) <==>
              exists s, i :: s in shape.sections && 0 <= i < |lists[s]| && path == shape.Path(s, i)
  {
    PathsUpToMembers(shape, lists, |shape.sections|, path);
  }

  // ----- every Claim gives one text -----

  function TextCount(naming: Naming, claims: seq<Binding>, n: nat, sections: seq<string>, k: nat): nat
    requires n <= |claims| && k <= |sections|
  {
    if k == 0 then 0
    else TextCount(naming, claims, n, sections, k - 1) + |TextsIn(naming, claims, n, sections[k - 1])|
  }

  lemma {:induction false} TextCountStep(naming: Naming, claims: seq<Binding>, n: nat, sections: seq<string>, k: nat)
    requires 0 < n <= |claims| && k <= |sections| && Distinct(sections)
    ensures TextCount(naming, claims, n, sections, k) == TextCount(naming, claims, n - 1, sections, k)
              + if naming(claims[n - 1]) in sections[..k] then 1 else 0
  {
    if k > 0 {
      TextCountStep(naming, claims, n, sections, k - 1);
      assert sections[..k] == sections[..k - 1] + [sections[k - 1]];
    }
  }

  lemma {:induction false} TextCountIsClaims(naming: Naming, claims: seq<Binding>, n: nat, sections: seq<string>)
    requires n <= |claims| && Distinct(sections) && forall c :: c in claims ==> naming(c) in sections
    ensures TextCount(naming, claims, n, sections, |sections|) == n
  {
    if n > 0 {
      TextCountIsClaims(naming, claims, n - 1, sections);
      TextCountStep(naming, claims, n, sections, |sections|);
      assert sections[..|sections|] == sections;
    } else {
      NoClaimsNoTexts(naming, claims, sections, |sections|);
    }
  }

  lemma {:induction false} NoClaimsNoTexts(naming: Naming, claims: seq<Binding>, sections: seq<string>, k: nat)
    requires k <= |sections|
    ensures TextCount(naming, claims, 0, sections, k) == 0
  {
    if k > 0 {
      NoClaimsNoTexts(naming, claims, sections, k - 1);
    }
  }

  lemma {:induction false} PathCount(shape: Shape, claims: seq<Binding>, k: nat)
    requires k <= |shape.sections|
    ensures |PathsUpTo(shape, SectionLists(shape.sections, NamingOf(shape), claims), k)|
         == TextCount(NamingOf(shape), claims, |claims|, shape.sections, k)
  {
    if k > 0 {
      PathCount(shape, claims, k - 1);
    }
  }

  lemma OneTextPerClaim(shape: Shape, claims: seq<Binding>)
    requires shape.Valid() && AllLegal(shape, claims)
    ensures |TextPaths(shape, SectionLists(shape.sections, NamingOf(shape), claims))| == |claims|
  {
    var naming := NamingOf(shape);
    forall c | c in claims ensures naming(c) in shape.sections {
      LegalSection(shape, c.path);
    }
    PathCount(shape, claims, |shape.sections|);
    TextCountIsClaims(naming, claims, |claims|, shape.sections);
  }

  /** Different sections or indices have different paths. */
  lemma PathInjective(shape: Shape, s: string, i: nat, s': string, i': nat)
    requires '.' !in s && '[' !in s && '.' !in s' && '[' !in s' && s != "" && s' != ""
    requires shape.Path(s, i) == shape.Path(s', i')
    ensures s == s' && i == i'
  {
    SplitPath(shape, s, i);
    SplitPath(shape, s', i');
    ParseIndexed(s, i);
    ParseIndexed(s', i');
  }

  // ----- the round trip -----

  /** The completion moves a Claim to its new path and keeps its text. */
  ghost predicate Relocates(shape: Shape, complete: Completion) {
    forall c, section, i ::
      complete(c, section, i).path == shape.Path(section, i) && complete(c, section, i).text == c.text
  }

  function BodyFields(shape: Shape, lists: Lists, n: nat): seq<Field>
    requires n <= |shape.sections| && HasSections(shape, lists)
  {
    if n == 0 then []
    else BodyFields(shape, lists, n - 1) + [Field(shape.sections[n - 1], Arr(Texts(lists[shape.sections[n - 1]])))]
  }

  /** A response: its lists, then whatever else stands beside them and at the top level. */
  function ResponseJson(shape: Shape, lists: Lists, beside: seq<Field>, top: seq<Field>): Json
    requires HasSections(shape, lists)
  {
    var body := BodyFields(shape, lists, |shape.sections|) + beside;
    if shape.nested then Obj([Field("analysis", Obj(body))] + top) else Obj(body + top)
  }

  lemma {:induction false} GetAt(fields: seq<Field>, k: nat)
    requires k < |fields| && forall i :: 0 <= i < k ==> fields[i].key != fields[k].key
    ensures Get(fields, fields[k].key) == fields[k].value
  {
    if k > 0 {
      GetAt(fields[1..], k - 1);
    }
  }

  lemma {:induction false} BodyFieldsAt(shape: Shape, lists: Lists, n: nat)
    requires n <= |shape.sections| && HasSections(shape, lists)
    ensures |BodyFields(shape, lists, n)| == n
    ensures forall k :: 0 <= k < n ==>
              BodyFields(shape, lists, n)[k] == Field(shape.sections[k], Arr(Texts(lists[shape.sections[k]])))
  {
    if n > 0 {
      BodyFieldsAt(shape, lists, n - 1);
    }
  }

  lemma SectionOfBody(shape: Shape, lists: Lists, rest: seq<Field>, s: string)
    requires shape.Valid() && s in shape.sections && HasSections(shape, lists)
    ensures Get(BodyFields(shape, lists, |shape.sections|) + rest, s) == Arr(Texts(lists[s]))
  {
    var k :| 0 <= k < |shape.sections| && shape.sections[k] == s;
    BodyFieldsAt(shape, lists, |shape.sections|);
    GetAt(BodyFields(shape, lists, |shape.sections|) + rest, k);
  }

  lemma StepThrough(j: Json, parts: seq<string>, step: Step)
    requires parts != [] && ParseStep(parts[0]) == Some(step) && IsDict(j)
    ensures ValueAtParts(j, parts) == ValueAtParts(Follow(j, step), parts[1..])
  {}

  lemma ParseAnalysis()
    ensures ParseStep("analysis") == Some(Step("analysis", None))
  {
    FindNone("analysis", '[');
    assert "analysis"[..8] == "analysis";
  }

  lemma TextInBody(shape: Shape, lists: Lists, rest: seq<Field>, s: string, i: nat)
    requires shape.Valid() && s in shape.sections && HasSections(shape, lists)
    requires i < |lists[s]|
    ensures ValueAtParts(Obj(BodyFields(shape, lists, |shape.sections|) + rest), [s + "[" + Numeral(i) + "]"])
         == Text(lists[s][i])
  {
    ParseIndexed(s, i);
    SectionOfBody(shape, lists, rest, s);
    StepThrough(Obj(BodyFields(shape, lists, |shape.sections|) + rest), [s + "[" + Numeral(i) + "]"], Step(s, Some(i)));
  }

  /** Looking up the path of a text finds the text. */
  lemma TextAtPath(shape: Shape, lists: Lists, beside: seq<Field>, top: seq<Field>, s: string, i: nat)
    requires shape.Valid() && s in shape.sections && HasSections(shape, lists)
    requires i < |lists[s]|
    ensures ValueAtIndexedPath(ResponseJson(shape, lists, beside, top), shape.Path(s, i)) == Text(lists[s][i])
  {
    var body := BodyFields(shape, lists, |shape.sections|);
    SplitPath(shape, s, i);
    if shape.nested {
      TextInBody(shape, lists, beside, s, i);
      AnalysisStep(Obj(body + beside), top, s + "[" + Numeral(i) + "]");
    } else {
      TextInBody(shape, lists, beside + top, s, i);
      assert body + beside + top == body + (beside + top);
    }
  }

  lemma AnalysisStep(body: Json, top: seq<Field>, leaf: string)
    ensures ValueAtParts(Obj([Field("analysis", body)] + top), ["analysis", leaf]) == ValueAtParts(body, [leaf])
  {
    var j := Obj([Field("analysis", body)] + top);
    ParseAnalysis();
    StepThrough(j, ["analysis", leaf], Step("analysis", None));
    assert ["analysis", leaf][1..] == [leaf];
  }

  lemma {:induction false} TextAtPosition(naming: Naming, claims: seq<Binding>, n: nat, i: nat)
    requires i < n <= |claims|
    ensures var texts := TextsIn(naming, claims, n, naming(claims[i]));
            Position(naming, claims, i) < |texts| && texts[Position(naming, claims, i)] == claims[i].text
    decreases n
  {
    if i < n - 1 {
      TextAtPosition(naming, claims, n - 1, i);
    }
  }

  lemma {:induction false} PositionTaken(naming: Naming, claims: seq<Binding>, n: nat, s: string, k: nat)
    requires n <= |claims| && k < |TextsIn(naming, claims, n, s)|
    ensures exists i :: 0 <= i < n && naming(claims[i]) == s && Position(naming, claims, i) == k
    decreases n
  {
    if k < |TextsIn(naming, claims, n - 1, s)| {
      PositionTaken(naming, claims, n - 1, s, k);
    } else {
      assert naming(claims[n - 1]) == s && Position(naming, claims, n - 1) == k;
    }
  }

  lemma PositionsDiffer(naming: Naming, claims: seq<Binding>, i: nat, j: nat)
    requires i < j < |claims| && naming(claims[i]) == naming(claims[j])
    ensures Position(naming, claims, i) < Position(naming, claims, j)
  {
    TextAtPosition(naming, claims, j, i);
  }

  /** What the strict validator relies on: distinct paths, all texts covered, and texts found again. */
  ghost predicate Addressed(shape: Shape, lists: Lists, bindings: seq<Binding>, beside: seq<Field>, top: seq<Field>)
    requires HasSections(shape, lists)
  {
    && (forall i, j :: 0 <= i < j < |bindings| ==> bindings[i].path != bindings[j].path)
    && (forall b :: b in bindings ==> b.path in TextPaths(shape, lists))
    && (forall path :: path in TextPaths(shape, lists) ==> exists b :: b in bindings && b.path == path)
    && (forall b :: b in bindings ==>
          ValueAtIndexedPath(ResponseJson(shape, lists, beside, top), b.path) == Text(b.text))
  }

  lemma ReboundPlace(shape: Shape, complete: Completion, claims: seq<Binding>, i: nat)
    requires Relocates(shape, complete) && i < |claims|
    ensures var naming := NamingOf(shape);
            var b := Rebound(naming, complete, claims, |claims|)[i];
            b.text == claims[i].text && b.path == shape.Path(naming(claims[i]), Position(naming, claims, i))
  {
    ReboundAt(NamingOf(shape), complete, claims, |claims|, i);
  }

  /** Regrouping Claims of legal sections gives lists and bindings that address each other exactly. */
  lemma RegroupingRoundTrip(shape: Shape, complete: Completion, claims: seq<Binding>, beside: seq<Field>,
                            top: seq<Field>)
    requires shape.Valid() && Relocates(shape, complete) && AllLegal(shape, claims)
    ensures var naming := NamingOf(shape);
            Addressed(shape, SectionLists(shape.sections, naming, claims),
                      Rebound(naming, complete, claims, |claims|), beside, top)
  {
    var naming := NamingOf(shape);
    var lists := SectionLists(shape.sections, naming, claims);
    var bindings := Rebound(naming, complete, claims, |claims|);
    forall i | 0 <= i < |claims|
      ensures naming(claims[i]) in shape.sections
      ensures bindings[i].path in TextPaths(shape, lists)
      ensures ValueAtIndexedPath(ResponseJson(shape, lists, beside, top), bindings[i].path) == Text(bindings[i].text)
    {
      PlacedClaim(shape, complete, claims, beside, top, i);
    }
    forall i, j | 0 <= i < j < |claims| ensures bindings[i].path != bindings[j].path {
      DistinctPlaces(shape, complete, claims, i, j);
    }
    forall path | path in TextPaths(shape, lists) ensures exists b :: b in bindings && b.path == path {
      TextPathsMembers(shape, lists, path);
      var s, k :| s in shape.sections && 0 <= k < |lists[s]| && path == shape.Path(s, k);
      PositionTaken(naming, claims, |claims|, s, k);
      var i :| 0 <= i < |claims| && naming(claims[i]) == s && Position(naming, claims, i) == k;
      ReboundPlace(shape, complete, claims, i);
      assert bindings[i] in bindings;
    }
  }

  lemma PlacedClaim(shape: Shape, complete: Completion, claims: seq<Binding>, beside: seq<Field>, top: seq<Field>,
                    i: nat)
    requires shape.Valid() && Relocates(shape, complete) && AllLegal(shape, claims) && i < |claims|
    ensures var naming := NamingOf(shape);
            var lists := SectionLists(shape.sections, naming, claims);
            var b := Rebound(naming, complete, claims, |claims|)[i];
            && naming(claims[i]) in shape.sections
            && b.path in TextPaths(shape, lists)
            && ValueAtIndexedPath(ResponseJson(shape, lists, beside, top), b.path) == Text(b.text)
  {
    var naming := NamingOf(shape);
    var lists := SectionLists(shape.sections, naming, claims);
    var s := naming(claims[i]);
    LegalSection(shape, claims[i].path);
    ReboundPlace(shape, complete, claims, i);
    TextAtPosition(naming, claims, |claims|, i);
    TextAtPath(shape, lists, beside, top, s, Position(naming, claims, i));
    TextPathsMembers(shape, lists, shape.Path(s, Position(naming, claims, i)));
  }

  lemma DistinctPlaces(shape: Shape, complete: Completion, claims: seq<Binding>, i: nat, j: nat)
    requires shape.Valid() && Relocates(shape, complete) && AllLegal(shape, claims) && i < j < |claims|
    ensures var bindings := Rebound(NamingOf(shape), complete, claims, |claims|);
            bindings[i].path != bindings[j].path
  {
    var naming := NamingOf(shape);
    LegalSection(shape, claims[i].path);
    LegalSection(shape, claims[j].path);
    ReboundPlace(shape, complete, claims, i);
    ReboundPlace(shape, complete, claims, j);
    var pi, pj := Position(naming, claims, i), Position(naming, claims, j);
    if shape.Path(naming(claims[i]), pi) == shape.Path(naming(claims[j]), pj) {
      PathInjective(shape, naming(claims[i]), pi, naming(claims[j]), pj);
      PositionsDiffer(naming, claims, i, j);
    }
  }
}
