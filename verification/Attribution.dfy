/** Which accepted Claims of an episode rest on which Sector Claims and radar events. */
module Attribution {
  import opened Sequences
  import opened Ordering

  datatype Claim = Claim(id: Option<string>, parents: seq<string>)

  /** The upstream ids of every known Claim. */
  type Graph = map<string, seq<string>>

  // ----- ancestry -----

  /**
   The Sector Claims first met on the way up from `id`.  `visited` is local to the path, so that a
   cycle ends a path without hiding other paths.
   */
  function Ancestors(g: Graph, sector: set<string>, id: string, visited: set<string>): set<string>
    decreases |g.Keys - visited|, 0
  {
    if id in visited then {}
    else if id in sector then {id}
    else if id !in g then {}
    else
      assert g.Keys - (visited + {id}) < g.Keys - visited by {
        assert id in g.Keys - visited;
      }
      SmallerSet(g.Keys - (visited + {id}), g.Keys - visited);
      AncestorsOf(g, sector, g[id], |g[id]|, visited + {id})
  }

  lemma SmallerSet<T>(a: set<T>, b: set<T>)
    requires a < b
    ensures |a| < |b|
  {
    assert b == a + (b - a) && b - a != {};
  }

  /** The union over the first `n` parents. */
  function AncestorsOf(g: Graph, sector: set<string>, parents: seq<string>, n: nat, visited: set<string>): set<string>
    requires n <= |parents|
    decreases |g.Keys - visited|, 1, n
  {
    if n == 0 then {}
    else AncestorsOf(g, sector, parents, n - 1, visited) + Ancestors(g, sector, parents[n - 1], visited)
  }

  lemma {:induction false} AncestorsOfMembers(g: Graph, sector: set<string>, parents: seq<string>, n: nat,
                                              visited: set<string>)
    requires n <= |parents|
    ensures forall s :: s in AncestorsOf(g, sector, parents, n, visited) <==>
              exists i :: 0 <= i < n && s in Ancestors(g, sector, parents[i], visited)
    decreases n
  {
    if n > 0 {
      AncestorsOfMembers(g, sector, parents, n - 1, visited);
    }
  }

  /** A way up the graph that ends at its first Sector Claim. */
  ghost predicate Path(g: Graph, sector: set<string>, p: seq<string>) {
    && p != [] && p[|p| - 1] in sector
    && forall i :: 0 <= i < |p| - 1 ==> p[i] !in sector && p[i] in g && p[i + 1] in g[p[i]]
  }

  ghost predicate Reaches(g: Graph, sector: set<string>, id: string, s: string) {
    exists p :: Path(g, sector, p) && p[0] == id && p[|p| - 1] == s
  }

  lemma {:induction false} AncestorIsReached(g: Graph, sector: set<string>, id: string, visited: set<string>, s: string)
    returns (p: seq<string>)
    requires s in Ancestors(g, sector, id, visited)
    ensures Path(g, sector, p) && p[0] == id && p[|p| - 1] == s
    decreases |g.Keys - visited|
  {
    if id in sector {
      p := [id];
    } else {
      AncestorsOfMembers(g, sector, g[id], |g[id]|, visited + {id});
      var i :| 0 <= i < |g[id]| && s in Ancestors(g, sector, g[id][i], visited + {id});
      assert id in g.Keys - visited;
      SmallerSet(g.Keys - (visited + {id}), g.Keys - visited);
      var rest := AncestorIsReached(g, sector, g[id][i], visited + {id}, s);
      p := [id] + rest;
    }
  }

  lemma {:induction false} LastOccurrence(p: seq<string>, x: string) returns (k: nat)
    requires x in p
    ensures k < |p| && p[k] == x && x !in p[k + 1..]
  {
    if p[|p| - 1] == x {
      k := |p| - 1;
    } else {
      assert p == p[..|p| - 1] + [p[|p| - 1]];
      k := LastOccurrence(p[..|p| - 1], x);
      assert p[k + 1..] == p[..|p| - 1][k + 1..] + [p[|p| - 1]];
    }
  }

  /** A path with cycles is cut at the last visit of its start, so it never meets its own past. */
  lemma {:induction false} ReachedIsAncestor(g: Graph, sector: set<string>, p: seq<string>, visited: set<string>)
    requires Path(g, sector, p) && forall x :: x in p ==> x !in visited
    ensures p[|p| - 1] in Ancestors(g, sector, p[0], visited)
    decreases |p|
  {
    if |p| > 1 {
      var k := LastOccurrence(p, p[0]);
      assert k < |p| - 1;
      var rest := p[k + 1..];
      assert rest[0] == p[k + 1] && rest[|rest| - 1] == p[|p| - 1];
      assert Path(g, sector, rest) by {
        forall i | 0 <= i < |rest| - 1 ensures rest[i] !in sector && rest[i] in g && rest[i + 1] in g[rest[i]] {
          assert rest[i] == p[k + 1 + i] && rest[i + 1] == p[k + 1 + (i + 1)];
        }
      }
      ReachedIsAncestor(g, sector, rest, visited + {p[0]});
      AncestorsOfMembers(g, sector, g[p[0]], |g[p[0]]|, visited + {p[0]});
      var i :| 0 <= i < |g[p[0]]| && g[p[0]][i] == rest[0];
    }
  }

  /** On every graph, cyclic or not, the search finds exactly the Sector Claims within reach. */
  lemma AncestorsAreReachable(g: Graph, sector: set<string>, id: string, s: string)
    ensures s in Ancestors(g, sector, id, {}) <==> Reaches(g, sector, id, s)
  {
    if s in Ancestors(g, sector, id, {}) {
      var p := AncestorIsReached(g, sector, id, {}, s);
    }
    if Reaches(g, sector, id, s) {
      var p :| Path(g, sector, p) && p[0] == id && p[|p| - 1] == s;
      ReachedIsAncestor(g, sector, p, {});
    }
  }

  // ----- the episode -----

  datatype Row = Row(runId: string, role: string, claims: seq<Claim>)
  datatype Event = Event(id: string, supporting: seq<string>)
  datatype Usage = Usage(role: string, claims: set<string>, events: set<string>)
  datatype Trace = Trace(runId: string, role: string)

  datatype Episode = Episode(sectorClaims: seq<Claim>, events: seq<Event>, rows: seq<Row>, usage: seq<Usage>,
                             traces: seq<Trace>)

  datatype ContextKind = SectorClaim | RadarEvent
  datatype Context = Context(kind: ContextKind, id: string)
  datatype Link = Link(role: string, runId: string, context: Context, claimId: string)

  type Identity = (string, Context, string)

  function IdentityOf(l: Link): Identity { (l.runId, l.context, l.claimId) }

  function SectorIds(claims: seq<Claim>, n: nat): set<string>
    requires n <= |claims|
  {
    if n == 0 then {}
    else SectorIds(claims, n - 1) + match claims[n - 1].id case Some(id) => {id} case None => {}
  }

  /** `g` updated with the first `n` Claims that have ids; the last Claim with an id is the one kept. */
  function WithClaims(g: Graph, claims: seq<Claim>, n: nat): Graph
    requires n <= |claims|
  {
    if n == 0 then g
    else
      var before := WithClaims(g, claims, n - 1);
      match claims[n - 1].id case Some(id) => before[id := claims[n - 1].parents] case None => before
  }

  function WithRows(g: Graph, rows: seq<Row>, n: nat): Graph
    requires n <= |rows|
  {
    if n == 0 then g else WithClaims(WithRows(g, rows, n - 1), rows[n - 1].claims, |rows[n - 1].claims|)
  }

  /** Every known Claim: the Sector Claims, then the accepted Claims of all runs. */
  function GraphOf(e: Episode): Graph {
    WithRows(WithClaims(map[], e.sectorClaims, |e.sectorClaims|), e.rows, |e.rows|)
  }

  function Sector(e: Episode): set<string> { SectorIds(e.sectorClaims, |e.sectorClaims|) }

  /** The last row of a run. */
  function RowOf(rows: seq<Row>, n: nat, runId: string): Option<Row>
    requires n <= |rows|
  {
    if n == 0 then None
    else if rows[n - 1].runId == runId then Some(rows[n - 1])
    else RowOf(rows, n - 1, runId)
  }

  function UsageOf(usage: seq<Usage>, n: nat, role: string): Option<Usage>
    requires n <= |usage|
  {
    if n == 0 then None
    else if usage[n - 1].role == role then Some(usage[n - 1])
    else UsageOf(usage, n - 1, role)
  }

  /** The events among the first `n` that a Sector Claim supports. */
  function Supported(events: seq<Event>, n: nat, sectorId: string): set<string>
    requires n <= |events|
  {
    if n == 0 then {}
    else Supported(events, n - 1, sectorId) + if sectorId in events[n - 1].supporting then {events[n - 1].id} else {}
  }

  lemma {:induction false} SupportedMembers(events: seq<Event>, n: nat, sectorId: string)
    requires n <= |events|
    ensures forall id :: id in Supported(events, n, sectorId) <==>
              exists i :: 0 <= i < n && events[i].id == id && sectorId in events[i].supporting
  {
    if n > 0 {
      SupportedMembers(events, n - 1, sectorId);
    }
  }

  // ----- the declared links -----

  /** The row and the usage under which a trace counts at all. */
  predicate Counts(e: Episode, t: Trace) {
    var row := RowOf(e.rows, |e.rows|, t.runId);
    row.Some? && row.value.role == t.role && UsageOf(e.usage, |e.usage|, t.role).Some?
  }

  predicate Offers(e: Episode, u: Usage, sectorId: string, c: Context) {
    && sectorId in u.claims
    && match c.kind
       case SectorClaim => c.id == sectorId
       case RadarEvent => c.id in u.events && exists i ::
         0 <= i < |e.events| && e.events[i].id == c.id && sectorId in e.events[i].supporting
  }

  /**
   A link is warranted when a counting trace's run accepted the Claim, and from one of the Claim's
   parents a Sector Claim can be reached that the role used, or that supports an event it used.
   */
  ghost predicate Warranted(e: Episode, l: Link) {
    && Trace(l.runId, l.role) in e.traces && Counts(e, Trace(l.runId, l.role))
    && Explains(e, UsageOf(e.usage, |e.usage|, l.role).value, RowOf(e.rows, |e.rows|, l.runId).value.claims, l)
  }

  /** Some of the Claims is the link's Claim and rests on its context. */
  ghost predicate Explains(e: Episode, u: Usage, claims: seq<Claim>, l: Link) {
    exists i :: 0 <= i < |claims| && claims[i].id == Some(l.claimId) && RestsOn(e, u, claims[i], l.context)
  }

  /** From one of the Claim's parents a Sector Claim can be reached under which the role used the context. */
  ghost predicate RestsOn(e: Episode, u: Usage, c: Claim, context: Context) {
    exists parent, sectorId ::
      parent in c.parents && Reaches(GraphOf(e), Sector(e), parent, sectorId) && Offers(e, u, sectorId, context)
  }

  // ----- the links in the order in which the nested loops propose them -----

  function EventContexts(used: set<string>, sorted: seq<string>, n: nat): seq<Context>
    requires n <= |sorted|
  {
    if n == 0 then []
    else EventContexts(used, sorted, n - 1) + if sorted[n - 1] in used then [Context(RadarEvent, sorted[n - 1])] else []
  }

  ghost function Contexts(e: Episode, u: Usage, sectorId: string): seq<Context> {
    var sorted := SortedSet(Supported(e.events, |e.events|, sectorId));
    [Context(SectorClaim, sectorId)] + EventContexts(u.events, sorted, |sorted|)
  }

  function ContextLinks(t: Trace, claimId: string, contexts: seq<Context>, n: nat): seq<Link>
    requires n <= |contexts|
  {
    if n == 0 then []
    else ContextLinks(t, claimId, contexts, n - 1) + [Link(t.role, t.runId, contexts[n - 1], claimId)]
  }

  /** `f` of the first `n` elements, one after the other. */
  function FlatMap<A, B>(f: A -> seq<B>, s: seq<A>, n: nat): seq<B>
    requires n <= |s|
  {
    if n == 0 then [] else FlatMap(f, s, n - 1) + f(s[n - 1])
  }

  lemma {:induction false} FlatMapMembers<A, B>(f: A -> seq<B>, s: seq<A>, n: nat, x: B)
    requires n <= |s|
    ensures x in FlatMap(f, s, n) <==> exists i :: 0 <= i < n && x in f(s[i])
  {
    if n > 0 {
      FlatMapMembers(f, s, n - 1, x);
    }
  }

  ghost function SectorLinks(e: Episode, u: Usage, t: Trace, claimId: string): string -> seq<Link> {
    (id: string) =>
      if id in u.claims then ContextLinks(t, claimId, Contexts(e, u, id), |Contexts(e, u, id)|) else []
  }

  /** The Sector Claims a Claim rests on, sorted. */
  ghost function Roots(e: Episode, c: Claim): seq<string> {
    SortedSet(AncestorsOf(GraphOf(e), Sector(e), c.parents, |c.parents|, {}))
  }

  ghost function ClaimLinks(e: Episode, u: Usage, t: Trace): Claim -> seq<Link> {
    (c: Claim) =>
      if c.id.Some? then FlatMap(SectorLinks(e, u, t, c.id.value), Roots(e, c), |Roots(e, c)|) else []
  }

  ghost function TraceLinks(e: Episode): Trace -> seq<Link> {
    (t: Trace) =>
      if Counts(e, t) then
        var claims := RowOf(e.rows, |e.rows|, t.runId).value.claims;
        FlatMap(ClaimLinks(e, UsageOf(e.usage, |e.usage|, t.role).value, t), claims, |claims|)
      else []
  }

  ghost function Proposed(e: Episode): seq<Link> { FlatMap(TraceLinks(e), e.traces, |e.traces|) }

  // ----- every proposal is warranted, and the other way round -----

  lemma {:induction false} EventContextMembers(used: set<string>, sorted: seq<string>, n: nat)
    requires n <= |sorted|
    ensures forall c :: c in EventContexts(used, sorted, n) <==>
      c.kind == RadarEvent && c.id in used && c.id in sorted[..n]
  {
    if n > 0 {
      EventContextMembers(used, sorted, n - 1);
      assert sorted[..n] == sorted[..n - 1] + [sorted[n - 1]];
    }
  }

  lemma ContextMembers(e: Episode, u: Usage, sectorId: string, c: Context)
    requires sectorId in u.claims
    ensures c in Contexts(e, u, sectorId) <==> Offers(e, u, sectorId, c)
  {
    var events := Supported(e.events, |e.events|, sectorId);
    EventContextMembers(u.events, SortedSet(events), |SortedSet(events)|);
    assert SortedSet(events)[..|SortedSet(events)|] == SortedSet(events);
    SupportedMembers(e.events, |e.events|, sectorId);
  }

  predicate From(t: Trace, l: Link) { l.role == t.role && l.runId == t.runId }

  lemma {:induction false} ContextLinkMembers(t: Trace, claimId: string, contexts: seq<Context>, n: nat, l: Link)
    requires n <= |contexts|
    ensures l in ContextLinks(t, claimId, contexts, n) <==>
      From(t, l) && l.claimId == claimId && l.context in contexts[..n]
  {
    if n > 0 {
      ContextLinkMembers(t, claimId, contexts, n - 1, l);
      assert contexts[..n] == contexts[..n - 1] + [contexts[n - 1]];
    }
  }

  lemma SectorLinkMembers(e: Episode, u: Usage, t: Trace, claimId: string, id: string, l: Link)
    ensures l in SectorLinks(e, u, t, claimId)(id) <==>
      From(t, l) && l.claimId == claimId && Offers(e, u, id, l.context)
  {
    if id in u.claims {
      var contexts := Contexts(e, u, id);
      ContextLinkMembers(t, claimId, contexts, |contexts|, l);
      assert contexts[..|contexts|] == contexts;
      ContextMembers(e, u, id, l.context);
    }
  }

  lemma RootsAreReached(e: Episode, c: Claim, sectorId: string)
    ensures sectorId in Roots(e, c) <==>
      exists parent :: parent in c.parents && Reaches(GraphOf(e), Sector(e), parent, sectorId)
  {
    var g, sector := GraphOf(e), Sector(e);
    AncestorsOfMembers(g, sector, c.parents, |c.parents|, {});
    if parent :| parent in c.parents && Reaches(g, sector, parent, sectorId) {
      AncestorsAreReachable(g, sector, parent, sectorId);
      var i :| 0 <= i < |c.parents| && c.parents[i] == parent;
    }
    if i :| 0 <= i < |c.parents| && sectorId in Ancestors(g, sector, c.parents[i], {}) {
      AncestorsAreReachable(g, sector, c.parents[i], sectorId);
    }
  }

  lemma OfferedRoots(e: Episode, u: Usage, c: Claim, context: Context)
    ensures RestsOn(e, u, c, context) <==> exists i :: 0 <= i < |Roots(e, c)| && Offers(e, u, Roots(e, c)[i], context)
  {
    if parent, sectorId :|
      parent in c.parents && Reaches(GraphOf(e), Sector(e), parent, sectorId) && Offers(e, u, sectorId, context)
    {
      RootsAreReached(e, c, sectorId);
      var i :| 0 <= i < |Roots(e, c)| && Roots(e, c)[i] == sectorId;
    }
    if i :| 0 <= i < |Roots(e, c)| && Offers(e, u, Roots(e, c)[i], context) {
      RootsAreReached(e, c, Roots(e, c)[i]);
    }
  }

  lemma ClaimLinkMembers(e: Episode, u: Usage, t: Trace, c: Claim, l: Link)
    ensures l in ClaimLinks(e, u, t)(c) <==> From(t, l) && c.id == Some(l.claimId) && RestsOn(e, u, c, l.context)
  {
    if c.id.Some? {
      var links, ids := SectorLinks(e, u, t, c.id.value), Roots(e, c);
      FlatMapMembers(links, ids, |ids|, l);
      OfferedRoots(e, u, c, l.context);
      forall i | 0 <= i < |ids|
        ensures l in links(ids[i]) <==> From(t, l) && l.claimId == c.id.value && Offers(e, u, ids[i], l.context)
      {
        SectorLinkMembers(e, u, t, c.id.value, ids[i], l);
      }
    }
  }

  lemma TraceLinkMembers(e: Episode, t: Trace, l: Link)
    requires t in e.traces
    ensures l in TraceLinks(e)(t) <==> From(t, l) && Warranted(e, l)
  {
    if Counts(e, t) {
      var claims, u := RowOf(e.rows, |e.rows|, t.runId).value.claims, UsageOf(e.usage, |e.usage|, t.role).value;
      FlatMapMembers(ClaimLinks(e, u, t), claims, |claims|, l);
      forall i | 0 <= i < |claims|
        ensures l in ClaimLinks(e, u, t)(claims[i]) <==>
                  From(t, l) && claims[i].id == Some(l.claimId) && RestsOn(e, u, claims[i], l.context)
      {
        ClaimLinkMembers(e, u, t, claims[i], l);
      }
    }
  }

  /** The proposals are exactly the warranted links. */
  lemma ProposedIsWarranted(e: Episode, l: Link)
    ensures l in Proposed(e) <==> Warranted(e, l)
  {
    FlatMapMembers(TraceLinks(e), e.traces, |e.traces|, l);
    forall i | 0 <= i < |e.traces|
      ensures l in TraceLinks(e)(e.traces[i]) <==> From(e.traces[i], l) && Warranted(e, l)
    {
      TraceLinkMembers(e, e.traces[i], l);
    }
    if Warranted(e, l) {
      var i :| 0 <= i < |e.traces| && e.traces[i] == Trace(l.runId, l.role);
    }
  }

  // ----- building the indexes -----

  method IndexClaims(start: Graph, claims: seq<Claim>) returns (g: Graph)
    ensures g == WithClaims(start, claims, |claims|)
  {
    g := start;
    for i := 0 to |claims|
      invariant g == WithClaims(start, claims, i)
    {
      if claims[i].id.Some? {
        g := g[claims[i].id.value := claims[i].parents];
      }
    }
  }

  method CollectSectorIds(claims: seq<Claim>) returns (ids: set<string>)
    ensures ids == SectorIds(claims, |claims|)
  {
    ids := {};
    for i := 0 to |claims|
      invariant ids == SectorIds(claims, i)
    {
      if claims[i].id.Some? {
        ids := ids + {claims[i].id.value};
      }
    }
  }

  /** The per-run dictionaries hold, for every run, its last row. */
  ghost predicate RunsIndexed(rows: seq<Row>, n: nat, claims: map<string, seq<Claim>>, roles: map<string, string>)
    requires n <= |rows|
  {
    forall id :: var row := RowOf(rows, n, id);
      && (id in roles <==> row.Some?) && (id in claims <==> row.Some?)
      && (row.Some? ==> roles[id] == row.value.role && claims[id] == row.value.claims)
  }

  method IndexRuns(start: Graph, rows: seq<Row>)
    returns (claims: map<string, seq<Claim>>, roles: map<string, string>, g: Graph)
    ensures RunsIndexed(rows, |rows|, claims, roles) && g == WithRows(start, rows, |rows|)
  {
    claims, roles, g := map[], map[], start;
    for i := 0 to |rows|
      invariant RunsIndexed(rows, i, claims, roles) && g == WithRows(start, rows, i)
    {
      claims := claims[rows[i].runId := rows[i].claims];
      roles := roles[rows[i].runId := rows[i].role];
      g := IndexClaims(g, rows[i].claims);
    }
  }

  ghost predicate UsageIndexed(usage: seq<Usage>, n: nat, byRole: map<string, Usage>)
    requires n <= |usage|
  {
    forall role ::
      if role in byRole then UsageOf(usage, n, role) == Some(byRole[role]) else UsageOf(usage, n, role) == None
  }

  method IndexUsage(usage: seq<Usage>) returns (byRole: map<string, Usage>)
    ensures UsageIndexed(usage, |usage|, byRole)
  {
    byRole := map[];
    for i := 0 to |usage|
      invariant UsageIndexed(usage, i, byRole)
    {
      byRole := byRole[usage[i].role := usage[i]];
    }
  }

  function Lookup(m: map<string, set<string>>, id: string): set<string> { if id in m then m[id] else {} }

  ghost predicate EventsIndexed(events: seq<Event>, n: nat, m: map<string, set<string>>)
    requires n <= |events|
  {
    forall c :: Lookup(m, c) == Supported(events, n, c)
  }

  method AddEvent(event: Event, start: map<string, set<string>>) returns (m: map<string, set<string>>)
    ensures forall c :: Lookup(m, c) == Lookup(start, c) + if c in event.supporting then {event.id} else {}
  {
    m := start;
    for k := 0 to |event.supporting|
      invariant forall c :: Lookup(m, c) == Lookup(start, c) + if c in event.supporting[..k] then {event.id} else {}
    {
      var c := event.supporting[k];
      assert event.supporting[..k + 1] == event.supporting[..k] + [c];
      m := m[c := Lookup(m, c) + {event.id}];
    }
    assert event.supporting[..|event.supporting|] == event.supporting;
  }

  method IndexEvents(events: seq<Event>) returns (m: map<string, set<string>>)
    ensures EventsIndexed(events, |events|, m)
  {
    m := map[];
    for i := 0 to |events|
      invariant EventsIndexed(events, i, m)
    {
      var next := AddEvent(events[i], m);
      forall c ensures Lookup(next, c) == Supported(events, i + 1, c) {
        assert Lookup(m, c) == Supported(events, i, c);
      }
      m := next;
    }
  }

  // ----- collecting the links -----

  type RoleOf = string -> Option<string>

  ghost function RoleIn(e: Episode): RoleOf {
    (runId: string) => match RowOf(e.rows, |e.rows|, runId) case Some(row) => Some(row.role) case None => None
  }

  predicate Booked(roleOf: RoleOf, links: seq<Link>, identities: set<Identity>) {
    && (forall l :: l in links ==> roleOf(l.runId) == Some(l.role) && IdentityOf(l) in identities)
    && (forall x :: x in identities ==> exists l :: l in links && IdentityOf(l) == x)
  }

  /** The links so far are the proposals so far, each at its first occurrence. */
  ghost predicate Collected(roleOf: RoleOf, done: seq<Link>, links: seq<Link>, identities: set<Identity>) {
    links == Dedup(done) && Booked(roleOf, links, identities)
  }

  /** A run has one role, so links with one identity are one link. */
  lemma IdentityIdentifies(roleOf: RoleOf, links: seq<Link>, identities: set<Identity>, l: Link)
    requires Booked(roleOf, links, identities) && roleOf(l.runId) == Some(l.role)
    ensures IdentityOf(l) in identities <==> l in links
  {}

  lemma CollectedNext(roleOf: RoleOf, done: seq<Link>, links: seq<Link>, identities: set<Identity>, l: Link)
    requires Collected(roleOf, done, links, identities) && roleOf(l.runId) == Some(l.role)
    ensures IdentityOf(l) in identities ==> Collected(roleOf, done + [l], links, identities)
    ensures IdentityOf(l) !in identities ==> Collected(roleOf, done + [l], links + [l], identities + {IdentityOf(l)})
  {
    IdentityIdentifies(roleOf, links, identities, l);
    assert (done + [l])[..|done|] == done;
    if IdentityOf(l) !in identities {
      var more, known := links + [l], identities + {IdentityOf(l)};
      forall x | x in known ensures exists k :: k in more && IdentityOf(k) == x {
        if x == IdentityOf(l) {
          assert l in more;
        } else {
          var k :| k in links && IdentityOf(k) == x;
          assert k in more;
        }
      }
    }
  }

  method AddContexts(t: Trace, claimId: string, contexts: seq<Context>, ghost roleOf: RoleOf, ghost done: seq<Link>,
                     start: seq<Link>, known: set<Identity>)
    returns (links: seq<Link>, identities: set<Identity>)
    requires Collected(roleOf, done, start, known) && roleOf(t.runId) == Some(t.role)
    ensures Collected(roleOf, done + ContextLinks(t, claimId, contexts, |contexts|), links, identities)
  {
    links, identities := start, known;
    assert done + [] == done;
    for i := 0 to |contexts|
      invariant Collected(roleOf, done + ContextLinks(t, claimId, contexts, i), links, identities)
    {
      var l := Link(t.role, t.runId, contexts[i], claimId);
      ghost var before := ContextLinks(t, claimId, contexts, i);
      CollectedNext(roleOf, done + before, links, identities, l);
      ConcatAssociative(done, before, [l]);
      if IdentityOf(l) !in identities {
        identities := identities + {IdentityOf(l)};
        links := links + [l];
      }
    }
  }

  method UsedEvents(used: set<string>, sorted: seq<string>) returns (contexts: seq<Context>)
    ensures contexts == EventContexts(used, sorted, |sorted|)
  {
    contexts := [];
    for i := 0 to |sorted|
      invariant contexts == EventContexts(used, sorted, i)
    {
      if sorted[i] in used {
        contexts := contexts + [Context(RadarEvent, sorted[i])];
      }
    }
  }

  method AddSectorClaims(e: Episode, u: Usage, t: Trace, claimId: string, ids: seq<string>,
                         eventsByClaim: map<string, set<string>>,
                         ghost roleOf: RoleOf, ghost done: seq<Link>, start: seq<Link>, known: set<Identity>)
    returns (links: seq<Link>, identities: set<Identity>)
    requires Collected(roleOf, done, start, known) && roleOf(t.runId) == Some(t.role)
    requires EventsIndexed(e.events, |e.events|, eventsByClaim)
    ensures Collected(roleOf, done + FlatMap(SectorLinks(e, u, t, claimId), ids, |ids|), links, identities)
  {
    links, identities := start, known;
    ghost var f := SectorLinks(e, u, t, claimId);
    assert done + [] == done;
    for i := 0 to |ids|
      invariant Collected(roleOf, done + FlatMap(f, ids, i), links, identities)
    {
      ghost var before := FlatMap(f, ids, i);
      ConcatAssociative(done, before, f(ids[i]));
      if ids[i] in u.claims {
        var sorted := SortedElements(Lookup(eventsByClaim, ids[i]));
        var events := UsedEvents(u.events, sorted);
        links, identities := AddContexts(t, claimId, [Context(SectorClaim, ids[i])] + events, roleOf, done + before,
                                         links, identities);
      } else {
        assert (done + before) + [] == done + before;
      }
    }
  }

  method AddClaim(e: Episode, u: Usage, t: Trace, c: Claim, g: Graph, sector: set<string>,
                  eventsByClaim: map<string, set<string>>, ghost roleOf: RoleOf, ghost done: seq<Link>,
                  start: seq<Link>, known: set<Identity>)
    returns (links: seq<Link>, identities: set<Identity>)
    requires Collected(roleOf, done, start, known) && roleOf(t.runId) == Some(t.role)
    requires EventsIndexed(e.events, |e.events|, eventsByClaim)
    requires g == GraphOf(e) && sector == Sector(e)
    ensures Collected(roleOf, done + ClaimLinks(e, u, t)(c), links, identities)
  {
    links, identities := start, known;
    if c.id.Some? {
      var ids := SortedElements(AncestorsOf(g, sector, c.parents, |c.parents|, {}));
      links, identities := AddSectorClaims(e, u, t, c.id.value, ids, eventsByClaim, roleOf, done, links, identities);
    } else {
      assert done + [] == done;
    }
  }

  method AddClaims(e: Episode, u: Usage, t: Trace, claims: seq<Claim>, g: Graph, sector: set<string>,
                   eventsByClaim: map<string, set<string>>, ghost roleOf: RoleOf, ghost done: seq<Link>,
                   start: seq<Link>, known: set<Identity>)
    returns (links: seq<Link>, identities: set<Identity>)
    requires Collected(roleOf, done, start, known) && roleOf(t.runId) == Some(t.role)
    requires EventsIndexed(e.events, |e.events|, eventsByClaim)
    requires g == GraphOf(e) && sector == Sector(e)
    ensures Collected(roleOf, done + FlatMap(ClaimLinks(e, u, t), claims, |claims|), links, identities)
  {
    links, identities := start, known;
    ghost var f := ClaimLinks(e, u, t);
    assert done + [] == done;
    for i := 0 to |claims|
      invariant Collected(roleOf, done + FlatMap(f, claims, i), links, identities)
    {
      ghost var before := FlatMap(f, claims, i);
      ConcatAssociative(done, before, f(claims[i]));
      links, identities := AddClaim(e, u, t, claims[i], g, sector, eventsByClaim, roleOf, done + before, links,
                                    identities);
    }
  }

  method AddTrace(e: Episode, t: Trace, claims: map<string, seq<Claim>>, roles: map<string, string>,
                  usage: map<string, Usage>,
                  g: Graph, sector: set<string>, eventsByClaim: map<string, set<string>>,
                  ghost roleOf: RoleOf, ghost done: seq<Link>, start: seq<Link>, known: set<Identity>)
    returns (links: seq<Link>, identities: set<Identity>)
    requires Collected(roleOf, done, start, known) && EventsIndexed(e.events, |e.events|, eventsByClaim)
    requires g == GraphOf(e) && sector == Sector(e)
    requires roleOf == RoleIn(e) && RunsIndexed(e.rows, |e.rows|, claims, roles)
    requires UsageIndexed(e.usage, |e.usage|, usage)
    ensures Collected(roleOf, done + TraceLinks(e)(t), links, identities)
  {
    links, identities := start, known;
    if t.runId in roles && roles[t.runId] == t.role && t.role in usage {
      links, identities := AddClaims(e, usage[t.role], t, claims[t.runId], g, sector, eventsByClaim, roleOf, done,
                                     links, identities);
    } else {
      assert done + [] == done;
    }
  }

  method IndexGraph(e: Episode)
    returns (claims: map<string, seq<Claim>>, roles: map<string, string>, g: Graph, sector: set<string>)
    ensures RunsIndexed(e.rows, |e.rows|, claims, roles) && g == GraphOf(e) && sector == Sector(e)
  {
    g := IndexClaims(map[], e.sectorClaims);
    claims, roles, g := IndexRuns(g, e.rows);
    sector := CollectSectorIds(e.sectorClaims);
  }

  lemma NothingCollected(roleOf: RoleOf)
    ensures Collected(roleOf, [], [], {})
  {}

  /** The link list: the proposals of all traces, each once. */
  method RecoverLinks(e: Episode) returns (links: seq<Link>)
    ensures links == Dedup(Proposed(e))
  {
    var claims, roles, g, sector := IndexGraph(e);
    var eventsByClaim := IndexEvents(e.events);
    var usage := IndexUsage(e.usage);
    links := [];
    var identities: set<Identity> := {};
    ghost var f, roleOf := TraceLinks(e), RoleIn(e);
    NothingCollected(roleOf);
    for i := 0 to |e.traces|
      invariant Collected(roleOf, FlatMap(f, e.traces, i), links, identities)
    {
      links, identities := AddTrace(e, e.traces[i], claims, roles, usage, g, sector, eventsByClaim,
                                    roleOf, FlatMap(f, e.traces, i), links, identities);
    }
  }

  /**
   The recovered links are exactly the warranted ones, and no two of them share an identity.
   */
  lemma LinksAreWarranted(e: Episode, l: Link)
    ensures l in Dedup(Proposed(e)) <==> Warranted(e, l)
  {
    DedupElements(Proposed(e));
    ProposedIsWarranted(e, l);
  }

  lemma IdentitiesAreDistinct(e: Episode, i: nat, j: nat)
    requires i < j < |Dedup(Proposed(e))|
    ensures IdentityOf(Dedup(Proposed(e))[i]) != IdentityOf(Dedup(Proposed(e))[j])
  {
    var links := Dedup(Proposed(e));
    DedupElements(Proposed(e));
    assert links[i] in links && links[j] in links;
    ProposedIsWarranted(e, links[i]);
    ProposedIsWarranted(e, links[j]);
  }
}
