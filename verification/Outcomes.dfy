/** The outcome of a task is determined by the steps of its Agents: where the chain stops, and how. */
module Outcomes {
  import opened Sequences
  import opened Roles
  import opened Coordinator

  /** Two stages of a run agree on an Agent. */
  predicate Agree(a: Runs, b: Runs, role: Role) {
    (role in a <==> role in b) && (role in a ==> a[role] == b[role])
  }

  predicate AgreeOnAnalysts(a: Runs, b: Runs) { forall r :: r in ANALYST_ORDER ==> Agree(a, b, r) }

  lemma {:induction false} ReplayKeeps(step: Step, n: nat, k: nat, role: Role)
    requires n <= k <= |CHAIN| && role in CHAIN[..n]
    ensures Agree(Replay(step, n), Replay(step, k), role)
    decreases k
  {
    if n < k {
      ReplayKeeps(step, n, k - 1, role);
      ChainIsDistinct(k - 1);
      assert forall i :: 0 <= i < n ==> CHAIN[..n][i] == CHAIN[..k - 1][i];
    }
  }

  lemma {:induction false} ReplayDomain(step: Step, n: nat)
    requires n <= |CHAIN|
    ensures forall role :: role in Replay(step, n) <==> role in CHAIN[..n]
  {
    if n > 0 {
      ReplayDomain(step, n - 1);
      ChainIsDistinct(n - 1);
    }
  }

  lemma AnalystsKept(step: Step, n: nat, k: nat)
    requires 4 <= n <= k <= |CHAIN|
    ensures AgreeOnAnalysts(Replay(step, n), Replay(step, k))
  {
    forall r | r in ANALYST_ORDER ensures Agree(Replay(step, n), Replay(step, k), r) {
      var i :| 0 <= i < 4 && ANALYST_ORDER[i] == r;
      assert CHAIN[..n][i] == r;
      ReplayKeeps(step, n, k, r);
    }
  }

  lemma SameAnalysts(request: Request, a: Runs, b: Runs)
    requires AgreeOnAnalysts(a, b)
    ensures AnyAnalystUsable(request, a) <==> AnyAnalystUsable(request, b)
  {
    forall i | 0 <= i < |ANALYST_ORDER|
      ensures Usable(request, a, ANALYST_ORDER[i]) <==> Usable(request, b, ANALYST_ORDER[i])
    {
      assert ANALYST_ORDER[i] in ANALYST_ORDER;
    }
  }

  /** A contract depends on the outputs that it shows. */
  lemma SameContract(a: Runs, b: Runs, role: Role)
    requires AgreeOnAnalysts(a, b) && forall up :: up in UpstreamManagers(role) ==> Agree(a, b, up)
    ensures ManagerInputValid(a, role) <==> ManagerInputValid(b, role)
  {}

  lemma ContractKept(step: Step, n: nat, k: nat)
    requires 4 <= n <= k <= |CHAIN| && n < |CHAIN|
    ensures ManagerInputValid(Replay(step, n), CHAIN[n]) <==> ManagerInputValid(Replay(step, k), CHAIN[n])
  {
    AnalystsKept(step, n, k);
    forall up | up in UpstreamManagers(CHAIN[n]) ensures Agree(Replay(step, n), Replay(step, k), up) {
      UpstreamBefore(n, up);
      ReplayKeeps(step, n, k, up);
    }
    SameContract(Replay(step, n), Replay(step, k), CHAIN[n]);
  }

  lemma UpstreamBefore(n: nat, up: Role)
    requires 4 <= n < |CHAIN| && up in UpstreamManagers(CHAIN[n])
    ensures up in CHAIN[..n]
  {
    assert CHAIN[4] == ResearchManager && CHAIN[5] == BullManager && CHAIN[6] == BearManager && CHAIN[7] == RiskManager;
    assert n > 4 ==> CHAIN[..n][4] == CHAIN[4];
    assert n > 5 ==> CHAIN[..n][5] == CHAIN[5];
    assert n > 6 ==> CHAIN[..n][6] == CHAIN[6];
  }

  /** Where nothing usable is left to build on, no later result changes that. */
  lemma StopStays(step: Step, request: Request, n: nat, k: nat)
    requires n <= k <= |CHAIN| && Invocations(request, Replay(step, n)) == n
    ensures Invocations(request, Replay(step, k)) == n
  {
    AnalystsKept(step, n, k);
    SameAnalysts(request, Replay(step, n), Replay(step, k));
    assert CHAIN[4] == ResearchManager && CHAIN[5] == BullManager && CHAIN[6] == BearManager;
    if n >= 5 {
      assert CHAIN[..n][4] == ResearchManager;
      ReplayKeeps(step, n, k, ResearchManager);
    }
    if n >= 7 {
      assert CHAIN[..n][5] == BullManager && CHAIN[..n][6] == BearManager;
      ReplayKeeps(step, n, k, BullManager);
      ReplayKeeps(step, n, k, BearManager);
    }
  }

  /** The run ends after `n` Agents, with a report or with a refused contract. */
  ghost predicate Ends(step: Step, request: Request, n: nat, refused: bool) {
    && 4 <= n <= |CHAIN|
    && (forall k :: 4 <= k < n ==> ManagerInputValid(Replay(step, n), CHAIN[k]))
    && if refused then n < |CHAIN| && n < Invocations(request, Replay(step, n))
      && !ManagerInputValid(Replay(step, n), CHAIN[n])
       else Invocations(request, Replay(step, n)) == n
  }

  lemma NoLaterEnd(step: Step, request: Request, n: nat, k: nat, first: bool, second: bool)
    requires Ends(step, request, n, first) && Ends(step, request, k, second)
    ensures !(n < k)
  {
    if n < k {
      if first {
        ContractKept(step, n, k);
      } else {
        StopStays(step, request, n, k);
      }
    }
  }

  lemma OneEnd(step: Step, request: Request, n: nat, k: nat, first: bool, second: bool)
    requires Ends(step, request, n, first) && Ends(step, request, k, second)
    ensures n == k && first == second
  {
    NoLaterEnd(step, request, n, k, first, second);
    NoLaterEnd(step, request, k, n, second, first);
  }

  function Length(request: Request, r: Result<TaskResult, ContractError>): nat {
    match r case Ok(t) => Invocations(request, t.runs) case Err(e) => e.invoked
  }

  lemma OutcomeEnds(step: Step, request: Request, r: Result<TaskResult, ContractError>)
    requires Outcome(step, request, r)
    ensures Ends(step, request, Length(request, r), r.Err?)
  {}

  /** The steps of the Agents leave one outcome of a task. */
  lemma OutcomeIsDetermined(step: Step, request: Request, r: Result<TaskResult, ContractError>,
                            r': Result<TaskResult, ContractError>)
    requires Outcome(step, request, r) && Outcome(step, request, r')
    ensures r == r'
  {
    OutcomeEnds(step, request, r);
    OutcomeEnds(step, request, r');
    OneEnd(step, request, Length(request, r), Length(request, r'), r.Err?, r'.Err?);
  }
}
