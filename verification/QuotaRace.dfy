/** A run in which the quota of a cancelled job is not given back. */
module QuotaRace {
  import opened Options
  import opened GenerationJobs
  import opened JobRows
  import opened DispatchProtocol

  /** Extends a run by one step. */
  lemma {:induction false} Then(s: System, steps: seq<Step>, step: Step) returns (more: seq<Step>, t: System)
    ensures more == steps + [step]
    ensures t == Next(Run(s, steps), step) && Run(s, more) == t
    decreases |steps|
  {
    more := steps + [step];
    t := Next(Run(s, steps), step);
    if steps == [] {
      assert more[1..] == [];
    } else {
      assert more[1..] == steps[1..] + [step];
      var _, _ := Then(Next(s, steps[0]), steps[1..], step);
    }
    hide Next;
  }

  lemma ThenCall(s: System, steps: seq<Step>, op: Op) returns (more: seq<Step>, t: System)
    requires Free(op)
    ensures t == Store(Run(s, steps), op) && Run(s, more) == t
  {
    more, t := Then(s, steps, Call(op));
    hide Store, Run;
  }

  ghost predicate Unsent(r: Row) {
    && r.owned && r.prompt.None? && r.token == NO_ID && !r.started && !r.closed && !r.released
    && !r.quotaReserved && !r.quotaCommitted
  }

  lemma FenceThenReserve(s: System, steps: seq<Step>) returns (more: seq<Step>, t: System)
    requires var t := Run(s, steps); Unsent(t.row) && t.row.state == WaitingForResources && t.charged == 0
    ensures t == Run(s, more) && t.refunded && t.charged == 1
    ensures t.row.state == WaitingForResources && t.row.closed && t.row.owned && t.row.prompt.None? && !t.row.started
  {
    hide Run;
    more, t := ThenCall(s, steps, Fence(NO_ID, 0));
    assert t.row.closed && !t.row.quotaReserved && t.row.state == WaitingForResources && t.row.owned;
    more, t := ThenCall(s, more, ReleaseQuota);
    assert t.row.closed && !t.row.quotaReserved && t.refunded && t.row.state == WaitingForResources;
    more, t := ThenCall(s, more, ReserveQuota(true));
  }

  const FRESH: System := System(BLANK, map[], [], [Draft], 0, false, false)

  lemma ToPreparing() returns (steps: seq<Step>, t: System)
    ensures t == Run(FRESH, steps) && t.charged == 0 && Unsent(t.row) && t.row.state == Preparing
  {
    steps, t := ThenCall(FRESH, [], Transition(Preparing, false));
    assert Run(FRESH, []) == FRESH;
    hide Run, Next;
  }

  lemma ToWaiting(s: System, steps: seq<Step>) returns (more: seq<Step>, t: System)
    requires var t := Run(s, steps); Unsent(t.row) && t.row.state == Preparing && t.charged == 0
    ensures t == Run(s, more) && t.charged == 0 && Unsent(t.row) && t.row.state == WaitingForResources
  {
    hide Run, Next;
    more, t := ThenCall(s, steps, Transition(WaitingForResources, false));
  }

  lemma AndRequest(s: System, steps: seq<Step>) returns (more: seq<Step>, t: System)
    requires var t := Run(s, steps); Unsent(t.row) && t.row.state == WaitingForResources && t.charged == 0
    ensures t == Run(s, more) && t.charged == 0 && Unsent(t.row)
    ensures t.row.state == WaitingForResources && t.row.cancelRequested
  {
    hide Run, Next;
    more, t := ThenCall(s, steps, RequestCancel);
  }

  lemma AndConfirm(s: System, steps: seq<Step>) returns (more: seq<Step>, t: System)
    requires var t := Run(s, steps);
             Unsent(t.row) && t.row.state == WaitingForResources && t.charged == 0 && t.row.cancelRequested
    ensures t == Run(s, more) && t.charged == 0
    ensures Unsent(t.row) && t.row.state == WaitingForResources && t.row.cancelConfirmed
  {
    hide Run, Next;
    more, t := ThenCall(s, steps, ConfirmCancel);
  }

  lemma ReleaseThenEnd(s: System, steps: seq<Step>) returns (more: seq<Step>, t: System)
    requires var t := Run(s, steps);
             && t.refunded && t.charged == 1 && t.row.state == WaitingForResources && t.row.closed
             && t.row.owned && t.row.prompt.None? && !t.row.started
    ensures t == Run(s, more) && t.charged == 1
    ensures t.row.state == Cancelled && t.row.owned && t.row.prompt.None? && !t.row.started
  {
    hide Run;
    more, t := Then(s, steps, Mark(false));
    assert t.row.released && t.row.state == WaitingForResources && t.charged == 1
           && t.row.owned && t.row.prompt.None? && !t.row.started;
    hide Next;
    more, t := ThenCall(s, more, Transition(Cancelled, false));
  }

  /** The exception is real: a cancellation refunds before the request handler reserves, so the
      cancelled job, which never reached ComfyUI, stays charged. */
  lemma LateReservationIsKept() returns (s: System, steps: seq<Step>)
    ensures Init(s)
    ensures var t := Run(s, steps);
            t.row.state == Cancelled && t.row.owned && t.row.prompt.None? && !t.row.started && t.charged == 1
  {
    s := FRESH;
    hide Run;
    var t;
    steps, t := ToPreparing();
    steps, t := ToWaiting(s, steps);
    steps, t := AndRequest(s, steps);
    steps, t := AndConfirm(s, steps);
    steps, t := FenceThenReserve(s, steps);
    hide Rank;
    steps, t := ReleaseThenEnd(s, steps);
  }
}
