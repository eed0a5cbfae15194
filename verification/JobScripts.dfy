/**
  What the gateway does to a job, call by call: advance, release, fail, expire, recover,
  reconcile and cancel. Between any two store calls anything may happen that the protocol allows:
  other actors write, workers claim, mark, send and hear, ComfyUI accepts or refuses. A call may be
  lost, or only its reply may be lost. A script of turns says what happens around each call, and
  everything here is stated for every script. A process that is cut off is a script whose calls all
  fail from some point on.
*/
module JobScripts {
  import opened Options
  import opened GenerationJobs
  import opened JobRows
  import opened ComfyReads
  import opened DispatchProtocol

  datatype Fate = Lands | LandsUnheard | Fails

  /** The steps of the protocol before a call, and what becomes of the call itself. A step that is
      not enabled when its turn comes changes nothing. */
  datatype Turn = Turn(others: seq<Step>, fate: Fate)

  /** The system with the job's row, what is still to come, and how many state changes were asked for
      that the graph does not have. */
  datatype Base = Base(system: System, turns: seq<Turn>, misdirected: nat) {
    const row: Row := system.row
  }

  /** The system after a call, whether a reply came, and whether it reports success. */
  datatype Reply = Reply(base: Base, heard: bool, ok: bool)

  function NextTurn(b: Base): Turn {
    if b.turns == [] then Turn([], Lands) else b.turns[0]
  }

  function Serve(b: Base, op: Op): Reply {
    var turn := NextTurn(b);
    var rest := if b.turns == [] then [] else b.turns[1..];
    var before := Run(b.system, turn.others);
    if turn.fate.Fails? then Reply(Base(before, rest, b.misdirected), false, false)
    else
      var ok := Apply(before.row, op).ok;
      var strays := if op.Transition? && !CanTransition(before.row.state, op.to) then 1 else 0;
      Reply(Base(Store(before, op), rest, b.misdirected + strays), turn.fate.Lands?, turn.fate.Lands? && ok)
  }

  /** No one else writes; calls may still be cut off. */
  ghost predicate Alone(turns: seq<Turn>) {
    forall t <- turns :: t.others == []
  }

  /** No one else writes and every call succeeds. */
  ghost predicate Calm(turns: seq<Turn>) {
    forall t <- turns :: t.others == [] && t.fate.Lands?
  }

  /** The calls that a dispatch worker makes under its token. */
  predicate UnderToken(op: Op, token: nat) {
    match op
    case Begin(k, _) => k == token
    case Postpone(k, _) => k == token
    case Reject(k) => k == token
    case Fence(k, _) => k == token
    case _ => false
  }

  function ApplyAll(r: Row, ops: seq<Op>): Row
    decreases |ops|
  {
    if ops == [] then r else ApplyAll(Apply(r, ops[0]).row, ops[1..])
  }

  /** A worker whose token has been replaced by a later claim is powerless: whatever it still does
      under the old token, the unbound row stays exactly as it is. */
  lemma {:induction false} StaleTokenIsPowerless(r: Row, token: nat, ops: seq<Op>)
    requires r.prompt.None? && r.token != NO_ID && token != r.token
    requires forall op <- ops :: UnderToken(op, token)
    requires token != NO_ID
    ensures ApplyAll(r, ops) == r
    decreases |ops|
  {
    if ops != [] {
      assert UnderToken(ops[0], token);
      assert Apply(r, ops[0]) == Outcome(r, false);
      StaleTokenIsPowerless(r, token, ops[1..]);
    }
  }

  /** What a successful call has brought about. */
  ghost predicate Achieved(op: Op, r: Row) {
    match op
    case Transition(to, _) => r.state == to
    case Fence(_, _) => r.closed
    case MarkReleased(_) => r.released
    case Bind(p) => r.prompt == Some(p)
    case _ => true
  }

  lemma ApplyAchieves(r: Row, op: Op, o: Outcome)
    requires o == Apply(r, op)
    ensures o.ok ==> Achieved(op, o.row)
  {
  }

  lemma StoreRow(s: System, op: Op)
    ensures Store(s, op).row == Apply(s.row, op).row
  {
    hide Apply;
  }

  lemma ServeAchieves(b: Base, op: Op)
    ensures Serve(b, op).ok ==> Serve(b, op).heard && Achieved(op, Serve(b, op).base.row)
  {
    hide Apply, Achieved, Run, Store;
    var before := Run(b.system, NextTurn(b).others);
    ApplyAchieves(before.row, op, Apply(before.row, op));
    StoreRow(before, op);
  }

  lemma ServeEvolves(b: Base, op: Op)
    requires op.MarkReleased? ==> b.row.closed
    ensures Evolves(b.row, Serve(b, op).base.row)
  {
    hide Apply, Run, Store, Touches, RowInv, Rank;
    var before := Run(b.system, NextTurn(b).others);
    RunEvolves(b.system, NextTurn(b).others);
    CallLawful(before.row, op);
    StoreRow(before, op);
    EvolvesTransitive(b.row, before.row, Apply(before.row, op).row);
  }

  lemma ServeAlone(b: Base, op: Op)
    requires Alone(b.turns)
    ensures var r := Serve(b, op);
            && Alone(r.base.turns)
            && (r.base.row == b.row || r.base.row == Apply(b.row, op).row)
            && (r.heard ==> r.base.row == Apply(b.row, op).row && r.ok == Apply(b.row, op).ok)
            && (r.ok ==> r.heard)
            && ((op.Transition? ==> CanTransition(b.row.state, op.to)) ==> r.base.misdirected == b.misdirected)
  {
    hide Apply, CanTransition, Store;
    StoreRow(b.system, op);
    assert NextTurn(b).others == [];
  }

  lemma ServeCalm(b: Base, op: Op)
    requires Calm(b.turns)
    ensures var r := Serve(b, op);
            Calm(r.base.turns) && r.base.row == Apply(b.row, op).row && r.ok == Apply(b.row, op).ok && r.heard
  {
    hide Apply, CanTransition, Store;
    StoreRow(b.system, op);
    assert NextTurn(b).others == [];
  }

  // ---- advanceGenerationJob ----

  /** The next state on the walk, if it goes on. */
  function Toward(s: JobState, target: JobState): Option<JobState> {
    match s
    case Draft => Some(Preparing)
    case Preparing => Some(WaitingForResources)
    case Uploading => Some(WaitingForResources)
    case WaitingForResources => Some(Queued)
    case Queued => Some(if target == Running then Running else Postprocessing)
    case Running => Some(Postprocessing)
    case Postprocessing => Some(Archiving)
    case _ => None
  }

  lemma TowardIsEdge(s: JobState, target: JobState)
    ensures Toward(s, target).Some? ==>
              Edge(s, Toward(s, target).value) && Rank(s) < Rank(Toward(s, target).value) <= 7
              && !Terminal(s) && !Terminal(Toward(s, target).value)
    ensures Toward(s, target).None? ==> Terminal(s) || s == Archiving
  {
  }

  /** A job as a caller last read it, after a series of calls. */
  datatype Result = Result(base: Base, job: Row, ok: bool)

  /** Walks the job to the target one stored state at a time. */
  function Advance(b: Base, job: Row, target: JobState): Result
    decreases 8 - Rank(job.state)
  {
    if job.state == target then Result(b, job, true)
    else
      match Toward(job.state, target)
      case None => Result(b, job, false)
      case Some(next) =>
        var r := Serve(b, Transition(next, false));
        TowardIsEdge(job.state, target);
        ServeAchieves(b, Transition(next, false));
        if !r.ok then Result(r.base, job, false) else Advance(r.base, r.base.row, target)
  }

  /** One turn of the walk. */
  lemma AdvanceUnfolds(b: Base, job: Row, target: JobState)
    ensures job.state == target ==> Advance(b, job, target) == Result(b, job, true)
    ensures job.state != target ==>
              match Toward(job.state, target)
              case None => Advance(b, job, target) == Result(b, job, false)
              case Some(next) =>
                var r := Serve(b, Transition(next, false));
                && (r.ok ==> Rank(job.state) < Rank(r.base.row.state) <= 8)
                && Advance(b, job, target) ==
                     if r.ok then Advance(r.base, r.base.row, target) else Result(r.base, job, false)
  {
    hide Serve, Edge, Apply;
    TowardIsEdge(job.state, target);
    if job.state != target && Toward(job.state, target).Some? {
      ServeAchieves(b, Transition(Toward(job.state, target).value, false));
    }
  }

  /** The same walk on a state alone. */
  function AdvanceEnd(s: JobState, target: JobState, prompt: Option<nat>): JobState
    decreases 8 - Rank(s)
  {
    if s == target then s
    else
      match Toward(s, target)
      case None => s
      case Some(n) => TowardIsEdge(s, target); if n == Queued && prompt.None? then s else AdvanceEnd(n, target, prompt)
  }

  /** The states a walk from `s` can be asked to stop in. */
  predicate LiesAhead(s: JobState, target: JobState) {
    && !Terminal(target) && target != Uploading
    && Rank(s) < Rank(target)
  }

  /** The walk succeeds exactly when it starts at its target or the target lies ahead, and, for a
      target at or past Queued, the job is bound or already past that point. Otherwise it runs on:
      an unbound job is left waiting for resources, any other job in Archiving. */
  lemma {:induction false} AdvanceExactly(s: JobState, target: JobState, prompt: Option<nat>)
    ensures AdvanceEnd(s, target, prompt) == target <==>
              s == target || (LiesAhead(s, target) && (Rank(target) <= 3 || Rank(s) >= 4 || prompt.Some?))
    ensures AdvanceEnd(s, target, prompt) != target ==>
              AdvanceEnd(s, target, prompt) ==
                (if Terminal(s) then s else if prompt.None? && Rank(s) <= 3 then WaitingForResources else Archiving)
    decreases 8 - Rank(s)
  {
    TowardIsEdge(s, target);
    if s != target && Toward(s, target).Some? {
      AdvanceExactly(Toward(s, target).value, target, prompt);
    }
  }

  /** A status that lags behind the row pushes a running job into Archiving, with an error. */
  lemma LaggingStatusOvershoots(prompt: nat)
    ensures AdvanceEnd(Running, Queued, Some(prompt)) == Archiving
  {
    AdvanceExactly(Running, Queued, Some(prompt));
  }

  /** A reading of the row stays behind the row: whatever it says that cannot be taken back still holds. */
  lemma {:induction false} AdvanceEvolves(b: Base, job: Row, target: JobState)
    requires Evolves(job, b.row)
    ensures var m := Advance(b, job, target);
            Evolves(b.row, m.base.row) && Evolves(job, m.job) && Evolves(m.job, m.base.row)
            && (m.ok ==> m.job.state == target)
    decreases 8 - Rank(job.state)
  {
    StillLawful(Prepare, job);
    StillLawful(Prepare, b.row);
    TowardIsEdge(job.state, target);
    if job.state != target && Toward(job.state, target).Some? {
      var op := Transition(Toward(job.state, target).value, false);
      var r := Serve(b, op);
      ServeEvolves(b, op);
      ServeAchieves(b, op);
      EvolvesTransitive(job, b.row, r.base.row);
      if r.ok {
        StillLawful(Prepare, r.base.row);
        AdvanceEvolves(r.base, r.base.row, target);
        var m := Advance(r.base, r.base.row, target);
        EvolvesTransitive(b.row, r.base.row, m.base.row);
        EvolvesTransitive(job, r.base.row, m.job);
      }
    }
    hide Evolves, Serve, Apply, Edge, Touches;
  }

  /** Nothing but the state differs. */
  ghost predicate OnlyMoved(a: Row, b: Row) {
    b == a.(state := b.state)
  }

  lemma OnlyMovedTransitive(a: Row, s: JobState, c: Row)
    ensures OnlyMoved(a, a) && OnlyMoved(a, a.(state := s))
    ensures OnlyMoved(a.(state := s), c) ==> OnlyMoved(a, c)
  {
  }

  lemma WalkStep(r: Row, next: JobState)
    requires Edge(r.state, next) && !Terminal(next)
    ensures CanTransition(r.state, next)
    ensures Apply(r, Transition(next, false)) ==
              (if next == Queued && r.prompt.None? then Outcome(r, false) else Outcome(r.(state := next), true))
  {
  }

  lemma {:induction false} AdvanceAlone(b: Base, target: JobState)
    requires Alone(b.turns)
    ensures var m := Advance(b, b.row, target);
            && Alone(m.base.turns) && m.base.misdirected == b.misdirected
            && OnlyMoved(b.row, m.base.row) && (Terminal(m.base.row.state) ==> m.base.row.state == b.row.state)
            && (m.ok ==> m.job == m.base.row)
    decreases 8 - Rank(b.row.state)
  {
    TowardIsEdge(b.row.state, target);
    if b.row.state != target && Toward(b.row.state, target).Some? {
      var next := Toward(b.row.state, target).value;
      var r := Serve(b, Transition(next, false));
      WalkStep(b.row, next);
      ServeAlone(b, Transition(next, false));
      OnlyMovedTransitive(b.row, next, Advance(r.base, r.base.row, target).base.row);
      if r.ok {
        AdvanceAlone(r.base, target);
      }
    } else {
      OnlyMovedTransitive(b.row, b.row.state, b.row);
    }
    hide OnlyMoved, Terminal, Alone, Serve, Apply, Edge, Rank, Toward, CanTransition;
  }

  lemma CalmStep(b: Base, next: JobState)
    requires Calm(b.turns) && Edge(b.row.state, next) && !Terminal(next)
    ensures var r := Serve(b, Transition(next, false));
            && Calm(r.base.turns) && r.base.row.prompt == b.row.prompt
            && (r.ok <==> next != Queued || b.row.prompt.Some?)
            && (if r.ok then r.base.row.state == next else r.base.row == b.row)
  {
    hide Calm, Serve, Apply, Edge, CanTransition;
    WalkStep(b.row, next);
    ServeCalm(b, Transition(next, false));
  }

  lemma {:induction false} AdvanceCalm(b: Base, target: JobState)
    requires Calm(b.turns)
    ensures var m := Advance(b, b.row, target);
            && Calm(m.base.turns) && m.job == m.base.row
            && m.base.row.state == AdvanceEnd(b.row.state, target, b.row.prompt)
            && (m.ok <==> m.base.row.state == target)
    decreases 8 - Rank(b.row.state)
  {
    hide Calm, Serve, Apply, Edge, Rank, Toward, CanTransition;
    TowardIsEdge(b.row.state, target);
    if b.row.state != target && Toward(b.row.state, target).Some? {
      var next := Toward(b.row.state, target).value;
      var r := Serve(b, Transition(next, false));
      CalmStep(b, next);
      if r.ok {
        AdvanceCalm(r.base, target);
      }
    }
  }

  lemma ServePath(b: Base, op: Op)
    requires Calm(b.turns)
    ensures var r := Serve(b, op).base;
            r.system.path == (if r.row.state == b.row.state then b.system.path else b.system.path + [r.row.state])
  {
    hide Apply;
    assert NextTurn(b).others == [];
  }

  /** The walk takes no detour: a target one edge away is the only state it stores. A job first seen when
      it has finished is never recorded as running, and one without inputs never as uploading. */
  lemma WalkIsDirect(b: Base, target: JobState)
    requires Calm(b.turns) && Edge(b.row.state, target) && !Terminal(target) && target != Uploading
    requires target == Queued ==> b.row.prompt.Some?
    ensures Advance(b, b.row, target).base.system.path == b.system.path + [target]
  {
    assert Toward(b.row.state, target) == Some(target) && b.row.state != target;
    hide Calm, Serve, Edge, Terminal, Toward;
    CalmStep(b, target);
    ServePath(b, Transition(target, false));
  }

  lemma CalmIsAlone(turns: seq<Turn>)
    requires Calm(turns)
    ensures Alone(turns)
  {
  }

  // ---- releaseGenerationJobResources, failGenerationJob, expireGenerationJob ----

  /** What the mining agent, the lease table and the clock contribute. */
  datatype World = World(freed: bool, leaseHeld: bool, now: int)

  datatype Released = Released(base: Base, job: Row, complete: bool, ok: bool)

  /** Fence, refund, free the mining lease, and only then mark the resources released. */
  function Release(b: Base, job: Row, w: World): Released {
    var fence := Serve(b, Fence(job.token, w.now));
    if !fence.ok then Released(fence.base, job, false, fence.heard)
    else
      var refund := Serve(fence.base, ReleaseQuota);
      if !refund.ok then Released(refund.base, job, false, false)
      else if !w.freed then Released(refund.base, job, false, true)
      else
        var mark := Serve(refund.base, MarkReleased(w.leaseHeld));
        if !mark.ok then Released(mark.base, job, false, false)
        else Released(mark.base, mark.base.row, true, true)
  }

  /** Ends the job if the release is complete; otherwise only refreshes its message. */
  function Conclude(rel: Released, current: Row, end: JobState): Result {
    var t := Serve(rel.base, Transition(if rel.complete then end else current.state, false));
    Result(t.base, if t.ok then t.base.row else current, t.ok || !rel.complete)
  }

  /** failGenerationJob; an incomplete release makes it read the job again, if it can. */
  function Fail(b: Base, job: Row, w: World, reread: bool): Result {
    var rel := Release(b, job, w);
    if !rel.ok then Result(rel.base, job, false)
    else Conclude(rel, if !rel.complete && reread then rel.base.row else rel.job, Failed)
  }

  /** expireGenerationJob, and the end of a confirmed cancellation. */
  function End(b: Base, job: Row, end: JobState, w: World): Result {
    var rel := Release(b, job, w);
    if !rel.ok then Result(rel.base, job, false) else Conclude(rel, rel.job, end)
  }

  /** Whether the release goes through when no one interferes. */
  predicate Settles(r: Row, w: World) {
    OutcomeKnown(r) && w.freed && (r.released || !w.leaseHeld)
  }

  /** Whether it stops with an error: the agent has let the mining lease go, and the lease table still
      has it. */
  predicate Blocked(r: Row, w: World) {
    OutcomeKnown(r) && w.freed && w.leaseHeld && !r.released
  }

  /** No quota is held for the job but what it has used. */
  predicate Refunded(r: Row) {
    !r.quotaReserved || r.quotaCommitted
  }

  /** Where a job that is to be ended comes to rest. */
  function EndOr(r: Row, end: JobState, w: World): JobState {
    if Settles(r, w) && Edge(r.state, end) then end else r.state
  }

  /** The marks that decide how a job may go on, besides its state. */
  ghost predicate SameMarks(a: Row, b: Row) {
    && b.prompt == a.prompt && b.owned == a.owned && b.started == a.started && b.rejected == a.rejected
    && b.cancelRequested == a.cancelRequested && b.cancelConfirmed == a.cancelConfirmed
  }

  ghost predicate SameJob(a: Row, b: Row) {
    b.state == a.state && SameMarks(a, b)
  }

  /** A reading of the row, and the row, after some calls that started from an earlier reading. */
  ghost predicate Follows(b: Base, job: Row, c: Base, later: Row) {
    Evolves(b.row, c.row) && Evolves(job, later) && Evolves(later, c.row)
  }

  lemma FollowsStart(b: Base, job: Row)
    requires Evolves(job, b.row)
    ensures Follows(b, job, b, job)
  {
    StillLawful(Prepare, b.row);
    StillLawful(Prepare, job);
    hide Evolves, Touches;
  }

  /** One more call: the old reading stays good, and a successful call gives a new one. */
  lemma FollowsServe(b: Base, job: Row, c: Base, later: Row, op: Op)
    requires Follows(b, job, c, later)
    requires op.MarkReleased? ==> c.row.closed
    ensures Follows(b, job, Serve(c, op).base, later)
    ensures Follows(b, job, Serve(c, op).base, Serve(c, op).base.row)
  {
    var d := Serve(c, op).base;
    ServeEvolves(c, op);
    StillLawful(Prepare, d.row);
    EvolvesTransitive(b.row, c.row, d.row);
    EvolvesTransitive(later, c.row, d.row);
    EvolvesTransitive(job, later, d.row);
    hide Evolves, Touches, Serve;
  }

  lemma FollowsFurther(b: Base, job: Row, c: Base, later: Row, d: Base, last: Row)
    requires Follows(b, job, c, later) && Follows(c, later, d, last)
    ensures Follows(b, job, d, last)
  {
    EvolvesTransitive(b.row, c.row, d.row);
    EvolvesTransitive(job, later, last);
    hide Evolves;
  }

  lemma ClosedStays(a: Row, b: Row)
    requires Evolves(a, b) && a.closed
    ensures b.closed
  {
    hide RowInv, Rank;
  }

  /** Under every script, a complete release has fenced the job and marked it. */
  lemma ReleaseFollows(b: Base, job: Row, w: World)
    requires Evolves(job, b.row)
    ensures var rel := Release(b, job, w);
            Follows(b, job, rel.base, rel.job)
            && (rel.complete ==> rel.ok && rel.job.closed && rel.job.released)
  {
    hide Evolves, Serve, Follows;
    FollowsStart(b, job);
    var fence := Serve(b, Fence(job.token, w.now));
    FollowsServe(b, job, b, job, Fence(job.token, w.now));
    ServeAchieves(b, Fence(job.token, w.now));
    if fence.ok {
      var refund := Serve(fence.base, ReleaseQuota);
      FollowsServe(b, job, fence.base, job, ReleaseQuota);
      ServeEvolves(fence.base, ReleaseQuota);
      ClosedStays(fence.base.row, refund.base.row);
      if refund.ok && w.freed {
        var op := MarkReleased(w.leaseHeld);
        FollowsServe(b, job, refund.base, job, op);
        ServeAchieves(refund.base, op);
        ServeEvolves(refund.base, op);
        ClosedStays(refund.base.row, Serve(refund.base, op).base.row);
      }
    }
  }

  /** What a complete release says by itself: the job is fenced and marked, and its outcome is known. */
  lemma ReleaseMeans(b: Base, job: Row, w: World)
    ensures var rel := Release(b, job, w);
            rel.complete ==>
              && rel.ok && rel.job == rel.base.row && rel.job.closed && rel.job.released
              && (RowInv(b.row) ==> OutcomeKnown(rel.job))
  {
    hide Evolves, Serve, OutcomeKnown;
    var fence := Serve(b, Fence(job.token, w.now));
    ServeAchieves(b, Fence(job.token, w.now));
    ServeEvolves(b, Fence(job.token, w.now));
    if fence.ok {
      var refund := Serve(fence.base, ReleaseQuota);
      ServeEvolves(fence.base, ReleaseQuota);
      ClosedStays(fence.base.row, refund.base.row);
      if refund.ok && w.freed {
        var op := MarkReleased(w.leaseHeld);
        ServeAchieves(refund.base, op);
        ServeEvolves(refund.base, op);
        ClosedStays(refund.base.row, Serve(refund.base, op).base.row);
        InvStays(b.row, fence.base.row);
        InvStays(fence.base.row, refund.base.row);
        InvStays(refund.base.row, Serve(refund.base, op).base.row);
      }
    }
  }

  /** The reply to the call after the first `i` ones is heard. */
  predicate Heard(turns: seq<Turn>, i: nat) {
    i < |turns| ==> turns[i].fate.Lands?
  }

  /** Under every script, a release that does not hear what became of the fence reports an error, and one
      that completes has heard all three replies. */
  lemma ReleaseNeedsReplies(b: Base, job: Row, w: World)
    ensures var rel := Release(b, job, w);
            && (rel.ok ==> Heard(b.turns, 0))
            && (rel.complete ==> Heard(b.turns, 0) && Heard(b.turns, 1) && Heard(b.turns, 2))
  {
    hide Apply, Run, Store;
    var fence := Serve(b, Fence(job.token, w.now));
    var refund := Serve(fence.base, ReleaseQuota);
    assert b.turns != [] ==> fence.base.turns == b.turns[1..];
    assert |b.turns| > 1 ==> refund.base.turns == b.turns[1..][1..];
  }

  lemma InvStays(a: Row, b: Row)
    requires Evolves(a, b)
    ensures RowInv(a) ==> RowInv(b)
  {
    hide RowInv, Rank;
  }

  lemma ConcludeFollows(b: Base, job: Row, rel: Released, current: Row, end: JobState)
    requires Follows(b, job, rel.base, current)
    ensures var m := Conclude(rel, current, end); Follows(b, job, m.base, m.job)
  {
    FollowsServe(b, job, rel.base, current, Transition(if rel.complete then end else current.state, false));
    hide Evolves, Serve, Follows;
  }

  /** Under every script, ending a job reports success exactly after a release that went wrong nowhere: an
      incomplete one is no error, whatever becomes of the message; after a complete one the end state must
      have been stored. A failure that read the job again returns no older reading. */
  lemma EndReports(b: Base, job: Row, end: JobState, w: World, reread: bool)
    ensures Reports(Release(b, job, w), job, End(b, job, end, w), end)
    ensures Reports(Release(b, job, w), job, Fail(b, job, w, reread), Failed)
    ensures var rel := Release(b, job, w); var m := Fail(b, job, w, reread);
            rel.ok && !rel.complete && reread ==> m.job == rel.base.row || m.job == m.base.row
  {
    hide Serve;
    var rel := Release(b, job, w);
    ServeAchieves(rel.base, Transition(end, false));
    ServeAchieves(rel.base, Transition(Failed, false));
  }

  ghost predicate Reports(rel: Released, job: Row, m: Result, end: JobState) {
    && (!rel.ok ==> !m.ok && m.base == rel.base && m.job == job)
    && (rel.ok && !rel.complete ==> m.ok)
    && (rel.ok && rel.complete && m.ok ==> m.job == m.base.row && m.job.state == end)
  }

  lemma FailFollows(b: Base, job: Row, w: World, reread: bool)
    requires Evolves(job, b.row)
    ensures var m := Fail(b, job, w, reread); Follows(b, job, m.base, m.job)
  {
    var rel := Release(b, job, w);
    ReleaseFollows(b, job, w);
    if rel.ok {
      if !rel.complete && reread {
        FollowsStart(b, job);
        assert Follows(b, job, rel.base, rel.base.row) by {
          StillLawful(Prepare, rel.base.row);
          EvolvesTransitive(job, b.row, rel.base.row);
          hide Evolves, Touches;
        }
        ConcludeFollows(b, job, rel, rel.base.row, Failed);
      } else {
        ConcludeFollows(b, job, rel, rel.job, Failed);
      }
    } else {
      assert rel.job == job;
    }
    hide Evolves, Serve, Follows, Conclude;
  }

  lemma EndFollows(b: Base, job: Row, end: JobState, w: World)
    requires Evolves(job, b.row)
    ensures var m := End(b, job, end, w); Follows(b, job, m.base, m.job)
  {
    ReleaseFollows(b, job, w);
    ConcludeFollows(b, job, Release(b, job, w), Release(b, job, w).job, end);
    hide Evolves, Serve, Follows, Conclude;
  }

  // ---- The same paths when no one else writes ----

  lemma ReleaseCalls(r: Row, op: Op, o: Outcome, w: World)
    requires o == Apply(r, op)
    requires op == Fence(r.token, w.now) || op == ReleaseQuota || op == MarkReleased(w.leaseHeld)
    ensures SameJob(r, o.row)
    ensures o.ok <==> (op.Fence? ==> OutcomeKnown(r)) && (op.MarkReleased? ==> r.released || !w.leaseHeld)
    ensures !o.ok ==> o.row == r
    ensures !op.MarkReleased? ==> o.row.released == r.released
    ensures op.MarkReleased? && o.ok ==> o.row.released
    ensures o.row.closed == (r.closed || (op.Fence? && o.ok))
    ensures (op.ReleaseQuota? || Refunded(r)) ==> Refunded(o.row)
  {
  }

  lemma SameJobTransitive(a: Row, b: Row, c: Row)
    requires SameJob(a, b) && SameJob(b, c)
    ensures SameJob(a, c)
  {
  }

  lemma SameJobFacts(a: Row, b: Row)
    ensures SameJob(a, a)
    ensures SameJob(a, b) ==> a.state == b.state && OutcomeKnown(a) == OutcomeKnown(b)
  {
  }

  /** A release that no one disturbs changes nothing but resources, completes only with a known
      outcome, and leaves a job of unknown outcome exactly as it is. */
  lemma ReleaseAlone(b: Base, w: World)
    requires Alone(b.turns)
    ensures var rel := Release(b, b.row, w);
            && Alone(rel.base.turns) && rel.base.misdirected == b.misdirected
            && SameJob(b.row, rel.base.row)
            && (rel.complete ==> rel.job == rel.base.row && rel.base.row.released && OutcomeKnown(b.row))
            && (!rel.complete ==> rel.job == b.row)
            && (!OutcomeKnown(b.row) ==> rel.base.row == b.row)
  {
    var op1 := Fence(b.row.token, w.now);
    var fence := Serve(b, op1);
    ReleaseCalls(b.row, op1, Apply(b.row, op1), w);
    ServeAlone(b, op1);
    SameJobFacts(b.row, fence.base.row);
    if fence.ok {
      var row1 := fence.base.row;
      var refund := Serve(fence.base, ReleaseQuota);
      ReleaseCalls(row1, ReleaseQuota, Apply(row1, ReleaseQuota), w);
      ServeAlone(fence.base, ReleaseQuota);
      SameJobFacts(row1, row1);
      SameJobTransitive(b.row, row1, refund.base.row);
      if refund.ok && w.freed {
        var row2 := refund.base.row;
        var op3 := MarkReleased(w.leaseHeld);
        var mark := Serve(refund.base, op3);
        ReleaseCalls(row2, op3, Apply(row2, op3), w);
        ServeAlone(refund.base, op3);
        SameJobFacts(row2, row2);
        SameJobTransitive(b.row, row2, mark.base.row);
      }
    }
    hide Alone, Serve, Apply, SameJob, OutcomeKnown;
  }

  /** Uncut, a release completes exactly when the outcome of the send is known and the mining lease is
      freed. The fence and the refund need only the first. */
  lemma ReleaseCalm(b: Base, w: World)
    requires Calm(b.turns)
    ensures var rel := Release(b, b.row, w);
            && Calm(rel.base.turns) && (rel.complete <==> Settles(b.row, w)) && (rel.ok <==> !Blocked(b.row, w))
            && (OutcomeKnown(b.row) ==> rel.base.row.closed && Refunded(rel.base.row))
  {
    hide Calm, Serve, Apply, SameJob, OutcomeKnown, Refunded;
    var op1 := Fence(b.row.token, w.now);
    var fence := Serve(b, op1);
    ReleaseCalls(b.row, op1, Apply(b.row, op1), w);
    ServeCalm(b, op1);
    var refund := Serve(fence.base, ReleaseQuota);
    ReleaseCalls(fence.base.row, ReleaseQuota, Apply(fence.base.row, ReleaseQuota), w);
    ServeCalm(fence.base, ReleaseQuota);
    var op3 := MarkReleased(w.leaseHeld);
    ReleaseCalls(refund.base.row, op3, Apply(refund.base.row, op3), w);
    ServeCalm(refund.base, op3);
  }

  lemma EndCalls(r: Row, to: JobState, o: Outcome)
    requires o == Apply(r, Transition(to, false))
    requires to == r.state || (Terminal(to) && r.released)
    ensures o.row == (if Edge(r.state, to) then r.(state := to) else r)
    ensures to == r.state || Edge(r.state, to) ==> CanTransition(r.state, to)
    ensures to != r.state || !Terminal(r.state) ==> (o.ok <==> CanTransition(r.state, to))
  {
    EdgeClimbs(r.state, r.state);
    hide Rank;
  }

  lemma SameMarksFacts(a: Row, b: Row, s: JobState)
    requires SameJob(a, b)
    ensures SameMarks(a, b) && SameMarks(a, b.(state := s))
  {
  }

  lemma ConcludeAlone(b: Base, rel: Released, current: Row, end: JobState)
    requires Alone(rel.base.turns) && SameJob(b.row, rel.base.row) && current.state == rel.base.row.state
    requires Terminal(end) && (rel.complete ==> rel.base.row.released)
    ensures var m := Conclude(rel, current, end);
            && Alone(m.base.turns) && SameMarks(b.row, m.base.row)
            && (m.base.row.state == b.row.state || (rel.complete && Edge(b.row.state, end) && m.base.row.state == end))
            && (!rel.complete ==> m.base.row == rel.base.row)
            && (Edge(b.row.state, end) ==> m.base.misdirected == rel.base.misdirected)
  {
    var r := rel.base.row;
    var to := if rel.complete then end else current.state;
    EndCalls(r, to, Apply(r, Transition(to, false)));
    EdgeClimbs(r.state, r.state);
    ServeAlone(rel.base, Transition(to, false));
    SameJobFacts(b.row, r);
    SameMarksFacts(b.row, r, end);
    hide Alone, Serve, Apply, SameJob, Edge, Rank, CanTransition, Terminal, SameMarks;
  }

  /** The failure, expiry and cancellation paths, undisturbed but perhaps cut off: the job keeps
      its state or takes the end state along an edge, the latter only with a known outcome; a job
      of unknown outcome is not touched at all. */
  lemma EndingsAlone(b: Base, end: JobState, w: World, reread: bool)
    requires Alone(b.turns) && Terminal(end)
    ensures forall m <- [End(b, b.row, end, w), Fail(b, b.row, w, reread)] ::
              && Alone(m.base.turns) && SameMarks(b.row, m.base.row)
              && (!OutcomeKnown(b.row) ==> m.base.row == b.row)
    ensures var m := End(b, b.row, end, w);
            && (m.base.row.state == b.row.state || (Edge(b.row.state, end) && m.base.row.state == end))
            && (Edge(b.row.state, end) ==> m.base.misdirected == b.misdirected)
    ensures var m := Fail(b, b.row, w, reread);
            m.base.row.state == b.row.state || (Edge(b.row.state, Failed) && m.base.row.state == Failed)
  {
    hide Alone, Release, Conclude, SameJob, SameMarks, OutcomeKnown, Edge;
    var rel := Release(b, b.row, w);
    ReleaseAlone(b, w);
    SameJobFacts(b.row, rel.base.row);
    SameMarksFacts(b.row, rel.base.row, end);
    if rel.ok {
      ConcludeAlone(b, rel, rel.job, end);
      ConcludeAlone(b, rel, if !rel.complete && reread then rel.base.row else rel.job, Failed);
    }
  }

  lemma ConcludeCalm(b: Base, rel: Released, current: Row, end: JobState)
    requires Calm(rel.base.turns) && rel.base.row.state == b.row.state == current.state
    requires Terminal(end) && (rel.complete ==> rel.base.row.released)
    ensures var m := Conclude(rel, current, end);
            && m.base.row.state == (if rel.complete && Edge(b.row.state, end) then end else b.row.state)
            && m.job.state == m.base.row.state
            && m.base.row.closed == rel.base.row.closed && Refunded(m.base.row) == Refunded(rel.base.row)
            && (!Terminal(b.row.state) ==> (m.ok <==> (rel.complete ==> Edge(b.row.state, end))))
  {
    hide Calm, Serve, Apply, Edge, Rank, Terminal, Refunded;
    var r := rel.base.row;
    var to := if rel.complete then end else current.state;
    EndCalls(r, to, Apply(r, Transition(to, false)));
    EdgeClimbs(r.state, r.state);
    RefundedAnyway(r, to);
    ServeCalm(rel.base, Transition(to, false));
  }

  /** Undisturbed and uncut, these paths end the job exactly when its outcome is known, its mining
      lease is freed and the graph has the edge; a known outcome alone suffices to fence it off and to
      return its quota. */
  lemma EndingsCalm(b: Base, end: JobState, w: World, reread: bool)
    requires Calm(b.turns) && Terminal(end)
    ensures var m := End(b, b.row, end, w);
            && m.base.row.state == m.job.state == EndOr(b.row, end, w)
            && (OutcomeKnown(b.row) ==> m.base.row.closed && Refunded(m.base.row))
            && (!Terminal(b.row.state) ==>
                  (m.ok <==> !Blocked(b.row, w) && (Settles(b.row, w) ==> Edge(b.row.state, end))))
    ensures var m := Fail(b, b.row, w, reread);
            && m.base.row.state == m.job.state == EndOr(b.row, Failed, w)
            && (OutcomeKnown(b.row) ==> m.base.row.closed && Refunded(m.base.row))
            && (!Terminal(b.row.state) ==> (m.ok <==> !Blocked(b.row, w)))
  {
    hide Alone, Calm, Release, Conclude, SameJob, OutcomeKnown, Edge, Settles, Blocked, Refunded;
    var rel := Release(b, b.row, w);
    CalmIsAlone(b.turns);
    ReleaseAlone(b, w);
    ReleaseCalm(b, w);
    SameJobFacts(b.row, rel.base.row);
    GraphExactly(b.row.state, Failed);
    if rel.ok {
      ConcludeCalm(b, rel, rel.job, end);
      ConcludeCalm(b, rel, if !rel.complete && reread then rel.base.row else rel.job, Failed);
    }
    ReleaseOkIfComplete(b, b.row, w);
  }

  lemma RefundedAnyway(r: Row, s: JobState)
    ensures var q := r.(state := s); Refunded(q) == Refunded(r) && q.closed == r.closed
  {
  }

  lemma ReleaseOkIfComplete(b: Base, job: Row, w: World)
    ensures Release(b, job, w).complete ==> Release(b, job, w).ok
  {
    hide Serve;
  }
}
