/**
  One generation job as the database holds it, and every store call that writes the row.
  A call is one transaction, so it is a function from the row before to the row after. The
  guards are those of the SQL statements. A nullable timestamp is modelled by whether it is
  set, except the dispatch lease, whose time matters.
*/
module JobRows {
  import opened Options
  import opened GenerationJobs

  // Dispatch tokens and prompt ids are only ever compared, so they are numbered. Zero is the
  // empty string.
  const NO_ID: nat := 0

  const LEASE_SECONDS: int := 120
  const POSTPONE_SECONDS: int := 5

  datatype Row = Row(
    state: JobState,
    owned: bool,
    inBatch: bool,
    prompt: Option<nat>,
    hasPayload: bool,
    dispatchQueued: bool,
    token: nat,
    until: Option<int>,
    closed: bool,
    started: bool,
    rejected: bool,
    cancelRequested: bool,
    cancelConfirmed: bool,
    released: bool,
    quotaReserved: bool,
    quotaCommitted: bool)

  /** The outcome of a send is known: a receipt is bound, nothing was sent, or ComfyUI refused it. */
  predicate OutcomeKnown(r: Row) {
    r.prompt.Some? || !r.started || r.rejected
  }

  datatype Op =
    | Prepare
    | Transition(to: JobState, repeated: bool)
    | QueueDispatch
    | Claim(token: nat, now: int)
    | Begin(token: nat, now: int)
    | Postpone(token: nat, now: int)
    | Reject(token: nat)
    | Fence(token: nat, now: int)
    | ReserveQuota(granted: bool)
    | CommitQuota
    | ReleaseQuota
    | MarkReleased(leaseHeld: bool)
    | Bind(prompt: nat)
    | RequestCancel
    | ClearCancel
    | ConfirmCancel
    | DropOwner

  /** The row after the call, and whether the call reports success. */
  datatype Outcome = Outcome(row: Row, ok: bool)

  function Guarded(guard: bool, before: Row, after: Row): Outcome {
    if guard then Outcome(after, true) else Outcome(before, false)
  }

  /** A repeated write of the same state refreshes messages only; a terminal job refuses even
      that unless nothing would change. */
  function DoTransition(r: Row, to: JobState, repeated: bool): Outcome {
    if r.state == to then
      Outcome(r, !Terminal(r.state) || repeated)
    else
      Guarded(&& CanTransition(r.state, to)
              && (to == Queued ==> r.prompt.Some?)
              && (Terminal(to) ==> r.released),
              r, r.(state := to))
  }

  function DoQueueDispatch(r: Row): Outcome {
    Guarded(&& r.state == WaitingForResources && !r.inBatch
            && r.prompt.None? && !r.started && !r.cancelRequested
            && !r.closed && !r.released && r.quotaReserved && r.hasPayload,
            r, r.(dispatchQueued := true))
  }

  /** The conditions on this row alone. Those on its batch and on other jobs only make a claim rarer. */
  predicate Claimable(r: Row, now: int) {
    && r.prompt.None? && !r.started && !r.closed && !r.released && !r.cancelRequested
    && (r.until.Some? ==> r.until.value < now)
    && (if r.inBatch then
          || r.state == Draft
          || (r.dispatchQueued && (r.state.Preparing? || r.state.Uploading? || r.state.WaitingForResources?))
        else
          r.dispatchQueued && r.state == WaitingForResources)
  }

  function DoClaim(r: Row, token: nat, now: int): Outcome {
    Guarded(token != NO_ID && Claimable(r, now), r,
            r.(dispatchQueued := true, token := token, until := Some(now + LEASE_SECONDS),
               state := if r.state == Draft then Preparing else r.state))
  }

  function DoBegin(r: Row, token: nat, now: int): Outcome {
    Guarded(&& token != NO_ID && r.token == token && r.until.Some? && r.until.value > now
            && r.state == WaitingForResources && r.prompt.None? && !r.started
            && !r.cancelRequested && !r.closed && !r.released,
            r, r.(started := true))
  }

  function DoPostpone(r: Row, token: nat, now: int): Outcome {
    Guarded(&& r.token == token && !r.started && r.prompt.None?
            && r.state == WaitingForResources && !r.cancelRequested && !r.closed && !r.released,
            r, r.(token := NO_ID, until := Some(now + POSTPONE_SECONDS)))
  }

  function DoReject(r: Row, token: nat): Outcome {
    Guarded(r.token == token && r.started && r.prompt.None?, r, r.(rejected := true))
  }

  function DoFence(r: Row, token: nat, now: int): Outcome {
    Guarded((r.token == token || r.token == NO_ID || r.prompt.Some?) && OutcomeKnown(r), r,
            r.(closed := true, until := Some(now), dispatchQueued := false, token := NO_ID))
  }

  function DoReserve(r: Row, granted: bool): Outcome {
    if !r.owned then Outcome(r, false)
    else if r.quotaReserved then Outcome(r, true)
    else Guarded(r.state == WaitingForResources && granted, r, r.(quotaReserved := true))
  }

  function DoCommit(r: Row): Outcome {
    if r.quotaCommitted then Outcome(r, true)
    else Guarded(r.quotaReserved && r.prompt.Some?, r, r.(quotaCommitted := true))
  }

  function DoReleaseQuota(r: Row): Outcome {
    Outcome(if r.quotaReserved && !r.quotaCommitted then r.(quotaReserved := false) else r, true)
  }

  function DoMarkReleased(r: Row, leaseHeld: bool): Outcome {
    if r.released then Outcome(r, true)
    else Guarded(!leaseHeld, r, r.(released := true))
  }

  function DoBind(r: Row, prompt: nat): Outcome {
    if r.prompt.Some? then Outcome(r, r.prompt.value == prompt)
    else Guarded(prompt != NO_ID, r, r.(prompt := Some(prompt)))
  }

  function DoRequestCancel(r: Row): Outcome {
    Guarded(Cancellable(r.state), r, r.(cancelRequested := true))
  }

  /** Clearing or confirming a cancellation that is no longer there reads the row and succeeds. */
  function DoClearCancel(r: Row): Outcome {
    if !r.owned then Outcome(r, false)
    else Outcome(if r.cancelRequested && !Terminal(r.state)
                 then r.(cancelRequested := false, cancelConfirmed := false) else r, true)
  }

  function DoConfirmCancel(r: Row): Outcome {
    Outcome(if r.cancelRequested && !r.cancelConfirmed && !Terminal(r.state) && OutcomeKnown(r)
            then r.(cancelConfirmed := true) else r, true)
  }

  function Apply(r: Row, op: Op): Outcome {
    match op
    case Prepare => Guarded(r.state.Draft? || r.state.Preparing? || r.state.Uploading?, r, r.(hasPayload := true))
    case Transition(to, repeated) => DoTransition(r, to, repeated)
    case QueueDispatch => DoQueueDispatch(r)
    case Claim(token, now) => DoClaim(r, token, now)
    case Begin(token, now) => DoBegin(r, token, now)
    case Postpone(token, now) => DoPostpone(r, token, now)
    case Reject(token) => DoReject(r, token)
    case Fence(token, now) => DoFence(r, token, now)
    case ReserveQuota(granted) => DoReserve(r, granted)
    case CommitQuota => DoCommit(r)
    case ReleaseQuota => DoReleaseQuota(r)
    case MarkReleased(leaseHeld) => DoMarkReleased(r, leaseHeld)
    case Bind(prompt) => DoBind(r, prompt)
    case RequestCancel => DoRequestCancel(r)
    case ClearCancel => DoClearCancel(r)
    case ConfirmCancel => DoConfirmCancel(r)
    case DropOwner => Outcome(r.(owned := false), true)
  }

  /** The one rule callers must keep: resources are marked released only behind a fence. */
  predicate Orderly(r: Row, op: Op) {
    op.MarkReleased? ==> r.closed
  }

  /** What the row alone always satisfies. */
  ghost predicate RowInv(r: Row) {
    && (r.released ==> r.closed)
    && (r.closed ==> OutcomeKnown(r))
    && (Terminal(r.state) ==> r.released)
    && (r.cancelConfirmed ==> r.cancelRequested && OutcomeKnown(r))
    && (AtExecutor(r.state) ==> r.prompt.Some?)
    && (r.rejected ==> r.started)
    && (r.quotaCommitted ==> r.quotaReserved && r.prompt.Some?)
  }

  /** What no sequence of orderly calls can undo. */
  ghost predicate Evolves(a: Row, b: Row) {
    && (RowInv(a) ==> RowInv(b))
    && (a.prompt.Some? ==> b.prompt == a.prompt)
    && (a.closed ==> b.closed)
    && (a.started ==> b.started)
    && (a.rejected ==> b.rejected)
    && (a.released ==> b.released)
    && (a.quotaCommitted ==> b.quotaCommitted)
    && Rank(a.state) <= Rank(b.state)
    && (Terminal(a.state) ==> b.state == a.state)
    && (a.closed && !a.started ==> !b.started)
  }

  lemma EvolvesTransitive(a: Row, b: Row, c: Row)
    requires Evolves(a, b) && Evolves(b, c)
    ensures Evolves(a, c)
  {
    hide RowInv, Rank;
  }

  /** Which calls may touch which marks. */
  ghost predicate Touches(op: Op, a: Row, b: Row) {
    && (a.state != b.state ==> (op.Transition? || op.Claim?) && Edge(a.state, b.state))
    && (a.prompt != b.prompt ==> op.Bind?)
    && (a.started != b.started ==> op.Begin?)
    && (a.rejected != b.rejected ==> op.Reject? && op.token == a.token)
    && (a.released != b.released ==> op.MarkReleased? && !op.leaseHeld)
    && (b.closed && !a.closed ==> op.Fence?)
    && (b.cancelRequested && !a.cancelRequested ==> op.RequestCancel? && Cancellable(a.state))
    && (a.cancelRequested && !b.cancelRequested ==> op.ClearCancel? && a.owned && !Terminal(a.state))
    && (b.cancelConfirmed && !a.cancelConfirmed ==> op.ConfirmCancel? && !Terminal(a.state))
    && (a.cancelConfirmed && !b.cancelConfirmed ==> !b.cancelRequested)
    && (b.owned <==> a.owned && !op.DropOwner?)
    && b.inBatch == a.inBatch
    && (a.hasPayload != b.hasPayload ==> op.Prepare? && Rank(a.state) <= Rank(Uploading) && b.hasPayload)
    && (b.dispatchQueued && !a.dispatchQueued ==> op.QueueDispatch? || op.Claim?)
    && (a.dispatchQueued && !b.dispatchQueued ==> op.Fence?)
    && (b.quotaReserved && !a.quotaReserved ==>
          op.ReserveQuota? && op.granted && a.owned && a.state == WaitingForResources)
    && (a.quotaReserved && !b.quotaReserved ==> op.ReleaseQuota?)
    && (a.quotaCommitted != b.quotaCommitted ==> op.CommitQuota?)
    && (op.ReleaseQuota? ==> !b.quotaReserved || b.quotaCommitted)
  }

  ghost predicate Lawful(op: Op, a: Row, b: Row) {
    Evolves(a, b) && Touches(op, a, b)
  }

  lemma StillLawful(op: Op, r: Row)
    requires !op.ReleaseQuota? && !op.DropOwner?
    ensures Lawful(op, r, r)
  {
    hide Rank, Edge;
  }

  lemma TransitionLawful(r: Row, to: JobState, repeated: bool)
    ensures Lawful(Transition(to, repeated), r, DoTransition(r, to, repeated).row)
  {
    var after := DoTransition(r, to, repeated).row;
    if after == r {
      StillLawful(Transition(to, repeated), r);
    } else {
      EdgeClimbs(r.state, to);
      assert after == r.(state := to) && Edge(r.state, to);
      hide Rank, Edge;
    }
  }

  lemma ClaimLawful(r: Row, token: nat, now: int)
    ensures Lawful(Claim(token, now), r, DoClaim(r, token, now).row)
  {
    EdgeClimbs(Draft, Preparing);
    assert Edge(Draft, Preparing);
    hide Rank, Edge;
  }

  lemma BindLawful(r: Row, prompt: nat)
    ensures Lawful(Bind(prompt), r, DoBind(r, prompt).row)
  {
    if r.prompt.Some? || prompt == NO_ID {
      StillLawful(Bind(prompt), r);
    } else {
      hide Rank, Edge;
    }
  }

  /** The calls of the cancellation path. */
  lemma CancelCallLawful(r: Row, op: Op)
    requires op.RequestCancel? || op.ClearCancel? || op.ConfirmCancel?
    ensures Lawful(op, r, Apply(r, op).row)
  {
    hide Lawful, DoRequestCancel, DoClearCancel, DoConfirmCancel;
    RequestLawful(r);
    ClearLawful(r);
    ConfirmLawful(r);
  }

  lemma RequestLawful(r: Row)
    ensures Lawful(RequestCancel, r, DoRequestCancel(r).row)
  {
    hide Rank, Edge;
  }

  lemma ClearLawful(r: Row)
    ensures Lawful(ClearCancel, r, DoClearCancel(r).row)
  {
    hide Rank, Edge;
  }

  lemma ConfirmLawful(r: Row)
    ensures Lawful(ConfirmCancel, r, DoConfirmCancel(r).row)
  {
    hide Rank, Edge;
  }

  /** The other calls of the job store: they need the fence only for the release mark. */
  lemma JobCallLawful(r: Row, op: Op)
    requires Orderly(r, op)
    requires op.Prepare? || op.MarkReleased? || op.DropOwner?
    ensures Lawful(op, r, Apply(r, op).row)
  {
    hide Edge;
  }

  /** The other calls of the dispatch store. */
  lemma DispatchCallLawful(r: Row, op: Op)
    requires op.QueueDispatch? || op.Begin? || op.Postpone? || op.Reject? || op.Fence?
    ensures Lawful(op, r, Apply(r, op).row)
  {
    hide Rank, Edge;
  }

  /** The calls of the quota store. */
  lemma QuotaCallLawful(r: Row, op: Op)
    requires op.ReserveQuota? || op.CommitQuota? || op.ReleaseQuota?
    ensures Lawful(op, r, Apply(r, op).row)
  {
    hide Rank, Edge;
  }

  /** Every orderly store call, by anyone at any time, keeps the row invariant, never takes back
      a binding, a fence, a send mark, a refusal, a release or progress, moves the state only
      along an edge, and touches only what it is for. */
  lemma CallLawful(r: Row, op: Op)
    requires Orderly(r, op)
    ensures Lawful(op, r, Apply(r, op).row)
  {
    if op.Transition? {
      TransitionLawful(r, op.to, op.repeated);
    } else if op.Claim? {
      ClaimLawful(r, op.token, op.now);
    } else if op.Bind? {
      BindLawful(r, op.prompt);
    } else if op.ReserveQuota? || op.CommitQuota? || op.ReleaseQuota? {
      QuotaCallLawful(r, op);
    } else if op.QueueDispatch? || op.Begin? || op.Postpone? || op.Reject? || op.Fence? {
      DispatchCallLawful(r, op);
    } else if op.RequestCancel? || op.ClearCancel? || op.ConfirmCancel? {
      CancelCallLawful(r, op);
    } else {
      JobCallLawful(r, op);
    }
    hide Lawful, DoTransition, DoClaim, DoBegin, DoPostpone, DoReject, DoFence, DoQueueDispatch,
         DoReserve, DoCommit, DoReleaseQuota, DoMarkReleased, DoBind, DoRequestCancel, DoClearCancel, DoConfirmCancel;
  }

  /** The calls that may be made again when their reply was lost. */
  predicate Repeatable(op: Op) {
    !op.Claim? && !op.Begin? && !op.Postpone? && (op.Transition? ==> !Terminal(op.to))
  }

  /** Made again at once, a successful call succeeds again and changes nothing more. */
  lemma RepeatsAreHarmless(r: Row, op: Op, o: Outcome)
    requires Repeatable(op) && o == Apply(r, op) && o.ok
    ensures Apply(o.row, op) == Outcome(o.row, true)
  {
    if op.Transition? {
      assert o.row.state == op.to;
    } else if op.QueueDispatch? || op.Reject? || op.Fence? {
      assert o.row.prompt == r.prompt;
    } else if op.ReserveQuota? || op.CommitQuota? || op.ReleaseQuota? {
      RepeatedQuotaCall(r, op, o);
    } else if op.RequestCancel? || op.ClearCancel? || op.ConfirmCancel? {
      RepeatedCancelCall(r, op, o);
    }
    hide Edge, Cancellable;
  }

  lemma RepeatedQuotaCall(r: Row, op: Op, o: Outcome)
    requires op.ReserveQuota? || op.CommitQuota? || op.ReleaseQuota?
    requires o == Apply(r, op) && o.ok
    ensures Apply(o.row, op) == Outcome(o.row, true)
  {
  }

  lemma RepeatedCancelCall(r: Row, op: Op, o: Outcome)
    requires op.RequestCancel? || op.ClearCancel? || op.ConfirmCancel?
    requires o == Apply(r, op) && o.ok
    ensures Apply(o.row, op) == Outcome(o.row, true)
  {
    hide Cancellable, OutcomeKnown;
  }

  ghost predicate SameDispatch(a: Row, b: Row) {
    b.token == a.token && b.until == a.until && b.closed == a.closed
  }

  lemma BindKeeps(r: Row, prompt: nat)
    ensures SameDispatch(r, DoBind(r, prompt).row)
  {
    if r.prompt.Some? || prompt == NO_ID {
      assert DoBind(r, prompt).row == r;
    }
  }

  lemma MoveKeeps(r: Row, to: JobState, repeated: bool)
    ensures SameDispatch(r, DoTransition(r, to, repeated).row)
  {
    var after := DoTransition(r, to, repeated).row;
    if after != r {
      assert after == r.(state := to);
    }
  }

  lemma ReleaseMarkKeeps(r: Row, leaseHeld: bool)
    ensures SameDispatch(r, DoMarkReleased(r, leaseHeld).row)
  {
  }

  lemma QuotaKeeps(r: Row, granted: bool)
    ensures SameDispatch(r, DoReserve(r, granted).row) && SameDispatch(r, DoCommit(r).row)
    ensures SameDispatch(r, DoReleaseQuota(r).row)
  {
  }

  lemma RequestKeeps(r: Row)
    ensures SameDispatch(r, DoRequestCancel(r).row)
  {
    hide Cancellable;
  }

  lemma ClearKeeps(r: Row)
    ensures SameDispatch(r, DoClearCancel(r).row)
  {
    hide Terminal;
  }

  lemma ConfirmKeeps(r: Row)
    ensures SameDispatch(r, DoConfirmCancel(r).row)
  {
    hide Terminal, OutcomeKnown;
  }

  lemma SmallCallsKeep(r: Row)
    ensures SameDispatch(r, r) && SameDispatch(r, r.(hasPayload := true)) && SameDispatch(r, r.(owned := false))
  {
  }

  lemma JobCallKeeps(r: Row, op: Op)
    requires !op.QueueDispatch? && !op.Claim? && !op.Begin? && !op.Postpone? && !op.Reject? && !op.Fence?
    ensures SameDispatch(r, Apply(r, op).row)
  {
    hide SameDispatch, DoBind, DoTransition, DoReserve, DoCommit, DoReleaseQuota, DoMarkReleased, DoRequestCancel,
         DoClearCancel, DoConfirmCancel;
    SmallCallsKeep(r);
    match op {
      case Bind(prompt) => BindKeeps(r, prompt);
      case Transition(to, repeated) => MoveKeeps(r, to, repeated);
      case MarkReleased(leaseHeld) => ReleaseMarkKeeps(r, leaseHeld);
      case RequestCancel => RequestKeeps(r);
      case ClearCancel => ClearKeeps(r);
      case ConfirmCancel => ConfirmKeeps(r);
      case ReserveQuota(granted) => QuotaKeeps(r, granted);
      case _ => QuotaKeeps(r, false);
    }
  }

  /** Only a claim installs a token, and only a call under the current token marks the send. */
  lemma TokenChanges(r: Row, op: Op, o: Outcome)
    requires o == Apply(r, op)
    ensures o.row.token == r.token || o.row.token == NO_ID || (op.Claim? && o.row.token == op.token)
    ensures op.Begin? && o.ok ==> r.token == op.token
  {
    if op.QueueDispatch? || op.Claim? || op.Begin? || op.Postpone? || op.Reject? || op.Fence? {
    } else {
      JobCallKeeps(r, op);
      hide Apply;
    }
  }

  /** A lease ends early only by the fence or by its own worker. */
  ghost predicate LeaseStands(r: Row, deadline: int) {
    r.closed || (r.until.Some? && r.until.value >= deadline)
  }

  lemma LeaseCall(r: Row, op: Op, o: Outcome, deadline: int)
    requires o == Apply(r, op) && LeaseStands(r, deadline)
    requires !op.Postpone? && (op.Claim? ==> op.now <= deadline)
    ensures LeaseStands(o.row, deadline) && (o.row.token == r.token || o.row.token == NO_ID) && (op.Claim? ==> !o.ok)
  {
    if op.QueueDispatch? || op.Claim? || op.Begin? || op.Postpone? || op.Reject? || op.Fence? {
    } else {
      JobCallKeeps(r, op);
      hide Apply;
    }
  }
}
