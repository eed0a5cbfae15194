/** What a dispatch worker achieves when nobody comes in between, and when exactly. */
module DispatchRuns {
  import opened Options
  import opened GenerationJobs
  import opened JobRows
  import opened DispatchProtocol

  /** A job that a dispatch may still take on. */
  predicate Open(r: Row) {
    r.prompt.None? && !r.started && !r.closed && !r.released && !r.cancelRequested
  }

  /** A job of the foreground that has all it needs to be sent. */
  predicate Ready(r: Row) {
    Open(r) && r.state == WaitingForResources && !r.inBatch && r.quotaReserved && r.hasPayload
  }

  /** A member of a batch nobody has touched yet. */
  predicate Untouched(r: Row) {
    Open(r) && r.state == Draft && r.inBatch
  }

  /** The row under a worker's claim. */
  predicate Claimed(r: Row, token: nat, until: int) {
    Open(r) && r.token == token && r.until == Some(until)
  }

  predicate Unclaimed(r: Row, now: int) {
    r.until.Some? ==> r.until.value < now
  }

  /** Waiting for a worker: published, or in a batch and not yet past its preparation. */
  predicate Awaits(r: Row) {
    || (r.dispatchQueued && r.state == WaitingForResources)
    || (r.inBatch && r.state == Draft)
    || (r.inBatch && r.dispatchQueued && (r.state == Preparing || r.state == Uploading))
  }

  /** Which rows each call of the dispatch takes: a job is published exactly when it is ready, claimed
      exactly when it is open, awaits a worker and no claim on it runs, marked exactly under a running
      claim, postponed exactly by its claimant, and refused exactly by the claimant that marked it. */
  lemma DispatchCallsExactly(r: Row, token: nat, now: int)
    ensures Apply(r, QueueDispatch).ok <==> Ready(r)
    ensures Apply(r, Claim(token, now)).ok <==> token != NO_ID && Open(r) && Awaits(r) && Unclaimed(r, now)
    ensures var mine := r.token == token && r.state == WaitingForResources && Open(r);
            && (Apply(r, Begin(token, now)).ok <==> mine && token != NO_ID && r.until.Some? && now < r.until.value)
            && (Apply(r, Postpone(token, now)).ok <==> mine)
    ensures Apply(r, Reject(token)).ok <==> r.token == token && r.started && r.prompt.None?
  {
  }

  /** The fence goes up exactly when the outcome of a send is known and no one else's claim stands in the
      way, which a bound prompt overrides. It takes the publication and the claim back. */
  lemma FenceExactly(r: Row, token: nat, now: int)
    ensures var o := Apply(r, Fence(token, now)); var foreign := r.token != NO_ID && r.token != token;
            && (o.ok <==> OutcomeKnown(r) && (foreign ==> r.prompt.Some?))
            && (o.ok ==> o.row == r.(closed := true, dispatchQueued := false, token := NO_ID, until := Some(now)))
            && (!o.ok ==> o.row == r)
  {
  }

  /** An ended job accepts a write of its state only if it repeats the last one, and stays as it is. */
  lemma EndedAcceptsRepeatsOnly(r: Row, to: JobState, repeated: bool)
    requires Terminal(r.state)
    ensures var o := Apply(r, Transition(to, repeated)); o.row == r && (o.ok <==> to == r.state && repeated)
  {
    EdgeClimbs(r.state, to);
  }

  lemma Two(s: System, a: Step, b: Step)
    ensures Run(s, [a, b]) == Next(Next(s, a), b)
  {
    hide Next;
    assert [a, b][1..] == [b] && [b][1..] == [];
    assert Run(s, [a, b]) == Run(Next(s, a), [b]) == Run(Next(Next(s, a), b), []);
  }

  lemma Three(s: System, a: Step, b: Step, c: Step)
    ensures Run(s, [a, b, c]) == Next(Next(Next(s, a), b), c)
  {
    hide Next;
    assert [a, b, c][1..] == [b, c];
    Two(Next(s, a), b, c);
  }

  lemma Four(s: System, a: Step, b: Step, c: Step, d: Step)
    ensures Run(s, [a, b, c, d]) == Next(Next(Next(Next(s, a), b), c), d)
  {
    hide Next;
    assert [a, b, c, d][1..] == [b, c, d];
    Three(Next(s, a), b, c, d);
  }

  // ---- Claim, mark, send ----

  lemma QueueStep(s: System)
    requires Ready(s.row)
    ensures var t := Next(s, Call(QueueDispatch)); t == s.(row := s.row.(dispatchQueued := true))
  {
  }

  lemma ClaimStep(s: System, w: nat, token: nat, now: int)
    requires token != NO_ID && Unclaimed(s.row, now)
    requires (Ready(s.row) && s.row.dispatchQueued) || Untouched(s.row)
    ensures var t := Next(s, ClaimBy(w, token, now));
            && Claimed(t.row, token, now + 120) && t.posts == s.posts && t.workers == s.workers[w := Holding(token)]
            && t.row.state == (if s.row.state == Draft then Preparing else s.row.state)
  {
  }

  lemma WaitStep(s: System, token: nat, until: int)
    requires Claimed(s.row, token, until) && s.row.state == Preparing
    ensures var t := Next(s, Call(Transition(WaitingForResources, false)));
            && Claimed(t.row, token, until) && t.row.state == WaitingForResources
            && t.posts == s.posts && t.workers == s.workers
  {
    hide Store, Claimed;
    var op := Transition(WaitingForResources, false);
    WaitCall(s.row, token, until, Apply(s.row, op));
    assert Next(s, Call(op)) == Store(s, op);
    StoreKeepsRest(s, op);
  }

  lemma WaitCall(r: Row, token: nat, until: int, o: Outcome)
    requires Claimed(r, token, until) && r.state == Preparing && o == DoTransition(r, WaitingForResources, false)
    ensures Claimed(o.row, token, until) && o.row.state == WaitingForResources
  {
  }

  lemma StoreKeepsRest(s: System, op: Op)
    ensures var t := Store(s, op); t.row == Apply(s.row, op).row && t.posts == s.posts && t.workers == s.workers
  {
    hide Apply;
  }

  /** The mark is set exactly while the lease runs, and only a worker that hears of it sends. */
  lemma MarkAndSend(s: System, w: nat, token: nat, until: int, later: int, heard: bool)
    requires token != NO_ID && Claimed(s.row, token, until) && s.row.state == WaitingForResources
    requires w in s.workers && s.workers[w] == Holding(token)
    ensures var t := Next(Next(s, BeginBy(w, later, heard)), SendBy(w));
            && t.row.started == (later < until)
            && t.posts == (if later < until && heard then s.posts + [InFlight] else s.posts)
  {
    var t := Next(s, BeginBy(w, later, heard));
    assert t.row.started == (later < until) && t.posts == s.posts;
    assert later < until && heard <==> w in t.workers && t.workers[w].Begun?;
  }

  /** A job that is ready is sent by the worker that claims it if and only if the worker marks the send
      within two minutes of its claim and hears that the mark was set. */
  lemma ReadyIsSentExactly(s: System, w: nat, token: nat, now: int, later: int, heard: bool)
    requires Ready(s.row) && Unclaimed(s.row, now) && token != NO_ID
    ensures var t := Run(s, [Call(QueueDispatch), ClaimBy(w, token, now), BeginBy(w, later, heard), SendBy(w)]);
            && t.row.started == (later < now + 120)
            && t.posts == (if later < now + 120 && heard then s.posts + [InFlight] else s.posts)
  {
    hide Next, Claimed;
    Four(s, Call(QueueDispatch), ClaimBy(w, token, now), BeginBy(w, later, heard), SendBy(w));
    QueueStep(s);
    var q := Next(s, Call(QueueDispatch));
    ClaimStep(q, w, token, now);
    MarkAndSend(Next(q, ClaimBy(w, token, now)), w, token, now + 120, later, heard);
  }

  /** So is a member of a batch, after it was prepared. */
  lemma BatchMemberIsSentExactly(s: System, w: nat, token: nat, now: int, later: int, heard: bool)
    requires Untouched(s.row) && Unclaimed(s.row, now) && token != NO_ID
    ensures var wait := Call(Transition(WaitingForResources, false));
            var t := Run(s, [ClaimBy(w, token, now), wait, BeginBy(w, later, heard), SendBy(w)]);
            && t.row.started == (later < now + 120)
            && t.posts == (if later < now + 120 && heard then s.posts + [InFlight] else s.posts)
  {
    hide Next, Claimed;
    var wait := Call(Transition(WaitingForResources, false));
    Four(s, ClaimBy(w, token, now), wait, BeginBy(w, later, heard), SendBy(w));
    ClaimStep(s, w, token, now);
    var c := Next(s, ClaimBy(w, token, now));
    WaitStep(c, token, now + 120);
    MarkAndSend(Next(c, wait), w, token, now + 120, later, heard);
  }

  // ---- How a job gets ready ----

  /** A new job of the foreground. */
  predicate New(r: Row) {
    && r.state == Draft && r.owned && !r.inBatch && r.prompt.None? && !r.started && !r.closed && !r.released
    && !r.cancelRequested && !r.quotaReserved
  }

  lemma PreparedCalls(r: Row, a: Outcome, b: Outcome, c: Outcome, granted: bool)
    requires New(r) && a == DoTransition(r, Preparing, false)
    requires b == Apply(a.row, Prepare) && c == DoTransition(b.row, WaitingForResources, false)
    ensures !a.row.quotaReserved && !b.row.quotaReserved && !c.row.quotaReserved
    ensures Ready(c.row.(quotaReserved := true)) && !Ready(c.row)
    ensures DoReserve(c.row, granted) == Outcome(c.row.(quotaReserved := granted), granted)
  {
    assert a.row == r.(state := Preparing);
    assert b.row == a.row.(hasPayload := true);
    assert c.row == b.row.(state := WaitingForResources);
  }

  lemma StoreCharges(s: System, op: Op)
    ensures var t := Store(s, op);
            && t.row == Apply(s.row, op).row
            && (t.row.quotaReserved == s.row.quotaReserved ==> t.charged == s.charged)
            && (t.row.quotaReserved && !s.row.quotaReserved ==> t.charged == s.charged + 1)
  {
    hide Apply;
  }

  /** A new job gets ready to be sent exactly if its quota is granted. */
  lemma ReadyIffGranted(s: System, granted: bool)
    requires New(s.row)
    ensures var t := Run(s, [Call(Transition(Preparing, false)), Call(Prepare),
                             Call(Transition(WaitingForResources, false)), Call(ReserveQuota(granted))]);
            (Ready(t.row) <==> granted) && t.charged == (if granted then s.charged + 1 else s.charged)
  {
    hide Store, DoTransition, DoReserve, Ready;
    var a := Store(s, Transition(Preparing, false));
    var b := Store(a, Prepare);
    var c := Store(b, Transition(WaitingForResources, false));
    StoreCharges(s, Transition(Preparing, false));
    StoreCharges(a, Prepare);
    StoreCharges(b, Transition(WaitingForResources, false));
    StoreCharges(c, ReserveQuota(granted));
    PreparedCalls(s.row, DoTransition(s.row, Preparing, false), Apply(a.row, Prepare),
                  DoTransition(b.row, WaitingForResources, false), granted);
    Four(s, Call(Transition(Preparing, false)), Call(Prepare), Call(Transition(WaitingForResources, false)),
         Call(ReserveQuota(granted)));
  }

  /** A postponed claim can be taken up by another worker exactly after five seconds, and no longer by
      the one that postponed it. */
  lemma PostponedExactly(s: System, token: nat, until: int, now: int, other: nat, later: int)
    requires Claimed(s.row, token, until) && s.row.state == WaitingForResources
    requires !s.row.inBatch && s.row.dispatchQueued && token != NO_ID && other != NO_ID
    ensures var r := Next(s, Call(Postpone(token, now))).row;
            (Apply(r, Claim(other, later)).ok <==> later > now + 5) && !Apply(r, Begin(token, later)).ok
  {
  }

  // ---- A requested cancellation ----

  lemma CancelledCall(r: Row, op: Op, o: Outcome)
    requires o == Apply(r, op) && r.cancelRequested && !op.ClearCancel?
    ensures o.row.cancelRequested && o.row.started == r.started
    ensures o.row.token == r.token || o.row.token == NO_ID
  {
    CallLawful(r, if op.MarkReleased? then Prepare else op);
    TokenChanges(r, op, o);
    assert op.Claim? || op.Begin? ==> !o.ok;
    assert op.MarkReleased? ==> o.row.cancelRequested && o.row.started == r.started;
    hide Apply, Evolves, Edge;
  }

  lemma CancelledStep(s: System, step: Step)
    requires Inv(s) && s.row.cancelRequested && !s.row.started && (step.Call? ==> !step.op.ClearCancel?)
    ensures var t := Next(s, step);
            && t.row.cancelRequested && !t.row.started && |t.posts| == |s.posts|
            && (t.row.token == s.row.token || t.row.token == NO_ID)
  {
    StepStores(s, step);
    var op := StoreCall(s, step);
    CancelledCall(s.row, op, Apply(s.row, op));
    StoreKeepsRest(s, op);
    QuietPosts(s, step);
    hide Next, Apply, Store, Inv;
  }

  lemma QuietPosts(s: System, step: Step)
    requires Inv(s) && !s.row.started
    ensures |Next(s, step).posts| == |s.posts|
  {
    hide Apply, RowInv, TrailInv, QuotaInv;
  }

  /** Once the user has asked for it to be cancelled, no run claims, marks or sends the job until the
      request is withdrawn. */
  lemma {:induction false} CancellationStopsDispatch(s: System, steps: seq<Step>)
    requires Inv(s) && s.row.cancelRequested && !s.row.started
    requires forall step <- steps :: step.Call? ==> !step.op.ClearCancel?
    ensures var t := Run(s, steps);
            && t.row.cancelRequested && !t.row.started && |t.posts| == |s.posts|
            && (t.row.token == s.row.token || t.row.token == NO_ID)
    decreases |steps|
  {
    hide Next, Inv;
    if steps != [] {
      assert steps[0] in steps;
      CancelledStep(s, steps[0]);
      StepKeepsInv(s, steps[0]);
      CancellationStopsDispatch(Next(s, steps[0]), steps[1..]);
    }
  }

  // ---- What a send costs ----

  /** The quota of a job is given back only after the job was fenced, as every release does. */
  ghost predicate RefundsFenced(s: System, steps: seq<Step>)
    decreases |steps|
  {
    steps != [] ==>
      && (steps[0] == Call(ReleaseQuota) ==> s.row.closed)
      && RefundsFenced(Next(s, steps[0]), steps[1..])
  }

  predicate Covered(r: Row) {
    r.quotaReserved && r.hasPayload
  }

  /** A job that may still be dispatched has its quota and its payload. */
  ghost predicate Paid(s: System) {
    && (s.row.dispatchQueued && !s.row.closed ==> Covered(s.row))
    && (s.row.inBatch && !s.row.started && !s.row.closed ==> Covered(s.row))
    && (s.row.token != NO_ID ==> s.row.dispatchQueued)
    && (forall w | w in s.workers :: s.workers[w].Begun? ==> s.row.dispatchQueued)
  }

  /** The marks of a dispatch that a call may change. */
  ghost predicate StaysPaid(a: Row, b: Row) {
    && (b.dispatchQueued && !b.closed ==> Covered(b))
    && (b.inBatch && !b.started && !b.closed ==> Covered(b))
    && (b.token != NO_ID ==> b.dispatchQueued)
    && (!OutcomeKnown(a) && a.dispatchQueued ==> b.dispatchQueued)
  }

  lemma CallStaysPaid(r: Row, op: Op, o: Outcome)
    requires o == Apply(r, op) && StaysPaid(r, r) && (op.ReleaseQuota? ==> r.closed)
    ensures StaysPaid(r, o.row) && (op.Begin? && o.ok ==> r.dispatchQueued && o.row.dispatchQueued)
  {
    if op.QueueDispatch? || op.Claim? || op.Begin? || op.Postpone? || op.Reject? || op.Fence? {
    } else {
      JobCallStaysPaid(r, op, o);
      hide Apply;
    }
  }

  lemma JobCallStaysPaid(r: Row, op: Op, o: Outcome)
    requires o == Apply(r, op) && StaysPaid(r, r) && (op.ReleaseQuota? ==> r.closed)
    requires !op.QueueDispatch? && !op.Claim? && !op.Begin? && !op.Postpone? && !op.Reject? && !op.Fence?
    ensures StaysPaid(r, o.row)
  {
    hide Edge, Terminal, Cancellable;
  }

  lemma PaidStep(s: System, step: Step)
    requires Inv(s) && Paid(s) && (step == Call(ReleaseQuota) ==> s.row.closed)
    ensures Paid(Next(s, step))
  {
    hide Apply, Store, RowInv, TrailInv, QuotaInv, Free;
    var op := StoreCall(s, step);
    CallStaysPaid(s.row, op, Apply(s.row, op));
    StepStores(s, step);
    StoreKeepsRest(s, op);
  }

  lemma {:induction false} PaidRun(s: System, steps: seq<Step>)
    requires Inv(s) && Paid(s) && RefundsFenced(s, steps)
    ensures Paid(Run(s, steps))
    decreases |steps|
  {
    hide Inv, Paid, Next;
    if steps != [] {
      PaidStep(s, steps[0]);
      StepKeepsInv(s, steps[0]);
      PaidRun(Next(s, steps[0]), steps[1..]);
    }
  }

  /** Whatever workers and callers do, nothing is sent without a reservation and a stored payload. */
  lemma SendIsPaidFor(s: System, before: seq<Step>, step: Step)
    requires Init(s) && RefundsFenced(s, before)
    ensures var t := Run(s, before);
            |Next(t, step).posts| > |t.posts| ==> t.row.quotaReserved && t.row.hasPayload
  {
    InitInv(s);
    RunKeepsInv(s, before);
    PaidRun(s, before);
    hide Apply, Run, TrailInv, QuotaInv;
  }

  // ---- The reply ----

  /** A send under way for the current token. */
  predicate UnderWay(s: System, w: nat) {
    && s.row.state == WaitingForResources && s.row.prompt.None? && s.row.started && !s.row.rejected
    && s.posts == [InFlight] && w in s.workers && s.workers[w] == Sent(s.row.token, 0)
  }

  /** A receipt is bound, and the job goes on as Queued with its quota committed. */
  lemma ReceiptIsKept(s: System, w: nat, prompt: nat)
    requires UnderWay(s, w) && s.row.quotaReserved && prompt != NO_ID
    ensures var t := Run(s, [Arrive(0, Some(prompt)), BindPost(0), Call(CommitQuota), Call(Transition(Queued, false))]);
            && t.row.state == Queued && t.row.prompt == Some(prompt) && t.row.quotaCommitted
            && t.posts == [Accepted(prompt)]
  {
    var a := Next(s, Arrive(0, Some(prompt)));
    assert a.posts == [Accepted(prompt)] && a.row == s.row;
    var b := Next(a, BindPost(0));
    assert b.row == s.row.(prompt := Some(prompt)) && b.posts == a.posts;
    ThenQueued(b);
    Four(s, Arrive(0, Some(prompt)), BindPost(0), Call(CommitQuota), Call(Transition(Queued, false)));
    hide Next;
  }

  lemma ThenQueued(b: System)
    requires b.row.state == WaitingForResources && b.row.prompt.Some? && b.row.quotaReserved
    ensures var t := Next(Next(b, Call(CommitQuota)), Call(Transition(Queued, false)));
            t.row.state == Queued && t.row.prompt == b.row.prompt && t.row.quotaCommitted && t.posts == b.posts
  {
    hide Store, DoCommit, DoTransition;
    StoreKeepsRest(b, CommitQuota);
    var c := Next(b, Call(CommitQuota));
    StoreKeepsRest(c, Transition(Queued, false));
    QueuedCalls(b.row, DoCommit(b.row), DoTransition(c.row, Queued, false));
  }

  lemma QueuedCalls(r: Row, commit: Outcome, move: Outcome)
    requires r.state == WaitingForResources && r.prompt.Some? && r.quotaReserved
    requires commit == DoCommit(r) && move == DoTransition(commit.row, Queued, false)
    ensures move.row.state == Queued && move.row.prompt == r.prompt && move.row.quotaCommitted
  {
    assert commit.row == r.(quotaCommitted := true);
  }

  /** A refusal is recorded exactly if the reply proves it. */
  lemma RefusalIsRecordedExactly(s: System, w: nat, reply: HttpReply)
    requires UnderWay(s, w)
    ensures var t := Run(s, [Arrive(0, None), Hear(w, reply), RejectBy(w)]);
            t.posts == [Refused] && t.row.prompt.None? && (t.row.rejected <==> ProvesRefusal(reply))
  {
    var a := Next(s, Arrive(0, None));
    assert a.posts == [Refused] && a.row == s.row && a.workers == s.workers;
    var b := Next(a, Hear(w, reply));
    assert b.row == s.row && b.posts == [Refused];
    assert ProvesRefusal(reply) ==> w in b.workers && b.workers[w] == ToldRefused(s.row.token);
    assert !ProvesRefusal(reply) ==> w !in b.workers;
    Three(s, Arrive(0, None), Hear(w, reply), RejectBy(w));
  }
}
