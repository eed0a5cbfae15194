/**
  Finding the prompt of a job whose send has an unknown outcome, and carrying a cancellation on.
  What ComfyUI answers is a parameter; the database runs under a script, as before.
*/
module JobCancel {
  import opened Options
  import opened GenerationJobs
  import opened JobRows
  import opened ComfyReads
  import opened JobScripts
  import opened JobReconcile

  datatype Recovered = Recovered(base: Base, job: Row, found: bool, ok: bool)

  /** Looks a job up at ComfyUI by its own id and binds what it finds. `projected` tells whether
      the job's projections could be written afterwards. */
  function Recover(b: Base, job: Row, scan: Scan, projected: bool): Recovered {
    if job.prompt.Some? then Recovered(b, job, false, true)
    else
      match scan
      case ScanFailed => Recovered(b, job, false, false)
      case Missing => Recovered(b, job, false, true)
      case Found(prompt) =>
        var bind := Serve(b, Bind(prompt));
        if !bind.ok then Recovered(bind.base, job, false, false)
        else
          var commit := Serve(bind.base, CommitQuota);
          if !commit.ok then Recovered(commit.base, bind.base.row, false, false)
          else
            var adv := Advance(commit.base, bind.base.row, Queued);
            Recovered(adv.base, adv.job, adv.ok, adv.ok && projected)
  }

  /** What ComfyUI answers in the course of one cancellation: the scan by job id, the queue, the
      delete or interrupt request, the history, and the queue again. */
  datatype Reads = Reads(scan: Scan, projected: bool, queue: QueueRead, controlled: bool,
                         history: HistoryRead, queueAgain: QueueRead)

  /** `unsent` marks the error that lets the caller withdraw the request. */
  datatype Attempt = Attempt(base: Base, job: Row, cancelled: bool, ok: bool, unsent: bool)

  /** What a reconciliation needs besides the status. */
  datatype Around = Around(archived: bool, w: World, reread: bool)

  predicate InComfyQueue(queue: QueueRead) {
    queue.InPending? || queue.InRunning?
  }

  function Withdraw(b: Base, job: Row, phase: Phase, a: Around): Attempt {
    var clear := Serve(b, ClearCancel);
    if !clear.ok then Attempt(clear.base, job, false, false, false)
    else
      var m := Reconcile(clear.base, clear.base.row, phase, a.archived, a.w, a.reread);
      Attempt(m.base, m.job, false, m.ok, false)
  }

  function Confirm(b: Base, job: Row, phase: Phase, a: Around): Attempt {
    var confirm := Serve(b, ConfirmCancel);
    if !confirm.ok then Attempt(confirm.base, job, false, false, false)
    else
      var m := Reconcile(confirm.base, confirm.base.row, phase, a.archived, a.w, a.reread);
      Attempt(m.base, m.job, m.job.state == Cancelled, m.ok, false)
  }

  /** The part that talks to ComfyUI about a known prompt. */
  function CancelBound(b: Base, job: Row, seen: Reads, a: Around): Attempt {
    var sent := InComfyQueue(seen.queue);
    if seen.queue.QueueFailed? || (sent && !seen.controlled) then Attempt(b, job, false, false, true)
    else
      match FetchStatus(seen.history, seen.queueAgain)
      case None => Attempt(b, job, false, false, !sent)
      case Some(status) =>
        if status.known && (status.phase == PhaseCompleted || (status.phase == PhaseError && !sent))
        then Withdraw(b, job, status.phase, a)
        else if status.known && (status.phase == PhaseQueued || status.phase == PhaseRunning)
        then Attempt(b, job, false, true, false)
        else Confirm(b, job, status.phase, a)
  }

  /** One round for a job that is not awaiting recovery. */
  function CancelKnown(b: Base, job: Row, seen: Reads, a: Around): Attempt {
    if Terminal(job.state) then Attempt(b, job, job.state == Cancelled, true, false)
    else if !job.cancelRequested || !job.owned then Attempt(b, job, false, false, false)
    else if job.prompt.None? then Confirm(b, job, Blank, a)
    else CancelBound(b, job, seen, a)
  }

  /** continueGenerationJobCancellation. A job whose send has an unknown outcome is recovered first
      and then cancelled under its prompt. */
  function ContinueCancel(b: Base, job: Row, seen: Reads, a: Around): Attempt {
    if !Terminal(job.state) && job.cancelRequested && job.owned && !OutcomeKnown(job) then
      var rec := Recover(b, job, seen.scan, seen.projected);
      if !rec.ok || !rec.found then Attempt(rec.base, job, false, rec.ok, false)
      else CancelKnown(rec.base, rec.job, seen, a)
    else CancelKnown(b, job, seen, a)
  }

  // ---- Under every script ----

  /** A recovery that finds the job has bound it, so one round of cancellation follows, not another recovery. */
  lemma RecoverFollows(b: Base, job: Row, scan: Scan, projected: bool)
    requires Evolves(job, b.row)
    ensures var rec := Recover(b, job, scan, projected);
            && Follows(b, job, rec.base, rec.job)
            && (rec.found ==> scan.Found? && rec.job.prompt == Some(scan.prompt) && rec.job.state == Queued)
  {
    hide Evolves, Follows, Advance, Serve;
    FollowsStart(b, job);
    if job.prompt.None? && scan.Found? {
      var bind := Serve(b, Bind(scan.prompt));
      FollowsServe(b, job, b, job, Bind(scan.prompt));
      ServeAchieves(b, Bind(scan.prompt));
      if bind.ok {
        var bound := bind.base.row;
        var commit := Serve(bind.base, CommitQuota);
        FollowsServe(b, job, bind.base, bound, CommitQuota);
        ThenQueueFollows(b, job, commit.base, bound);
      }
    }
  }

  lemma ThenQueueFollows(b: Base, job: Row, c: Base, bound: Row)
    requires Follows(b, job, c, bound)
    ensures var adv := Advance(c, bound, Queued);
            && Follows(b, job, adv.base, adv.job) && (adv.ok ==> adv.job.state == Queued)
            && (bound.prompt.Some? ==> adv.job.prompt == bound.prompt)
  {
    BehindAfter(b, job, c, bound);
    AdvanceFollows(c, bound, Queued);
    var adv := Advance(c, bound, Queued);
    KeepsPrompt(bound, adv.job) by { hide Advance, Evolves; }
    FollowsFurther(b, job, c, bound, adv.base, adv.job);
    hide Evolves, Advance;
  }

  lemma BehindAfter(b: Base, job: Row, c: Base, later: Row)
    requires Follows(b, job, c, later)
    ensures Evolves(later, c.row)
  {
    hide Evolves;
  }

  lemma KeepsPrompt(a: Row, b: Row)
    requires Evolves(a, b)
    ensures a.prompt.Some? ==> b.prompt == a.prompt
  {
    hide RowInv, Rank;
  }

  lemma WithdrawFollows(b: Base, job: Row, phase: Phase, a: Around)
    requires Evolves(job, b.row)
    ensures var m := Withdraw(b, job, phase, a); Follows(b, job, m.base, m.job)
  {
    ServeThenReconcileFollows(b, job, ClearCancel, phase, a);
    hide Evolves, Follows, Serve, Reconcile;
  }

  lemma ConfirmFollows(b: Base, job: Row, phase: Phase, a: Around)
    requires Evolves(job, b.row)
    ensures var m := Confirm(b, job, phase, a); Follows(b, job, m.base, m.job)
  {
    ServeThenReconcileFollows(b, job, ConfirmCancel, phase, a);
    hide Evolves, Follows, Serve, Reconcile;
  }

  lemma ServeThenReconcileFollows(b: Base, job: Row, op: Op, phase: Phase, a: Around)
    requires Evolves(job, b.row) && !op.MarkReleased?
    ensures var c := Serve(b, op).base; var m := Reconcile(c, c.row, phase, a.archived, a.w, a.reread);
            Follows(b, job, c, job) && Follows(b, job, m.base, m.job)
  {
    FollowsStart(b, job);
    FollowsServe(b, job, b, job, op);
    var c := Serve(b, op).base;
    BehindAfter(b, job, c, c.row);
    ReconcileFollows(c, c.row, phase, a.archived, a.w, a.reread);
    var m := Reconcile(c, c.row, phase, a.archived, a.w, a.reread);
    FollowsFurther(b, job, c, c.row, m.base, m.job);
    hide Evolves, Follows, Serve, Reconcile;
  }

  lemma CancelKnownFollows(b: Base, job: Row, seen: Reads, a: Around)
    requires Evolves(job, b.row)
    ensures var m := CancelKnown(b, job, seen, a); Follows(b, job, m.base, m.job)
  {
    FollowsStart(b, job);
    ConfirmFollows(b, job, Blank, a);
    CancelBoundFollows(b, job, seen, a);
    hide Evolves, Follows, Confirm, CancelBound, Terminal;
  }

  lemma CancelBoundFollows(b: Base, job: Row, seen: Reads, a: Around)
    requires Evolves(job, b.row)
    ensures var m := CancelBound(b, job, seen, a); Follows(b, job, m.base, m.job)
  {
    FollowsStart(b, job);
    var fetched := FetchStatus(seen.history, seen.queueAgain);
    if fetched.Some? {
      ConfirmFollows(b, job, fetched.value.phase, a);
      WithdrawFollows(b, job, fetched.value.phase, a);
    }
    hide Evolves, Follows, Confirm, Withdraw, FetchStatus;
  }

  /** Whatever ComfyUI answers and whatever happens around the calls, a cancellation keeps the row
      invariant and takes nothing back. */
  lemma CancelFollows(b: Base, job: Row, seen: Reads, a: Around)
    requires Evolves(job, b.row)
    ensures var m := ContinueCancel(b, job, seen, a); Follows(b, job, m.base, m.job)
  {
    RecoverFollows(b, job, seen.scan, seen.projected);
    CancelKnownFollows(b, job, seen, a);
    var rec := Recover(b, job, seen.scan, seen.projected);
    BehindAfter(b, job, rec.base, rec.job);
    CancelKnownFollows(rec.base, rec.job, seen, a);
    var m := CancelKnown(rec.base, rec.job, seen, a);
    FollowsFurther(b, job, rec.base, rec.job, m.base, m.job);
    FollowsBehind(b, job, rec.base, rec.job);
    hide Evolves, Follows, CancelKnown, Recover, OutcomeKnown, Terminal;
  }

  /** A send of unknown outcome that ComfyUI does not answer for is left alone: the cancellation
      makes no store call at all. */
  lemma UnknownOutcomeIsNotCancelled(b: Base, job: Row, seen: Reads, a: Around)
    requires !OutcomeKnown(job) && !seen.scan.Found?
    ensures ContinueCancel(b, job, seen, a).base == b
    ensures ContinueCancel(b, job, seen, a).cancelled ==> job.state == Cancelled
  {
    hide Confirm, CancelBound;
  }

  // ---- Undisturbed ----

  lemma RecoverCalls(r: Row, prompt: nat, bind: Outcome, commit: Outcome)
    requires RowInv(r) && !Terminal(r.state) && r.prompt.None? && prompt != NO_ID
    requires bind == Apply(r, Bind(prompt)) && commit == Apply(bind.row, CommitQuota)
    ensures bind.ok && bind.row == r.(prompt := Some(prompt))
    ensures commit.row == bind.row.(quotaCommitted := r.quotaReserved) && (commit.ok <==> r.quotaReserved)
    ensures LiesAhead(r.state, Queued)
  {
  }

  /** An undisturbed recovery binds what it found. With a reservation to commit, the job goes on as
      Queued; without one it stays where it is, bound, and the recovery reports an error. */
  lemma RecoverCalm(b: Base, prompt: nat, projected: bool)
    requires Calm(b.turns) && RowInv(b.row) && !Terminal(b.row.state) && b.row.prompt.None? && prompt != NO_ID
    ensures var rec := Recover(b, b.row, Found(prompt), projected);
            && rec.base.row.prompt == Some(prompt)
            && rec.base.row.quotaCommitted == b.row.quotaReserved
            && rec.base.row.state == (if b.row.quotaReserved then Queued else b.row.state)
            && rec.found == b.row.quotaReserved && rec.ok == (b.row.quotaReserved && projected)
            && SameMarks(b.row.(prompt := Some(prompt)), rec.base.row) && rec.base.row.released == b.row.released
            && Calm(rec.base.turns) && (rec.found ==> rec.job == rec.base.row)
  {
    var bind := Serve(b, Bind(prompt));
    var commit := Serve(bind.base, CommitQuota);
    RecoverCalls(b.row, prompt, Apply(b.row, Bind(prompt)), Apply(bind.base.row, CommitQuota))
      by { ServeCalm(b, Bind(prompt)); hide Apply, Serve; }
    ServeCalm(b, Bind(prompt));
    ServeCalm(bind.base, CommitQuota);
    if commit.ok {
      AdvanceCalm(commit.base, Queued);
      AdvanceExactly(commit.base.row.state, Queued, commit.base.row.prompt);
      CalmIsAlone(commit.base.turns);
      AdvanceAlone(commit.base, Queued);
      OnlyMovedMarks(commit.base.row, Advance(commit.base, commit.base.row, Queued).base.row);
    }
    hide OnlyMoved, Calm, Alone, Serve, Apply, Advance, AdvanceEnd, RowInv, Terminal;
  }

  /** The answers get as far as a status. */
  predicate Answered(seen: Reads) {
    && !seen.queue.QueueFailed? && (InComfyQueue(seen.queue) ==> seen.controlled)
    && !seen.history.HistoryFailed?
  }

  /** No request to delete or interrupt was sent to ComfyUI, and no status was read either. */
  predicate NotSent(seen: Reads) {
    || seen.queue.QueueFailed?
    || (InComfyQueue(seen.queue) && !seen.controlled)
    || (!InComfyQueue(seen.queue) && seen.history.HistoryFailed?)
  }

  /** When a cancellation of a bound job is confirmed. */
  predicate Confirms(seen: Reads) {
    && Answered(seen)
    && (|| (seen.history.NoEntry? && (seen.queueAgain.QueueFailed? || seen.queueAgain.NotQueued?))
        || (seen.history == Listed(Errored) && InComfyQueue(seen.queue)))
  }

  predicate SeesCompletion(seen: Reads) {
    Answered(seen) && seen.history == Listed(Succeeded)
  }

  predicate SeesOwnError(seen: Reads) {
    Answered(seen) && seen.history == Listed(Errored) && !InComfyQueue(seen.queue)
  }

  /** A job that a cancellation round takes up at ComfyUI. It may be confirmed already, if an earlier
      round could not release it or came too late to end it. */
  predicate Cancelling(r: Row) {
    !Terminal(r.state) && r.cancelRequested && r.owned && r.prompt.Some?
  }

  /** What the round does with such a job, by what it saw. */
  lemma CancelCases(b: Base, job: Row, seen: Reads, a: Around)
    requires Cancelling(job)
    ensures var m := ContinueCancel(b, job, seen, a);
            if SeesCompletion(seen) then m == Withdraw(b, job, PhaseCompleted, a)
            else if SeesOwnError(seen) then m == Withdraw(b, job, PhaseError, a)
            else if Confirms(seen) then
              m == Confirm(b, job, if seen.history.NoEntry? then PhaseQueued else PhaseError, a)
            else m.base == b && !m.cancelled && (m.ok <==> Answered(seen))
    ensures ContinueCancel(b, job, seen, a).unsent <==> NotSent(seen)
  {
    hide Serve, Reconcile, Terminal;
  }

  lemma FlagCalls(r: Row, w: World)
    requires Cancelling(r)
    ensures Apply(r, ClearCancel) == Outcome(r.(cancelRequested := false, cancelConfirmed := false), true)
    ensures Apply(r, ConfirmCancel) == Outcome(r.(cancelConfirmed := true), true)
  {
  }

  lemma WithdrawCalm(b: Base, phase: Phase, a: Around)
    requires Calm(b.turns) && Cancelling(b.row) && (phase == PhaseCompleted || phase == PhaseError)
    ensures var m := Withdraw(b, b.row, phase, a); var r := m.base.row;
            && !r.cancelRequested && !r.cancelConfirmed
            && r.state == (if phase == PhaseError then EndOr(b.row, Failed, a.w)
                           else if a.archived && Settles(b.row, a.w) then Completed else Archiving)
            && (m.ok <==> phase == PhaseError || (a.archived && !Blocked(b.row, a.w)))
  {
    FlagCalls(b.row, a.w);
    ServeCalm(b, ClearCancel);
    var c := Serve(b, ClearCancel).base;
    CalmIsAlone(c.turns);
    if phase == PhaseError {
      EndingsCalm(c, Failed, a.w, a.reread);
      EndingsAlone(c, Failed, a.w, a.reread);
    } else {
      CompleteCalm(c, a.archived, a.w);
      CompleteAlone(c, a.archived, a.w);
    }
    hide Calm, Alone, Serve, Apply, Complete, Fail, End, Terminal, Edge;
  }

  lemma ConfirmCalm(b: Base, phase: Phase, a: Around)
    requires Calm(b.turns) && Cancelling(b.row)
    ensures var m := Confirm(b, b.row, phase, a); var r := m.base.row;
            && r.cancelConfirmed && r.cancelRequested && r.owned && r.prompt == b.row.prompt
            && r.state == EndOr(b.row, Cancelled, a.w) && (m.cancelled <==> r.state == Cancelled)
            && (m.ok <==> Ends(b.row, a.w))
  {
    hide Calm, Alone, Serve, Apply, Complete, Fail, End, Terminal, Edge;
    FlagCalls(b.row, a.w);
    ServeCalm(b, ConfirmCancel);
    ConfirmedEnds(Serve(b, ConfirmCancel).base, phase, a);
  }

  /** A confirmed cancellation meets no error: neither the release nor, past Running, the graph stops it. */
  predicate Ends(r: Row, w: World) {
    !Blocked(r, w) && (Settles(r, w) ==> Cancellable(r.state))
  }

  /** What reconciliation does to a job whose cancellation was just confirmed. */
  lemma ConfirmedEnds(c: Base, phase: Phase, a: Around)
    requires Calm(c.turns) && !Terminal(c.row.state) && c.row.cancelRequested && c.row.cancelConfirmed
    ensures var m := Reconcile(c, c.row, phase, a.archived, a.w, a.reread);
            && SameMarks(c.row, m.base.row) && m.base.row.state == m.job.state == EndOr(c.row, Cancelled, a.w)
            && (m.ok <==> Ends(c.row, a.w))
  {
    hide Calm, Alone, Complete, Fail, End, Edge, SameMarks, Cancellable, Refunded;
    GraphExactly(c.row.state, Cancelled);
    CalmIsAlone(c.turns);
    EndingsCalm(c, Cancelled, a.w, a.reread);
    EndingsAlone(c, Cancelled, a.w, a.reread);
  }

  /** An undisturbed round decides by what it saw and by nothing else. Seen completed, the job ends
      Completed, never Cancelled; failed on its own, it ends Failed; in both cases an earlier
      confirmation is withdrawn. It is confirmed exactly when it was missing from the history and not
      seen in the queue afterwards, or shows an error after a request was sent. Otherwise nothing changes.
      It reports "cancelled" exactly when the job ended so, an error exactly when there was no answer or
      the end met one, and lets the caller take the request back exactly when nothing was sent. */
  lemma CancelDecides(b: Base, seen: Reads, a: Around)
    requires Calm(b.turns) && Cancelling(b.row)
    ensures var m := ContinueCancel(b, b.row, seen, a); var r := m.base.row;
            && (r.cancelConfirmed <==>
                  Confirms(seen) || (b.row.cancelConfirmed && !SeesCompletion(seen) && !SeesOwnError(seen)))
            && (if SeesCompletion(seen) then
                  !r.cancelRequested && r.state == (if a.archived && Settles(b.row, a.w) then Completed else Archiving)
                else if SeesOwnError(seen) then
                  !r.cancelRequested && r.state == EndOr(b.row, Failed, a.w)
                else if Confirms(seen) then
                  && r.state == EndOr(b.row, Cancelled, a.w)
                  && r.cancelRequested && r.owned && r.prompt == b.row.prompt
                else r == b.row)
            && (m.ok <==> Answered(seen)
                          && (SeesCompletion(seen) ==> a.archived && !Blocked(b.row, a.w))
                          && (Confirms(seen) ==> Ends(b.row, a.w)))
            && (m.cancelled <==> Confirms(seen) && r.state == Cancelled)
            && (m.unsent <==> NotSent(seen))
  {
    CancelCases(b, b.row, seen, a);
    WithdrawCalm(b, PhaseCompleted, a);
    WithdrawCalm(b, PhaseError, a);
    ConfirmCalm(b, PhaseQueued, a);
    ConfirmCalm(b, PhaseError, a);
    NeverReportsCancelled(b, b.row, a);
    hide ContinueCancel, Withdraw, Confirm, Calm, Terminal, Settles, EndOr, Ends, Blocked;
  }

  lemma NeverReportsCancelled(b: Base, job: Row, a: Around)
    ensures !Withdraw(b, job, PhaseCompleted, a).cancelled && !Withdraw(b, job, PhaseError, a).cancelled
  {
    hide Serve, Reconcile;
  }

  /** A round for a job that was never sent, or was refused, needs no answer from ComfyUI: the request
      is confirmed, and the job ends Cancelled exactly when its release goes through. */
  lemma CancelUnsentDecides(b: Base, seen: Reads, a: Around)
    requires Calm(b.turns) && !Terminal(b.row.state) && b.row.cancelRequested && b.row.owned
    requires b.row.prompt.None? && OutcomeKnown(b.row)
    ensures var m := ContinueCancel(b, b.row, seen, a); var r := m.base.row;
            && r.cancelRequested && r.cancelConfirmed
            && r.state == EndOr(b.row, Cancelled, a.w) && (m.cancelled <==> r.state == Cancelled) && !m.unsent
            && (m.ok <==> Ends(b.row, a.w))
  {
    hide Calm, Serve, Apply, Reconcile, EndOr, SameMarks, Ends;
    UnsentConfirm(b.row);
    ServeCalm(b, ConfirmCancel);
    var c := Serve(b, ConfirmCancel).base;
    ConfirmedEnds(c, Blank, a);
    MarksKeepCancel(c.row, Reconcile(c, c.row, Blank, a.archived, a.w, a.reread).base.row);
    SameEnd(b.row, c.row, a.w);
  }

  lemma UnsentConfirm(r: Row)
    requires !Terminal(r.state) && r.cancelRequested && OutcomeKnown(r)
    ensures Apply(r, ConfirmCancel) == Outcome(r.(cancelConfirmed := true), true)
  {
  }

  lemma MarksKeepCancel(a: Row, b: Row)
    requires SameMarks(a, b)
    ensures b.cancelRequested == a.cancelRequested && b.cancelConfirmed == a.cancelConfirmed
  {
  }

  lemma SameEnd(a: Row, b: Row, w: World)
    requires b == a.(cancelConfirmed := true)
    ensures EndOr(b, Cancelled, w) == EndOr(a, Cancelled, w) && Ends(b, w) == Ends(a, w)
  {
  }

  /** A round for a send of unknown outcome that the scan finds: the job is bound, and without a
      reservation, or if its projections cannot be written, that is all; otherwise it is cancelled like
      any other job that ComfyUI holds, from Queued. */
  lemma CancelFoundDecides(b: Base, prompt: nat, seen: Reads, a: Around)
    requires Calm(b.turns) && RowInv(b.row) && !Terminal(b.row.state) && b.row.cancelRequested && b.row.owned
    requires !OutcomeKnown(b.row) && seen.scan == Found(prompt) && prompt != NO_ID
    ensures var m := ContinueCancel(b, b.row, seen, a); var r := m.base.row; var settles := a.w.freed && !a.w.leaseHeld;
            if !b.row.quotaReserved then
              r.prompt == Some(prompt) && r.state == b.row.state && !m.ok && !m.cancelled && !r.cancelConfirmed
            else if !seen.projected then
              r.prompt == Some(prompt) && r.state == Queued && !m.ok && !m.cancelled && !r.cancelConfirmed
            else
              && (m.cancelled <==> Confirms(seen) && settles)
              && r.state == (if SeesCompletion(seen) then (if a.archived && settles then Completed else Archiving)
                             else if SeesOwnError(seen) then (if settles then Failed else Queued)
                             else if Confirms(seen) && settles then Cancelled
                             else Queued)
  {
    hide Calm, Recover, RowInv, Withdraw, Confirm;
    RecoverCalm(b, prompt, seen.projected);
    UnknownIsPlain(b.row);
    var rec := Recover(b, b.row, seen.scan, seen.projected);
    if b.row.quotaReserved && seen.projected {
      FoundContinues(b, rec, seen, a);
      CancelDecides(rec.base, seen, a);
      GraphExactly(Queued, Failed);
      GraphExactly(Queued, Cancelled);
    }
    hide Edge, ContinueCancel;
  }

  /** While the outcome of a send is unknown, nothing is released or confirmed. */
  lemma UnknownIsPlain(r: Row)
    requires RowInv(r) && !OutcomeKnown(r)
    ensures !r.released && !r.cancelConfirmed && r.prompt.None?
  {
  }

  lemma FoundContinues(b: Base, rec: Recovered, seen: Reads, a: Around)
    requires !Terminal(b.row.state) && b.row.cancelRequested && b.row.owned && !OutcomeKnown(b.row)
    requires rec == Recover(b, b.row, seen.scan, seen.projected) && rec.ok && rec.found
    requires rec.job == rec.base.row && rec.base.row.prompt.Some?
    ensures ContinueCancel(b, b.row, seen, a) == ContinueCancel(rec.base, rec.base.row, seen, a)
  {
    hide Recover, CancelKnown;
  }

  /** An ended job, one whose cancellation nobody requested, and one without an owner are left alone;
      only the first is reported as cancelled, if that is how it ended. */
  lemma CancelRefuses(b: Base, job: Row, seen: Reads, a: Around)
    requires Terminal(job.state) || !job.cancelRequested || !job.owned
    ensures var m := ContinueCancel(b, job, seen, a);
            && m.base == b && m.job == job && !m.unsent
            && (m.cancelled <==> job.state == Cancelled) && (m.ok <==> Terminal(job.state))
  {
  }

  /** Even cut off anywhere, a round that saw the job completed never leaves it Cancelled. */
  lemma SeenCompletionIsNeverCancelled(b: Base, seen: Reads, a: Around)
    requires Alone(b.turns) && Cancelling(b.row) && SeesCompletion(seen)
    ensures var m := ContinueCancel(b, b.row, seen, a);
            && m.base.row.state != Cancelled && !m.cancelled
            && (m.base.row.cancelConfirmed ==> b.row.cancelConfirmed)
  {
    CancelCases(b, b.row, seen, a);
    FlagCalls(b.row, a.w);
    ServeAlone(b, ClearCancel);
    var clear := Serve(b, ClearCancel);
    if clear.ok {
      CompleteAlone(clear.base, a.archived, a.w);
    }
    hide Alone, Serve, Apply, Complete, ContinueCancel;
  }

  // ---- Against ComfyUI itself ----

  /** ComfyUI at the moment of the history read, and at the moment of the second queue read. */
  ghost predicate Truthful(c: Comfy, moves: seq<Move>, e: Entry, seen: Reads) {
    && OnlyPrompt(c, e) && OnlyPrompt(Moves(c, moves), e)
    && SeesHistory(c, e.prompt, seen.history) && SeesQueue(Moves(c, moves), e.prompt, seen.queueAgain)
  }

  /** A job that ComfyUI still holds is confirmed as cancelled exactly when it shows an error after
      a request was sent, or when it was not yet in the history at the first look and then the queue
      was unreadable or had already let it go. */
  lemma ConfirmsHeldExactly(c: Comfy, moves: seq<Move>, e: Entry, seen: Reads)
    requires Truthful(c, moves, e, seen) && Holds(c, e)
    ensures Confirms(seen) <==>
              && Answered(seen)
              && (|| (seen.history == Listed(Errored) && InComfyQueue(seen.queue))
                  || (!InHistory(c, e) && (seen.queueAgain.QueueFailed? || !InQueue(Moves(c, moves), e))))
  {
    StatusUnknownExactly(c, e, moves, seen.history, seen.queueAgain);
    hide Holds, InHistory, InQueue, SeesHistory, SeesQueue, OnlyPrompt, Moves;
  }

  /** With a readable queue and nothing moving between the two looks, only what ComfyUI does not
      hold any more, or has marked as failed, is confirmed as cancelled. */
  lemma ConfirmationIsTruthful(c: Comfy, e: Entry, seen: Reads)
    requires Truthful(c, [], e, seen) && Confirms(seen) && !seen.queueAgain.QueueFailed?
    ensures Holds(c, e) ==> seen.history == Listed(Errored) && InComfyQueue(seen.queue)
  {
    if Holds(c, e) {
      ConfirmsHeldExactly(c, [], e, seen);
      assert Moves(c, []) == c;
    }
  }

  /** It is not truthful in general: a job that finishes between the two looks ends Cancelled
      although its outputs are there. */
  lemma FinishedJobCanEndCancelled(b: Base, e: Entry, a: Around) returns (c: Comfy, moves: seq<Move>, seen: Reads)
    requires Calm(b.turns) && Cancelling(b.row) && b.row.state == Running && Settles(b.row, a.w)
    ensures Truthful(c, moves, e, seen) && seen.queueAgain.NotQueued?
    ensures SeesHistory(Moves(c, moves), e.prompt, Listed(Succeeded))
    ensures ContinueCancel(b, b.row, seen, a).base.row.state == Cancelled
  {
    c, moves := Comfy([e], [], []), [Finish(0, Succeeded)];
    seen := Reads(Missing, true, InRunning, true, NoEntry, NotQueued);
    var later := Moved(c, Finish(0, Succeeded));
    assert Moves(later, []) == later;
    assert Past(e, Succeeded) in later.history;
    assert Truthful(c, moves, e, seen);
    CancelDecides(b, seen, a);
    assert Edge(Running, Cancelled);
    hide ContinueCancel, Cancelling, Calm, Settles;
  }

  /** Nor with an unreadable queue: a job still running ends Cancelled. */
  lemma RunningJobCanEndCancelled(b: Base, e: Entry, a: Around) returns (c: Comfy, seen: Reads)
    requires Calm(b.turns) && Cancelling(b.row) && b.row.state == Running && Settles(b.row, a.w)
    ensures Truthful(c, [], e, seen) && e in c.running
    ensures ContinueCancel(b, b.row, seen, a).base.row.state == Cancelled
  {
    c := Comfy([e], [], []);
    seen := Reads(Missing, true, InRunning, true, NoEntry, QueueFailed);
    assert Moves(c, []) == c;
    CancelDecides(b, seen, a);
    assert Edge(Running, Cancelled);
    hide ContinueCancel, Cancelling, Calm, Settles;
  }
}
