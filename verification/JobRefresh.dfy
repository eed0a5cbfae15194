/** The background pass over unfinished jobs, one job at a time. */
module JobRefresh {
  import opened Options
  import opened GenerationJobs
  import opened JobRows
  import opened ComfyReads
  import opened DispatchProtocol
  import opened JobScripts
  import opened JobReconcile
  import opened JobCancel

  /** A job that has a prompt: cancelled on, expired as lost, or reconciled with its status.
      `lost` tells whether its state is more than five minutes old. */
  function RefreshBound(b: Base, job: Row, seen: Reads, a: Around, lost: bool): Base {
    if job.cancelRequested then ContinueCancel(b, job, seen, a).base
    else
      match FetchStatus(seen.history, seen.queueAgain)
      case None => b
      case Some(status) =>
        if !status.known && lost then End(b, job, Expired, a.w).base
        else Reconcile(b, job, status.phase, a.archived, a.w, a.reread).base
  }

  /** `stale` tells whether the state is more than two minutes old. */
  function RefreshUnbound(b: Base, job: Row, seen: Reads, a: Around, stale: bool, lost: bool): Base {
    if job.rejected && !job.cancelRequested then Fail(b, job, a.w, a.reread).base
    else if job.cancelRequested then ContinueCancel(b, job, seen, a).base
    else if job.dispatchQueued && !job.started then b
    else
      var rec := Recover(b, job, seen.scan, seen.projected);
      if !rec.ok then rec.base
      else if rec.found then RefreshBound(rec.base, rec.job, seen, a, lost)
      else if !job.started && stale then End(rec.base, job, Expired, a.w).base
      else rec.base
  }

  function Refresh(b: Base, job: Row, seen: Reads, a: Around, stale: bool, lost: bool): Base {
    if job.inBatch && job.state == Draft && !job.cancelRequested then b
    else if !job.owned then Fail(b, job, a.w, a.reread).base
    else if job.prompt.None? then RefreshUnbound(b, job, seen, a, stale, lost)
    else RefreshBound(b, job, seen, a, lost)
  }

  lemma RefreshBoundEvolves(b: Base, job: Row, seen: Reads, a: Around, lost: bool)
    requires Evolves(job, b.row)
    ensures Evolves(b.row, RefreshBound(b, job, seen, a, lost).row)
  {
    FollowsStart(b, job);
    CancelFollows(b, job, seen, a);
    EndFollows(b, job, Expired, a.w);
    var fetched := FetchStatus(seen.history, seen.queueAgain);
    if fetched.Some? {
      ReconcileFollows(b, job, fetched.value.phase, a.archived, a.w, a.reread);
    }
    hide Evolves, ContinueCancel, End, Reconcile, FetchStatus;
  }

  lemma RefreshUnboundEvolves(b: Base, job: Row, seen: Reads, a: Around, stale: bool, lost: bool)
    requires Evolves(job, b.row)
    ensures Evolves(b.row, RefreshUnbound(b, job, seen, a, stale, lost).row)
  {
    FollowsStart(b, job);
    FailFollows(b, job, a.w, a.reread);
    CancelFollows(b, job, seen, a);
    var rec := Recover(b, job, seen.scan, seen.projected);
    RecoverFollows(b, job, seen.scan, seen.projected);
    RefreshBoundEvolves(rec.base, rec.job, seen, a, lost);
    EvolvesTransitive(b.row, rec.base.row, RefreshBound(rec.base, rec.job, seen, a, lost).row);
    EvolvesTransitive(job, b.row, rec.base.row);
    EndFollows(rec.base, job, Expired, a.w);
    EvolvesTransitive(b.row, rec.base.row, End(rec.base, job, Expired, a.w).base.row);
    hide Evolves, ContinueCancel, End, Fail, Recover, RefreshBound;
  }

  /** One pass over a job, whatever it reads and whatever others do meanwhile, keeps the row
      invariant and takes nothing back. */
  lemma RefreshEvolves(b: Base, job: Row, seen: Reads, a: Around, stale: bool, lost: bool)
    requires Evolves(job, b.row)
    ensures Evolves(b.row, Refresh(b, job, seen, a, stale, lost).row)
  {
    FollowsStart(b, job);
    FailFollows(b, job, a.w, a.reread);
    RefreshUnboundEvolves(b, job, seen, a, stale, lost);
    RefreshBoundEvolves(b, job, seen, a, lost);
    hide Evolves, Fail, RefreshUnbound, RefreshBound;
  }

  /** A job whose send has an unknown outcome, and which the pass does not find at ComfyUI, is left
      exactly as it is, however old it is, whether or not it is to be cancelled, whether or not its
      owner still exists, and wherever the pass is cut off. */
  lemma UnknownOutcomeIsLeftAlone(b: Base, seen: Reads, a: Around, stale: bool, lost: bool)
    requires Alone(b.turns) && !OutcomeKnown(b.row) && !seen.scan.Found?
    ensures Refresh(b, b.row, seen, a, stale, lost).row == b.row
  {
    EndingsAlone(b, Failed, a.w, a.reread);
    UnknownOutcomeIsNotCancelled(b, b.row, seen, a);
    hide Alone, Fail, End, ContinueCancel, RefreshBound, SameMarks;
  }

  /** A bound job that nobody cancels. A send is marked only for a job past Draft. */
  predicate Followed(r: Row) {
    !Terminal(r.state) && r.state != Draft && r.owned && r.prompt.Some? && !r.cancelRequested && !r.cancelConfirmed
  }

  /** An undisturbed pass expires such a job exactly when its status is unknown, its state is old
      and its resources can be released. */
  lemma ExpiresExactly(b: Base, seen: Reads, a: Around, stale: bool, lost: bool)
    requires Calm(b.turns) && Followed(b.row)
    ensures Refresh(b, b.row, seen, a, stale, lost).row.state == Expired <==>
              && FetchStatus(seen.history, seen.queueAgain) == Some(Status(false, PhaseQueued))
              && lost && Settles(b.row, a.w)
  {
    var fetched := FetchStatus(seen.history, seen.queueAgain);
    UnknownIsReportedQueued(seen.history, seen.queueAgain);
    if fetched.Some? {
      if !fetched.value.known && lost {
        EndingsCalm(b, Expired, a.w, a.reread);
        LiveCanExpire(b.row.state);
      } else {
        FollowedNeverExpires(b, fetched.value.phase, a);
      }
    }
    hide Calm, End, Reconcile, Settles, Edge, Terminal, FetchStatus, RefreshUnbound, Fail;
  }

  lemma UnknownIsReportedQueued(history: HistoryRead, queue: QueueRead)
    ensures var fetched := FetchStatus(history, queue);
            fetched.Some? && !fetched.value.known ==> fetched.value.phase == PhaseQueued
  {
  }

  lemma LiveCanExpire(s: JobState)
    ensures !Terminal(s) ==> Edge(s, Expired)
    ensures Terminal(Expired) && Terminal(Failed)
  {
  }

  lemma FollowedNeverExpires(b: Base, phase: Phase, a: Around)
    requires Calm(b.turns) && Followed(b.row)
    ensures Reconcile(b, b.row, phase, a.archived, a.w, a.reread).base.row.state != Expired
  {
    hide Calm, Alone, Fail, Advance, Complete, Settles, Edge;
    CalmIsAlone(b.turns);
    EndingsCalm(b, Failed, a.w, a.reread);
    AdvanceAlone(b, Queued);
    AdvanceAlone(b, Running);
    CompleteCalm(b, a.archived, a.w);
  }

  /** So a job that ComfyUI is still running expires when the queue cannot be read once: the failed
      request is swallowed, and the age that is checked is that of the running state. */
  lemma RunningJobCanExpire(b: Base, e: Entry, a: Around, stale: bool) returns (c: Comfy, seen: Reads)
    requires Calm(b.turns) && Followed(b.row) && b.row.state == Running && Settles(b.row, a.w)
    ensures Truthful(c, [], e, seen) && e in c.running
    ensures Refresh(b, b.row, seen, a, stale, true).row.state == Expired
  {
    c := Comfy([e], [], []);
    seen := Reads(Missing, true, InRunning, true, NoEntry, QueueFailed);
    assert Moves(c, []) == c;
    ExpiresExactly(b, seen, a, stale, true);
    hide Refresh, Followed, Calm, Settles;
  }

  /** A status that lags behind the row, in the code's own setting: the queue cannot be read once while
      the job is running and its state is young, and the pass pushes the job into Archiving. */
  lemma FailedQueueReadOvershoots(b: Base, seen: Reads, a: Around, stale: bool)
    requires Calm(b.turns) && Followed(b.row) && b.row.state == Running
    requires seen.history == NoEntry && seen.queueAgain == QueueFailed
    ensures Refresh(b, b.row, seen, a, stale, false).row.state == Archiving
  {
    hide Calm, Advance, AdvanceEnd, RefreshUnbound, Fail, End;
    AdvanceCalm(b, Queued);
    AdvanceExactly(Running, Queued, b.row.prompt);
  }

  // ---- What a pass decides ----

  /** What ComfyUI's answers make of a bound job that nobody cancels. Without a history there is no
      answer, and nothing happens. What has finished is completed or failed, what runs is brought to
      Running, and what waits to Queued, unless the row is past that state: then it is pushed to
      Archiving. What is in neither list expires if it is `lost`, and else counts as waiting. */
  ghost predicate BoundOutcome(before: Row, seen: Reads, a: Around, lost: bool, after: Row) {
    if seen.history.HistoryFailed? then after == before
    else if seen.history == Listed(Succeeded) then
      after.state == (if a.archived && Settles(before, a.w) then Completed else Archiving)
    else if seen.history == Listed(Errored) then
      after.state == EndOr(before, Failed, a.w)
    else if seen.history == Listed(StillListed) || seen.queueAgain.InRunning? then
      after.state == (if Rank(before.state) <= Rank(Running) then Running else Archiving)
    else if lost && !seen.queueAgain.InPending? then
      after.state == EndOr(before, Expired, a.w)
    else
      after.state == (if Rank(before.state) <= Rank(Queued) then Queued else Archiving)
  }

  lemma FollowedReconciles(b: Base, phase: Phase, a: Around)
    requires Calm(b.turns) && Followed(b.row) && phase != Blank
    ensures Reconcile(b, b.row, phase, a.archived, a.w, a.reread).base.row.state ==
              match phase
              case PhaseQueued => if Rank(b.row.state) <= Rank(Queued) then Queued else Archiving
              case PhaseRunning => if Rank(b.row.state) <= Rank(Running) then Running else Archiving
              case PhaseError => EndOr(b.row, Failed, a.w)
              case _ => if a.archived && Settles(b.row, a.w) then Completed else Archiving
  {
    hide Calm, Reconcile, Settles, EndOr, Rank, Terminal;
    ReconcileDecides(b, phase, a.archived, a.w, a.reread);
  }

  lemma BoundDecides(b: Base, seen: Reads, a: Around, lost: bool)
    requires Calm(b.turns) && Followed(b.row)
    ensures BoundOutcome(b.row, seen, a, lost, RefreshBound(b, b.row, seen, a, lost).row)
  {
    hide Calm, Reconcile, End, Fail, ContinueCancel, Settles, EndOr, Rank, Edge, Terminal;
    LiveCanExpire(b.row.state);
    EndingsCalm(b, Expired, a.w, a.reread);
    var fetched := FetchStatus(seen.history, seen.queueAgain);
    if fetched.Some? {
      FollowedReconciles(b, fetched.value.phase, a);
    }
  }

  /** An undisturbed pass over a bound job does what the answers say. */
  lemma RefreshBoundDecides(b: Base, seen: Reads, a: Around, stale: bool, lost: bool)
    requires Calm(b.turns) && Followed(b.row)
    ensures BoundOutcome(b.row, seen, a, lost, Refresh(b, b.row, seen, a, stale, lost).row)
  {
    hide Calm, BoundOutcome, RefreshBound, RefreshUnbound, Fail, Terminal;
    BoundDecides(b, seen, a, lost);
  }

  /** What it makes of an unbound job that nobody cancels. A refused one fails. One that waits for a
      worker, or that could not be looked for, is left alone. One that is not found expires if it was
      never sent and has not moved for two minutes. One that is found is bound, goes on to Queued if
      there is a reservation to commit, and then, once projected, as its prompt is answered for. */
  lemma RefreshUnboundDecides(b: Base, seen: Reads, a: Around, stale: bool, lost: bool)
    requires Calm(b.turns) && RowInv(b.row) && !Terminal(b.row.state)
    requires b.row.owned && b.row.prompt.None? && !b.row.cancelRequested && !(b.row.inBatch && b.row.state == Draft)
    requires seen.scan.Found? ==> seen.scan.prompt != NO_ID
    ensures var r := Refresh(b, b.row, seen, a, stale, lost).row;
            if b.row.rejected then r.state == EndOr(b.row, Failed, a.w)
            else if b.row.dispatchQueued && !b.row.started then r == b.row
            else if seen.scan.ScanFailed? then r == b.row
            else if seen.scan.Missing? then
              if stale && !b.row.started then r.state == EndOr(b.row, Expired, a.w) else r == b.row
            else
              var bound := b.row.(prompt := Some(seen.scan.prompt), state := Queued);
              if !b.row.quotaReserved then r.prompt == bound.prompt && r.state == b.row.state
              else if !seen.projected then r.prompt == bound.prompt && r.state == Queued
              else if seen.history.HistoryFailed? then r.prompt == bound.prompt && r.state == Queued
              else BoundOutcome(bound, seen, a, lost, r)
  {
    hide Calm, Recover, RefreshBound, RefreshUnbound, End, Fail, EndOr, Settles, Terminal, RowInv, BoundOutcome;
    if b.row.rejected || (b.row.dispatchQueued && !b.row.started) || !seen.scan.Found? {
      NotFoundDecides(b, seen, a, stale, lost);
    } else {
      FoundDecides(b, seen, a, stale, lost);
    }
  }

  lemma NotFoundDecides(b: Base, seen: Reads, a: Around, stale: bool, lost: bool)
    requires Calm(b.turns) && b.row.prompt.None? && !b.row.cancelRequested
    requires b.row.rejected || (b.row.dispatchQueued && !b.row.started) || !seen.scan.Found?
    ensures var r := RefreshUnbound(b, b.row, seen, a, stale, lost).row;
            if b.row.rejected then r.state == EndOr(b.row, Failed, a.w)
            else if seen.scan.Missing? && stale && !b.row.dispatchQueued && !b.row.started then
              r.state == EndOr(b.row, Expired, a.w)
            else r == b.row
  {
    hide Calm, End, Fail, EndOr, ContinueCancel, RefreshBound, Terminal;
    LiveCanExpire(b.row.state);
    EndingsCalm(b, Failed, a.w, a.reread);
    EndingsCalm(b, Expired, a.w, a.reread);
  }

  lemma FoundDecides(b: Base, seen: Reads, a: Around, stale: bool, lost: bool)
    requires Calm(b.turns) && RowInv(b.row) && !Terminal(b.row.state)
    requires b.row.owned && b.row.prompt.None? && !b.row.cancelRequested
    requires !b.row.rejected && (b.row.dispatchQueued ==> b.row.started)
    requires seen.scan.Found? && seen.scan.prompt != NO_ID
    ensures var r := RefreshUnbound(b, b.row, seen, a, stale, lost).row;
            var bound := b.row.(prompt := Some(seen.scan.prompt), state := Queued);
            if !b.row.quotaReserved then r.prompt == bound.prompt && r.state == b.row.state
            else if !seen.projected || seen.history.HistoryFailed? then r.prompt == bound.prompt && r.state == Queued
            else BoundOutcome(bound, seen, a, lost, r)
  {
    hide Calm, Recover, RefreshBound, End, Fail, ContinueCancel, RowInv, Terminal;
    RecoverCalm(b, seen.scan.prompt, seen.projected);
    var rec := Recover(b, b.row, seen.scan, seen.projected);
    if b.row.quotaReserved && seen.projected {
      FoundIsFollowed(b.row, rec.base.row, seen.scan.prompt);
      BoundDecides(rec.base, seen, a, lost);
      SameAnswer(b.row.(prompt := Some(seen.scan.prompt), state := Queued), rec.base.row, seen, a, lost);
    }
  }

  lemma FoundIsFollowed(r: Row, found: Row, prompt: nat)
    requires RowInv(r) && r.owned && !r.cancelRequested
    requires SameMarks(r.(prompt := Some(prompt)), found) && found.state == Queued
    ensures Followed(found)
  {
  }

  lemma SameAnswer(r: Row, found: Row, seen: Reads, a: Around, lost: bool)
    requires r.prompt.Some? && found.prompt == r.prompt && r.state == found.state == Queued
    requires found.released == r.released
    ensures forall after :: !seen.history.HistoryFailed? && BoundOutcome(found, seen, a, lost, after) ==>
              BoundOutcome(r, seen, a, lost, after)
    ensures seen.history.HistoryFailed? ==>
              forall after :: BoundOutcome(found, seen, a, lost, after) ==> after == found
  {
  }

  /** A job whose owner was deleted fails, bound or not, whatever ComfyUI answers, and whether or not it
      was to be cancelled. */
  lemma OwnerlessFails(b: Base, seen: Reads, a: Around, stale: bool, lost: bool)
    requires Calm(b.turns) && !Terminal(b.row.state) && !b.row.owned
    requires !b.row.inBatch || b.row.state != Draft || b.row.cancelRequested
    ensures Refresh(b, b.row, seen, a, stale, lost).row.state == (if Settles(b.row, a.w) then Failed else b.row.state)
  {
    hide Calm, Fail, End, Settles, RefreshBound, RefreshUnbound;
    EndingsCalm(b, Failed, a.w, a.reread);
  }

  /** A member of a batch that nobody has claimed or wants cancelled is not touched at all: no call. */
  lemma UnclaimedMemberIsLeftAlone(b: Base, job: Row, seen: Reads, a: Around, stale: bool, lost: bool)
    requires job.inBatch && job.state == Draft && !job.cancelRequested
    ensures Refresh(b, job, seen, a, stale, lost) == b
  {
  }

  /** A requested cancellation is carried on, bound or not, refused or not: the pass is one round of it.
      Where the round confirms, and for any job that was not sent, the job ends Cancelled if it still can
      and its release goes through. */
  lemma CancellationIsCarriedOn(b: Base, seen: Reads, a: Around, stale: bool, lost: bool)
    requires Calm(b.turns) && !Terminal(b.row.state) && b.row.owned && b.row.cancelRequested
    ensures var pass := Refresh(b, b.row, seen, a, stale, lost);
            && pass == ContinueCancel(b, b.row, seen, a).base
            && ((if b.row.prompt.Some? then Confirms(seen) else OutcomeKnown(b.row)) ==>
                  && pass.row.cancelConfirmed
                  && pass.row.state ==
                       (if Cancellable(b.row.state) && Settles(b.row, a.w) then Cancelled else b.row.state))
  {
    hide Calm, ContinueCancel, Settles, Edge, Confirms, SeesCompletion, SeesOwnError;
    GraphExactly(b.row.state, Cancelled);
    if b.row.prompt.Some? {
      CancelDecides(b, seen, a);
      ConfirmsAlone(seen);
    } else if OutcomeKnown(b.row) {
      CancelUnsentDecides(b, seen, a);
    }
  }

  lemma ConfirmsAlone(seen: Reads)
    ensures Confirms(seen) ==> !SeesCompletion(seen) && !SeesOwnError(seen)
  {
  }

  // ---- A cancellation confirmed after the job has moved on ----

  /** Past the cancellable states a confirmed cancellation cannot end the job any more. Such a job ends
      exactly when a later round sees it completed or failed at ComfyUI and its release goes through;
      then the confirmation is withdrawn and the job ends Completed or Failed. While no round sees
      either, it stays confirmed where it is. */
  lemma LateConfirmationEndsExactly(b: Base, seen: Reads, a: Around, stale: bool, lost: bool)
    requires Calm(b.turns) && Cancelling(b.row) && b.row.cancelConfirmed && !Cancellable(b.row.state)
    ensures var r := Refresh(b, b.row, seen, a, stale, lost).row;
            && (r.state == Completed <==> SeesCompletion(seen) && a.archived && Settles(b.row, a.w))
            && (r.state == Failed <==> SeesOwnError(seen) && Settles(b.row, a.w))
            && r.state != Cancelled && r.state != Expired
            && (!SeesCompletion(seen) && !SeesOwnError(seen) ==> r.state == b.row.state && r.cancelConfirmed)
  {
    hide Calm, ContinueCancel, Settles;
    CancelDecides(b, seen, a);
  }

  lemma BothReadsAreTruthful(e: Entry, first: Reads, second: Reads)
    requires first.history == NoEntry && first.queueAgain == QueueFailed
    requires second.history == NoEntry && second.queueAgain == NotQueued
    ensures Truthful(Comfy([e], [], []), [], e, first)
    ensures Truthful(Comfy([e], [], []), [Finish(0, Errored)], e, second)
  {
    var c := Comfy([e], [], []);
    var later := Moved(c, Finish(0, Errored));
    assert Moves(c, []) == c;
    assert Moves(later, []) == later;
  }

  /** The user's request lands before the first stored state of the overshooting walk. */
  lemma RequestDuringWalk(b: Base, seen: Reads, a: Around)
    requires b.turns == [Turn([Call(RequestCancel)], Lands)] && Followed(b.row) && b.row.state == Running
    requires seen.history == NoEntry && seen.queueAgain == QueueFailed
    ensures var one := Refresh(b, b.row, seen, a, false, false);
            && one.turns == [] && one.row.state == Archiving
            && one.row.cancelRequested && one.row.owned && one.row.prompt.Some?
  {
    hide Serve, Alone, AdvanceEnd, RefreshUnbound, Fail, End, ContinueCancel, Apply, OnlyMoved;
    var op := Transition(Postprocessing, false);
    var r := Serve(b, op);
    RequestThenWalk(b, r);
    assert Calm(r.base.turns);
    AdvanceCalm(r.base, Queued);
    CalmIsAlone(r.base.turns);
    AdvanceAlone(r.base, Queued);
    OnlyMovedFlags(r.base.row, Advance(r.base, r.base.row, Queued).base.row);
    AdvanceTurns(r.base, r.base.row, Queued);
    AdvanceExactly(Postprocessing, Queued, r.base.row.prompt);
    assert Advance(b, b.row, Queued) == Advance(r.base, r.base.row, Queued);
  }

  lemma OnlyMovedFlags(a: Row, b: Row)
    requires OnlyMoved(a, b)
    ensures b.cancelRequested == a.cancelRequested && b.owned == a.owned && b.prompt == a.prompt
  {
  }

  lemma RequestLands(s: System)
    requires Cancellable(s.row.state)
    ensures Run(s, [Call(RequestCancel)]).row == s.row.(cancelRequested := true)
  {
    assert [Call(RequestCancel)][1..] == [];
    assert Run(s, [Call(RequestCancel)]) == Next(s, Call(RequestCancel)) == Store(s, RequestCancel);
    StoreRow(s, RequestCancel);
    hide Store, Next, Run;
  }

  lemma RequestThenWalk(b: Base, r: Reply)
    requires b.turns == [Turn([Call(RequestCancel)], Lands)] && b.row.state == Running
    requires r == Serve(b, Transition(Postprocessing, false))
    ensures r.ok && r.base.turns == [] && r.base.row == b.row.(cancelRequested := true, state := Postprocessing)
  {
    hide Apply, Store, Run, Edge;
    RequestLands(b.system);
    var before := Run(b.system, [Call(RequestCancel)]);
    RunningToPostprocessing();
    WalkStep(before.row, Postprocessing);
    StoreRow(before, Transition(Postprocessing, false));
  }

  lemma RunningToPostprocessing()
    ensures Edge(Running, Postprocessing) && Cancellable(Running)
  {
  }

  lemma {:induction false} AdvanceTurns(b: Base, job: Row, target: JobState)
    requires b.turns == []
    ensures Advance(b, job, target).base.turns == []
    decreases 8 - Rank(job.state)
  {
    TowardIsEdge(job.state, target);
    if job.state != target && Toward(job.state, target).Some? {
      var op := Transition(Toward(job.state, target).value, false);
      var r := Serve(b, op);
      ServeAchieves(b, op);
      assert r.base.turns == [];
      if r.ok {
        AdvanceTurns(r.base, r.base.row, target);
      }
    }
    hide Apply, Store, Run, Edge;
  }

  /** How such a job comes about: one queue read fails, the pass pushes the running job to Archiving,
      and the user's request lands in between; the next pass finds the job neither in the history nor
      in the queue and confirms. */
  lemma LateConfirmationIsReachable(s: System, e: Entry, a: Around) returns (first: Reads, second: Reads)
    requires Followed(s.row) && s.row.state == Running
    ensures Truthful(Comfy([e], [], []), [], e, first)
    ensures Truthful(Comfy([e], [], []), [Finish(0, Errored)], e, second)
    ensures var one := Refresh(Base(s, [Turn([Call(RequestCancel)], Lands)], 0), s.row, first, a, false, false);
            var two := Refresh(one, one.row, second, a, false, false);
            Cancelling(two.row) && two.row.cancelConfirmed && two.row.state == Archiving
  {
    first := Reads(Missing, true, InRunning, true, NoEntry, QueueFailed);
    second := Reads(Missing, true, InRunning, true, NoEntry, NotQueued);
    hide Truthful, Refresh, Calm;
    BothReadsAreTruthful(e, first, second);
    var b := Base(s, [Turn([Call(RequestCancel)], Lands)], 0);
    RequestDuringWalk(b, first, a);
    SecondPassConfirms(Refresh(b, s.row, first, a, false, false), second, a);
  }

  lemma SecondPassConfirms(b: Base, seen: Reads, a: Around)
    requires b.turns == [] && Cancelling(b.row) && b.row.state == Archiving
    requires seen.queue.InRunning? && seen.controlled && seen.history.NoEntry? && seen.queueAgain.NotQueued?
    ensures var two := Refresh(b, b.row, seen, a, false, false);
            Cancelling(two.row) && two.row.cancelConfirmed && two.row.state == Archiving
  {
    hide ContinueCancel, Settles, Fail, RefreshUnbound;
    assert Calm(b.turns);
    CancelDecides(b, seen, a);
  }
}
