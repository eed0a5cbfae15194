/**
  The code paths are runs of the protocol. Around each call of a path anything may happen that the
  protocol allows, and the system that the path leaves behind is one that the steps of the protocol
  reach from the system it found, so everything proved about runs holds of it.
*/
module LifecycleRuns {
  import opened Options
  import opened GenerationJobs
  import opened JobRows
  import opened ComfyReads
  import opened DispatchProtocol
  import opened JobScripts
  import opened JobReconcile
  import opened JobCancel
  import opened JobRefresh

  /** A run takes the system of one base to that of the other. */
  ghost predicate Reaches(b: Base, steps: seq<Step>, c: Base) {
    c.system == Run(b.system, steps)
  }

  lemma {:induction false} RunAppend(s: System, a: seq<Step>, b: seq<Step>)
    ensures Run(s, a + b) == Run(Run(s, a), b)
    decreases |a|
  {
    hide Next;
    if a == [] {
      assert a + b == b;
    } else {
      assert (a + b)[1..] == a[1..] + b;
      RunAppend(Next(s, a[0]), a[1..], b);
    }
  }

  lemma Stay(b: Base)
    ensures Reaches(b, [], b)
  {
  }

  lemma Chain(b: Base, one: seq<Step>, c: Base, two: seq<Step>, d: Base)
    requires Reaches(b, one, c) && Reaches(c, two, d)
    ensures Reaches(b, one + two, d)
  {
    hide Run;
    RunAppend(b.system, one, two);
  }

  /** ComfyUI accepted the one send of the job under this prompt. */
  ghost predicate Issued(s: System, prompt: nat) {
    |s.posts| > 0 && s.posts[0] == Accepted(prompt)
  }

  lemma StepKeepsEvidence(s: System, step: Step, prompt: nat)
    ensures s.refunded ==> Next(s, step).refunded
    ensures Issued(s, prompt) ==> Issued(Next(s, step), prompt)
  {
    hide Apply;
  }

  /** A refund stays done, and an issued prompt stays issued. */
  lemma {:induction false} RunKeepsEvidence(s: System, steps: seq<Step>, prompt: nat)
    ensures s.refunded ==> Run(s, steps).refunded
    ensures Issued(s, prompt) ==> Issued(Run(s, steps), prompt)
    decreases |steps|
  {
    hide Next, Issued;
    if steps != [] {
      StepKeepsEvidence(s, steps[0], prompt);
      RunKeepsEvidence(Next(s, steps[0]), steps[1..], prompt);
    }
  }

  /** What makes a store call of the code a step: it needs no evidence, or it marks resources behind a
      fence and a refund, or it binds the prompt that ComfyUI issued. */
  ghost predicate Evidenced(s: System, op: Op) {
    || Free(op)
    || (op.MarkReleased? && s.row.closed && s.refunded)
    || (op.Bind? && Issued(s, op.prompt))
  }

  lemma {:induction false} RunKeepsEvidenced(s: System, steps: seq<Step>, op: Op)
    requires Evidenced(s, op)
    ensures Evidenced(Run(s, steps), op)
  {
    hide Run, Free, RowInv, Rank, Issued;
    RunKeepsEvidence(s, steps, if op.Bind? then op.prompt else NO_ID);
    RunEvolves(s, steps);
  }

  lemma OneStep(s: System, op: Op) returns (step: Step)
    requires Evidenced(s, op)
    ensures Next(s, step) == Store(s, op)
  {
    hide Store;
    step := if op.MarkReleased? then Mark(op.leaseHeld) else if op.Bind? then BindPost(0) else Call(op);
  }

  lemma RefundIsNoted(s: System, op: Op)
    ensures op.ReleaseQuota? && s.row.closed ==> Store(s, op).refunded
  {
    hide Apply;
  }

  lemma RunOne(s: System, step: Step)
    ensures Run(s, [step]) == Next(s, step)
  {
    hide Next;
    assert [step][1..] == [];
  }

  lemma ServeRuns(b: Base, op: Op) returns (steps: seq<Step>)
    requires Evidenced(b.system, op)
    ensures Reaches(b, steps, Serve(b, op).base)
    ensures op.ReleaseQuota? && b.row.closed && Serve(b, op).ok ==> Serve(b, op).base.system.refunded
  {
    hide Apply, Store, Run, Next, Evolves, Evidenced;
    var turn := NextTurn(b);
    var mid := Run(b.system, turn.others);
    steps := turn.others;
    RunKeepsEvidenced(b.system, turn.others, op);
    RunEvolves(b.system, turn.others);
    if b.row.closed { ClosedStays(b.row, mid.row); }
    if !turn.fate.Fails? {
      var step := OneStep(mid, op);
      RefundIsNoted(mid, op);
      RunAppend(b.system, steps, [step]);
      RunOne(mid, step);
      steps := steps + [step];
    }
  }

  lemma AdvanceRuns(b: Base, job: Row, target: JobState) returns (steps: seq<Step>)
    ensures Reaches(b, steps, Advance(b, job, target).base)
    decreases 8 - Rank(job.state)
  {
    hide Serve, Reaches, Apply, Edge, Run;
    steps := [];
    Stay(b);
    TowardIsEdge(job.state, target);
    if job.state != target && Toward(job.state, target).Some? {
      var op := Transition(Toward(job.state, target).value, false);
      var r := Serve(b, op);
      steps := ServeRuns(b, op);
      ServeAchieves(b, op);
      if r.ok {
        var more := AdvanceRuns(r.base, r.base.row, target);
        Chain(b, steps, r.base, more, Advance(r.base, r.base.row, target).base);
        steps := steps + more;
      }
    }
  }

  lemma ReleaseRuns(b: Base, job: Row, w: World) returns (steps: seq<Step>)
    ensures Reaches(b, steps, Release(b, job, w).base)
  {
    hide Serve, Reaches, Apply, Run;
    var op1 := Fence(job.token, w.now);
    var fence := Serve(b, op1);
    steps := ServeRuns(b, op1);
    ServeAchieves(b, op1);
    if fence.ok {
      var refund := Serve(fence.base, ReleaseQuota);
      var more := ServeRuns(fence.base, ReleaseQuota);
      ServeEvolves(fence.base, ReleaseQuota);
      Chain(b, steps, fence.base, more, refund.base);
      if refund.ok && w.freed {
        var op3 := MarkReleased(w.leaseHeld);
        ClosedStays(fence.base.row, refund.base.row);
        var last := ServeRuns(refund.base, op3);
        Chain(b, steps + more, refund.base, last, Serve(refund.base, op3).base);
        steps := steps + more + last;
      } else {
        steps := steps + more;
      }
    }
  }

  lemma ThenServe(b: Base, steps: seq<Step>, c: Base, op: Op) returns (more: seq<Step>)
    requires Reaches(b, steps, c) && Free(op)
    ensures Reaches(b, more, Serve(c, op).base)
  {
    hide Serve, Reaches;
    more := ServeRuns(c, op);
    Chain(b, steps, c, more, Serve(c, op).base);
    more := steps + more;
  }

  lemma FailRuns(b: Base, job: Row, w: World, reread: bool) returns (steps: seq<Step>)
    ensures Reaches(b, steps, Fail(b, job, w, reread).base)
  {
    hide Serve, Reaches, Release;
    var rel := Release(b, job, w);
    steps := ReleaseRuns(b, job, w);
    if rel.ok {
      var current := if !rel.complete && reread then rel.base.row else rel.job;
      steps := ThenServe(b, steps, rel.base, Transition(if rel.complete then Failed else current.state, false));
    }
  }

  lemma EndRuns(b: Base, job: Row, end: JobState, w: World) returns (steps: seq<Step>)
    ensures Reaches(b, steps, End(b, job, end, w).base)
  {
    hide Serve, Reaches, Release;
    var rel := Release(b, job, w);
    steps := ReleaseRuns(b, job, w);
    if rel.ok {
      steps := ThenServe(b, steps, rel.base, Transition(if rel.complete then end else rel.job.state, false));
    }
  }

  lemma ToArchivingRuns(b: Base, job: Row) returns (steps: seq<Step>)
    ensures Reaches(b, steps, ToArchiving(b, job).base)
  {
    hide Reaches, Advance, Run;
    steps := [];
    Stay(b);
    var post := Result(b, job, true);
    if job.state != Postprocessing && job.state != Archiving {
      post := Advance(b, job, Postprocessing);
      steps := AdvanceRuns(b, job, Postprocessing);
    }
    if post.ok && post.job.state == Postprocessing {
      var more := AdvanceRuns(post.base, post.job, Archiving);
      Chain(b, steps, post.base, more, Advance(post.base, post.job, Archiving).base);
      steps := steps + more;
    }
  }

  lemma FromArchivingRuns(arch: Result, archived: bool, w: World) returns (steps: seq<Step>)
    ensures Reaches(arch.base, steps, FromArchiving(arch, archived, w).base)
  {
    hide Serve, Reaches, Release;
    if !archived {
      steps := ServeRuns(arch.base, Transition(arch.job.state, false));
    } else {
      var rel := Release(arch.base, arch.job, w);
      steps := ReleaseRuns(arch.base, arch.job, w);
      if rel.ok {
        var op := Transition(if rel.complete then Completed else rel.job.state, false);
        steps := ThenServe(arch.base, steps, rel.base, op);
      }
    }
  }

  lemma CompleteRuns(b: Base, job: Row, archived: bool, w: World) returns (steps: seq<Step>)
    ensures Reaches(b, steps, Complete(b, job, archived, w).base)
  {
    hide Reaches, ToArchiving, FromArchiving;
    var arch := ToArchiving(b, job);
    steps := ToArchivingRuns(b, job);
    if arch.ok {
      var more := FromArchivingRuns(arch, archived, w);
      Chain(b, steps, arch.base, more, FromArchiving(arch, archived, w).base);
      steps := steps + more;
    }
  }

  lemma ReconcileRuns(b: Base, job: Row, phase: Phase, a: Around) returns (steps: seq<Step>)
    ensures Reaches(b, steps, Reconcile(b, job, phase, a.archived, a.w, a.reread).base)
  {
    hide Reaches, Advance, Complete, Fail, End, Terminal, Run;
    steps := [];
    Stay(b);
    if Terminal(job.state) || (job.cancelRequested && !job.cancelConfirmed) {
    } else if job.cancelConfirmed {
      steps := EndRuns(b, job, Cancelled, a.w);
    } else if !job.owned || phase == PhaseError {
      steps := FailRuns(b, job, a.w, a.reread);
    } else if phase == PhaseQueued {
      steps := AdvanceRuns(b, job, Queued);
    } else if phase == PhaseRunning {
      steps := AdvanceRuns(b, job, Running);
    } else if phase == PhaseCompleted {
      steps := CompleteRuns(b, job, a.archived, a.w);
    }
  }

  lemma ServeThenReconcile(b: Base, op: Op, phase: Phase, a: Around) returns (steps: seq<Step>)
    requires Free(op)
    ensures var c := Serve(b, op).base;
            if Serve(b, op).ok then Reaches(b, steps, Reconcile(c, c.row, phase, a.archived, a.w, a.reread).base)
            else Reaches(b, steps, c)
  {
    hide Serve, Reaches, Reconcile;
    var c := Serve(b, op).base;
    steps := ServeRuns(b, op);
    if Serve(b, op).ok {
      var more := ReconcileRuns(c, c.row, phase, a);
      Chain(b, steps, c, more, Reconcile(c, c.row, phase, a.archived, a.w, a.reread).base);
      steps := steps + more;
    }
  }

  /** The scan by job id finds only the prompt that ComfyUI issued for the job's one send. */
  ghost predicate ScanFindsOwn(s: System, scan: Scan) {
    scan.Found? ==> Issued(s, scan.prompt)
  }

  lemma ScanStaysOwn(b: Base, steps: seq<Step>, c: Base, scan: Scan)
    requires ScanFindsOwn(b.system, scan) && Reaches(b, steps, c)
    ensures ScanFindsOwn(c.system, scan)
  {
    hide Run, Issued;
    RunKeepsEvidence(b.system, steps, if scan.Found? then scan.prompt else NO_ID);
  }

  lemma RecoverRuns(b: Base, job: Row, scan: Scan, projected: bool) returns (steps: seq<Step>)
    requires ScanFindsOwn(b.system, scan)
    ensures Reaches(b, steps, Recover(b, job, scan, projected).base)
  {
    hide Serve, Reaches, Advance, Run;
    steps := [];
    Stay(b);
    if job.prompt.None? && scan.Found? {
      var bind := Serve(b, Bind(scan.prompt));
      steps := ServeRuns(b, Bind(scan.prompt));
      if bind.ok {
        var commit := Serve(bind.base, CommitQuota);
        steps := ThenServe(b, steps, bind.base, CommitQuota);
        if commit.ok {
          var more := AdvanceRuns(commit.base, bind.base.row, Queued);
          Chain(b, steps, commit.base, more, Advance(commit.base, bind.base.row, Queued).base);
          steps := steps + more;
        }
      }
    }
  }

  lemma CancelKnownRuns(b: Base, job: Row, seen: Reads, a: Around) returns (steps: seq<Step>)
    ensures Reaches(b, steps, CancelKnown(b, job, seen, a).base)
  {
    hide Serve, Reaches, Reconcile, Terminal, Run, FetchStatus;
    steps := [];
    Stay(b);
    if Terminal(job.state) || !job.cancelRequested || !job.owned {
    } else if job.prompt.None? {
      steps := ServeThenReconcile(b, ConfirmCancel, Blank, a);
    } else {
      var fetched := FetchStatus(seen.history, seen.queueAgain);
      var sent := InComfyQueue(seen.queue);
      if !seen.queue.QueueFailed? && (sent ==> seen.controlled) && fetched.Some? {
        var status := fetched.value;
        if status.known && (status.phase == PhaseCompleted || (status.phase == PhaseError && !sent)) {
          steps := ServeThenReconcile(b, ClearCancel, status.phase, a);
        } else if !status.known || (status.phase != PhaseQueued && status.phase != PhaseRunning) {
          steps := ServeThenReconcile(b, ConfirmCancel, status.phase, a);
        }
      }
    }
  }

  lemma CancelRuns(b: Base, job: Row, seen: Reads, a: Around) returns (steps: seq<Step>)
    requires ScanFindsOwn(b.system, seen.scan)
    ensures Reaches(b, steps, ContinueCancel(b, job, seen, a).base)
  {
    hide Reaches, Terminal, OutcomeKnown, CancelKnown, Recover;
    if !Terminal(job.state) && job.cancelRequested && job.owned && !OutcomeKnown(job) {
      var rec := Recover(b, job, seen.scan, seen.projected);
      steps := RecoverRuns(b, job, seen.scan, seen.projected);
      if rec.ok && rec.found {
        var more := CancelKnownRuns(rec.base, rec.job, seen, a);
        Chain(b, steps, rec.base, more, CancelKnown(rec.base, rec.job, seen, a).base);
        steps := steps + more;
      }
    } else {
      steps := CancelKnownRuns(b, job, seen, a);
    }
  }

  lemma RefreshBoundRuns(b: Base, job: Row, seen: Reads, a: Around, lost: bool) returns (steps: seq<Step>)
    requires ScanFindsOwn(b.system, seen.scan)
    ensures Reaches(b, steps, RefreshBound(b, job, seen, a, lost))
  {
    hide Reaches, Run, ContinueCancel, End, Reconcile, FetchStatus;
    steps := [];
    Stay(b);
    var fetched := FetchStatus(seen.history, seen.queueAgain);
    if job.cancelRequested {
      steps := CancelRuns(b, job, seen, a);
    } else if fetched.Some? {
      if !fetched.value.known && lost {
        steps := EndRuns(b, job, Expired, a.w);
      } else {
        steps := ReconcileRuns(b, job, fetched.value.phase, a);
      }
    }
  }

  lemma RefreshUnboundRuns(b: Base, job: Row, seen: Reads, a: Around, stale: bool, lost: bool)
    returns (steps: seq<Step>)
    requires ScanFindsOwn(b.system, seen.scan)
    ensures Reaches(b, steps, RefreshUnbound(b, job, seen, a, stale, lost))
  {
    hide Reaches, Run, ContinueCancel, End, Fail, RefreshBound, Recover;
    steps := [];
    Stay(b);
    if job.rejected && !job.cancelRequested {
      steps := FailRuns(b, job, a.w, a.reread);
    } else if job.cancelRequested {
      steps := CancelRuns(b, job, seen, a);
    } else if !(job.dispatchQueued && !job.started) {
      var rec := Recover(b, job, seen.scan, seen.projected);
      steps := RecoverRuns(b, job, seen.scan, seen.projected);
      if rec.ok && rec.found {
        ScanStaysOwn(b, steps, rec.base, seen.scan);
        var more := RefreshBoundRuns(rec.base, rec.job, seen, a, lost);
        Chain(b, steps, rec.base, more, RefreshBound(rec.base, rec.job, seen, a, lost));
        steps := steps + more;
      } else if rec.ok && !job.started && stale {
        var more := EndRuns(rec.base, job, Expired, a.w);
        Chain(b, steps, rec.base, more, End(rec.base, job, Expired, a.w).base);
        steps := steps + more;
      }
    }
  }

  /** One background pass over a job, with everything it may do (fail, expire, recover, cancel,
      reconcile) and whatever happens around its calls, is a run of the protocol. */
  lemma RefreshIsRun(b: Base, job: Row, seen: Reads, a: Around, stale: bool, lost: bool) returns (steps: seq<Step>)
    requires ScanFindsOwn(b.system, seen.scan)
    ensures Refresh(b, job, seen, a, stale, lost).system == Run(b.system, steps)
  {
    hide Run, Fail, RefreshBound, RefreshUnbound;
    steps := [];
    Stay(b);
    if job.inBatch && job.state == Draft && !job.cancelRequested {
    } else if !job.owned {
      steps := FailRuns(b, job, a.w, a.reread);
    } else if job.prompt.None? {
      steps := RefreshUnboundRuns(b, job, seen, a, stale, lost);
    } else {
      steps := RefreshBoundRuns(b, job, seen, a, lost);
    }
  }

  /** So from any reachable system, after any such pass and in every continuation: the job is sent at
      most once; if the pass left it ended, it was released with a known outcome and stays ended; and
      without a prompt it is not and will not be at ComfyUI. */
  lemma PassesKeepPromises(start: System, before: seq<Step>, b: Base, job: Row, seen: Reads, a: Around,
                           stale: bool, lost: bool, after: seq<Step>)
    requires Init(start) && b.system == Run(start, before) && ScanFindsOwn(b.system, seen.scan)
    ensures var t := Refresh(b, job, seen, a, stale, lost).system; var u := Run(t, after);
            && |u.posts| <= 1
            && (Terminal(t.row.state) ==>
                  t.row.released && t.row.closed && OutcomeKnown(t.row) && u.row.state == t.row.state && u.row.released)
            && (Terminal(t.row.state) && t.row.prompt.None? ==> forall post <- u.posts :: post.Refused?)
  {
    hide Run, Refresh, ScanFindsOwn, SendInv, TrailInv, QuotaInv, Init, Rank;
    var t := Refresh(b, job, seen, a, stale, lost).system;
    var steps := RefreshIsRun(b, job, seen, a, stale, lost);
    RunAppend(start, before, steps);
    AtMostOnePost(start, before + steps + after);
    RunAppend(start, before + steps, after);
    NoOutcomeIsGuessed(start, before + steps, after);
    EndIsFinal(start, before + steps, after);
    UnknownOutcomeKeepsJobOpen(start, before + steps);
  }
}
