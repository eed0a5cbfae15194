/**
  The code that moves a job, as it runs: each method works on the database through one store call
  after another and on the map of claimed outputs, and is proved to do what the functions of
  JobScripts, JobReconcile and JobCancel say.
*/
module JobLifecycle {
  import opened Options
  import opened GenerationJobs
  import opened JobRows
  import opened ComfyReads
  import opened JobScripts
  import JobReconcile
  import JobCancel
  import opened ArchiveResults
  import opened OutputClaims

  class Gateway {
    var base: Base                      // the system, with what is still to happen around the calls
    var claimed: Option<set<nat>>       // generationJobs[prompt].Outputs, if the prompt is remembered
    var stored: set<nat>                // the outputs that archiving stored
    var skipped: map<nat, SkipReason>   // those it skipped without an error

    constructor (base: Base)
      ensures this.base == base && claimed == None && stored == {} && skipped == map[]
    {
      this.base, claimed, stored, skipped := base, None, {}, map[];
    }

    ghost function Done(): set<nat>
      reads this
    {
      stored + skipped.Keys
    }

    method Call(op: Op) returns (heard: bool, ok: bool)
      modifies `base
      ensures Reply(base, heard, ok) == Serve(old(base), op)
    {
      var r := Serve(base, op);
      base, heard, ok := r.base, r.heard, r.ok;
    }

    /** advanceGenerationJob */
    method Advance(job: Row, target: JobState) returns (updated: Row, ok: bool)
      modifies `base
      ensures Result(base, updated, ok) == JobScripts.Advance(old(base), job, target)
      ensures ok ==> updated.state == target
    {
      hide Serve, JobScripts.Advance, Rank;
      updated := job;
      while updated.state != target
        invariant JobScripts.Advance(base, updated, target) == JobScripts.Advance(old(base), job, target)
        decreases 8 - Rank(updated.state)
      {
        AdvanceUnfolds(base, updated, target);
        if Terminal(updated.state) {
          return updated, false;
        }
        var next;
        match updated.state {
          case Draft => next := Preparing;
          case Preparing => next := WaitingForResources;
          case Uploading => next := WaitingForResources;
          case WaitingForResources => next := Queued;
          case Queued => next := if target == Running then Running else Postprocessing;
          case Running => next := Postprocessing;
          case Postprocessing => next := Archiving;
          case _ => return updated, false;
        }
        var _, stored := Call(Transition(next, false));
        if !stored {
          return updated, false;
        }
        updated := base.row;
      }
      AdvanceUnfolds(base, updated, target);
      return updated, true;
    }

    /** releaseGenerationJobResources */
    method Release(job: Row, w: World) returns (released: Row, complete: bool, ok: bool)
      modifies `base
      ensures Released(base, released, complete, ok) == JobScripts.Release(old(base), job, w)
      ensures complete ==> released.closed && released.released && (RowInv(old(base).row) ==> OutcomeKnown(released))
    {
      hide Serve, RowInv, OutcomeKnown;
      ReleaseMeans(base, job, w);
      var heard, fenced := Call(Fence(job.token, w.now));
      if !fenced {
        return job, false, heard;
      }
      var _, refunded := Call(ReleaseQuota);
      if !refunded {
        return job, false, false;
      }
      if !w.freed {
        return job, false, true;
      }
      var _, marked := Call(MarkReleased(w.leaseHeld));
      if !marked {
        return job, false, false;
      }
      return base.row, true, true;
    }

    /** failGenerationJob */
    method Fail(job: Row, w: World, reread: bool) returns (failed: Row, ok: bool)
      modifies `base
      ensures Result(base, failed, ok) == JobScripts.Fail(old(base), job, w, reread)
      ensures Evolves(job, old(base).row) ==> Follows(old(base), job, base, failed)
    {
      hide Serve, JobScripts.Release, Evolves, Follows;
      if Evolves(job, base.row) { FailFollows(base, job, w, reread); }
      var released, complete, known := Release(job, w);
      if !known {
        return job, false;
      }
      failed := released;
      if !complete {
        if reread {
          failed := base.row;
        }
        var _, refreshed := Call(Transition(failed.state, false));
        if refreshed {
          failed := base.row;
        }
        return failed, true;
      }
      var _, stored := Call(Transition(Failed, false));
      return if stored then base.row else failed, stored;
    }

    /** expireGenerationJob, and the end of a confirmed cancellation, which only differ in the end state. */
    method End(job: Row, end: JobState, w: World) returns (ended: Row, ok: bool)
      modifies `base
      ensures Result(base, ended, ok) == JobScripts.End(old(base), job, end, w)
      ensures Evolves(job, old(base).row) ==> Follows(old(base), job, base, ended)
    {
      hide Serve, JobScripts.Release, Evolves, Follows;
      if Evolves(job, base.row) { EndFollows(base, job, end, w); }
      var released, complete, known := Release(job, w);
      if !known {
        return job, false;
      }
      ended := released;
      if !complete {
        var _, refreshed := Call(Transition(ended.state, false));
        return if refreshed then base.row else ended, true;
      }
      var _, stored := Call(Transition(end, false));
      return if stored then base.row else ended, stored;
    }

    /** rememberGenerationOutputs */
    method Remember(outputs: seq<nat>) returns (added: seq<nat>)
      modifies `claimed
      ensures added == ToArchive(old(claimed), outputs)
      ensures claimed == if old(claimed).None? then None else Some(old(claimed).value + Members(outputs))
    {
      if claimed.None? {
        return outputs;
      }
      ghost var before := claimed.value;
      added := [];
      for i := 0 to |outputs|
        invariant claimed.Some? && claimed.value == before + Members(outputs[..i])
        invariant added + Unclaimed(claimed.value, outputs[i..]) == Unclaimed(before, outputs)
      {
        assert outputs[i..] == [outputs[i]] + outputs[i + 1..];
        assert outputs[..i + 1] == outputs[..i] + [outputs[i]];
        if outputs[i] !in claimed.value {
          claimed := Some(claimed.value + {outputs[i]});
          added := added + [outputs[i]];
        }
        assert claimed.value == before + Members(outputs[..i + 1]);
      }
      assert outputs[..|outputs|] == outputs;
    }

    /** forgetGenerationOutputs */
    method Forget(outputs: seq<nat>)
      modifies `claimed
      ensures claimed == if old(claimed).None? then None else Some(old(claimed).value - Members(outputs))
    {
      if claimed.None? {
        return;
      }
      ghost var before := claimed.value;
      for i := 0 to |outputs|
        invariant claimed.Some? && claimed.value == before - Members(outputs[..i])
      {
        assert outputs[..i + 1] == outputs[..i] + [outputs[i]];
        claimed := Some(claimed.value - {outputs[i]});
        assert claimed.value == before - Members(outputs[..i + 1]);
      }
      assert outputs[..|outputs|] == outputs;
    }

    /** archiveGenerationOutputs: goes on past an output that fails. */
    method Archive(outputs: seq<nat>, results: nat -> ArchiveResult) returns (ok: bool)
      modifies `stored, `skipped
      ensures stored == old(stored) + set o | o in outputs && results(o).Stored?
      ensures skipped.Keys == old(skipped.Keys) + set o | o in outputs && results(o).Skipped?
      ensures forall o <- outputs :: results(o).Skipped? ==> skipped[o] == results(o).reason
      ensures ok <==> forall o <- outputs :: !results(o).ArchiveFailed?
    {
      ok := true;
      for i := 0 to |outputs|
        invariant stored == old(stored) + set o | o in outputs[..i] && results(o).Stored?
        invariant skipped.Keys == old(skipped.Keys) + set o | o in outputs[..i] && results(o).Skipped?
        invariant forall o <- outputs[..i] :: results(o).Skipped? ==> o in skipped && skipped[o] == results(o).reason
        invariant ok <==> forall o <- outputs[..i] :: !results(o).ArchiveFailed?
      {
        var o := outputs[i];
        assert outputs[..i + 1] == outputs[..i] + [o];
        match results(o) {
          case Stored => stored := stored + {o};
          case Skipped(reason) => skipped := skipped[o := reason];
          case ArchiveFailed => ok := false;
        }
      }
      assert outputs[..|outputs|] == outputs;
    }

    /** The completed branch of reconcileGenerationJobStatus. What this pass completes is archived,
        provided no other pass is at work on the claims; a failed archiving leaves the claims as
        they were. */
    method Complete(job: Row, outputs: seq<nat>, results: nat -> ArchiveResult, w: World)
      returns (updated: Row, ok: bool)
      modifies this
      ensures var done := Archives(old(claimed), outputs, results);
              Result(base, updated, ok) == JobReconcile.Complete(old(base), job, done, w)
      ensures old(Done()) <= Done() && (claimed == old(claimed) || Archives(old(claimed), outputs, results))
      ensures Settled(old(claimed), old(Done())) ==>
                Settled(claimed, Done()) && (ok && updated.state == Completed ==> Members(outputs) <= Done())
    {
      hide Serve, Terminal, JobScripts.Advance, JobScripts.Release;
      updated := job;
      if updated.state != Postprocessing && updated.state != Archiving {
        var walked;
        walked, ok := Advance(updated, Postprocessing);
        if !ok {
          return job, false;
        }
        updated := walked;
      }
      if updated.state == Postprocessing {
        var walked;
        walked, ok := Advance(updated, Archiving);
        if !ok {
          return updated, false;
        }
        updated := walked;
      }
      if updated.state != Archiving {
        return updated, false;
      }
      updated, ok := Finish(updated, outputs, results, w);
    }

    /** Claims what is unclaimed and archives it; if an output fails, gives the claims back. */
    method ArchiveNew(outputs: seq<nat>, results: nat -> ArchiveResult) returns (archived: bool)
      modifies `claimed, `stored, `skipped
      ensures archived == Archives(old(claimed), outputs, results)
      ensures old(Done()) <= Done() && (!archived ==> claimed == old(claimed))
      ensures Settled(old(claimed), old(Done())) ==>
                Settled(claimed, Done()) && (archived ==> Members(outputs) <= Done())
    {
      if old(claimed).Some? {
        UnclaimedMembers(old(claimed).value, outputs);
      }
      var added := Remember(outputs);
      archived := Archive(added, results);
      if !archived {
        Forget(added);
        assert claimed.Some? ==> claimed.value == old(claimed).value;
      } else {
        assert Members(added) <= Done() by {
          forall o | o in Members(added)
            ensures o in Done()
          {
            assert results(o).Stored? || results(o).Skipped?;
          }
        }
      }
    }

    /** Archives, releases and completes a job that is in Archiving. */
    method Finish(job: Row, outputs: seq<nat>, results: nat -> ArchiveResult, w: World) returns (updated: Row, ok: bool)
      requires job.state == Archiving
      modifies this
      ensures var done := Archives(old(claimed), outputs, results);
              Result(base, updated, ok) == JobReconcile.FromArchiving(Result(old(base), job, true), done, w)
      ensures old(Done()) <= Done() && (claimed == old(claimed) || Archives(old(claimed), outputs, results))
      ensures Settled(old(claimed), old(Done())) ==>
                Settled(claimed, Done()) && (ok && updated.state == Completed ==> Members(outputs) <= Done())
    {
      hide Serve, JobScripts.Release, Settled, Archives, Members;
      var archived := ArchiveNew(outputs, results);
      if !archived {
        var _, _ := Call(Transition(job.state, false));
        return job, false;
      }
      var released, complete, known := Release(job, w);
      if !known {
        return job, false;
      }
      if !complete {
        var _, _ := Call(Transition(released.state, false));
        return released, true;
      }
      var _, completed := Call(Transition(Completed, false));
      return if completed then base.row else released, completed;
    }

    /** reconcileGenerationJobStatus. An ended cancellation makes the process forget the prompt. */
    method Reconcile(job: Row, phase: Phase, outputs: seq<nat>, results: nat -> ArchiveResult, w: World, reread: bool)
      returns (updated: Row, ok: bool)
      modifies this
      ensures var done := Archives(old(claimed), outputs, results);
              Result(base, updated, ok) == JobReconcile.Reconcile(old(base), job, phase, done, w, reread)
      ensures old(Done()) <= Done()
      ensures Settled(old(claimed), old(Done())) ==> Settled(claimed, Done())
      ensures Settled(old(claimed), old(Done())) && phase == PhaseCompleted && !Terminal(job.state) ==>
                ok && updated.state == Completed && job.owned && !job.cancelRequested && !job.cancelConfirmed ==>
                Members(outputs) <= Done()
    {
      hide Serve, Terminal, JobScripts.Advance, JobReconcile.Complete, JobScripts.Fail, JobScripts.End;
      if Terminal(job.state) {
        return job, true;
      }
      if job.cancelRequested && !job.cancelConfirmed {
        return job, true;
      }
      if job.cancelConfirmed {
        updated, ok := End(job, Cancelled, w);
        if ok && updated.state == Cancelled && job.prompt.Some? {
          claimed := None;
        }
        return;
      }
      if !job.owned {
        var failed, _ := Fail(job, w, reread);
        return failed, true;
      }
      match phase {
        case PhaseQueued => updated, ok := Advance(job, Queued);
        case PhaseRunning => updated, ok := Advance(job, Running);
        case PhaseError =>
          var failed, _ := Fail(job, w, reread);
          return failed, true;
        case PhaseCompleted => updated, ok := Complete(job, outputs, results, w);
        case Blank => return job, true;
      }
    }

    /** recoverGenerationJobPrompt. A recovered prompt is remembered afresh, with nothing claimed. */
    method Recover(job: Row, scan: Scan, projected: bool) returns (recovered: Row, found: bool, ok: bool)
      modifies `base, `claimed
      ensures JobCancel.Recovered(base, recovered, found, ok) == JobCancel.Recover(old(base), job, scan, projected)
      ensures Evolves(job, old(base).row) ==> Follows(old(base), job, base, recovered)
      ensures found ==> scan.Found? && (Evolves(job, old(base).row) ==>
                          recovered.prompt == Some(scan.prompt) && recovered.state == Queued)
      ensures claimed == old(claimed) || claimed == Some({})
    {
      hide Serve, JobScripts.Advance, Evolves, Follows;
      if Evolves(job, base.row) { JobCancel.RecoverFollows(base, job, scan, projected); }
      if job.prompt.Some? {
        return job, false, true;
      }
      if !scan.Found? {
        return job, false, scan.Missing?;
      }
      var _, bound := Call(Bind(scan.prompt));
      if !bound {
        return job, false, false;
      }
      recovered := base.row;
      var _, committed := Call(CommitQuota);
      if !committed {
        return recovered, false, false;
      }
      recovered, ok := Advance(recovered, Queued);
      if !ok {
        return recovered, false, false;
      }
      if recovered.owned {
        claimed := Some({});
      }
      return recovered, true, projected;
    }

    /** Withdraws the cancellation, or confirms it, and reconciles. */
    method Decide(job: Row, op: Op, phase: Phase, outputs: seq<nat>, results: nat -> ArchiveResult,
                  w: World, reread: bool)
      returns (updated: Row, cancelled: bool, ok: bool)
      requires op == ClearCancel || op == ConfirmCancel
      modifies this
      ensures var a := JobCancel.Around(Archives(old(claimed), outputs, results), w, reread);
              JobCancel.Attempt(base, updated, cancelled, ok, false)
              == if op == ClearCancel then JobCancel.Withdraw(old(base), job, phase, a)
                 else JobCancel.Confirm(old(base), job, phase, a)
      ensures cancelled ==> updated.state == Cancelled
      ensures old(Done()) <= Done() && (Settled(old(claimed), old(Done())) ==> Settled(claimed, Done()))
    {
      hide Serve, JobReconcile.Reconcile, Terminal;
      var _, stored := Call(op);
      if !stored {
        return job, false, false;
      }
      updated, ok := Reconcile(base.row, phase, outputs, results, w, reread);
      return updated, op == ConfirmCancel && updated.state == Cancelled, ok;
    }

    /** One round of continueGenerationJobCancellation for a job that is not awaiting recovery. */
    method CancelKnown(job: Row, seen: JobCancel.Reads, outputs: seq<nat>, results: nat -> ArchiveResult,
                       w: World, reread: bool)
      returns (updated: Row, cancelled: bool, ok: bool, unsent: bool)
      modifies this
      ensures var a := JobCancel.Around(Archives(old(claimed), outputs, results), w, reread);
              JobCancel.Attempt(base, updated, cancelled, ok, unsent) == JobCancel.CancelKnown(old(base), job, seen, a)
      ensures (cancelled ==> updated.state == Cancelled) && (unsent ==> !ok && base == old(base))
      ensures old(Done()) <= Done() && (Settled(old(claimed), old(Done())) ==> Settled(claimed, Done()))
    {
      hide JobCancel.Confirm, JobCancel.Withdraw, Terminal;
      unsent := false;
      if Terminal(job.state) {
        return job, job.state == Cancelled, true, false;
      }
      if !job.cancelRequested || !job.owned {
        return job, false, false, false;
      }
      if job.prompt.None? {
        updated, cancelled, ok := Decide(job, ConfirmCancel, Blank, outputs, results, w, reread);
        return;
      }
      if seen.queue.QueueFailed? {
        return job, false, false, true;
      }
      var sent := seen.queue.InPending? || seen.queue.InRunning?;
      if sent && !seen.controlled {
        return job, false, false, true;
      }
      var status := FetchStatus(seen.history, seen.queueAgain);
      if status.None? {
        return job, false, false, !sent;
      }
      var known, phase := status.value.known, status.value.phase;
      if known && (phase == PhaseCompleted || (phase == PhaseError && !sent)) {
        updated, cancelled, ok := Decide(job, ClearCancel, phase, outputs, results, w, reread);
      } else if known && (phase == PhaseQueued || phase == PhaseRunning) {
        return job, false, true, false;
      } else {
        updated, cancelled, ok := Decide(job, ConfirmCancel, phase, outputs, results, w, reread);
      }
    }

    /** continueGenerationJobCancellation: a send of unknown outcome is recovered first. */
    method ContinueCancel(job: Row, seen: JobCancel.Reads, outputs: seq<nat>, results: nat -> ArchiveResult,
                          w: World, reread: bool)
      returns (updated: Row, cancelled: bool, ok: bool, unsent: bool)
      modifies this
      ensures exists done ::
                && (done == Archives(old(claimed), outputs, results) || done == Archives(Some({}), outputs, results))
                && JobCancel.Attempt(base, updated, cancelled, ok, unsent)
                   == JobCancel.ContinueCancel(old(base), job, seen, JobCancel.Around(done, w, reread))
      ensures (cancelled ==> updated.state == Cancelled) && (unsent ==> !ok)
      ensures old(Done()) <= Done() && (Settled(old(claimed), old(Done())) ==> Settled(claimed, Done()))
    {
      hide JobCancel.CancelKnown, JobCancel.Recover, Terminal, OutcomeKnown;
      if !Terminal(job.state) && job.cancelRequested && job.owned && !OutcomeKnown(job) {
        var recovered, found, known := Recover(job, seen.scan, seen.projected);
        if !known || !found {
          assert JobCancel.Attempt(base, job, false, known, false)
              == JobCancel.ContinueCancel(old(base), job, seen,
                                          JobCancel.Around(Archives(old(claimed), outputs, results), w, reread));
          return job, false, known, false;
        }
        ghost var done := Archives(claimed, outputs, results);
        updated, cancelled, ok, unsent := CancelKnown(recovered, seen, outputs, results, w, reread);
        assert JobCancel.Attempt(base, updated, cancelled, ok, unsent)
            == JobCancel.ContinueCancel(old(base), job, seen, JobCancel.Around(done, w, reread));
      } else {
        updated, cancelled, ok, unsent := CancelKnown(job, seen, outputs, results, w, reread);
      }
    }
  }
}
