/** Reconciling a job with what ComfyUI reports, recovering its prompt id, and cancelling it. */
module JobReconcile {
  import opened Options
  import opened GenerationJobs
  import opened JobRows
  import opened ComfyReads
  import opened JobScripts

  /** The completed branch, first half: the walk to Archiving. */
  function ToArchiving(b: Base, job: Row): Result {
    var post :=
      if job.state == Postprocessing || job.state == Archiving then Result(b, job, true)
      else Advance(b, job, Postprocessing);
    if !post.ok then Result(post.base, job, false)
    else
      var arch := if post.job.state == Postprocessing then Advance(post.base, post.job, Archiving) else post;
      if !arch.ok || arch.job.state != Archiving then Result(arch.base, post.job, false) else arch
  }

  /** Second half: archive, release, and only then complete. `archived` tells whether archiving the
      outputs returned without an error. */
  function FromArchiving(arch: Result, archived: bool, w: World): Result {
    if !archived then Result(Serve(arch.base, Transition(arch.job.state, false)).base, arch.job, false)
    else
      var rel := Release(arch.base, arch.job, w);
      if !rel.ok then Result(rel.base, arch.job, false)
      else if rel.complete then Conclude(rel, rel.job, Completed)
      else Result(Serve(rel.base, Transition(rel.job.state, false)).base, rel.job, true)
  }

  function Complete(b: Base, job: Row, archived: bool, w: World): Result {
    var arch := ToArchiving(b, job);
    if !arch.ok then arch else FromArchiving(arch, archived, w)
  }

  function Reconcile(b: Base, job: Row, phase: Phase, archived: bool, w: World, reread: bool): Result {
    if Terminal(job.state) then Result(b, job, true)
    else if job.cancelRequested && !job.cancelConfirmed then Result(b, job, true)
    else if job.cancelConfirmed then End(b, job, Cancelled, w)
    else if !job.owned then Fail(b, job, w, reread).(ok := true)
    else
      match phase
      case PhaseQueued => Advance(b, job, Queued)
      case PhaseRunning => Advance(b, job, Running)
      case PhaseError => Fail(b, job, w, reread).(ok := true)
      case PhaseCompleted => Complete(b, job, archived, w)
      case Blank => Result(b, job, true)
  }

  lemma AdvanceFollows(b: Base, job: Row, target: JobState)
    requires Evolves(job, b.row)
    ensures var m := Advance(b, job, target);
            Follows(b, job, m.base, m.job) && (m.ok ==> m.job.state == target)
  {
    AdvanceEvolves(b, job, target);
    hide Evolves, Advance;
  }

  lemma FollowsBehind(b: Base, job: Row, c: Base, later: Row)
    requires Follows(b, job, c, later) && Evolves(job, b.row)
    ensures Evolves(later, c.row) && Follows(b, job, c, job)
  {
    EvolvesTransitive(job, b.row, c.row);
    StillLawful(Prepare, job);
    hide Evolves, Touches;
  }

  /** The completed branch, under every script. */
  lemma ToArchivingFollows(b: Base, job: Row)
    requires Evolves(job, b.row)
    ensures var arch := ToArchiving(b, job);
            Follows(b, job, arch.base, arch.job) && (arch.ok ==> arch.job.state == Archiving)
  {
    FollowsStart(b, job);
    AdvanceFollows(b, job, Postprocessing);
    var post :=
      if job.state == Postprocessing || job.state == Archiving then Result(b, job, true)
      else Advance(b, job, Postprocessing);
    FollowsBehind(b, job, post.base, post.job);
    if post.ok && post.job.state == Postprocessing {
      AdvanceFollows(post.base, post.job, Archiving);
      var arch := Advance(post.base, post.job, Archiving);
      FollowsBehind(post.base, post.job, arch.base, arch.job);
      FollowsFurther(b, job, post.base, post.job, arch.base, arch.job);
      FollowsFurther(b, job, post.base, post.job, arch.base, post.job);
    }
    hide Evolves, Follows, Advance;
  }

  lemma FromArchivingFollows(arch: Result, archived: bool, w: World)
    requires Evolves(arch.job, arch.base.row)
    ensures var m := FromArchiving(arch, archived, w); Follows(arch.base, arch.job, m.base, m.job)
  {
    FollowsStart(arch.base, arch.job);
    FollowsServe(arch.base, arch.job, arch.base, arch.job, Transition(arch.job.state, false));
    var rel := Release(arch.base, arch.job, w);
    ReleaseFollows(arch.base, arch.job, w);
    FollowsBehind(arch.base, arch.job, rel.base, rel.job);
    ConcludeFollows(arch.base, arch.job, rel, rel.job, Completed);
    FollowsServe(arch.base, arch.job, rel.base, rel.job, Transition(rel.job.state, false));
    hide Evolves, Follows, Release, Serve, Conclude;
  }

  lemma CompleteFollows(b: Base, job: Row, archived: bool, w: World)
    requires Evolves(job, b.row)
    ensures var m := Complete(b, job, archived, w); Follows(b, job, m.base, m.job)
  {
    var arch := ToArchiving(b, job);
    ToArchivingFollows(b, job);
    FollowsBehind(b, job, arch.base, arch.job);
    FromArchivingFollows(arch, archived, w);
    var m := FromArchiving(arch, archived, w);
    FollowsFurther(b, job, arch.base, arch.job, m.base, m.job);
    hide Evolves, Follows, ToArchiving, FromArchiving;
  }

  /** Whatever the status, and whatever happens around the calls, reconciling keeps the row
      invariant and only moves the job on. */
  lemma ReconcileFollows(b: Base, job: Row, phase: Phase, archived: bool, w: World, reread: bool)
    requires Evolves(job, b.row)
    ensures var m := Reconcile(b, job, phase, archived, w, reread); Follows(b, job, m.base, m.job)
  {
    FollowsStart(b, job);
    EndFollows(b, job, Cancelled, w);
    FailFollows(b, job, w, reread);
    AdvanceFollows(b, job, Queued);
    AdvanceFollows(b, job, Running);
    CompleteFollows(b, job, archived, w);
    hide Evolves, Follows, Advance, Complete, End, Fail, Terminal;
  }

  /** A job whose cancellation is requested but not confirmed is left alone. */
  lemma PendingCancellationIsStable(b: Base, job: Row, phase: Phase, archived: bool, w: World, reread: bool)
    requires job.cancelRequested && !job.cancelConfirmed
    ensures Reconcile(b, job, phase, archived, w, reread) == Result(b, job, true)
  {
  }

  // ---- Completed reconciliation, undisturbed but cut off anywhere ----

  /** A job that a completed status can carry through. */
  ghost predicate Completable(r: Row) {
    && r.owned && r.prompt.Some? && !r.cancelRequested && !r.cancelConfirmed
    && (!Terminal(r.state) || r.state == Completed)
  }

  lemma CompletableMarks(a: Row, b: Row)
    requires Completable(a) && SameMarks(a, b)
    ensures Completable(b) <==> !Terminal(b.state) || b.state == Completed
    ensures OutcomeKnown(b)
  {
  }

  lemma OnlyMovedMarks(a: Row, b: Row)
    requires OnlyMoved(a, b)
    ensures SameMarks(a, b) && b.released == a.released
  {
  }

  lemma SameMarksTransitive(a: Row, b: Row, c: Row)
    requires SameMarks(a, b) && SameMarks(b, c)
    ensures SameMarks(a, c)
  {
  }

  lemma ToArchivingAlone(b: Base)
    requires Alone(b.turns)
    ensures var arch := ToArchiving(b, b.row);
            && Alone(arch.base.turns) && arch.base.misdirected == b.misdirected
            && OnlyMoved(b.row, arch.base.row) && (Terminal(arch.base.row.state) ==> arch.base.row.state == b.row.state)
            && (arch.ok ==> arch.job == arch.base.row)
  {
    AdvanceAlone(b, Postprocessing);
    OnlyMovedTransitive(b.row, b.row.state, b.row);
    var post :=
      if b.row.state == Postprocessing || b.row.state == Archiving then Result(b, b.row, true)
      else Advance(b, b.row, Postprocessing);
    if post.ok && post.job.state == Postprocessing {
      AdvanceAlone(post.base, Archiving);
      OnlyMovedChain(b.row, post.base.row, Advance(post.base, post.job, Archiving).base.row);
    }
    hide Alone, Advance, OnlyMoved, Terminal;
  }

  lemma OnlyMovedChain(a: Row, b: Row, c: Row)
    requires OnlyMoved(a, b) && OnlyMoved(b, c)
    ensures OnlyMoved(a, c)
  {
  }

  lemma ToArchivingCalm(b: Base)
    requires Calm(b.turns) && b.row.prompt.Some? && !Terminal(b.row.state)
    ensures var arch := ToArchiving(b, b.row);
            arch.ok && arch.job == arch.base.row && arch.base.row.state == Archiving && Calm(arch.base.turns)
  {
    AdvanceCalm(b, Postprocessing);
    AdvanceExactly(b.row.state, Postprocessing, b.row.prompt);
    LiveStates(b.row.state);
    CalmIsAlone(b.turns);
    AdvanceAlone(b, Postprocessing);
    var post :=
      if b.row.state == Postprocessing || b.row.state == Archiving then Result(b, b.row, true)
      else Advance(b, b.row, Postprocessing);
    if post.job.state == Postprocessing {
      AdvanceCalm(post.base, Archiving);
      OnlyMovedMarks(b.row, b.row.(state := post.base.row.state));
      AdvanceExactly(Postprocessing, Archiving, post.base.row.prompt);
    }
    hide Alone, Calm, Advance, AdvanceEnd;
  }

  lemma LiveStates(s: JobState)
    ensures !Terminal(s) ==> s == Postprocessing || s == Archiving || LiesAhead(s, Postprocessing)
    ensures LiesAhead(Postprocessing, Archiving)
  {
  }

  /** Cut off anywhere, the completed branch asks for no edge the graph lacks and leaves a job
      that the next pass can carry through; it completes only what was archived. */
  lemma CompleteAlone(b: Base, archived: bool, w: World)
    requires Alone(b.turns) && Completable(b.row) && b.row.state != Completed
    ensures var m := Complete(b, b.row, archived, w);
            && Completable(m.base.row) && m.base.misdirected == b.misdirected
            && (m.base.row.state == Completed ==> archived)
  {
    ToArchivingAlone(b);
    var arch := ToArchiving(b, b.row);
    OnlyMovedMarks(b.row, arch.base.row);
    CompletableMarks(b.row, arch.base.row);
    if arch.ok {
      FromArchivingAlone(arch, archived, w);
      SameMarksTransitive(b.row, arch.base.row, FromArchiving(arch, archived, w).base.row);
      CompletableMarks(b.row, FromArchiving(arch, archived, w).base.row);
    }
    hide Alone, ToArchiving, FromArchiving, Complete, OnlyMoved, SameMarks, OutcomeKnown;
  }

  lemma FromArchivingAlone(arch: Result, archived: bool, w: World)
    requires Alone(arch.base.turns) && arch.job == arch.base.row && arch.job.state == Archiving
    ensures var m := FromArchiving(arch, archived, w);
            && SameMarks(arch.base.row, m.base.row) && m.base.misdirected == arch.base.misdirected
            && (m.base.row.state == Archiving || (archived && m.base.row.state == Completed))
  {
    var b := arch.base;
    ServeAlone(b, Transition(Archiving, false));
    EndCalls(b.row, Archiving, Apply(b.row, Transition(Archiving, false)));
    ArchivingEdges();
    var rel := Release(b, b.row, w);
    ReleaseAlone(b, w);
    SameJobFacts(b.row, rel.base.row);
    SameMarksFacts(b.row, rel.base.row, Completed);
    SameJobFacts(b.row, b.row);
    SameMarksFacts(b.row, b.row, Completed);
    if rel.ok {
      ConcludeAlone(b, rel, rel.job, Completed);
    }
    hide Alone, Release, Conclude, SameJob, SameMarks, Serve, Apply, Edge, CanTransition, OutcomeKnown;
  }

  lemma ArchivingEdges()
    ensures Edge(Archiving, Completed) && !Edge(Archiving, Archiving) && Terminal(Completed)
  {
  }

  /** Uncut, it completes the job exactly when archiving succeeded and the release goes through. */
  lemma CompleteCalm(b: Base, archived: bool, w: World)
    requires Calm(b.turns) && b.row.prompt.Some? && !Terminal(b.row.state)
    ensures var m := Complete(b, b.row, archived, w);
            && m.base.row.state == (if archived && Settles(b.row, w) then Completed else Archiving)
            && (m.ok <==> archived && !Blocked(b.row, w))
  {
    ToArchivingCalm(b);
    CalmIsAlone(b.turns);
    ToArchivingAlone(b);
    var arch := ToArchiving(b, b.row);
    OnlyMovedMarks(b.row, arch.base.row);
    FromArchivingCalm(arch, archived, w);
    hide Alone, Calm, ToArchiving, FromArchiving, Complete, OnlyMoved, Terminal;
  }

  lemma FromArchivingCalm(arch: Result, archived: bool, w: World)
    requires Calm(arch.base.turns) && arch.job == arch.base.row && arch.job.state == Archiving
    ensures var m := FromArchiving(arch, archived, w);
            && m.base.row.state == (if archived && Settles(arch.job, w) then Completed else Archiving)
            && (m.ok <==> archived && !Blocked(arch.job, w))
  {
    var b := arch.base;
    CalmIsAlone(b.turns);
    ServeCalm(b, Transition(Archiving, false));
    EndCalls(b.row, Archiving, Apply(b.row, Transition(Archiving, false)));
    ArchivingEdges();
    var rel := Release(b, b.row, w);
    ReleaseAlone(b, w);
    ReleaseCalm(b, w);
    ReleaseOkIfComplete(b, b.row, w);
    SameJobFacts(b.row, rel.base.row);
    if rel.ok {
      ConcludeCalm(b, rel, rel.job, Completed);
    }
    hide Alone, Calm, Release, Conclude, SameJob, Serve, Apply, Edge, CanTransition, OutcomeKnown, Settles, Blocked,
         Refunded;
  }

  // ---- What a reconciliation decides ----

  /** Where the walk to a target past WaitingForResources takes a live job, in row states. */
  lemma WalkEnds(s: JobState, target: JobState, prompt: Option<nat>)
    requires !Terminal(s) && (target == Queued || target == Running)
    ensures var end := AdvanceEnd(s, target, prompt);
            if Rank(s) > Rank(target) then end == Archiving
            else if prompt.Some? || Rank(s) >= Rank(Queued) then end == target
            else end == WaitingForResources
  {
    AdvanceExactly(s, target, prompt);
    hide AdvanceEnd;
  }

  lemma ReconcileWalks(b: Base, target: JobState)
    requires Calm(b.turns) && b.row.prompt.Some? && !Terminal(b.row.state) && (target == Queued || target == Running)
    ensures var m := Advance(b, b.row, target);
            && m.base.row.state == (if Rank(b.row.state) <= Rank(target) then target else Archiving)
            && (m.ok <==> Rank(b.row.state) <= Rank(target))
  {
    hide Calm, Advance, AdvanceEnd, Terminal;
    AdvanceCalm(b, target);
    WalkEnds(b.row.state, target, b.row.prompt);
    assert Rank(Archiving) == 7;
  }

  /** What an undisturbed reconciliation leaves in the row, for a live job. A running or queued status
      brings the row to that state if it is at or before it, and otherwise pushes it to Archiving, with
      an error; an error fails the job, a completion completes it once it is archived and released; a
      job without an owner fails whatever its status; a confirmed cancellation ends it Cancelled, a
      requested one, and a blank status, leave it alone. */
  lemma ReconcileDecides(b: Base, phase: Phase, archived: bool, w: World, reread: bool)
    requires Calm(b.turns) && !Terminal(b.row.state)
    ensures var m := Reconcile(b, b.row, phase, archived, w, reread); var s := b.row.state; var end := m.base.row.state;
            if b.row.cancelRequested && !b.row.cancelConfirmed then m.base.row == b.row && m.ok
            else if b.row.cancelConfirmed then
              && end == EndOr(b.row, Cancelled, w)
              && (m.ok <==> !Blocked(b.row, w) && (Settles(b.row, w) ==> Cancellable(s)))
            else if !b.row.owned || phase == PhaseError then end == EndOr(b.row, Failed, w) && m.ok
            else if phase == Blank then m.base.row == b.row && m.ok
            else b.row.prompt.Some? ==>
              if phase == PhaseQueued then
                end == (if Rank(s) <= Rank(Queued) then Queued else Archiving) && (m.ok <==> Rank(s) <= Rank(Queued))
              else if phase == PhaseRunning then
                end == (if Rank(s) <= Rank(Running) then Running else Archiving) && (m.ok <==> Rank(s) <= Rank(Running))
              else
                && end == (if archived && Settles(b.row, w) then Completed else Archiving)
                && (m.ok <==> archived && !Blocked(b.row, w))
  {
    hide Calm, Advance, Complete, Fail, End, Settles, EndOr, Rank, Blocked, Refunded, Edge, Cancellable;
    GraphExactly(b.row.state, Cancelled);
    EndingsCalm(b, Cancelled, w, reread);
    EndingsCalm(b, Failed, w, reread);
    if b.row.prompt.Some? {
      ReconcileWalks(b, Queued);
      ReconcileWalks(b, Running);
      CompleteCalm(b, archived, w);
    }
  }

  /** An ended job is left alone. */
  lemma EndedIsLeftAlone(b: Base, job: Row, phase: Phase, archived: bool, w: World, reread: bool)
    requires Terminal(job.state)
    ensures Reconcile(b, job, phase, archived, w, reread) == Result(b, job, true)
  {
  }

  /** One pass: what cuts it off, whether archiving returned without an error, and the resources. */
  datatype Pass = Pass(cut: seq<Turn>, archived: bool, w: World)

  /** Passes over the same job, each with a fresh reading. */
  function Passes(b: Base, passes: seq<Pass>): Base
    decreases |passes|
  {
    if passes == [] then b
    else
      var p := passes[0];
      var m := Reconcile(b.(turns := p.cut), b.row, PhaseCompleted, p.archived, p.w, false);
      Passes(m.base, passes[1..])
  }

  /** Completed reconciliation is resumable: after any number of passes, each cut off anywhere, with
      any archiving results and any state of the leases, no edge outside the graph was ever asked for,
      and one undisturbed pass whose archiving and release succeed completes the job. */
  lemma {:induction false} ReconcileResumes(b: Base, passes: seq<Pass>, last: World)
    requires Completable(b.row) && forall p <- passes :: Alone(p.cut)
    requires last.freed && !last.leaseHeld
    ensures var c := Passes(b, passes);
            && Completable(c.row) && c.misdirected == b.misdirected
            && Reconcile(c.(turns := []), c.row, PhaseCompleted, true, last, false).base.row.state == Completed
    decreases |passes|
  {
    hide Complete;
    if passes == [] {
      var c := b.(turns := []);
      if b.row.state != Completed {
        assert Calm(c.turns);
        CompleteCalm(c, true, last);
      }
    } else {
      var p := passes[0];
      var start := b.(turns := p.cut);
      var m := Reconcile(start, b.row, PhaseCompleted, p.archived, p.w, false);
      assert p in passes;
      if b.row.state != Completed {
        CompleteAlone(start, p.archived, p.w);
      }
      assert m.base.misdirected == b.misdirected && Completable(m.base.row);
      ReconcileResumes(m.base, passes[1..], last);
    }
  }
}
