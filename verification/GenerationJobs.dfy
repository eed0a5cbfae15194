/** The states of a generation job and the graph of moves between them. */
module GenerationJobs {

  datatype JobState =
    | Draft
    | Preparing
    | Uploading
    | WaitingForResources
    | Queued
    | Running
    | Postprocessing
    | Archiving
    | Completed
    | Failed
    | Cancelled
    | Expired

  predicate Terminal(s: JobState) {
    s.Completed? || s.Failed? || s.Cancelled? || s.Expired?
  }

  predicate Cancellable(s: JobState) {
    s.Draft? || s.Preparing? || s.Uploading? || s.WaitingForResources? || s.Queued? || s.Running?
  }

  /** The proper edges of the graph. */
  predicate Edge(from: JobState, to: JobState) {
    match from
    case Draft => to.Preparing? || to.Failed? || to.Cancelled? || to.Expired?
    case Preparing => to.Uploading? || to.WaitingForResources? || to.Failed? || to.Cancelled? || to.Expired?
    case Uploading => to.WaitingForResources? || to.Failed? || to.Cancelled? || to.Expired?
    case WaitingForResources => to.Queued? || to.Failed? || to.Cancelled? || to.Expired?
    case Queued => to.Running? || to.Postprocessing? || to.Failed? || to.Cancelled? || to.Expired?
    case Running => to.Postprocessing? || to.Failed? || to.Cancelled? || to.Expired?
    case Postprocessing => to.Archiving? || to.Failed? || to.Expired?
    case Archiving => to.Completed? || to.Failed? || to.Expired?
    case _ => false
  }

  /** A write of the same state is always admitted; it only refreshes messages. */
  predicate CanTransition(from: JobState, to: JobState) {
    from == to || Edge(from, to)
  }

  /** How far along its life a state lies. */
  function Rank(s: JobState): nat {
    match s
    case Draft => 0
    case Preparing => 1
    case Uploading => 2
    case WaitingForResources => 3
    case Queued => 4
    case Running => 5
    case Postprocessing => 6
    case Archiving => 7
    case _ => 8
  }

  /** The graph in the words of its description: one step up the normal path, where a job without
      inputs skips Uploading and one observed late skips Running; completion out of Archiving; a
      cancellation from exactly the cancellable states; failure and expiry from every live one. */
  lemma GraphExactly(from: JobState, to: JobState)
    ensures !Terminal(to) ==>
              (Edge(from, to) <==>
                || Rank(to) == Rank(from) + 1
                || (from == Preparing && to == WaitingForResources)
                || (from == Queued && to == Postprocessing))
    ensures Edge(from, Completed) <==> from == Archiving
    ensures Edge(from, Cancelled) <==> Cancellable(from)
    ensures Edge(from, Failed) <==> !Terminal(from)
    ensures Edge(from, Expired) <==> !Terminal(from)
    ensures Cancellable(from) <==> Rank(from) <= Rank(Running)
    ensures Terminal(from) <==> Rank(from) == 8
  {
  }

  /** Only a job that ComfyUI has accepted can be in one of these states. */
  predicate AtExecutor(s: JobState) {
    s.Queued? || s.Running? || s.Postprocessing? || s.Archiving? || s.Completed?
  }

  /** The states a job went through, each reached from the one before by a proper edge. */
  ghost predicate Path(states: seq<JobState>) {
    |states| > 0 && forall i :: 0 <= i < |states| - 1 ==> Edge(states[i], states[i + 1])
  }

  /** An edge climbs, leaves no terminal state, and enters the states of an accepted job only
      through Queued. */
  lemma EdgeClimbs(from: JobState, to: JobState)
    ensures Edge(from, to) ==> Rank(from) < Rank(to) && !Terminal(from)
    ensures Edge(from, to) && AtExecutor(to) ==> to == Queued || AtExecutor(from)
  {
  }

  lemma {:induction false} PathClimbs(states: seq<JobState>, i: nat)
    requires Path(states) && i < |states|
    ensures Rank(states[0]) + i <= Rank(states[i])
  {
    if i > 0 {
      PathClimbs(states, i - 1);
      assert Edge(states[i - 1], states[i - 1 + 1]);
    }
  }

  /** However a job moves, it changes state at most eight times, stops at the first terminal
      state, and is completed only out of archiving. */
  lemma PathShape(states: seq<JobState>)
    requires Path(states)
    ensures |states| <= 9
    ensures forall i :: 0 <= i < |states| && Terminal(states[i]) ==> i == |states| - 1
    ensures forall i :: 0 < i < |states| && states[i] == Completed ==> states[i - 1] == Archiving
  {
    PathClimbs(states, |states| - 1);
    forall i | 0 < i < |states| && states[i] == Completed
      ensures states[i - 1] == Archiving
    {
      assert Edge(states[i - 1], states[i - 1 + 1]);
    }
    forall i | 0 <= i < |states| && Terminal(states[i])
      ensures i == |states| - 1
    {
      if i < |states| - 1 {
        PathClimbs(states[i..], |states| - 1 - i);
      }
    }
  }
}
