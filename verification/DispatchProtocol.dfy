/**
  One generation job, everything that may write its row, and ComfyUI.

  Dispatch workers claim the row, mark the send, send, and hear or do not hear the reply. Any
  other actor (request handlers, the reconciler, the cancellation path, a second process) may
  make any store call between any two of these steps. A worker may crash or lose its lease
  anywhere; a request may be delivered late or not at all. A disabled step changes nothing.
*/
module DispatchProtocol {
  import opened Options
  import opened GenerationJobs
  import opened JobRows

  /** A workflow sent to ComfyUI: still travelling, queued under a prompt id, turned down by the
      pre-queue validation, or lost on the way. */
  datatype Post = InFlight | Accepted(prompt: nat) | Refused | Lost

  /** The error types of ComfyUI's validation before it queues a workflow, and all others. */
  datatype ErrorType = NoPrompt | InvalidPromptId | NoOutputs | OutputsFailedValidation | OtherError

  /** An HTTP reply to a send, as far as it is read. `json` is false for a body that does not parse. */
  datatype HttpReply = HttpReply(status: int, json: bool, hasPromptId: bool, error: ErrorType)

  /** comfyPromptValidationRejected: the only replies taken as proof that nothing was queued. */
  predicate ProvesRefusal(reply: HttpReply) {
    reply.status == 400 && reply.json && !reply.hasPromptId && !reply.error.OtherError?
  }

  /** What may be heard after a send. ComfyUI answers with one of its validation errors only when it
      has refused the workflow before queueing it; every other reply, from ComfyUI, a proxy or a broken
      connection, may be heard whatever became of the send. */
  predicate CanReply(post: Post, reply: HttpReply) {
    (|| reply == HttpReply(400, true, false, NoPrompt)
     || reply == HttpReply(400, true, false, InvalidPromptId)
     || reply == HttpReply(400, true, false, NoOutputs)
     || reply == HttpReply(400, true, false, OutputsFailedValidation))
    ==> post.Refused?
  }

  /** A reply is taken as proof exactly when it can be heard of a refused workflow only. */
  lemma RefusalIsProvedExactly(reply: HttpReply)
    ensures ProvesRefusal(reply) <==> forall post :: CanReply(post, reply) ==> post.Refused?
  {
    if !ProvesRefusal(reply) {
      assert CanReply(Lost, reply);
    }
  }

  /** Where a dispatch worker stands. A worker that is not listed holds nothing. */
  datatype Worker =
    | Holding(token: nat)
    | Begun(token: nat)
    | Sent(token: nat, post: nat)
    | ToldRefused(token: nat)

  datatype System = System(
    row: Row,
    workers: map<nat, Worker>,
    posts: seq<Post>,
    path: seq<JobState>,   // the states of the row so far
    charged: int,          // what the job added to the owner's usage counters
    refunded: bool,        // a refund call ran behind the fence
    lateReserve: bool)     // a reservation was granted behind the fence and not refunded since

  datatype Step =
    | Call(op: Op)
    | ClaimBy(worker: nat, token: nat, now: int)
    | BeginBy(worker: nat, now: int, heard: bool)
    | SendBy(worker: nat)
    | Hear(worker: nat, reply: HttpReply)
    | RejectBy(worker: nat)
    | Crash(worker: nat)
    | Arrive(post: nat, verdict: Option<nat>)
    | Vanish(post: nat)
    | BindPost(post: nat)
    | Mark(leaseHeld: bool)

  /** The calls that need no evidence. Binding needs a prompt id that ComfyUI issued, a refusal
      needs ComfyUI's validation reply, releasing needs the fence, and marking a send or
      claiming belongs to workers. */
  predicate Free(op: Op) {
    !op.Bind? && !op.Reject? && !op.MarkReleased? && !op.Begin? && !op.Claim?
  }

  /** The system after a store call: the row, the trail of its states, and the usage counters. */
  function Store(s: System, op: Op): System {
    var after := Apply(s.row, op).row;
    s.(row := after,
       path := if after.state == s.row.state then s.path else s.path + [after.state],
       charged :=
         if !s.row.quotaReserved && after.quotaReserved then s.charged + 1
         else if s.row.quotaReserved && !after.quotaReserved && s.row.owned then s.charged - 1
         else s.charged,
       refunded := s.refunded || (op.ReleaseQuota? && s.row.closed),
       lateReserve :=
         && !op.ReleaseQuota?
         && (s.lateReserve || (s.row.closed && !s.row.quotaReserved && after.quotaReserved)))
  }

  function SetPost(s: System, post: nat, fate: Post): System {
    if post < |s.posts| && s.posts[post].InFlight? then s.(posts := s.posts[post := fate]) else s
  }

  function Next(s: System, step: Step): System {
    match step
    case Call(op) =>
      if Free(op) then Store(s, op) else s
    case ClaimBy(w, token, now) =>
      if Apply(s.row, Claim(token, now)).ok
      then Store(s, Claim(token, now)).(workers := s.workers[w := Holding(token)])
      else s
    case BeginBy(w, now, heard) =>
      if w in s.workers && s.workers[w].Holding? then
        var op := Begin(s.workers[w].token, now);
        Store(s, op).(workers := if Apply(s.row, op).ok && heard
                                 then s.workers[w := Begun(s.workers[w].token)]
                                 else s.workers - {w})
      else s
    case SendBy(w) =>
      if w in s.workers && s.workers[w].Begun?
      then s.(posts := s.posts + [InFlight], workers := s.workers[w := Sent(s.workers[w].token, |s.posts|)])
      else s
    case Hear(w, reply) =>
      // A reply that proves nothing ends the worker's attempt.
      if w !in s.workers || !s.workers[w].Sent? || s.workers[w].post >= |s.posts|
         || !CanReply(s.posts[s.workers[w].post], reply) then s
      else if ProvesRefusal(reply) then s.(workers := s.workers[w := ToldRefused(s.workers[w].token)])
      else s.(workers := s.workers - {w})
    case RejectBy(w) =>
      if w in s.workers && s.workers[w].ToldRefused?
      then Store(s, Reject(s.workers[w].token))
      else s
    case Crash(w) =>
      s.(workers := s.workers - {w})
    case Arrive(post, verdict) =>
      SetPost(s, post, if verdict.Some? then Accepted(verdict.value) else Refused)
    case Vanish(post) =>
      SetPost(s, post, Lost)
    case BindPost(post) =>
      if post < |s.posts| && s.posts[post].Accepted? then Store(s, Bind(s.posts[post].prompt)) else s
    case Mark(leaseHeld) =>
      if s.row.closed && s.refunded then Store(s, MarkReleased(leaseHeld)) else s
  }

  /** The store call a step makes, if it makes one. */
  ghost function StoreCall(s: System, step: Step): (op: Op)
    ensures Orderly(s.row, op)
    ensures op.MarkReleased? ==> s.refunded
  {
    match step
    case Call(op) => if Free(op) then op else Prepare
    case ClaimBy(_, token, now) => Claim(token, now)
    case BeginBy(w, now, _) =>
      if w in s.workers && s.workers[w].Holding? then Begin(s.workers[w].token, now) else Prepare
    case RejectBy(w) => if w in s.workers && s.workers[w].ToldRefused? then Reject(s.workers[w].token) else Prepare
    case BindPost(post) => if post < |s.posts| && s.posts[post].Accepted? then Bind(s.posts[post].prompt) else Prepare
    case Mark(leaseHeld) => if s.row.closed && s.refunded then MarkReleased(leaseHeld) else Prepare
    case _ => Prepare
  }

  function Run(s: System, steps: seq<Step>): System
    decreases |steps|
  {
    if steps == [] then s else Run(Next(s, steps[0]), steps[1..])
  }

  const BLANK := Row(Draft, true, false, None, false, false, NO_ID, None,
                     false, false, false, false, false, false, false, false)

  /** The rows a job can start from: created by a request, created inside a batch with its quota
      already reserved, adopted with the prompt id of an earlier request, or left unbound by an
      older binary, in which case the migration marked it as sent. */
  ghost predicate Init(s: System) {
    && s.workers == map[] && s.path == [s.row.state]
    && s.charged == (if s.row.quotaReserved then 1 else 0) && !s.refunded && !s.lateReserve
    && (|| (s.row == BLANK && s.posts == [])
        || (s.row == BLANK.(inBatch := true, hasPayload := true, quotaReserved := true) && s.posts == [])
        || (&& s.row.prompt.Some? && s.row == BLANK.(state := Queued, prompt := s.row.prompt)
            && s.posts == [Accepted(s.row.prompt.value)])
        || (&& s.row == BLANK.(state := s.row.state, started := true, inBatch := s.row.inBatch, owned := s.row.owned,
                               hasPayload := s.row.hasPayload, cancelRequested := s.row.cancelRequested,
                               quotaReserved := s.row.quotaReserved)
            && (s.row.state.Preparing? || s.row.state.Uploading? || s.row.state.WaitingForResources?)
            && |s.posts| <= 1))
  }

  /** How the row, the workers and ComfyUI hang together. */
  ghost predicate SendInv(r: Row, workers: map<nat, Worker>, posts: seq<Post>) {
    && |posts| <= 1
    && (posts != [] ==> r.started || r.prompt.Some?)
    && (r.prompt.Some? ==> posts == [Accepted(r.prompt.value)])
    && (r.rejected ==> posts == [Refused])
    && (forall w | w in workers :: workers[w].Begun? ==> r.started && posts == [])
    && (forall w | w in workers :: workers[w].ToldRefused? ==> posts == [Refused])
    && (forall v, w | v in workers && w in workers :: workers[v].Begun? && workers[w].Begun? ==> v == w)
  }

  ghost predicate TrailInv(r: Row, path: seq<JobState>) {
    Path(path) && path[|path| - 1] == r.state
  }

  ghost predicate QuotaInv(s: System) {
    && (s.row.owned ==> s.charged == if s.row.quotaReserved then 1 else 0)
    && (s.row.released ==> s.refunded)
    && (s.refunded ==> s.row.closed)
    && (s.refunded && !s.lateReserve ==> !s.row.quotaReserved || s.row.quotaCommitted)
    && (s.lateReserve ==> s.row.quotaReserved)
  }

  ghost predicate Inv(s: System) {
    && RowInv(s.row)
    && SendInv(s.row, s.workers, s.posts)
    && TrailInv(s.row, s.path)
    && QuotaInv(s)
  }

  lemma InitInv(s: System)
    requires Init(s)
    ensures Inv(s)
  {
    hide Rank;
  }

  lemma StoreKeepsTrail(s: System, op: Op)
    requires TrailInv(s.row, s.path) && Orderly(s.row, op)
    ensures var t := Store(s, op); TrailInv(t.row, t.path)
  {
    CallLawful(s.row, op);
    hide Apply, Edge, Evolves;
  }

  lemma StoreKeepsQuota(s: System, op: Op)
    requires QuotaInv(s) && Orderly(s.row, op)
    requires op.MarkReleased? ==> s.refunded
    ensures QuotaInv(Store(s, op))
  {
    CallLawful(s.row, op);
    hide Apply, RowInv, Rank, Edge;
  }

  /** Only a successful send mark lets a worker send, and the mark can be set only once. */
  lemma BeginKeepsSendInv(s: System, w: nat, now: int, heard: bool)
    requires Inv(s)
    ensures var t := Next(s, BeginBy(w, now, heard)); SendInv(t.row, t.workers, t.posts)
  {
    hide RowInv, TrailInv, QuotaInv;
  }

  lemma RejectKeepsSendInv(s: System, w: nat)
    requires Inv(s)
    ensures var t := Next(s, RejectBy(w)); SendInv(t.row, t.workers, t.posts)
  {
    hide RowInv, TrailInv, QuotaInv;
  }

  lemma BindKeepsSendInv(s: System, post: nat)
    requires Inv(s)
    ensures var t := Next(s, BindPost(post)); SendInv(t.row, t.workers, t.posts)
  {
    hide RowInv, TrailInv, QuotaInv;
  }

  /** Only a refused workflow lets a worker record a refusal. */
  lemma HearKeepsSendInv(s: System, w: nat, reply: HttpReply)
    requires Inv(s)
    ensures var t := Next(s, Hear(w, reply)); SendInv(t.row, t.workers, t.posts)
  {
    hide RowInv, TrailInv, QuotaInv;
  }

  lemma OtherStepsKeepSendInv(s: System, step: Step)
    requires Inv(s)
    requires !step.BeginBy? && !step.RejectBy? && !step.BindPost? && !step.Hear?
    ensures var t := Next(s, step); SendInv(t.row, t.workers, t.posts)
  {
    CallLawful(s.row, StoreCall(s, step));
    hide Apply, Evolves, RowInv, TrailInv, QuotaInv, Edge;
  }

  /** Apart from workers and posts, a step is its store call, or nothing. */
  lemma StepStores(s: System, step: Step)
    ensures var t := Next(s, step); var u := Store(s, StoreCall(s, step));
            t == s.(workers := t.workers, posts := t.posts) || t == u.(workers := t.workers, posts := t.posts)
  {
    hide Store, Apply, Free;
  }

  lemma StepKeepsSendInv(s: System, step: Step)
    requires Inv(s)
    ensures var t := Next(s, step); SendInv(t.row, t.workers, t.posts)
  {
    match step {
      case BeginBy(w, now, heard) => BeginKeepsSendInv(s, w, now, heard);
      case RejectBy(w) => RejectKeepsSendInv(s, w);
      case BindPost(post) => BindKeepsSendInv(s, post);
      case Hear(w, reply) => HearKeepsSendInv(s, w, reply);
      case _ => OtherStepsKeepSendInv(s, step);
    }
    hide Next, SendInv;
  }

  lemma StepKeepsInv(s: System, step: Step)
    requires Inv(s)
    ensures Inv(Next(s, step))
  {
    StepKeepsSendInv(s, step);
    StepStores(s, step);
    var op := StoreCall(s, step);
    CallLawful(s.row, op);
    StoreKeepsTrail(s, op);
    StoreKeepsQuota(s, op);
    hide Next, Apply, SendInv, TrailInv, RowInv, Edge, Rank;
  }

  lemma {:induction false} RunKeepsInv(s: System, steps: seq<Step>)
    requires Inv(s)
    ensures Inv(Run(s, steps))
    decreases |steps|
  {
    if steps != [] {
      StepKeepsInv(s, steps[0]);
      RunKeepsInv(Next(s, steps[0]), steps[1..]);
    }
    hide Inv, Next;
  }

  /** The row only ever evolves: no run takes back a binding, a fence, a mark or an end state. */
  lemma {:induction false} RunEvolves(s: System, steps: seq<Step>)
    ensures Evolves(s.row, Run(s, steps).row)
    decreases |steps|
  {
    if steps == [] {
      StillLawful(Prepare, s.row);
    } else {
      var t := Next(s, steps[0]);
      StepEvolves(s, steps[0]);
      RunEvolves(t, steps[1..]);
      assert Run(s, steps) == Run(t, steps[1..]);
      EvolvesTransitive(s.row, t.row, Run(t, steps[1..]).row);
    }
    hide Evolves, Next;
  }

  lemma StepEvolves(s: System, step: Step)
    ensures Evolves(s.row, Next(s, step).row)
  {
    CallLawful(s.row, StoreCall(s, step));
    StillLawful(Prepare, s.row);
    hide Apply, Evolves, Inv;
  }

  /** The workflow of a job is sent to ComfyUI at most once, whatever crashes, lease expiries,
      stale workers and other callers a run contains. */
  lemma AtMostOnePost(s: System, steps: seq<Step>)
    requires Init(s)
    ensures |Run(s, steps).posts| <= 1
  {
    InitInv(s);
    RunKeepsInv(s, steps);
  }

  /** A send happens only for a marked job that nobody has fenced, released, bound, refused,
      ended or confirmed as cancelled, and from the mark on no claim can take the row again. */
  lemma SendNeedsLiveMark(s: System, before: seq<Step>, step: Step, after: seq<Step>, now: int)
    requires Init(s)
    ensures var t := Run(s, before);
            |Next(t, step).posts| > |t.posts| ==>
              && t.row.started && t.posts == [] && t.row.prompt.None? && !t.row.rejected
              && !t.row.closed && !t.row.released && !t.row.cancelConfirmed && !Terminal(t.row.state)
              && !Claimable(Run(Next(t, step), after).row, now)
  {
    InitInv(s);
    RunKeepsInv(s, before);
    var t := Run(s, before);
    StepKeepsInv(t, step);
    StepEvolves(t, step);
    RunEvolves(Next(t, step), after);
    hide Apply, Run, Rank, TrailInv, QuotaInv;
  }

  lemma StaleStep(s: System, step: Step, token: nat)
    requires token != NO_ID && s.row.token != token && (step.ClaimBy? ==> step.token != token)
    ensures var t := Next(s, step);
            && t.row.token != token
            && forall w | w in t.workers && t.workers[w] == Begun(token) ::
                 w in s.workers && s.workers[w] == Begun(token)
  {
    StepStores(s, step);
    var op := StoreCall(s, step);
    TokenChanges(s.row, op, Apply(s.row, op));
    hide Apply, Free;
  }

  /** Once a row carries another token, or none, no run lets a worker with the old one mark the send. */
  lemma {:induction false} StaleTokenNeverMarks(s: System, steps: seq<Step>, token: nat)
    requires token != NO_ID && s.row.token != token
    requires forall step <- steps :: step.ClaimBy? ==> step.token != token
    ensures var t := Run(s, steps);
            && t.row.token != token
            && forall w | w in t.workers && t.workers[w] == Begun(token) ::
                 w in s.workers && s.workers[w] == Begun(token)
    decreases |steps|
  {
    if steps != [] {
      assert steps[0] in steps;
      StaleStep(s, steps[0], token);
      StaleTokenNeverMarks(Next(s, steps[0]), steps[1..], token);
    }
    hide Next;
  }

  lemma LeaseStep(s: System, step: Step, deadline: int)
    requires LeaseStands(s.row, deadline)
    requires step.ClaimBy? ==> step.now <= deadline
    requires step.Call? ==> !step.op.Postpone?
    ensures var t := Next(s, step);
            && LeaseStands(t.row, deadline) && (t.row.token == s.row.token || t.row.token == NO_ID)
            && forall w | w in t.workers && t.workers[w].Holding? :: w in s.workers
  {
    StepStores(s, step);
    var op := StoreCall(s, step);
    LeaseCall(s.row, op, Apply(s.row, op), deadline);
    hide Apply, LeaseStands;
  }

  lemma {:induction false} LeaseKeepsOthersOut(s: System, steps: seq<Step>, deadline: int)
    requires LeaseStands(s.row, deadline)
    requires forall step <- steps :: (step.ClaimBy? ==> step.now <= deadline) && (step.Call? ==> !step.op.Postpone?)
    ensures var t := Run(s, steps);
            && (t.row.token == s.row.token || t.row.token == NO_ID)
            && forall w | w in t.workers && t.workers[w].Holding? :: w in s.workers
    decreases |steps|
  {
    if steps != [] {
      assert steps[0] in steps;
      LeaseStep(s, steps[0], deadline);
      LeaseKeepsOthersOut(Next(s, steps[0]), steps[1..], deadline);
    }
    hide Next, LeaseStands;
  }

  /** For two minutes after a claim no run lets anyone else claim the row, unless the claim is postponed. */
  lemma ClaimIsExclusive(s: System, w: nat, token: nat, now: int, steps: seq<Step>)
    requires Apply(s.row, Claim(token, now)).ok
    requires forall step <- steps :: (step.ClaimBy? ==> step.now <= now + 120) && (step.Call? ==> !step.op.Postpone?)
    ensures var t := Run(Next(s, ClaimBy(w, token, now)), steps);
            && (t.row.token == token || t.row.token == NO_ID)
            && forall v | v in t.workers && t.workers[v].Holding? :: v == w || v in s.workers
  {
    LeaseKeepsOthersOut(Next(s, ClaimBy(w, token, now)), steps, now + 120);
    hide Run;
  }

  lemma ClosedStep(s: System, step: Step)
    requires Inv(s) && s.row.closed
    ensures |Next(s, step).posts| == |s.posts|
  {
    hide Apply, Rank, TrailInv, QuotaInv;
  }

  lemma {:induction false} ClosedRun(s: System, steps: seq<Step>)
    requires Inv(s) && s.row.closed
    ensures |Run(s, steps).posts| == |s.posts|
    decreases |steps|
  {
    if steps != [] {
      ClosedStep(s, steps[0]);
      StepKeepsInv(s, steps[0]);
      StepEvolves(s, steps[0]);
      ClosedRun(Next(s, steps[0]), steps[1..]);
    }
    hide Inv, Next, RowInv;
  }

  /** Once resource release has fenced the job off, no continuation of the run sends it. */
  lemma FenceExcludesSend(s: System, before: seq<Step>, after: seq<Step>)
    requires Init(s)
    ensures var t := Run(s, before);
            t.row.closed ==> |Run(t, after).posts| == |t.posts|
  {
    InitInv(s);
    RunKeepsInv(s, before);
    if Run(s, before).row.closed {
      ClosedRun(Run(s, before), after);
    }
    hide Inv, Run;
  }

  /** While a send is marked but neither bound nor refused, the job keeps its resources and
      cannot end, whichever of the failure, expiry and cancellation paths run. */
  lemma UnknownOutcomeKeepsJobOpen(s: System, steps: seq<Step>)
    requires Init(s)
    ensures var r := Run(s, steps).row;
            !OutcomeKnown(r) ==> !r.closed && !r.released && !r.cancelConfirmed && !Terminal(r.state)
  {
    InitInv(s);
    RunKeepsInv(s, steps);
    hide Run, SendInv, TrailInv, QuotaInv;
  }

  lemma EndedUnboundStep(s: System, step: Step)
    requires Inv(s) && Terminal(s.row.state) && s.row.prompt.None?
    ensures s.posts == [] || s.posts == [Refused]
    ensures var t := Next(s, step); t.posts == s.posts && t.row.prompt.None?
  {
    CallLawful(s.row, StoreCall(s, step));
    hide Apply, Rank, TrailInv, QuotaInv, Edge;
  }

  /** A job that ended without a prompt id is not in ComfyUI and never will be: nothing was
      sent, or ComfyUI refused it, and nothing is sent, accepted or bound afterwards. */
  lemma {:induction false} EndedUnboundNeverRuns(s: System, steps: seq<Step>)
    requires Inv(s) && Terminal(s.row.state) && s.row.prompt.None?
    ensures var t := Run(s, steps);
            && (t.posts == [] || t.posts == [Refused])
            && t.row.prompt.None? && t.row.state == s.row.state
    decreases |steps|
  {
    if steps == [] {
      EndedUnboundStep(s, Crash(0));
    } else {
      EndedUnboundStep(s, steps[0]);
      StepKeepsInv(s, steps[0]);
      StepEvolves(s, steps[0]);
      EndedUnboundNeverRuns(Next(s, steps[0]), steps[1..]);
    }
    hide Inv, Next, RowInv, Rank;
  }

  /** The same, stated for whole runs from the beginning. */
  lemma NoOutcomeIsGuessed(s: System, before: seq<Step>, after: seq<Step>)
    requires Init(s)
    ensures var t := Run(s, before); var u := Run(t, after);
            Terminal(t.row.state) && t.row.prompt.None? ==>
              (!t.row.started || t.row.rejected) && (forall post <- u.posts :: post.Refused?)
  {
    InitInv(s);
    RunKeepsInv(s, before);
    var t := Run(s, before);
    if Terminal(t.row.state) && t.row.prompt.None? {
      EndedUnboundNeverRuns(t, after);
    }
    hide Run, Rank, TrailInv, QuotaInv, SendInv;
  }

  /** An ended job is marked released, stays in its end state through every continuation, and
      got there by a path of at most eight changes that enters Completed only from Archiving. */
  lemma EndIsFinal(s: System, before: seq<Step>, after: seq<Step>)
    requires Init(s)
    ensures var t := Run(s, before); var u := Run(t, after);
            && |t.path| <= 9 && Path(t.path) && t.path[|t.path| - 1] == t.row.state
            && (Terminal(t.row.state) ==>
                  t.row.released && t.row.closed && u.row.state == t.row.state && u.row.released)
            && (t.row.state == Completed && s.row.state != Completed ==>
                  |t.path| >= 2 && t.path[|t.path| - 2] == Archiving)
  {
    InitInv(s);
    RunKeepsInv(s, before);
    var t := Run(s, before);
    RunEvolves(t, after);
    PathShape(t.path);
    RunKeepsPathStart(s, before);
    hide Run, Next, Rank, QuotaInv, SendInv, Edge;
  }

  lemma {:induction false} RunKeepsPathStart(s: System, steps: seq<Step>)
    requires |s.path| > 0
    ensures |Run(s, steps).path| > 0 && Run(s, steps).path[0] == s.path[0]
    decreases |steps|
  {
    if steps != [] {
      StepKeepsPathStart(s, steps[0]);
      RunKeepsPathStart(Next(s, steps[0]), steps[1..]);
    }
    hide Next;
  }

  lemma StepKeepsPathStart(s: System, step: Step)
    requires |s.path| > 0
    ensures |Next(s, step).path| > 0 && Next(s, step).path[0] == s.path[0]
  {
    hide Apply;
  }

  /** The owner is charged for a job exactly while its reservation stands. A job that ended without
      reaching ComfyUI still costs its owner if and only if a reservation was granted after the release
      had fenced the job, and no repeated release has refunded it since. */
  lemma QuotaIsReturned(s: System, steps: seq<Step>)
    requires Init(s)
    ensures var t := Run(s, steps);
            t.row.owned ==>
              && t.charged == (if t.row.quotaReserved then 1 else 0)
              && (Terminal(t.row.state) ==> (t.charged != 0 <==> t.row.quotaCommitted || t.lateReserve))
              && (Terminal(t.row.state) && t.row.prompt.None? ==> (t.charged != 0 <==> t.lateReserve))
  {
    InitInv(s);
    RunKeepsInv(s, steps);
    hide Run, Rank, TrailInv, SendInv;
  }
}
