/**
  Several passes over one completed job at once, inside one gateway process or across restarts.
  Each claims the reported outputs that nobody has claimed, archives them one by one, gives its
  claims back if one failed, and otherwise completes the job. An output that archiving skips without
  an error counts as done, like one that it stores.
*/
module ArchivePasses {
  import opened ArchiveResults
  import opened Options
  import OutputClaims

  /** `added` are the pass's own claims, `todo` those it has not tried yet. `relied` are the
      reported outputs that another live pass held, not done, when this pass made its claims. */
  datatype Pass = Pass(reported: set<nat>, added: set<nat>, todo: set<nat>, failed: bool, relied: set<nat>)

  /** `reported` is what the pass that completed the job had been told of, `missing` what of it was
      not done then. */
  datatype Archive = Archive(
    claimed: Option<set<nat>>,
    stored: set<nat>,
    skipped: map<nat, SkipReason>,
    passes: map<nat, Pass>,
    completed: bool,
    reported: set<nat>,
    missing: set<nat>)

  datatype Step =
    | Begin(pass: nat, reported: set<nat>)
    | Store(pass: nat, output: nat, result: ArchiveResult)
    | Finish(pass: nat)
    | RememberAfresh      // the prompt is remembered again, with nothing claimed
    | ForgetPrompt
    | Restart             // the process ends: its passes and its memory are gone

  function Tried(p: Pass, output: nat, result: ArchiveResult): Pass {
    p.(todo := p.todo - {output}, failed := p.failed || result.ArchiveFailed?)
  }

  function Held(a: Archive): set<nat> {
    set p, o | p in a.passes && o in a.passes[p].added :: o
  }

  function Claims(a: Archive): set<nat> {
    if a.claimed.Some? then a.claimed.value else {}
  }

  function Done(a: Archive): set<nat> {
    a.stored + a.skipped.Keys
  }

  function Next(a: Archive, step: Step): Archive {
    match step
    case Begin(p, reported) =>
      if p in a.passes then a
      else
        var added := reported - Claims(a);
        a.(claimed := if a.claimed.Some? then Some(a.claimed.value + reported) else None,
           passes := a.passes[p := Pass(reported, added, added, false, (reported * Held(a)) - Done(a))])
    case Store(p, o, result) =>
      if p !in a.passes || o !in a.passes[p].todo then a
      else
        a.(passes := a.passes[p := Tried(a.passes[p], o, result)],
           stored := if result.Stored? then a.stored + {o} else a.stored,
           skipped := if result.Skipped? then a.skipped[o := result.reason] else a.skipped)
    case Finish(p) =>
      if p !in a.passes || a.passes[p].todo != {} then a
      else if a.passes[p].failed then
        a.(claimed := if a.claimed.Some? then Some(a.claimed.value - a.passes[p].added) else None,
           passes := a.passes - {p})
      else
        a.(passes := a.passes - {p}, completed := true,
           reported := if a.completed then a.reported else a.passes[p].reported,
           missing := if a.completed then a.missing else a.passes[p].reported - Done(a))
    case RememberAfresh => a.(claimed := Some({}))
    case ForgetPrompt => a.(claimed := None)
    case Restart => a.(claimed := None, passes := map[])
  }

  function Run(a: Archive, steps: seq<Step>): Archive
    decreases |steps|
  {
    if steps == [] then a else Run(Next(a, steps[0]), steps[1..])
  }

  const FRESH := Archive(None, {}, map[], map[], false, {}, {})

  /** A pass begins as the gateway begins it: it archives what `ToArchive` names, and claims everything it
      was told of, unless the prompt is not remembered. If an output failed, it gives its claims back. */
  lemma PassesClaimAsGateway(a: Archive, p: nat, outputs: seq<nat>)
    requires p !in a.passes
    ensures var all := OutputClaims.Members(outputs); var b := Next(a, Begin(p, all));
            && p in b.passes && b.passes[p].added == OutputClaims.Members(OutputClaims.ToArchive(a.claimed, outputs))
            && b.claimed == (if a.claimed.None? then None else Some(a.claimed.value + all))
    ensures forall q | q in a.passes && a.passes[q].todo == {} && a.passes[q].failed ::
              Next(a, Finish(q)).claimed ==
                (if a.claimed.None? then None else Some(a.claimed.value - a.passes[q].added))
  {
    if a.claimed.Some? {
      OutputClaims.UnclaimedMembers(a.claimed.value, outputs);
    }
  }

  ghost predicate PassInv(p: Pass, done: set<nat>) {
    && p.todo <= p.added <= p.reported && p.relied <= p.reported
    && p.reported <= p.added + p.relied + done
    && (!p.failed ==> p.added <= p.todo + done)
  }

  /** Whatever is claimed is done, or held by a live pass that will archive it or give it back. */
  ghost predicate Inv(a: Archive) {
    && Claims(a) <= Done(a) + Held(a)
    && (forall p | p in a.passes :: PassInv(a.passes[p], Done(a)))
    && (a.missing <= a.reported <= Done(a) + a.missing)
  }

  lemma HeldBy(a: Archive, p: nat)
    requires p in a.passes
    ensures a.passes[p].added <= Held(a)
    ensures Held(a) <= Held(a.(passes := a.passes - {p})) + a.passes[p].added
  {
    forall o | o in Held(a)
      ensures o in Held(a.(passes := a.passes - {p})) + a.passes[p].added
    {
      var q :| q in a.passes && o in a.passes[q].added;
      if q != p {
        assert q in a.passes - {p};
      }
    }
  }

  lemma HeldAfter(a: Archive, p: nat, q: Pass)
    requires p in a.passes ==> a.passes[p].added == q.added
    ensures Held(a.(passes := a.passes[p := q])) == Held(a) + q.added
  {
    var b := a.(passes := a.passes[p := q]);
    forall o | o in Held(a) + q.added
      ensures o in Held(b)
    {
      if o in q.added {
        assert p in b.passes && o in b.passes[p].added;
      } else {
        var r :| r in a.passes && o in a.passes[r].added;
        assert r in b.passes && o in b.passes[r].added;
      }
    }
    if p in a.passes { HeldBy(a, p); }
  }

  /** Outputs get done and stay done; a job once completed stays completed. */
  ghost predicate Forward(a: Archive, b: Archive) {
    && a.stored <= b.stored && a.skipped.Keys <= b.skipped.Keys && Done(a) <= Done(b)
    && (a.completed ==> b.completed && b.reported == a.reported && b.missing == a.missing)
  }

  lemma BeginKeepsInv(a: Archive, p: nat, reported: set<nat>)
    requires Inv(a)
    ensures Inv(Next(a, Begin(p, reported)))
  {
    if p !in a.passes {
      var added := reported - Claims(a);
      HeldAfter(a, p, Pass(reported, added, added, false, (reported * Held(a)) - Done(a)));
    }
  }

  lemma StoreKeepsInv(a: Archive, p: nat, o: nat, result: ArchiveResult)
    requires Inv(a)
    ensures Inv(Next(a, Store(p, o, result)))
  {
    if p in a.passes && o in a.passes[p].todo {
      var q := Tried(a.passes[p], o, result);
      HeldAfter(a, p, q);
      var b := Next(a, Store(p, o, result));
      assert Held(b) == Held(a.(passes := a.passes[p := q])) == Held(a) + q.added;
      assert Done(b) == if result.ArchiveFailed? then Done(a) else Done(a) + {o};
      assert Claims(b) == Claims(a);
      assert PassInv(q, Done(b));
      hide Done, Held, Claims;
    }
  }

  lemma FinishKeepsInv(a: Archive, p: nat)
    requires Inv(a)
    ensures Inv(Next(a, Finish(p)))
  {
    if p in a.passes {
      HeldBy(a, p);
      assert Held(a.(passes := a.passes - {p})) == Held(Next(a, Finish(p))) || a.passes[p].todo != {};
    }
  }

  lemma StepKeepsInv(a: Archive, step: Step)
    requires Inv(a)
    ensures Inv(Next(a, step)) && Forward(a, Next(a, step))
  {
    match step {
      case Begin(p, reported) => BeginKeepsInv(a, p, reported);
      case Store(p, o, result) => StoreKeepsInv(a, p, o, result);
      case Finish(p) => FinishKeepsInv(a, p);
      case _ =>
    }
    StepForward(a, step);
    hide Next, Forward;
  }

  lemma StepForward(a: Archive, step: Step)
    ensures Forward(a, Next(a, step))
  {
    hide Held;
  }

  lemma {:induction false} RunKeepsInv(a: Archive, steps: seq<Step>)
    requires Inv(a)
    ensures Inv(Run(a, steps)) && Forward(a, Run(a, steps))
    decreases |steps|
  {
    hide Inv, Next, Done;
    if steps != [] {
      StepKeepsInv(a, steps[0]);
      RunKeepsInv(Next(a, steps[0]), steps[1..]);
    }
  }

  /** What a completed job lacks is exactly what the completing pass relied on another live pass for
      and was not done by then; it lacks nothing if and only if all of that was done. */
  lemma CompletionLacksExactly(steps: seq<Step>, p: nat)
    ensures var a := Run(FRESH, steps); var b := Next(a, Finish(p));
            !a.completed && b.completed ==>
              && p in a.passes && b.reported == a.passes[p].reported
              && b.missing == a.passes[p].relied - Done(b)
              && (b.missing == {} <==> a.passes[p].relied <= Done(b))
  {
    hide Run;
    assert Inv(FRESH);
    RunKeepsInv(FRESH, steps);
  }

  /** No pass begins while another is alive. */
  ghost predicate Serial(a: Archive, steps: seq<Step>)
    decreases |steps|
  {
    steps != [] ==> (steps[0].Begin? ==> a.passes == map[]) && Serial(Next(a, steps[0]), steps[1..])
  }

  ghost predicate Unaided(a: Archive) {
    && (forall p | p in a.passes :: a.passes[p].relied == {})
    && a.missing == {}
  }

  lemma {:induction false} SerialRun(a: Archive, steps: seq<Step>)
    requires Inv(a) && Unaided(a) && Serial(a, steps)
    ensures Unaided(Run(a, steps))
    decreases |steps|
  {
    if steps != [] {
      StepKeepsInv(a, steps[0]);
      SerialStep(a, steps[0]);
      SerialRun(Next(a, steps[0]), steps[1..]);
    }
    hide Inv, Next, Unaided;
  }

  lemma SerialStep(a: Archive, step: Step)
    requires Inv(a) && Unaided(a) && (step.Begin? ==> a.passes == map[])
    ensures Unaided(Next(a, step))
  {
  }

  /** When passes do not overlap, every reported output of a completed job is stored, or was skipped
      for one of the listed reasons, through failures, retries and restarts. */
  lemma SerialCompletionIsDone(steps: seq<Step>)
    requires Serial(FRESH, steps)
    ensures var a := Run(FRESH, steps);
            a.completed ==> a.missing == {} && forall o <- a.reported :: o in a.stored || o in a.skipped
  {
    hide Run, Serial, Next;
    assert Inv(FRESH);
    RunKeepsInv(FRESH, steps);
    SerialRun(FRESH, steps);
  }

  /** Skipping is real: one pass, alone, completes a job of which nothing is stored. */
  lemma OnePassMayStoreNothing(o: nat, reason: SkipReason) returns (steps: seq<Step>)
    ensures Serial(FRESH, steps)
    ensures var a := Run(FRESH, steps);
            a.completed && a.reported == {o} && a.stored == {} && a.skipped == map[o := reason]
  {
    var s0 := Next(FRESH, Begin(1, {o}));
    var s1 := Next(s0, Store(1, o, Skipped(reason)));
    var s2 := Next(s1, Finish(1));
    assert s1.passes[1].todo == {};
    steps := [Begin(1, {o}), Store(1, o, Skipped(reason)), Finish(1)];
    assert steps[1..][1..][1..] == [];
    hide Next;
    assert Serial(s2, steps[1..][1..][1..]) && Serial(s1, steps[1..][1..]) && Serial(s0, steps[1..]);
    assert Run(FRESH, steps) == Run(s0, steps[1..]) == Run(s1, steps[1..][1..]) == Run(s2, []);
  }

  /** Overlapping passes lose more: the second pass sees the output the first has only claimed,
      completes the job, and then the first fails. The output is neither stored nor skipped. */
  lemma OverlapLosesOutput(o: nat) returns (steps: seq<Step>)
    ensures var a := Run(FRESH, steps);
            a.completed && a.reported == a.missing == {o} && Done(a) == {} && a.passes == map[] && Claims(a) == {}
  {
    var s0 := Next(FRESH, RememberAfresh);
    var s1 := Next(s0, Begin(1, {o}));
    var s2 := Next(s1, Begin(2, {o}));
    var s3 := Next(s2, Finish(2));
    var s4 := Next(s3, Store(1, o, ArchiveFailed));
    var s5 := Next(s4, Finish(1));
    assert s2.passes[2].todo == {};
    assert s3.completed && s3.missing == {o};
    assert s4.passes[1].todo == {} && s4.passes.Keys == {1};
    assert s5.passes.Keys == {};
    steps := [RememberAfresh, Begin(1, {o}), Begin(2, {o}), Finish(2), Store(1, o, ArchiveFailed), Finish(1)];
    assert steps[1..][1..][1..][1..][1..][1..] == [];
    hide Next;
    assert Run(FRESH, steps) == Run(s0, steps[1..]) == Run(s1, steps[2..]) == Run(s2, steps[3..]);
    assert Run(s2, steps[3..]) == Run(s3, steps[4..]) == Run(s4, steps[5..]) == Run(s5, []);
  }
}
