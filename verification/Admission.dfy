/**
  Admission of workflows into the ComfyUI queue. A submitter takes the lock, reads the queue,
  decides, posts, and gives the lock back when the request has returned. ComfyUI finishes entries
  at any time. A request that timed out may still be on its way and arrive after the lock is free.
*/
module Admission {
  import opened Options

  const MAX_ENTRIES := 12
  const MAX_PER_CLIENT := 2

  /** Who has the lock: before reading the queue, with what was read (all entries, and the client's
      own), or admitted. `before` serves the proof only: the late requests that had arrived when reading. */
  datatype Holder =
    | Locked(submitter: nat, client: nat)
    | HasRead(submitter: nat, client: nat, entries: nat, own: nat, before: multiset<nat>)
    | Admitted(submitter: nat, client: nat)

  /** Queue entries are told apart only by their client. `late` are requests still on their way,
      `arrived` the clients of late requests that were accepted. */
  datatype Gate = Gate(queue: multiset<nat>, lock: Option<Holder>, late: multiset<nat>, arrived: multiset<nat>)

  datatype Step =
    | Lock(submitter: nat, client: nat)
    | Read(submitter: nat)
    | Decide(submitter: nat)
    | Post(submitter: nat)        // accepted before the request returned
    | PostFails(submitter: nat)   // refused or lost: the entry will never be there
    | TimeOut(submitter: nat)     // the request returns an error but is still on its way
    | Arrive(client: nat)
    | Done(client: nat)

  predicate Holds(g: Gate, submitter: nat) {
    g.lock.Some? && g.lock.value.submitter == submitter
  }

  function Next(g: Gate, step: Step): Gate {
    match step
    case Lock(p, client) => if g.lock.None? then g.(lock := Some(Locked(p, client))) else g
    case Read(p) =>
      if Holds(g, p) && g.lock.value.Locked? then
        var client := g.lock.value.client;
        g.(lock := Some(HasRead(p, client, |g.queue|, g.queue[client], g.arrived)))
      else g
    case Decide(p) =>
      if Holds(g, p) && g.lock.value.HasRead? then
        if g.lock.value.entries < MAX_ENTRIES && g.lock.value.own < MAX_PER_CLIENT
        then g.(lock := Some(Admitted(p, g.lock.value.client)))
        else g.(lock := None)
      else g
    case Post(p) =>
      if Holds(g, p) && g.lock.value.Admitted?
      then g.(queue := g.queue + multiset{g.lock.value.client}, lock := None)
      else g
    case PostFails(p) =>
      if Holds(g, p) then g.(lock := None) else g
    case TimeOut(p) =>
      if Holds(g, p) && g.lock.value.Admitted?
      then g.(late := g.late + multiset{g.lock.value.client}, lock := None)
      else g
    case Arrive(client) =>
      if client in g.late then
        g.(late := g.late - multiset{client}, queue := g.queue + multiset{client},
           arrived := g.arrived + multiset{client})
      else g
    case Done(client) => g.(queue := g.queue - multiset{client})
  }

  function Run(g: Gate, steps: seq<Step>): Gate
    decreases |steps|
  {
    if steps == [] then g else Run(Next(g, steps[0]), steps[1..])
  }

  const EMPTY := Gate(multiset{}, None, multiset{}, multiset{})

  /** Entries, and the one place an admitted submitter has been promised. */
  function Promised(g: Gate): multiset<nat> {
    if g.lock.Some? && g.lock.value.Admitted? then g.queue + multiset{g.lock.value.client} else g.queue
  }

  /** Between the reading and the decision the queue grows only by late requests. */
  ghost predicate ReadingHolds(g: Gate) {
    g.lock.Some? && g.lock.value.HasRead? ==>
      var h := g.lock.value;
      && h.before <= g.arrived
      && |g.queue| + |h.before| <= h.entries + |g.arrived|
      && g.queue[h.client] + h.before[h.client] <= h.own + g.arrived[h.client]
  }

  ghost predicate Within(g: Gate) {
    && |Promised(g)| <= MAX_ENTRIES + |g.arrived|
    && (forall client: nat :: Promised(g)[client] <= MAX_PER_CLIENT + g.arrived[client])
  }

  ghost predicate Inv(g: Gate) {
    Within(g) && ReadingHolds(g)
  }

  lemma SizeOfPart(a: multiset<nat>, b: multiset<nat>)
    requires a <= b
    ensures |a| <= |b|
  {
    assert b == a + (b - a);
  }

  lemma Fewer(g: Gate, h: Gate)
    requires Within(g) && Promised(h) <= Promised(g) && h.arrived == g.arrived
    ensures Within(h)
  {
    SizeOfPart(Promised(h), Promised(g));
    hide Promised;
  }

  lemma DecideKeepsInv(g: Gate, p: nat)
    requires Inv(g)
    ensures Inv(Next(g, Decide(p)))
  {
    if Holds(g, p) && g.lock.value.HasRead? {
      SizeOfPart(g.lock.value.before, g.arrived);
    }
  }

  lemma ArriveKeepsInv(g: Gate, client: nat)
    requires Inv(g)
    ensures Inv(Next(g, Arrive(client)))
  {
    if client in g.late {
      var h := Next(g, Arrive(client));
      assert Promised(h) == Promised(g) + multiset{client};
      assert Within(h) by { hide Promised, ReadingHolds; }
      assert ReadingHolds(h) by { hide Promised, Within; }
    }
    hide Within, ReadingHolds;
  }

  lemma DoneKeepsInv(g: Gate, client: nat)
    requires Inv(g)
    ensures Inv(Next(g, Done(client)))
  {
    var h := Next(g, Done(client));
    SizeOfPart(h.queue, g.queue);
    assert Promised(h) <= Promised(g);
    Fewer(g, h);
    hide Within;
  }

  lemma StepKeepsInv(g: Gate, step: Step)
    requires Inv(g)
    ensures Inv(Next(g, step))
  {
    if step.Decide? {
      DecideKeepsInv(g, step.submitter);
    } else if step.Arrive? {
      ArriveKeepsInv(g, step.client);
    } else if step.Done? {
      DoneKeepsInv(g, step.client);
    } else {
      Fewer(g, Next(g, step));
    }
    hide Within;
  }

  /** At every moment of every run the queue is within its limits, but for the requests that arrived
      after their submitter had given up. */
  lemma {:induction false} QueueBounds(g: Gate, steps: seq<Step>)
    requires Inv(g)
    ensures var h := Run(g, steps);
            && Inv(h) && |h.queue| <= MAX_ENTRIES + |h.arrived|
            && forall client: nat :: h.queue[client] <= MAX_PER_CLIENT + h.arrived[client]
    decreases |steps|
  {
    if steps != [] {
      StepKeepsInv(g, steps[0]);
      QueueBounds(Next(g, steps[0]), steps[1..]);
    }
    hide Next;
  }

  lemma {:induction false} NothingLate(g: Gate, steps: seq<Step>)
    requires g.late == multiset{} && g.arrived == multiset{} && forall step <- steps :: !step.TimeOut?
    ensures Run(g, steps).late == multiset{} && Run(g, steps).arrived == multiset{}
    decreases |steps|
  {
    if steps != [] {
      assert steps[0] in steps;
      NothingLate(Next(g, steps[0]), steps[1..]);
    }
  }

  /** As long as every request takes effect before it returns, the queue never holds more than twelve
      entries, nor more than two of one client, however submitters and ComfyUI interleave. */
  lemma AdmissionHolds(steps: seq<Step>)
    requires forall step <- steps :: !step.TimeOut?
    ensures |Run(EMPTY, steps).queue| <= 12
    ensures forall client: nat :: Run(EMPTY, steps).queue[client] <= 2
  {
    QueueBounds(EMPTY, steps);
    NothingLate(EMPTY, steps);
  }

  // ---- Exactly when a limit can be exceeded ----

  ghost predicate Overfull(g: Gate) {
    |g.queue| > MAX_ENTRIES || exists client: nat :: g.queue[client] > MAX_PER_CLIENT
  }

  ghost predicate NoTimeOut(steps: seq<Step>) {
    forall step <- steps :: !step.TimeOut?
  }

  lemma {:induction false} RunAppend(g: Gate, a: seq<Step>, b: seq<Step>)
    ensures Run(g, a + b) == Run(Run(g, a), b)
    decreases |a|
  {
    hide Next;
    if a == [] {
      assert a + b == b;
    } else {
      assert (a + b)[1..] == a[1..] + b;
      RunAppend(Next(g, a[0]), a[1..], b);
    }
  }

  /** ComfyUI works its queue off. */
  lemma {:induction false} Drain(g: Gate) returns (steps: seq<Step>)
    ensures NoTimeOut(steps) && Run(g, steps) == g.(queue := multiset{})
    decreases |g.queue|
  {
    if g.queue == multiset{} {
      steps := [];
      assert g == g.(queue := multiset{});
    } else {
      var client :| client in g.queue;
      var more := Drain(g.(queue := g.queue - multiset{client}));
      steps := [Done(client)] + more;
      assert steps[1..] == more;
    }
  }

  /** One ordinary submission, with room for it. */
  lemma PostOne(g: Gate, client: nat) returns (steps: seq<Step>)
    requires g.lock.None? && |g.queue| < MAX_ENTRIES && g.queue[client] < MAX_PER_CLIENT
    ensures steps == [Lock(0, client), Read(0), Decide(0), Post(0)]
    ensures NoTimeOut(steps) && Run(g, steps) == g.(queue := g.queue + multiset{client})
  {
    steps := [Lock(0, client), Read(0), Decide(0), Post(0)];
    assert steps[1..][1..][1..][1..] == [];
    var a := Next(g, steps[0]);
    var b := Next(a, steps[1]);
    var c := Next(b, steps[2]);
    assert c.lock == Some(Admitted(0, client));
    var d := Next(c, steps[3]);
    assert d == g.(queue := g.queue + multiset{client});
    hide Next;
    assert Run(g, steps) == Run(a, steps[1..]) == Run(b, steps[1..][1..]) == Run(c, steps[1..][1..][1..]) == Run(d, []);
  }

  /** Two ordinary submissions to an empty queue, and then the late request. */
  lemma TwoThenArrive(g: Gate, client: nat) returns (steps: seq<Step>)
    requires g.lock.None? && g.queue == multiset{} && client in g.late
    ensures NoTimeOut(steps) && |steps| == 9 && Run(g, steps).queue[client] == 3
  {
    hide Run, Next;
    var one := PostOne(g, client);
    var h := g.(queue := multiset{client});
    assert multiset{} + multiset{client} == multiset{client};
    var two := PostOne(h, client);
    var k := g.(queue := multiset{client, client});
    assert multiset{client} + multiset{client} == multiset{client, client};
    var three := ArriveOne(k, client);
    RunAppend(g, one, two + three);
    RunAppend(h, two, three);
    steps := one + (two + three);
  }

  lemma ArriveOne(g: Gate, client: nat) returns (steps: seq<Step>)
    requires client in g.late
    ensures NoTimeOut(steps) && |steps| == 1 && Run(g, steps).queue == g.queue + multiset{client}
  {
    steps := [Arrive(client)];
    assert steps[1..] == [];
  }

  /** From a gate that a run reached, with the lock free and nothing arrived late so far, some
      continuation without further time-outs exceeds a limit if and only if a request is still on its
      way. One late request is enough. */
  lemma OverfillsExactly(before: seq<Step>)
    requires Run(EMPTY, before).lock.None? && Run(EMPTY, before).arrived == multiset{}
    ensures var g := Run(EMPTY, before);
            (exists more :: NoTimeOut(more) && Overfull(Run(g, more))) <==> g.late != multiset{}
  {
    hide Run, Next;
    var g := Run(EMPTY, before);
    if g.late == multiset{} {
      forall more | NoTimeOut(more)
        ensures !Overfull(Run(g, more))
      {
        EmptyHolds();
        QueueBounds(EMPTY, before);
        QueueBounds(g, more);
        NothingLate(g, more);
      }
    } else {
      var client :| client in g.late;
      var drained := Drain(g);
      var rest := TwoThenArrive(g.(queue := multiset{}), client);
      RunAppend(g, drained, rest);
      assert NoTimeOut(drained + rest) && Overfull(Run(g, drained + rest));
    }
  }

  lemma EmptyHolds()
    ensures Inv(EMPTY)
  {
  }

  /** The shortest way there: one request times out, the client submits twice more, and then the first
      request arrives. */
  lemma OneLateRequestOverfills(client: nat) returns (steps: seq<Step>)
    ensures |steps| == 13 && steps[..4] == [Lock(0, client), Read(0), Decide(0), TimeOut(0)] && NoTimeOut(steps[4..])
    ensures Run(EMPTY, steps).queue[client] == 3
  {
    var first := [Lock(0, client), Read(0), Decide(0), TimeOut(0)];
    var a := Next(EMPTY, first[0]);
    var b := Next(a, first[1]);
    var c := Next(b, first[2]);
    var late := EMPTY.(late := multiset{client});
    assert Next(c, first[3]) == late;
    assert first[1..][1..][1..][1..] == [];
    assert Run(EMPTY, first) == late by {
      hide Next;
      assert Run(EMPTY, first) == Run(a, first[1..]) == Run(b, first[1..][1..]) == Run(c, first[1..][1..][1..]);
    }
    hide Run, Next;
    var rest := TwoThenArrive(late, client);
    RunAppend(EMPTY, first, rest);
    steps := first + rest;
  }
}
