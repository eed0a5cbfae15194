/**
  ComfyUI as the gateway reads it: two lists and a history, fetched by separate requests while
  entries keep moving from pending to running to history.
*/
module ComfyReads {
  import opened Options

  // The prompt ids and job ids found in queue and history entries. Zero stands for a missing one.
  datatype Entry = Entry(prompt: nat, job: nat)

  datatype Verdict = StillListed | Succeeded | Errored

  datatype Past = Past(entry: Entry, verdict: Verdict)

  datatype Comfy = Comfy(running: seq<Entry>, pending: seq<Entry>, history: seq<Past>)

  datatype Move =
    | Enqueue(entry: Entry)
    | Start(index: nat)
    | Finish(index: nat, verdict: Verdict)

  function Drop<T>(s: seq<T>, i: nat): seq<T>
    requires i < |s|
  {
    s[..i] + s[i + 1..]
  }

  function Moved(c: Comfy, m: Move): Comfy {
    match m
    case Enqueue(e) => c.(pending := c.pending + [e])
    case Start(i) =>
      if i < |c.pending| then c.(running := c.running + [c.pending[i]], pending := Drop(c.pending, i)) else c
    case Finish(i, v) =>
      if i < |c.running| then c.(running := Drop(c.running, i), history := c.history + [Past(c.running[i], v)]) else c
  }

  function Moves(c: Comfy, ms: seq<Move>): Comfy
    decreases |ms|
  {
    if ms == [] then c else Moves(Moved(c, ms[0]), ms[1..])
  }

  ghost predicate InQueue(c: Comfy, e: Entry) {
    e in c.running || e in c.pending
  }

  ghost predicate InHistory(c: Comfy, e: Entry) {
    exists p <- c.history :: p.entry == e
  }

  ghost predicate Holds(c: Comfy, e: Entry) {
    InQueue(c, e) || InHistory(c, e)
  }

  lemma DropKeepsOthers<T>(s: seq<T>, i: nat, x: T)
    requires i < |s| && x in s && x != s[i]
    ensures x in Drop(s, i)
  {
    var k :| 0 <= k < |s| && s[k] == x;
    if k < i {
      assert s[..i][k] == x;
    } else {
      assert s[i + 1..][k - i - 1] == x;
    }
  }

  lemma StepForward(c: Comfy, m: Move, e: Entry)
    requires Holds(c, e)
    ensures Holds(Moved(c, m), e)
    ensures InHistory(c, e) ==> InHistory(Moved(c, m), e)
  {
    var d := Moved(c, m);
    if InHistory(c, e) {
      var p :| p in c.history && p.entry == e;
      assert p in d.history;
    } else {
      match m
      case Enqueue(_) =>
      case Start(i) =>
        if i < |c.pending| && e in c.pending && e != c.pending[i] { DropKeepsOthers(c.pending, i, e); }
      case Finish(i, v) =>
        if i < |c.running| && e in c.running {
          if e != c.running[i] { DropKeepsOthers(c.running, i, e); } else { assert Past(e, v) in d.history; }
        }
    }
  }

  /** Entries move forward and are not lost. */
  lemma {:induction false} MovesForward(c: Comfy, ms: seq<Move>, e: Entry)
    requires Holds(c, e)
    ensures Holds(Moves(c, ms), e)
    ensures InHistory(c, e) ==> InHistory(Moves(c, ms), e)
    decreases |ms|
  {
    if ms != [] {
      StepForward(c, ms[0], e);
      MovesForward(Moved(c, ms[0]), ms[1..], e);
    }
    hide Moved, Holds, InHistory;
  }

  // ---- Finding the prompt of a job: the queue first, then the history ----

  datatype Scan = ScanFailed | Missing | Found(prompt: nat)

  predicate ValidPrompt(prompt: nat) {
    prompt != 0
  }

  /** No entry of the job at all, and none with a valid prompt id. */
  predicate Unlisted(job: nat, entries: seq<Entry>) {
    forall e <- entries :: e.job != job
  }

  predicate Unrecorded(job: nat, history: seq<Past>) {
    forall p <- history :: p.entry.job != job || !ValidPrompt(p.entry.prompt)
  }

  /** Scans what the two requests returned; None stands for a failed request. The first entry of the job
      in the queue decides: with a malformed prompt id it ends the scan with "not found". Without one,
      or without a queue, the history decides; it is a map, given in the order in which it is walked. */
  method FindPrompt(job: nat, queue: Option<(seq<Entry>, seq<Entry>)>, history: Option<seq<Past>>) returns (r: Scan)
    ensures queue.Some? && !Unlisted(job, queue.value.0 + queue.value.1) ==>
              var listed := queue.value.0 + queue.value.1;
              exists k :: 0 <= k < |listed| && listed[k].job == job && Unlisted(job, listed[..k])
                       && r == (if ValidPrompt(listed[k].prompt) then Found(listed[k].prompt) else Missing)
    ensures queue.None? || Unlisted(job, queue.value.0 + queue.value.1) ==>
              && (r.Found? <==> history.Some? && !Unrecorded(job, history.value))
              && (r.Found? ==>
                    ValidPrompt(r.prompt) && exists p <- history.value :: p.entry == Entry(r.prompt, job))
              && (r.Missing? <==> queue.Some? && history.Some? && Unrecorded(job, history.value))
  {
    if queue.Some? {
      var listed := queue.value.0 + queue.value.1;
      for i := 0 to |listed|
        invariant Unlisted(job, listed[..i])
      {
        assert listed[..i + 1] == listed[..i] + [listed[i]];
        if listed[i].job == job {
          assert listed[i] in listed;
          if ValidPrompt(listed[i].prompt) {
            return Found(listed[i].prompt);
          } else {
            return Missing;
          }
        }
      }
      assert listed[..|listed|] == listed;
    }
    if history.Some? {
      for i := 0 to |history.value|
        invariant Unrecorded(job, history.value[..i])
      {
        assert history.value[..i + 1] == history.value[..i] + [history.value[i]];
        if history.value[i].entry.job == job && ValidPrompt(history.value[i].entry.prompt) {
          assert history.value[i] in history.value;
          assert history.value[i].entry == Entry(history.value[i].entry.prompt, job);
          return Found(history.value[i].entry.prompt);
        }
      }
      assert history.value[..|history.value|] == history.value;
    }
    if queue.None? || history.None? {
      return ScanFailed;
    }
    return Missing;
  }

  /** Every entry that carries the job's id is this one. */
  ghost predicate OnlyEntry(c: Comfy, e: Entry) {
    && (forall x <- c.running :: x.job == e.job ==> x == e)
    && (forall x <- c.pending :: x.job == e.job ==> x == e)
    && (forall p <- c.history :: p.entry.job == e.job ==> p.entry == e)
  }

  /** The scan as recovery runs it: the queue is read at one moment, the history after any number
      of moves, and either request may fail. A job that ComfyUI holds with a valid prompt id is
      found, or the scan reports an error; it is never reported missing. */
  method RecoveryScan(c: Comfy, e: Entry, moves: seq<Move>, queueOk: bool, historyOk: bool) returns (r: Scan)
    requires Holds(c, e) && ValidPrompt(e.prompt)
    requires OnlyEntry(c, e) && OnlyEntry(Moves(c, moves), e)
    ensures r == Found(e.prompt) || r.ScanFailed?
    ensures queueOk && historyOk ==> r == Found(e.prompt)
  {
    var later := Moves(c, moves);
    MovesForward(c, moves, e);
    assert InQueue(c, e) ==> e in c.running + c.pending;
    r := FindPrompt(e.job, if queueOk then Some((c.running, c.pending)) else None,
                    if historyOk then Some(later.history) else None);
  }

  // ---- The status of a known prompt: the history first, then the queue ----

  datatype QueueRead = QueueFailed | InPending | InRunning | NotQueued

  datatype HistoryRead = HistoryFailed | NoEntry | Listed(verdict: Verdict)

  datatype Phase = Blank | PhaseQueued | PhaseRunning | PhaseError | PhaseCompleted

  datatype Status = Status(known: bool, phase: Phase)

  /** The status fetch. A failed queue request is swallowed, and an unknown prompt is
      reported as queued. */
  function FetchStatus(history: HistoryRead, queue: QueueRead): Option<Status> {
    match history
    case HistoryFailed => None
    case NoEntry =>
      (match queue
       case InRunning => Some(Status(true, PhaseRunning))
       case InPending => Some(Status(true, PhaseQueued))
       case _ => Some(Status(false, PhaseQueued)))
    case Listed(Errored) => Some(Status(true, PhaseError))
    case Listed(Succeeded) => Some(Status(true, PhaseCompleted))
    case Listed(StillListed) => Some(Status(true, PhaseRunning))
  }

  ghost predicate SeesQueue(c: Comfy, prompt: nat, read: QueueRead) {
    match read
    case QueueFailed => true
    case InRunning => exists e <- c.running :: e.prompt == prompt
    case InPending => (forall e <- c.running :: e.prompt != prompt) && exists e <- c.pending :: e.prompt == prompt
    case NotQueued => (forall e <- c.running :: e.prompt != prompt) && forall e <- c.pending :: e.prompt != prompt
  }

  ghost predicate SeesHistory(c: Comfy, prompt: nat, read: HistoryRead) {
    match read
    case HistoryFailed => true
    case NoEntry => forall p <- c.history :: p.entry.prompt != prompt
    case Listed(v) => exists p <- c.history :: p.entry.prompt == prompt && p.verdict == v
  }

  ghost predicate OnlyPrompt(c: Comfy, e: Entry) {
    && (forall x <- c.running :: x.prompt == e.prompt ==> x == e)
    && (forall x <- c.pending :: x.prompt == e.prompt ==> x == e)
    && (forall p <- c.history :: p.entry.prompt == e.prompt ==> p.entry == e)
  }

  /** Reading in this order can lose a job that ComfyUI holds throughout. It is reported unknown,
      without an error, exactly when it was not yet in the history at the first read and the
      queue request then failed or came after it had left the queue. */
  lemma StatusUnknownExactly(c: Comfy, e: Entry, moves: seq<Move>, history: HistoryRead, queue: QueueRead)
    requires Holds(c, e) && OnlyPrompt(c, e) && OnlyPrompt(Moves(c, moves), e)
    requires SeesHistory(c, e.prompt, history) && SeesQueue(Moves(c, moves), e.prompt, queue)
    ensures FetchStatus(history, queue) == Some(Status(false, PhaseQueued))
            <==> !history.HistoryFailed? && !InHistory(c, e) && (queue.QueueFailed? || !InQueue(Moves(c, moves), e))
  {
    match history
    case HistoryFailed =>
    case NoEntry =>
      assert !InHistory(c, e);
      assert !queue.QueueFailed? ==> (queue.NotQueued? <==> !InQueue(Moves(c, moves), e));
    case Listed(v) =>
      var p :| p in c.history && p.entry.prompt == e.prompt && p.verdict == v;
      assert InHistory(c, e);
  }

  /** The history is a map by prompt id, so a job has one verdict. */
  ghost predicate Verdicted(c: Comfy, e: Entry, v: Verdict) {
    && (exists p <- c.history :: p.entry == e && p.verdict == v)
    && (forall p <- c.history :: p.entry == e ==> p.verdict == v)
  }

  /** Every answer about a held job, told from ComfyUI's lists: a listed job has the status of its
      verdict; one not yet listed at the first read is running, or queued, exactly if it is in that
      list at the second read. Only a failed history request leaves it without an answer. */
  lemma StatusAnswersExactly(c: Comfy, e: Entry, moves: seq<Move>, history: HistoryRead, queue: QueueRead)
    requires Holds(c, e) && OnlyPrompt(c, e) && OnlyPrompt(Moves(c, moves), e)
    requires InHistory(c, e) ==> exists v :: Verdicted(c, e, v)
    requires SeesHistory(c, e.prompt, history) && SeesQueue(Moves(c, moves), e.prompt, queue)
    ensures var later := Moves(c, moves); var s := FetchStatus(history, queue); var listed := InHistory(c, e);
            && (s == None <==> history.HistoryFailed?)
            && (s.Some? && listed ==>
                  && s.value.known
                  && (s.value.phase == PhaseCompleted <==> Verdicted(c, e, Succeeded))
                  && (s.value.phase == PhaseError <==> Verdicted(c, e, Errored))
                  && (s.value.phase == PhaseRunning <==> Verdicted(c, e, StillListed)))
            && (s.Some? && !listed && !queue.QueueFailed? ==>
                  && (s.value == Status(true, PhaseRunning) <==> e in later.running)
                  && (s.value == Status(true, PhaseQueued) <==> e !in later.running && e in later.pending)
                  && (s.value == Status(false, PhaseQueued) <==> !InQueue(later, e)))
            && (s.Some? && !listed && queue.QueueFailed? ==> s.value == Status(false, PhaseQueued))
  {
    hide Moves;
    if history.Listed? {
      var p :| p in c.history && p.entry.prompt == e.prompt && p.verdict == history.verdict;
      assert p.entry == e && InHistory(c, e);
    }
    if history.NoEntry? {
      assert !InHistory(c, e);
      var later := Moves(c, moves);
      assert (exists x <- later.running :: x.prompt == e.prompt) <==> e in later.running;
      assert (exists x <- later.pending :: x.prompt == e.prompt) <==> e in later.pending;
    }
  }

  /** A job that finishes between the two reads is reported unknown although its outputs are there. */
  lemma StatusCanLoseFinishedJob(e: Entry)
    requires ValidPrompt(e.prompt)
    ensures var c := Comfy([e], [], []); var later := Moves(c, [Finish(0, Succeeded)]);
            && SeesHistory(c, e.prompt, NoEntry) && SeesQueue(later, e.prompt, NotQueued)
            && SeesHistory(later, e.prompt, Listed(Succeeded))
            && FetchStatus(NoEntry, NotQueued) == Some(Status(false, PhaseQueued))
  {
    var c := Comfy([e], [], []);
    var later := Moved(c, Finish(0, Succeeded));
    assert Moves(later, []) == later;
    assert Past(e, Succeeded) in later.history;
  }
}
