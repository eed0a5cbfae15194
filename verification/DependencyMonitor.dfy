/**
  The monitor of outside services. Times and durations are whole nanoseconds; zero is the time
  that was never set. Callers bring the clock reading.
*/
module DependencyMonitor {
  import opened Options

  // ---- Configuration, in 64-bit arithmetic ----

  const CHECK_EVERY: int := 10_000_000_000
  const STALE_AFTER: int := 45_000_000_000
  const OFFLINE_AFTER: int := 180_000_000_000

  predicate Fits(x: int) {
    -0x8000_0000_0000_0000 <= x < 0x8000_0000_0000_0000
  }

  function Wrap(x: int): int {
    (x + 0x8000_0000_0000_0000) % 0x1_0000_0000_0000_0000 - 0x8000_0000_0000_0000
  }

  datatype Timing = Timing(check: int, stale: int, offline: int)

  /** newDependencyMonitor */
  function Configure(t: Timing): Timing {
    var check := if t.check <= 0 then CHECK_EVERY else t.check;
    var twice := Wrap(2 * check);
    var stale := if t.stale >= twice then t.stale else if STALE_AFTER >= twice then STALE_AFTER else twice;
    var offline :=
      if t.offline > stale then t.offline
      else if OFFLINE_AFTER > stale then OFFLINE_AFTER
      else Wrap(stale + twice);
    Timing(check, stale, offline)
  }

  predicate Ordered(t: Timing) {
    t.check > 0 && t.stale >= 2 * t.check && t.offline > t.stale
  }

  /** No fallback overflows. */
  predicate Moderate(t: Timing) {
    var check := if t.check <= 0 then CHECK_EVERY else t.check;
    var stale := Configure(t).stale;
    Fits(2 * check) && (t.offline > stale || OFFLINE_AFTER > stale || Fits(stale + 2 * check))
  }

  lemma WrapFacts(x: int)
    requires 0 < x < 0x1_0000_0000_0000_0000
    ensures Fits(Wrap(x)) && (Fits(x) ==> Wrap(x) == x) && (!Fits(x) ==> Wrap(x) < 0)
  {
  }

  /** The constructor puts the three durations in order exactly when its fallbacks do not overflow. */
  lemma ConfigureOrders(t: Timing)
    requires Fits(t.check) && Fits(t.stale) && Fits(t.offline)
    ensures Ordered(Configure(t)) <==> Moderate(t)
  {
    var check := if t.check <= 0 then CHECK_EVERY else t.check;
    WrapFacts(2 * check);
    var stale := Configure(t).stale;
    if Fits(2 * check) {
      WrapFacts(stale + 2 * check);
    }
    hide Wrap;
  }

  function Max(a: int, b: int): int {
    if a < b then b else a
  }

  /** What is used where a duration is missing or out of order: a check every ten seconds; stale after
      45 seconds or two checks, whichever is longer; offline after three minutes or, if that is no longer,
      two checks after stale. */
  lemma FallbacksExactly(t: Timing)
    requires Fits(t.check) && Fits(t.stale) && Fits(t.offline) && Moderate(t)
    ensures var c := Configure(t);
            && c.check == (if t.check > 0 then t.check else 10 * SECOND)
            && c.stale == (if t.stale >= 2 * c.check then t.stale else Max(45 * SECOND, 2 * c.check))
            && c.offline == (if t.offline > c.stale then t.offline
                             else if 3 * MINUTE > c.stale then 3 * MINUTE else c.stale + 2 * c.check)
  {
    var c := Configure(t);
    WrapFacts(2 * c.check);
    WrapFacts(c.stale + 2 * c.check);
    hide Wrap;
  }

  /** The failing side: a check interval of half the range. */
  lemma ExtremeDurationsAreDisordered()
    ensures var t := Timing(0x4000_0000_0000_0000, 0, 0);
            Fits(t.check) && !Moderate(t) && !Ordered(Configure(t))
  {
    assert Wrap(0x8000_0000_0000_0000) == -0x8000_0000_0000_0000;
  }

  const SECOND: int := 1_000_000_000
  const MINUTE: int := 60 * SECOND

  /** What the configuration lets through. */
  predicate Admitted(t: Timing) {
    && 5 * SECOND <= t.check <= 5 * MINUTE
    && 2 * t.check <= t.stale <= 30 * MINUTE
    && t.stale < t.offline <= 120 * MINUTE
  }

  /** The configured bounds keep clear of all fallbacks, so the program never meets that side. */
  lemma AdmittedIsKept(t: Timing)
    ensures Admitted(t) ==> Configure(t) == t && Moderate(t) && Ordered(t)
  {
    if Admitted(t) { WrapFacts(2 * t.check); }
  }

  // ---- One record ----

  datatype Record = Record(checkedAt: int, successAt: int, dataAt: int, errorAt: int, nextAt: int,
                           probeOk: bool, misconfigured: bool, probing: bool)

  const BLANK := Record(0, 0, 0, 0, 0, false, false, false)

  predicate MayProbe(r: Record, now: int) {
    !r.probing && (r.nextAt == 0 || now >= r.nextAt)
  }

  function Claimed(r: Record, now: int, check: int): Record {
    if MayProbe(r, now) then r.(probing := true, nextAt := now + check) else r
  }

  /** The time the data was collected, never later than now. */
  function WithData(r: Record, now: int, dataAt: int): Record {
    var at := if dataAt > now then now else dataAt;
    if dataAt != 0 && at > r.dataAt then r.(dataAt := at) else r
  }

  function Succeeded(r: Record, now: int, dataAt: int, check: int): Record {
    WithData(r.(checkedAt := now, successAt := now, nextAt := now + check, probeOk := true,
                misconfigured := false, probing := false), now, dataAt)
  }

  function Failed(r: Record, now: int, misconfigured: bool, check: int): Record {
    r.(checkedAt := now, errorAt := now, nextAt := now + check, probeOk := false,
       misconfigured := misconfigured, probing := false)
  }

  datatype State = Online | Stale | Offline | Misconfigured

  function StatusOf(r: Record, configured: bool, requiresData: bool, now: int, t: Timing): State {
    if !configured || r.misconfigured then Misconfigured
    else if r.successAt == 0 then Offline
    else
      var missing := requiresData && r.dataAt == 0;
      var freshAt := if requiresData && !missing && r.dataAt < r.successAt then r.dataAt else r.successAt;
      var age := if now < freshAt then 0 else now - freshAt;
      if !missing && age <= t.stale then Online
      else if age <= t.offline || missing then Stale
      else Offline
  }

  /** The monitor as it runs: a map of records under a lock. */
  class Monitor {
    const timing: Timing
    var records: map<nat, Record>

    constructor (t: Timing)
      ensures timing == Configure(t) && records == map[]
    {
      timing, records := Configure(t), map[];
    }

    function At(key: nat): Record
      reads this
    {
      if key in records then records[key] else BLANK
    }

    /** claim */
    method Claim(key: nat, now: int) returns (claimed: bool)
      modifies this
      ensures claimed == old(MayProbe(At(key), now)) && At(key) == old(Claimed(At(key), now, timing.check))
      ensures forall other: nat :: other != key ==> At(other) == old(At(other))
    {
      var record := At(key);
      if record.probing || (record.nextAt != 0 && now < record.nextAt) {
        return false;
      }
      record := record.(probing := true);
      record := record.(nextAt := now + timing.check);
      records := records[key := record];
      return true;
    }

    /** success */
    method Success(key: nat, now: int, dataAt: int)
      modifies this
      ensures At(key) == old(Succeeded(At(key), now, dataAt, timing.check))
      ensures forall other: nat :: other != key ==> At(other) == old(At(other))
    {
      var record := At(key);
      record := record.(checkedAt := now, successAt := now, nextAt := now + timing.check);
      record := record.(probeOk := true, misconfigured := false, probing := false);
      if dataAt != 0 {
        var collected := dataAt;
        if collected > now {
          collected := now;
        }
        if collected > record.dataAt {
          record := record.(dataAt := collected);
        }
      }
      records := records[key := record];
    }

    /** failure */
    method Failure(key: nat, now: int, misconfigured: bool)
      modifies this
      ensures At(key) == old(Failed(At(key), now, misconfigured, timing.check))
      ensures forall other: nat :: other != key ==> At(other) == old(At(other))
    {
      var record := At(key);
      record := record.(checkedAt := now, errorAt := now, nextAt := now + timing.check);
      record := record.(probeOk := false, misconfigured := misconfigured, probing := false);
      records := records[key := record];
    }

    /** observeData */
    method ObserveData(key: nat, now: int, collectedAt: int)
      modifies this
      ensures At(key) == old(WithData(At(key), now, collectedAt))
      ensures forall other: nat :: other != key ==> At(other) == old(At(other))
    {
      if collectedAt == 0 {
        return;
      }
      var collected := if collectedAt > now then now else collectedAt;
      var record := At(key);
      if collected > record.dataAt {
        records := records[key := record.(dataAt := collected)];
      }
    }
  }

  // ---- Runs over one key ----

  /** Every call reads the clock first and takes the lock afterwards, so a reading may be older than
      the moment it is applied at, and older than one applied before it. A report is `own` if it comes
      from the probe that claimed the key; others report as well. */
  datatype Event =
    | Claim(read: int, at: int)
    | Success(read: int, at: int, dataAt: int, own: bool)
    | Failure(read: int, at: int, misconfigured: bool, own: bool)
    | Observe(read: int, at: int, dataAt: int)

  predicate Reports(e: Event) {
    e.Success? || e.Failure?
  }

  /** The record, the probes under way, the reading of the last successful claim, the reading of the
      last claim or report, and the moment of the last event. */
  datatype Track = Track(record: Record, probes: int, claimedAt: Option<int>, touchedAt: int, clock: int)

  /** Events are applied in order, each after its reading; an own report needs a probe under way. */
  predicate Possible(t: Track, e: Event) {
    && t.clock <= e.at && 0 < e.read <= e.at
    && (Reports(e) && e.own ==> t.probes > 0)
  }

  function Next(t: Track, e: Event, check: int): Track {
    if !Possible(t, e) then t
    else
      match e
      case Claim(read, at) =>
        if MayProbe(t.record, read)
        then Track(Claimed(t.record, read, check), t.probes + 1, Some(read), read, at)
        else t.(clock := at)
      case Success(read, at, dataAt, own) =>
        t.(record := Succeeded(t.record, read, dataAt, check),
           probes := if own then t.probes - 1 else t.probes, touchedAt := read, clock := at)
      case Failure(read, at, misconfigured, own) =>
        t.(record := Failed(t.record, read, misconfigured, check),
           probes := if own then t.probes - 1 else t.probes, touchedAt := read, clock := at)
      case Observe(read, at, dataAt) => t.(record := WithData(t.record, read, dataAt), clock := at)
  }

  function Run(t: Track, events: seq<Event>, check: int): Track
    decreases |events|
  {
    if events == [] then t else Run(Next(t, events[0], check), events[1..], check)
  }

  const START := Track(BLANK, 0, None, 0, 0)

  ghost predicate Inv(t: Track, check: int) {
    && t.probes >= 0 && t.clock >= 0 && t.record.dataAt <= t.clock
    && (if t.touchedAt == 0 then t.record.nextAt == 0
        else 0 < t.touchedAt <= t.clock && t.record.nextAt == t.touchedAt + check)
    && (t.claimedAt.Some? ==> 0 < t.claimedAt.value <= t.clock && t.touchedAt > 0)
    && (t.record.probing || t.probes > 0 ==> t.claimedAt.Some?)
  }

  lemma StepKeepsInv(t: Track, e: Event, check: int)
    requires check > 0 && Inv(t, check)
    ensures var u := Next(t, e, check); Inv(u, check) && u.record.dataAt >= t.record.dataAt
  {
  }

  lemma {:induction false} RunKeepsInv(t: Track, events: seq<Event>, check: int)
    requires check > 0 && Inv(t, check)
    ensures var u := Run(t, events, check); Inv(u, check) && u.record.dataAt >= t.record.dataAt
    decreases |events|
  {
    hide Next, Inv;
    if events != [] {
      StepKeepsInv(t, events[0], check);
      RunKeepsInv(Next(t, events[0], check), events[1..], check);
    }
  }

  /** Whoever reports, and however late: the time of the last data never decreases and never passes
      the clock. */
  lemma DataTimeMovesForward(before: seq<Event>, more: seq<Event>, check: int)
    requires check > 0
    ensures var t := Run(START, before, check); var u := Run(t, more, check);
            t.record.dataAt <= u.record.dataAt <= u.clock
  {
    hide Run;
    RunKeepsInv(START, before, check);
    RunKeepsInv(Run(START, before, check), more, check);
  }

  predicate Claims(t: Track, e: Event) {
    Possible(t, e) && e.Claim? && MayProbe(t.record, e.read)
  }

  /** The next claim is sure to come at least one check interval after the last one exactly while that
      claim is still marked, or no report with an older reading has been applied after it. */
  lemma SpacingExactly(before: seq<Event>, check: int)
    requires check > 0 && Run(START, before, check).claimedAt.Some?
    ensures var t := Run(START, before, check); var last := t.claimedAt.value;
            (forall e: Event :: Claims(t, e) ==> e.read >= last + check) <==> t.record.probing || t.touchedAt >= last
  {
    hide Run;
    RunKeepsInv(START, before, check);
    var t := Run(START, before, check);
    if !t.record.probing && t.touchedAt < t.claimedAt.value {
      var read := t.touchedAt + check;
      var e := Claim(read, if read > t.clock then read else t.clock);
      assert Claims(t, e) && e.read < t.claimedAt.value + check;
    }
  }

  // ---- One probe at a time ----

  ghost predicate OnlyOwn(events: seq<Event>) {
    forall e <- events :: Reports(e) ==> e.own
  }

  lemma {:induction false} OwnReportsMatch(t: Track, events: seq<Event>, check: int)
    requires OnlyOwn(events) && t.probes == (if t.record.probing then 1 else 0)
    ensures var u := Run(t, events, check); u.probes == if u.record.probing then 1 else 0
    decreases |events|
  {
    if events != [] {
      assert events[0] in events;
      OwnReportsMatch(Next(t, events[0], check), events[1..], check);
    }
  }

  /** No event finds a probe that has run for `life`, and no report that is applied while a probe runs
      has a reading more than `lag` before its claim. */
  ghost predicate Prompt(t: Track, events: seq<Event>, check: int, life: int, lag: int)
    decreases |events|
  {
    events != [] ==>
      var e := events[0];
      && (Possible(t, e) && t.probes > 0 && t.claimedAt.Some? ==>
            e.read < t.claimedAt.value + life && (Reports(e) ==> e.read >= t.claimedAt.value - lag))
      && Prompt(Next(t, e, check), events[1..], check, life, lag)
  }

  lemma {:induction false} PromptProbes(t: Track, events: seq<Event>, check: int, life: int, lag: int)
    requires check >= life + lag && life > 0 && lag >= 0 && Inv(t, check) && Prompt(t, events, check, life, lag)
    requires t.probes <= 1 && (t.probes == 1 ==> t.touchedAt >= t.claimedAt.value - lag)
    ensures 0 <= Run(t, events, check).probes <= 1
    decreases |events|
  {
    if events != [] {
      StepKeepsInv(t, events[0], check);
      PromptProbes(Next(t, events[0], check), events[1..], check, life, lag);
    }
  }

  /** Whoever reports: at most one probe of a key is under way, as long as probes end, and readings are
      applied, within a check interval together. When only the probes report, no timing is needed. */
  lemma OneProbeAtATime(events: seq<Event>, check: int, life: int, lag: int)
    requires check >= life + lag && life > 0 && lag >= 0
    requires OnlyOwn(events) || Prompt(START, events, check, life, lag)
    ensures 0 <= Run(START, events, check).probes <= 1
  {
    if OnlyOwn(events) {
      OwnReportsMatch(START, events, check);
    } else {
      PromptProbes(START, events, check, life, lag);
    }
  }

  const PROBE_TIMEOUT: int := 4 * SECOND

  /** In the program probes run under a timeout of four seconds and the interval is at least five, so
      probes never overlap, provided no report waits a whole second for the lock. */
  lemma ProbesNeverOverlap(events: seq<Event>, t: Timing)
    requires Admitted(t) && Prompt(START, events, t.check, PROBE_TIMEOUT, SECOND)
    ensures 0 <= Run(START, events, t.check).probes <= 1
  {
    OneProbeAtATime(events, t.check, PROBE_TIMEOUT, SECOND);
  }

  /** Reports come from elsewhere, with readings from `lag` before the claim up to `last`. */
  ghost predicate Foreign(events: seq<Event>, claimed: int, lag: int, last: int) {
    forall e <- events :: claimed - lag <= e.read <= last && (Reports(e) ==> !e.own)
  }

  lemma {:induction false} NoSecondProbe(t: Track, events: seq<Event>, check: int, claimed: int, lag: int, last: int)
    requires check > 0 && Inv(t, check) && Foreign(events, claimed, lag, last) && claimed - lag + check > last
    requires t.probes == 1 && t.touchedAt >= claimed - lag
    ensures Run(t, events, check).probes == 1
    decreases |events|
  {
    if events != [] {
      assert events[0] in events;
      StepKeepsInv(t, events[0], check);
      NoSecondProbe(Next(t, events[0], check), events[1..], check, claimed, lag, last);
    }
  }

  /** A second probe of a key can start beside one that has not reported exactly when that one still
      runs a check interval after the earliest reading that another report can bring. */
  lemma SecondProbeExactly(before: seq<Event>, check: int, claim: Event, lag: int, last: int)
    requires check > 0 && lag >= 0
    requires var t := Run(START, before, check); t.probes == 0 && Claims(t, claim) && claim.read > lag
    ensures var t := Next(Run(START, before, check), claim, check);
            (exists more :: Foreign(more, claim.read, lag, last) && Run(t, more, check).probes >= 2)
            <==> last >= claim.read - lag + check
  {
    hide Run;
    RunKeepsInv(START, before, check);
    var s := Run(START, before, check);
    var t := Next(s, claim, check);
    StepKeepsInv(s, claim, check);
    var first := claim.read - lag;
    if last >= first + check {
      var more := TwoEvents(t, first, check);
      assert Foreign(more, claim.read, lag, last);
    } else {
      forall more | Foreign(more, claim.read, lag, last)
        ensures Run(t, more, check).probes == 1
      {
        NoSecondProbe(t, more, check, claim.read, lag, last);
      }
    }
  }

  /** A report with the given reading, and a claim one interval later. */
  lemma TwoEvents(t: Track, first: int, check: int) returns (more: seq<Event>)
    requires check > 0 && first > 0 && t.probes == 1
    ensures |more| == 2 && Reports(more[0]) && !more[0].own && more[0].read == first
    ensures more[1].Claim? && more[1].read == first + check
    ensures Run(t, more, check).probes == 2
  {
    var at := if first > t.clock then first else t.clock;
    var next := if first + check > at then first + check else at;
    more := [Success(first, at, 0, false), Claim(first + check, next)];
    assert more[1..][1..] == [];
    var b := Next(t, more[0], check);
    var c := Next(b, more[1], check);
    assert c.probes == 2;
    hide Next;
    assert Run(t, more, check) == Run(b, more[1..], check) == Run(c, [], check);
  }

  // ---- Status ----

  /** A service that is not configured, or is known to be configured wrongly, shows just that. Any other
      that was reached before is online, stale or offline by its age alone: the time since the last success
      or, where it must deliver data, since the older of that and its last data. Without any data it is
      stale. One that was never reached is offline. */
  lemma StatusExactly(r: Record, configured: bool, requiresData: bool, now: int, t: Timing)
    requires Ordered(t)
    ensures var s := StatusOf(r, configured, requiresData, now, t);
            if !configured || r.misconfigured then s == Misconfigured
            else if r.successAt == 0 then s == Offline
            else if requiresData && r.dataAt == 0 then s == Stale
            else
              && (s == Online <==> now <= r.successAt + t.stale && (requiresData ==> now <= r.dataAt + t.stale))
              && (s == Offline <==> now > r.successAt + t.offline || (requiresData && now > r.dataAt + t.offline))
              && (s == Online || s == Offline || s == Stale)
  {
  }

  /** A successful check brings a service online, wherever it was before, for as long as the stale limit
      allows. If it must deliver data, the check must bring data no older than that. */
  lemma SuccessBringsOnline(r: Record, requiresData: bool, at: int, dataAt: int, now: int, t: Timing)
    requires Ordered(t) && at > 0 && now >= at && 0 <= r.dataAt <= at
    ensures var u := Succeeded(r, at, dataAt, t.check);
            StatusOf(u, true, requiresData, now, t) == Online <==>
              && now <= at + t.stale
              && (requiresData ==>
                    || (r.dataAt != 0 && now <= r.dataAt + t.stale)
                    || (dataAt > 0 && now <= dataAt + t.stale))
  {
  }

  /** A failed check does not change what a service is, unless it shows that the service is not set up
      correctly, or had been shown so before. */
  lemma FailureKeepsStatus(r: Record, requiresData: bool, at: int, misconfigured: bool, now: int, t: Timing)
    ensures var before := StatusOf(r, true, requiresData, now, t);
            var after := StatusOf(Failed(r, at, misconfigured, t.check), true, requiresData, now, t);
            && Failed(r, at, misconfigured, t.check).successAt == r.successAt
            && (after == Misconfigured <==> misconfigured)
            && (!misconfigured && !r.misconfigured ==> after == before)
  {
  }

  // ---- Decay ----

  function Severity(s: State): nat {
    match s
    case Online => 0
    case Stale => 1
    case Offline => 2
    case Misconfigured => 3
  }

  /** While nothing happens, a status only gets worse, and by the ages alone: online up to the stale
      limit, stale up to the offline limit, then offline. Required data that never came keeps it at
      stale; a misconfiguration stays. */
  lemma StatusDecays(r: Record, configured: bool, requiresData: bool, now: int, later: int, t: Timing)
    requires Ordered(t) && now <= later
    ensures var a := StatusOf(r, configured, requiresData, now, t);
            var b := StatusOf(r, configured, requiresData, later, t);
            && Severity(a) <= Severity(b)
            && (a == Misconfigured <==> b == Misconfigured)
            && (configured && !r.misconfigured && r.successAt != 0 && requiresData && r.dataAt == 0 ==>
                  a == Stale && b == Stale)
            && (configured && !r.misconfigured && r.successAt != 0 && !(requiresData && r.dataAt == 0) ==>
                  later > r.successAt + t.offline ==> b == Offline)
  {
  }
}
