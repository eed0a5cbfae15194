/**
  The cache of ComfyUI's node descriptions. A call under the lock answers from the cache, or
  fetches; after a failed fetch it may fall back on the last snapshot. Times and durations are
  whole nanoseconds.
*/
module ObjectInfoCache {
  import opened Options

  const DEFAULT_TTL: int := 30_000_000_000
  const DEFAULT_MAX_STALE: int := 86_400_000_000_000
  const RETRY_AFTER: int := 10_000_000_000

  datatype Source = Live | FreshCache | LastKnownGood

  datatype Snapshot = Snapshot(content: nat, fetchedAt: int)

  datatype Answer = Failed | Answered(snapshot: Snapshot, source: Source)

  datatype Cache = Cache(ttl: int, maxStale: int, nextRefresh: int, snapshot: Option<Snapshot>, lastAttempt: int)

  function Min(a: int, b: int): int {
    if a < b then a else b
  }

  function New(ttl: int, maxStale: int): (c: Cache)
    ensures 0 < c.ttl <= c.maxStale
    ensures c.ttl == (if ttl > 0 then ttl else 30_000_000_000)
    ensures maxStale >= c.ttl ==> c.maxStale == maxStale
    ensures maxStale < c.ttl ==> c.maxStale == 86_400_000_000_000 || c.maxStale == c.ttl > 86_400_000_000_000
  {
    var t := if ttl <= 0 then DEFAULT_TTL else ttl;
    var m := if maxStale >= t then maxStale else if DEFAULT_MAX_STALE >= t then DEFAULT_MAX_STALE else t;
    Cache(t, m, 0, None, 0)
  }

  /** A call at a time, forced or not, and what a fetch would return. */
  datatype Call = Call(now: int, force: bool, fetch: Option<nat>)

  predicate Hit(c: Cache, call: Call) {
    c.snapshot.Some? && !call.force && call.now < c.nextRefresh
  }

  function After(c: Cache, call: Call): Cache {
    if Hit(c, call) then c
    else if call.fetch.Some? then
      c.(lastAttempt := call.now, snapshot := Some(Snapshot(call.fetch.value, call.now)),
         nextRefresh := call.now + c.ttl)
    else c.(lastAttempt := call.now, nextRefresh := call.now + Min(c.ttl, RETRY_AFTER))
  }

  function Reply(c: Cache, call: Call): Answer {
    if Hit(c, call) then Answered(c.snapshot.value, FreshCache)
    else if call.fetch.Some? then Answered(Snapshot(call.fetch.value, call.now), Live)
    else if c.snapshot.Some? && call.now - c.snapshot.value.fetchedAt <= c.maxStale then
      Answered(c.snapshot.value, LastKnownGood)
    else Failed
  }

  class ObjectInfo {
    var cache: Cache

    constructor (ttl: int, maxStale: int)
      ensures cache == New(ttl, maxStale)
    {
      cache := New(ttl, maxStale);
    }

    /** comfyObjectInfo */
    method Get(call: Call) returns (answer: Answer)
      modifies this
      ensures cache == old(After(cache, call)) && answer == old(Reply(cache, call))
    {
      if cache.snapshot.Some? && !call.force && call.now < cache.nextRefresh {
        return Answered(cache.snapshot.value, FreshCache);
      }
      cache := cache.(lastAttempt := call.now);
      if call.fetch.Some? {
        var snapshot := Snapshot(call.fetch.value, call.now);
        cache := cache.(snapshot := Some(snapshot));
        cache := cache.(nextRefresh := call.now + cache.ttl);
        return Answered(snapshot, Live);
      }
      cache := cache.(nextRefresh := call.now + Min(cache.ttl, RETRY_AFTER));
      if cache.snapshot.Some? && call.now - cache.snapshot.value.fetchedAt <= cache.maxStale {
        return Answered(cache.snapshot.value, LastKnownGood);
      }
      return Failed;
    }
  }

  // ---- Runs ----

  datatype Attempt = Attempt(now: int, ok: bool)

  /** The simple form: the fetches that succeeded so far, and all attempts, in order. */
  datatype Trace = Trace(cache: Cache, fetched: seq<Snapshot>, attempts: seq<Attempt>)

  function Next(t: Trace, call: Call): Trace {
    if Hit(t.cache, call) then t.(cache := After(t.cache, call))
    else
      Trace(After(t.cache, call),
            if call.fetch.Some? then t.fetched + [Snapshot(call.fetch.value, call.now)] else t.fetched,
            t.attempts + [Attempt(call.now, call.fetch.Some?)])
  }

  function Run(t: Trace, calls: seq<Call>): Trace
    decreases |calls|
  {
    if calls == [] then t else Run(Next(t, calls[0]), calls[1..])
  }

  function Start(ttl: int, maxStale: int): Trace {
    Trace(New(ttl, maxStale), [], [])
  }

  function Last<T>(s: seq<T>): T
    requires s != []
  {
    s[|s| - 1]
  }

  /** The cache holds the last successful fetch, and its deadline follows from the last attempt. */
  ghost predicate Inv(t: Trace) {
    && 0 < t.cache.ttl <= t.cache.maxStale
    && (t.cache.snapshot.Some? <==> t.fetched != [])
    && (t.fetched != [] ==> t.cache.snapshot.value == Last(t.fetched) && t.attempts != [])
    && (t.attempts != [] ==>
          && t.cache.nextRefresh == Last(t.attempts).now
                                    + (if Last(t.attempts).ok then t.cache.ttl else Min(t.cache.ttl, RETRY_AFTER))
          && (Last(t.attempts).ok ==> t.fetched != [] && Last(t.fetched).fetchedAt == Last(t.attempts).now))
  }

  lemma StepKeepsInv(t: Trace, call: Call)
    requires Inv(t)
    ensures var u := Next(t, call); Inv(u) && u.cache.maxStale == t.cache.maxStale && u.cache.ttl == t.cache.ttl
  {
  }

  lemma {:induction false} RunKeepsInv(t: Trace, calls: seq<Call>)
    requires Inv(t)
    ensures var u := Run(t, calls); Inv(u) && u.cache.maxStale == t.cache.maxStale && u.cache.ttl == t.cache.ttl
    decreases |calls|
  {
    hide Inv, Next;
    if calls != [] {
      StepKeepsInv(t, calls[0]);
      RunKeepsInv(Next(t, calls[0]), calls[1..]);
    }
  }

  /** Whether a call is answered without a fetch, told from the attempts alone. */
  predicate Recent(t: Trace, call: Call, lifetime: int) {
    && t.fetched != [] && t.attempts != [] && !call.force
    && call.now < Last(t.attempts).now + (if Last(t.attempts).ok then lifetime else Min(lifetime, 10_000_000_000))
  }

  /** What a call answers, told from the fetches and attempts alone. */
  ghost predicate AnswerOf(t: Trace, call: Call, lifetime: int, maxStale: int, answer: Answer) {
    if Recent(t, call, lifetime) then answer == Answered(Last(t.fetched), FreshCache)
    else if call.fetch.Some? then answer == Answered(Snapshot(call.fetch.value, call.now), Live)
    else if t.fetched != [] && call.now <= Last(t.fetched).fetchedAt + maxStale then
      answer == Answered(Last(t.fetched), LastKnownGood)
    else answer == Failed
  }

  lemma ReplyIsLastFetch(t: Trace, call: Call)
    requires Inv(t)
    ensures AnswerOf(t, call, t.cache.ttl, t.cache.maxStale, Reply(t.cache, call))
    ensures Recent(t, call, t.cache.ttl) && Last(t.attempts).ok ==>
              call.now - Last(t.fetched).fetchedAt < t.cache.ttl
  {
  }

  /** Over every run, the cache answers like one that only remembers the fetches and the attempts. The
      latest snapshot serves without a fetch while the last attempt is young: younger than the lifetime,
      or than ten seconds if it failed. Otherwise a fetch answers; if it fails, the latest snapshot does
      up to the stale limit; and only then does the call fail. */
  lemma AnswersAreLastFetch(ttl: int, maxStale: int, calls: seq<Call>, call: Call)
    ensures var t := Run(Start(ttl, maxStale), calls); var c := New(ttl, maxStale);
            && AnswerOf(t, call, c.ttl, c.maxStale, Reply(t.cache, call))
            && (Recent(t, call, c.ttl) && Last(t.attempts).ok ==> call.now - Last(t.fetched).fetchedAt < c.ttl)
  {
    RunKeepsInv(Start(ttl, maxStale), calls);
    ReplyIsLastFetch(Run(Start(ttl, maxStale), calls), call);
    hide Run, New, Inv, Next, Reply, AnswerOf, Recent;
  }

  /** A fresh answer can be older than the stale limit exactly when the deadline lies beyond that age,
      and that takes a failed last attempt. Stated for every cache that a run reaches, and for calls
      no earlier than the last attempt. */
  lemma StaleHitsExactly(ttl: int, maxStale: int, calls: seq<Call>)
    requires Run(Start(ttl, maxStale), calls).cache.snapshot.Some?
    ensures var t := Run(Start(ttl, maxStale), calls); var c := t.cache; var born := c.snapshot.value.fetchedAt;
            && t.attempts != []
            && ((exists call: Call :: Hit(c, call) && call.now >= Last(t.attempts).now && call.now - born > c.maxStale)
                <==> c.nextRefresh > born + c.maxStale + 1)
            && (c.nextRefresh > born + c.maxStale + 1 ==> !Last(t.attempts).ok)
  {
    RunKeepsInv(Start(ttl, maxStale), calls);
    var t := Run(Start(ttl, maxStale), calls);
    var c, born := t.cache, t.cache.snapshot.value.fetchedAt;
    if c.nextRefresh > born + c.maxStale + 1 {
      var call := Call(c.nextRefresh - 1, false, None);
      assert Hit(c, call) && call.now >= Last(t.attempts).now && call.now - born > c.maxStale;
    }
    hide Run;
  }

  /** No answer from the fresh cache is bounded by the stale limit: for every age there is a run that
      answers with a snapshot of that age. The snapshot is too old when a fetch fails, so that call
      reports the error; but the next one finds the failed attempt recent enough and takes the
      snapshot as fresh. */
  lemma FreshCacheAnswersAreUnbounded(ttl: int, maxStale: int, age: int, content: nat)
    requires age > New(ttl, maxStale).maxStale
    ensures var fetched, failed := Call(0, false, Some(content)), Call(age, false, None);
            var t := Run(Start(ttl, maxStale), [fetched]); var u := Run(Start(ttl, maxStale), [fetched, failed]);
            && Reply(t.cache, failed) == Failed
            && Reply(u.cache, failed) == Answered(Snapshot(content, 0), FreshCache)
  {
    var start := Start(ttl, maxStale);
    var fetched, failed := Call(0, false, Some(content)), Call(age, false, None);
    var a := Next(start, fetched);
    var b := Next(a, failed);
    assert [fetched][1..] == [] && [fetched, failed][1..] == [failed] && [failed][1..] == [];
    assert Run(start, [fetched]) == Run(a, []) == a;
    assert Run(start, [fetched, failed]) == Run(a, [failed]) == Run(b, []) == b;
  }
}
