/**
  The schema migrator. One run is one transaction: it refuses a database that knows versions the
  binary does not, checks what was applied, applies the rest in order, and commits or leaves
  everything as it was.
*/
module Migrations {
  import opened Options

  type Version = v: int | -0x8000_0000_0000_0000 <= v < 0x8000_0000_0000_0000

  // A statement is only ever sent to the database, so statements are numbered. A checksum is only
  // ever compared.
  datatype Migration = Migration(version: Version, name: string, statements: seq<nat>, checksum: nat)

  /** What one database holds: the checksum recorded for each applied version, and every statement
      that was committed, in order. */
  datatype State = State(applied: map<Version, nat>, executed: seq<nat>)

  const EMPTY := State(map[], [])

  predicate Space(c: char) {
    || c == ' ' || '\t' <= c <= '\r' || c == '\U{85}' || c == '\U{A0}' || c == '\U{1680}'
    || '\U{2000}' <= c <= '\U{200A}' || c == '\U{2028}' || c == '\U{2029}' || c == '\U{202F}'
    || c == '\U{205F}' || c == '\U{3000}'
  }

  predicate BlankName(name: string) {
    forall c <- name :: Space(c)
  }

  predicate WellFormed(item: Migration) {
    item.version > 0 && !BlankName(item.name) && item.statements != []
  }

  /** It has something to run, and a name that shows. */
  ghost predicate Complete(item: Migration) {
    |item.statements| > 0 && exists c <- item.name :: !Space(c)
  }

  lemma WellFormedExactly(item: Migration)
    ensures WellFormed(item) <==> item.version > 0 && Complete(item)
  {
    hide Space;
  }

  ghost predicate ValidCatalog(items: seq<Migration>) {
    && items != []
    && (forall i :: 0 <= i < |items| ==> items[i].version == i + 1 && Complete(items[i]))
    && (forall i, j :: 0 <= i < j < |items| ==> items[i].name != items[j].name)
  }

  /** validateMigrations */
  method Validate(items: seq<Migration>) returns (valid: bool)
    ensures valid <==> ValidCatalog(items)
  {
    hide Complete, WellFormed;
    if items == [] {
      return false;
    }
    var versions: seq<int> := [];
    var seen: set<string> := {};
    for i := 0 to |items|
      invariant |versions| == i && forall k :: 0 <= k < i ==> versions[k] == items[k].version
      invariant forall k :: 0 <= k < i ==> Complete(items[k])
      invariant forall k :: 0 <= k < i ==> items[k].name in seen
      invariant forall name <- seen :: exists k :: 0 <= k < i && items[k].name == name
      invariant forall j, k :: 0 <= j < k < i ==> items[j].name != items[k].name
    {
      WellFormedExactly(items[i]);
      if !WellFormed(items[i]) {
        return false;
      }
      if items[i].name in seen {
        var k :| 0 <= k < i && items[k].name == items[i].name;
        return false;
      }
      seen := seen + {items[i].name};
      versions := versions + [items[i].version];
    }
    valid := Contiguous(versions);
    if valid {
      assert forall k :: 0 <= k < |items| ==> items[k].version == k + 1;
    } else {
      var k :| 0 <= k < |versions| && versions[k] != k + 1;
      assert items[k].version != k + 1;
    }
  }

  /** The order check admits a repeated version; the position check catches it. */
  method Contiguous(versions: seq<int>) returns (ok: bool)
    ensures ok <==> forall k :: 0 <= k < |versions| ==> versions[k] == k + 1
  {
    var i := 1;
    while i < |versions|
      invariant i >= 1
    {
      if versions[i] < versions[i - 1] {
        assert versions[i] != i + 1 || versions[i - 1] != i - 1 + 1;
        return false;
      }
      i := i + 1;
    }
    for index := 0 to |versions|
      invariant forall k :: 0 <= k < index ==> versions[k] == k + 1
    {
      if versions[index] != index + 1 {
        return false;
      }
    }
    return true;
  }

  const REDACTED_NAME := "mining_profiles"

  predicate Redacted(item: Migration) {
    item.version == 9 && item.name == REDACTED_NAME
  }

  /** Whether an applied version is acceptable: unchanged, or the one redacted migration over a
      database that has its tables. */
  predicate Acceptable(s: State, item: Migration, tables: bool) {
    item.version in s.applied ==> s.applied[item.version] == item.checksum || (Redacted(item) && tables)
  }

  ghost predicate Compatible(s: State, items: seq<Migration>, tables: bool) {
    && ValidCatalog(items)
    && (forall v :: v in s.applied.Keys ==> 1 <= v <= |items|)
    && (forall i :: 0 <= i < |items| ==> Acceptable(s, items[i], tables))
  }

  /** The statements of the items whose version is not among the applied ones. */
  function Pending(applied: set<Version>, items: seq<Migration>): seq<nat> {
    if items == [] then []
    else
      var last := items[|items| - 1];
      Pending(applied, items[..|items| - 1]) + (if last.version in applied then [] else last.statements)
  }

  /** The versions of these migrations are recorded, and no others. */
  ghost predicate Recorded(applied: map<Version, nat>, items: seq<Migration>) {
    && (forall v :: v in applied <==> 1 <= v <= |items|)
    && (forall i :: 0 <= i < |items| ==> items[i].version in applied && applied[items[i].version] == items[i].checksum)
  }

  /** What a compatible binary makes of the database. */
  ghost predicate Migrates(s: State, t: State, items: seq<Migration>) {
    Recorded(t.applied, items) && t.executed == s.executed + Pending(s.applied.Keys, items)
  }

  class Database {
    var state: State

    constructor ()
      ensures state == EMPTY
    {
      state := EMPTY;
    }

    /** Migrate. `tables` is what the check of the redacted migration finds; `calls` bounds how many
        statements succeed, if the connection is to fail. */
    method Migrate(items: seq<Migration>, tables: bool, calls: Option<nat>) returns (ok: bool)
      modifies this
      ensures ok ==> Compatible(old(state), items, tables) && Migrates(old(state), state, items)
      ensures !ok ==> state == old(state)
      ensures calls.None? ==> (ok <==> Compatible(old(state), items, tables))
    {
      hide Complete, Redacted, Partial, Migrates;
      var valid := Validate(items);
      if !valid {
        return false;
      }
      var known := NoNewer(state.applied.Keys, |items|);
      if !known {
        return false;
      }
      assert InOrder(items);
      hide ValidCatalog;
      var tx := state;
      var left := calls;
      PartialStart(state, items, tables);
      for i := 0 to |items|
        invariant state == old(state)
        invariant Partial(state, tx, items, i, tables)
        invariant calls.None? ==> left.None?
      {
        var item := items[i];
        PartialKeeps(state, tx, items, i, tables);
        if item.version in state.applied {
          if state.applied[item.version] != item.checksum {
            if !(Redacted(item) && tables) {
              return false;
            }
            tx := tx.(applied := tx.applied[item.version := item.checksum]);
          }
        } else {
          if left.Some? {
            if left.value < |item.statements| + 1 {
              return false;
            }
            left := Some(left.value - |item.statements| - 1);
          }
          tx := State(tx.applied[item.version := item.checksum], tx.executed + item.statements);
        }
      }
      PartialEnd(state, tx, items, tables);
      if left == Some(0) {
        return false;
      }
      state := tx;
      return true;
    }
  }

  /** The transaction after the first `i` items. */
  ghost predicate Partial(s: State, tx: State, items: seq<Migration>, i: nat, tables: bool) {
    && i <= |items|
    && (forall v :: v in tx.applied <==> v in s.applied || 1 <= v <= i)
    && (forall k :: 0 <= k < i ==> items[k].version in tx.applied && tx.applied[items[k].version] == items[k].checksum)
    && (forall v :: i < v && v in tx.applied ==> tx.applied[v] == s.applied[v])
    && tx.executed == s.executed + Pending(s.applied.Keys, items[..i])
    && (forall k :: 0 <= k < i ==> Acceptable(s, items[k], tables))
  }

  lemma PartialStart(s: State, items: seq<Migration>, tables: bool)
    ensures Partial(s, s, items, 0, tables)
  {
  }

  lemma PartialKeeps(s: State, tx: State, items: seq<Migration>, i: nat, tables: bool)
    requires Partial(s, tx, items, i, tables) && i < |items| && InOrder(items)
    ensures var item := items[i];
            && item.version == i + 1
            && (item.version in s.applied ==>
                  && item.version in tx.applied && tx.applied[item.version] == s.applied[item.version]
                  && (s.applied[item.version] == item.checksum ==> Partial(s, tx, items, i + 1, tables))
                  && (Redacted(item) && tables ==>
                        Partial(s, tx.(applied := tx.applied[item.version := item.checksum]), items, i + 1, tables)))
            && (item.version !in s.applied ==>
                  Partial(s, State(tx.applied[item.version := item.checksum], tx.executed + item.statements),
                          items, i + 1, tables))
  {
    assert items[..i + 1][..i] == items[..i];
    hide Redacted;
  }

  lemma PartialEnd(s: State, tx: State, items: seq<Migration>, tables: bool)
    requires Partial(s, tx, items, |items|, tables) && forall v :: v in s.applied ==> 1 <= v <= |items|
    ensures Migrates(s, tx, items) && forall k :: 0 <= k < |items| ==> Acceptable(s, items[k], tables)
  {
    assert items[..|items|] == items;
    hide Acceptable;
  }

  /** Whether every applied version is known to a binary with `count` migrations. */
  method NoNewer(applied: set<Version>, count: nat) returns (ok: bool)
    ensures ok <==> forall v :: v in applied ==> 1 <= v <= count
  {
    var unchecked := applied;
    while unchecked != {}
      invariant unchecked <= applied
      invariant forall v :: v in applied ==> v in unchecked || 1 <= v <= count
      decreases unchecked
    {
      var v :| v in unchecked;
      if !(1 <= v <= count) {
        return false;
      }
      unchecked := unchecked - {v};
    }
    return true;
  }

  ghost predicate InOrder(items: seq<Migration>) {
    forall i :: 0 <= i < |items| ==> items[i].version == i + 1
  }

  // ---- Histories of binaries ----

  /** The first `k` migrations of a catalog were applied, each statement once, in order. */
  ghost predicate UpTo(s: State, items: seq<Migration>, k: nat) {
    k <= |items| && Recorded(s.applied, items[..k]) && s.executed == Pending({}, items[..k])
  }

  /** This describes one database only. */
  lemma UpToIsOne(s: State, t: State, items: seq<Migration>, k: nat)
    requires InOrder(items) && UpTo(s, items, k) && UpTo(t, items, k)
    ensures s == t
  {
    forall v | v in s.applied
      ensures s.applied[v] == t.applied[v]
    {
      assert items[..k][v - 1].version == v;
    }
    assert s.applied.Keys == t.applied.Keys;
  }

  lemma {:induction false} PendingAfter(applied: set<Version>, items: seq<Migration>, k: nat)
    requires k <= |items| && InOrder(items)
    requires forall v :: v in applied <==> 1 <= v <= k
    ensures Pending({}, items[..k]) + Pending(applied, items) == Pending({}, items)
    decreases |items|
  {
    if k == |items| {
      NothingPending(applied, items);
      assert items[..k] == items;
    } else {
      var front := items[..|items| - 1];
      assert front[..k] == items[..k];
      assert items[|items| - 1].version == |items|;
      PendingAfter(applied, front, k);
    }
  }

  lemma {:induction false} NothingPending(applied: set<Version>, items: seq<Migration>)
    requires forall i :: 0 <= i < |items| ==> items[i].version in applied
    ensures Pending(applied, items) == []
  {
    if items != [] {
      NothingPending(applied, items[..|items| - 1]);
    }
  }

  lemma PrefixValid(items: seq<Migration>, n: nat)
    requires ValidCatalog(items) && 1 <= n <= |items|
    ensures ValidCatalog(items[..n]) && InOrder(items[..n])
  {
    hide Complete;
  }

  lemma PrefixAcceptable(s: State, items: seq<Migration>, k: nat, n: nat, tables: bool)
    requires InOrder(items) && k <= n <= |items| && Recorded(s.applied, items[..k])
    ensures forall i :: 0 <= i < n ==> Acceptable(s, items[..n][i], tables)
  {
    forall i | 0 <= i < n
      ensures Acceptable(s, items[..n][i], tables)
    {
      if i < k {
        assert items[..k][i].version in s.applied;
      }
    }
    hide Redacted;
  }

  /** A binary that knows what was applied, and perhaps more, succeeds and brings the database to
      exactly where a single run from scratch would; an older one is refused. */
  lemma UpgradeIsFreshInstall(s: State, t: State, items: seq<Migration>, k: nat, n: nat, tables: bool)
    requires ValidCatalog(items) && UpTo(s, items, k) && 1 <= n <= |items|
    ensures Compatible(s, items[..n], tables) <==> k <= n
    ensures k <= n && Migrates(s, t, items[..n]) ==> UpTo(t, items, n)
  {
    PrefixValid(items, n);
    PrefixValid(items, |items|);
    assert items[..|items|] == items;
    var known := items[..n];
    if k <= n {
      assert known[..k] == items[..k];
      PendingAfter(s.applied.Keys, known, k);
      PrefixAcceptable(s, items, k, n, tables);
    } else {
      assert k in s.applied.Keys;
    }
    hide ValidCatalog, Pending, Redacted, Acceptable, InOrder;
  }

  /** One run of one binary: it carries the first `size` migrations, and may be cut off. */
  datatype Launch = Launch(size: nat, tables: bool, cut: bool)

  function Known(items: seq<Migration>, r: Launch): seq<Migration> {
    if r.size <= |items| then items[..r.size] else items
  }

  /** What one run does, as the contract of Migrate states it. */
  ghost predicate Launched(s: State, t: State, items: seq<Migration>, r: Launch) {
    if !r.cut && Compatible(s, Known(items, r), r.tables) then Migrates(s, t, Known(items, r)) else t == s
  }

  ghost predicate History(states: seq<State>, items: seq<Migration>, runs: seq<Launch>) {
    && |states| == |runs| + 1
    && forall i :: 0 <= i < |runs| ==> Launched(states[i], states[i + 1], items, runs[i])
  }

  /** How far the history got: the largest binary that was not cut off. */
  function Reached(items: seq<Migration>, runs: seq<Launch>): nat {
    if runs == [] then 0
    else
      var before := Reached(items, runs[..|runs| - 1]);
      var size := |Known(items, runs[|runs| - 1])|;
      if runs[|runs| - 1].cut || size < before then before else size
  }

  lemma LaunchReaches(s: State, t: State, items: seq<Migration>, k: nat, r: Launch)
    requires ValidCatalog(items) && UpTo(s, items, k) && Launched(s, t, items, r)
    ensures UpTo(t, items, if r.cut || |Known(items, r)| < k then k else |Known(items, r)|)
  {
    var n := |Known(items, r)|;
    assert items[..|items|] == items;
    assert Known(items, r) == items[..n];
    if n > 0 && !r.cut {
      UpgradeIsFreshInstall(s, t, items, k, n, r.tables);
    } else {
      assert n == 0 ==> !ValidCatalog(Known(items, r));
    }
    hide ValidCatalog, UpTo, Migrates;
  }

  /** Over any history of binaries whose catalogs are prefixes of one another, in any order and with
      any failures, starting from an empty database: exactly the versions 1..k are recorded, every
      statement of the first k migrations ran once and in catalog order, and nothing else ran. */
  lemma {:induction false} HistoryIsOneRun(states: seq<State>, items: seq<Migration>, runs: seq<Launch>)
    requires ValidCatalog(items) && History(states, items, runs) && states[0] == EMPTY
    ensures UpTo(states[|runs|], items, Reached(items, runs))
    decreases |runs|
  {
    if runs == [] {
      assert items[..0] == [];
    } else {
      var n := |runs| - 1;
      HistoryIsOneRun(states[..|runs|], items, runs[..n]);
      assert Launched(states[n], states[n + 1], items, runs[n]);
      LaunchReaches(states[n], states[n + 1], items, Reached(items, runs[..n]), runs[n]);
      hide ValidCatalog, UpTo, Launched;
    }
  }

  /** Upgrading in stages leaves the same database as one run of the largest successful binary on an
      empty one. */
  lemma StagedIsOneRun(states: seq<State>, items: seq<Migration>, runs: seq<Launch>, once: State)
    requires ValidCatalog(items) && History(states, items, runs) && states[0] == EMPTY
    requires 1 <= Reached(items, runs) <= |items| && Migrates(EMPTY, once, items[..Reached(items, runs)])
    ensures states[|runs|] == once
  {
    var k := Reached(items, runs);
    HistoryIsOneRun(states, items, runs);
    assert items[..0] == [];
    UpgradeIsFreshInstall(EMPTY, once, items, 0, k, false);
    UpToIsOne(states[|runs|], once, items, k);
    hide UpTo, Migrates, History;
  }

  /** A catalog that changed an applied migration is refused, unless the change is to the redacted
      one and its tables are there; then only its record changes, and no statement runs again. */
  lemma ChangedMigration(s: State, t: State, items: seq<Migration>, k: nat, changed: Migration, tables: bool)
    requires ValidCatalog(items) && UpTo(s, items, |items|)
    requires 1 <= k <= |items| && changed.checksum != items[k - 1].checksum
    requires ValidCatalog(items[k - 1 := changed])
    ensures Compatible(s, items[k - 1 := changed], tables) <==> k == 9 && changed.name == "mining_profiles" && tables
    ensures Migrates(s, t, items[k - 1 := changed]) ==> t == State(s.applied[k := changed.checksum], s.executed)
  {
    var other := items[k - 1 := changed];
    assert items[..|items|] == items;
    PrefixValid(items, |items|);
    PrefixValid(other, |other|);
    assert other[..|other|] == other;
    NothingPending(s.applied.Keys, other);
    assert other[k - 1] == changed;
    ChangeAcceptable(s, items, k, changed, tables);
    if Migrates(s, t, other) {
      forall v | v in t.applied
        ensures t.applied[v] == s.applied[k := changed.checksum][v]
      {
        assert other[v - 1].version == v && items[v - 1].version == v;
      }
      assert t.applied.Keys == s.applied[k := changed.checksum].Keys;
      assert t.applied == s.applied[k := changed.checksum];
    }
    hide ValidCatalog, Pending, Redacted, Acceptable;
  }

  lemma ChangeAcceptable(s: State, items: seq<Migration>, k: nat, changed: Migration, tables: bool)
    requires InOrder(items) && Recorded(s.applied, items)
    requires 1 <= k <= |items| && changed.version == k && changed.checksum != items[k - 1].checksum
    ensures var other := items[k - 1 := changed];
            (forall i :: 0 <= i < |other| ==> Acceptable(s, other[i], tables)) <==> Redacted(changed) && tables
  {
    var other := items[k - 1 := changed];
    forall i | 0 <= i < |other| && i != k - 1
      ensures Acceptable(s, other[i], tables)
    {
      assert items[i].version in s.applied;
    }
    assert items[k - 1].version in s.applied;
    assert other[k - 1] == changed;
    hide Redacted;
  }
}
