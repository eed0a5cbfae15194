/** The outputs a pass over a completed job has yet to archive, as values. */
module OutputClaims {
  import opened ArchiveResults
  import opened Options

  function Members(outputs: seq<nat>): set<nat> {
    set o | o in outputs
  }

  /** The outputs not claimed before, each once, in the order reported. */
  function Unclaimed(claimed: set<nat>, outputs: seq<nat>): seq<nat>
    decreases |outputs|
  {
    if outputs == [] then []
    else if outputs[0] in claimed then Unclaimed(claimed, outputs[1..])
    else [outputs[0]] + Unclaimed(claimed + {outputs[0]}, outputs[1..])
  }

  lemma {:induction false} UnclaimedMembers(claimed: set<nat>, outputs: seq<nat>)
    ensures Members(Unclaimed(claimed, outputs)) == Members(outputs) - claimed
    ensures var rest := Unclaimed(claimed, outputs); forall i, j :: 0 <= i < j < |rest| ==> rest[i] != rest[j]
    decreases |outputs|
  {
    if outputs != [] {
      var rest := outputs[1..];
      assert outputs == [outputs[0]] + rest;
      MembersOfConcat([outputs[0]], rest);
      if outputs[0] in claimed {
        UnclaimedMembers(claimed, rest);
      } else {
        var more := Unclaimed(claimed + {outputs[0]}, rest);
        UnclaimedMembers(claimed + {outputs[0]}, rest);
        MembersOfConcat([outputs[0]], more);
        assert outputs[0] !in Members(more);
      }
    }
  }

  lemma MembersOfConcat(a: seq<nat>, b: seq<nat>)
    ensures Members(a + b) == Members(a) + Members(b)
    ensures |a| == 1 ==> Members(a) == {a[0]} && a + b != [] && (a + b)[0] == a[0] && (a + b)[1..] == b
    ensures forall k :: 0 <= k < |b| ==> b[k] in Members(b)
  {
  }

  /** The outputs a pass archives: all of them when the process does not remember the prompt. */
  function ToArchive(claimed: Option<set<nat>>, outputs: seq<nat>): seq<nat> {
    if claimed.None? then outputs else Unclaimed(claimed.value, outputs)
  }

  /** Whether a pass archives without an error, when these are the results. */
  predicate Archives(claimed: Option<set<nat>>, outputs: seq<nat>, results: nat -> ArchiveResult) {
    forall o <- ToArchive(claimed, outputs) :: !results(o).ArchiveFailed?
  }

  /** Everything claimed is done: no other pass is at work. */
  predicate Settled(claimed: Option<set<nat>>, done: set<nat>) {
    claimed.Some? ==> claimed.value <= done
  }

  // ---- The key under which an output is claimed ----

  datatype Output = Output(filename: string, subfolder: string, storage: string)

  const NUL: char := '\0'

  function Key(o: Output): string {
    o.filename + [NUL] + o.subfolder + [NUL] + o.storage
  }

  lemma {:induction false} SplitAtNul(a: string, b: string, x: string, y: string)
    requires NUL !in a && NUL !in b && a + [NUL] + x == b + [NUL] + y
    ensures a == b && x == y
  {
    var s, t := a + [NUL] + x, b + [NUL] + y;
    assert s[0] == (if a == "" then NUL else a[0]) && s[1..] == (if a == "" then x else a[1..] + [NUL] + x);
    assert t[0] == (if b == "" then NUL else b[0]) && t[1..] == (if b == "" then y else b[1..] + [NUL] + y);
    if a != "" && b != "" {
      SplitAtNul(a[1..], b[1..], x, y);
    }
  }

  /** Outputs whose names hold no NUL have the same key only if they are the same output. */
  lemma KeyIdentifies(o: Output, p: Output)
    requires NUL !in o.filename + o.subfolder && NUL !in p.filename + p.subfolder
    ensures Key(o) == Key(p) <==> o == p
  {
    if Key(o) == Key(p) {
      assert Key(o) == o.filename + [NUL] + (o.subfolder + [NUL] + o.storage);
      assert Key(p) == p.filename + [NUL] + (p.subfolder + [NUL] + p.storage);
      SplitAtNul(o.filename, p.filename, o.subfolder + [NUL] + o.storage, p.subfolder + [NUL] + p.storage);
      SplitAtNul(o.subfolder, p.subfolder, o.storage, p.storage);
    }
  }
}
