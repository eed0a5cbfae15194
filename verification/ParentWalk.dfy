/**
  Finding the user message an assistant answered: the walk along parent links, bounded by the
  number of messages, because links may be missing, wrong or cyclic.
*/
module ParentWalk {
  import opened Options

  // Message ids are only looked up, so they are numbered; zero is the empty id.
  datatype Message = Message(parent: nat, user: bool)

  /** The chat as stored; an entry that is not an object is None. */
  type Messages = map<nat, Option<Message>>

  predicate Known(messages: Messages, id: nat) {
    id != 0 && id in messages && messages[id].Some?
  }

  /** The id of an ancestor, counting from the parent of the start; zero where the links end. */
  function Ancestor(messages: Messages, start: Message, k: nat): (id: nat)
    ensures id != 0 ==> Known(messages, id)
  {
    if k == 0 then
      if Known(messages, start.parent) then start.parent else 0
    else
      var below := Ancestor(messages, start, k - 1);
      if below == 0 then 0
      else
        var parent := messages[below].value.parent;
        if Known(messages, parent) then parent else 0
  }

  predicate UserAt(messages: Messages, start: Message, k: nat) {
    var id := Ancestor(messages, start, k);
    id != 0 && messages[id].value.user
  }

  lemma {:induction false} LinksEnd(messages: Messages, start: Message, k: nat, m: nat)
    requires k <= m && Ancestor(messages, start, k) == 0
    ensures Ancestor(messages, start, m) == 0
  {
    if k < m { LinksEnd(messages, start, k, m - 1); }
  }

  /** Where two ancestors agree, all that follow agree. */
  lemma {:induction false} Repeats(messages: Messages, start: Message, i: nat, j: nat, m: nat)
    requires Ancestor(messages, start, i) == Ancestor(messages, start, j)
    ensures Ancestor(messages, start, i + m) == Ancestor(messages, start, j + m)
  {
    if m > 0 { Repeats(messages, start, i, j, m - 1); }
  }

  /** More places than values: two places hold the same value. */
  lemma {:induction false} Pigeonhole(s: seq<nat>, values: set<nat>) returns (i: nat, j: nat)
    requires |s| > |values| && forall x <- s :: x in values
    ensures i < j < |s| && s[i] == s[j]
    decreases |s|
  {
    var last := |s| - 1;
    if k :| 0 <= k < last && s[k] == s[last] {
      return k, last;
    }
    assert s[last] in values;
    i, j := Pigeonhole(s[..last], values - {s[last]});
  }

  /** If the first `n` ancestors exist and none is a user's, no later one is either, where `n` is the
      number of messages. */
  lemma BoundSuffices(messages: Messages, start: Message, m: nat)
    requires forall k :: 0 <= k < |messages| ==> Ancestor(messages, start, k) != 0 && !UserAt(messages, start, k)
    ensures !UserAt(messages, start, m)
    decreases m
  {
    var n := |messages|;
    if m >= n {
      if Ancestor(messages, start, n) == 0 {
        LinksEnd(messages, start, n, m);
      } else {
        var ids := seq(n + 1, k requires 0 <= k <= n => Ancestor(messages, start, k));
        assert |messages.Keys| == n;
        var i, j := Pigeonhole(ids, messages.Keys);
        Repeats(messages, start, i, j, m - j);
        BoundSuffices(messages, start, i + (m - j));
      }
    }
  }

  /** openWebParentUserMessage: returns the nearest user message up the links, on every graph, and
      nothing exactly when none can be reached. */
  method ParentUser(messages: Messages, start: Message) returns (found: nat)
    ensures found != 0 ==>
              exists k: nat :: Ancestor(messages, start, k) == found && UserAt(messages, start, k)
                          && forall j :: 0 <= j < k ==> !UserAt(messages, start, j)
    ensures found == 0 <==> forall k: nat :: !UserAt(messages, start, k)
  {
    var message := start;
    for i := 0 to |messages|
      invariant i > 0 ==> Ancestor(messages, start, i - 1) != 0
                          && message == messages[Ancestor(messages, start, i - 1)].value
      invariant i == 0 ==> message == start
      invariant forall k :: 0 <= k < i ==> Ancestor(messages, start, k) != 0 && !UserAt(messages, start, k)
    {
      var id := message.parent;
      if !Known(messages, id) {
        assert Ancestor(messages, start, i) == 0;
        forall k: nat
          ensures !UserAt(messages, start, k)
        {
          if k >= i { LinksEnd(messages, start, i, k); }
        }
        return 0;
      }
      assert Ancestor(messages, start, i) == id;
      if messages[id].value.user {
        assert UserAt(messages, start, i);
        return id;
      }
      message := messages[id].value;
    }
    forall k: nat
      ensures !UserAt(messages, start, k)
    {
      BoundSuffices(messages, start, k);
    }
    return 0;
  }
}
