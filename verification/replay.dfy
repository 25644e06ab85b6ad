/** The invariant that holds of every state the counter reaches from its
    defaults: read from the newest entry down, the undo stack replays the
    whole progress, each `pull` entry accounting for part of the total and
    each `get` entry for the group of records at the end of the history. */
module Replay {
  import opened CounterState
  import opened Counter

  /** The last `n` records of `h` are the group a successful
      `recordGet(n)` appends at pull total `total`. */
  predicate IsGetGroup(h: seq<Record>, n: int, total: int)
    requires 1 <= n <= |h|
  {
    var start := |h| - n;
    && total - LastGetTotal(h[..start]) > 0
    && forall j :: start <= j < |h| ==>
         h[j].totalAtGet == total
         && h[j].pullsSinceLast == (if j == start then total - LastGetTotal(h[..start]) else 0)
  }

  /** `stack` rebuilds the pull total `total` and the history `h` from the
      empty state. */
  predicate Replays(total: int, h: seq<Record>, stack: seq<UndoEntry>)
    decreases |stack|
  {
    if |stack| == 0 then total == 0 && h == []
    else
      var rest := stack[..|stack| - 1];
      match stack[|stack| - 1]
      case Pull(amount, totalBefore) =>
        amount >= 0 && total == totalBefore + amount && Replays(totalBefore, h, rest)
      case Get(totalBefore, n) =>
        && 1 <= n <= |h|
        && totalBefore == total
        && IsGetGroup(h, n, total)
        && Replays(total, h[..|h| - n], rest)
  }

  /** What a replayable state guarantees: the total never falls below the
      last acquisition's total, acquisition totals never go down, and the
      pulls of all records add up to the last acquisition's total. */
  lemma {:induction false} ReplaysFacts(total: int, h: seq<Record>, stack: seq<UndoEntry>)
    requires Replays(total, h, stack)
    ensures 0 <= LastGetTotal(h) <= total
    ensures NonDecreasing(h)
    ensures forall i :: 0 <= i < |h| ==> h[i].totalAtGet <= total && h[i].pullsSinceLast >= 0
    ensures SumPulls(h) == LastGetTotal(h)
    decreases |stack|
  {
    if |stack| > 0 {
      var rest := stack[..|stack| - 1];
      match stack[|stack| - 1]
      case Pull(amount, totalBefore) =>
        ReplaysFacts(totalBefore, h, rest);
      case Get(_, n) =>
        ReplaysFacts(total, h[..|h| - n], rest);
        GroupFacts(total, h, n);
    }
  }

  /** The facts of `ReplaysFacts` carry over from a history to the history
      with a get group appended. */
  lemma GroupFacts(total: int, h: seq<Record>, n: int)
    requires 1 <= n <= |h| && IsGetGroup(h, n, total)
    requires var base := h[..|h| - n];
      && 0 <= LastGetTotal(base) <= total
      && NonDecreasing(base)
      && (forall i :: 0 <= i < |base| ==> base[i].totalAtGet <= total && base[i].pullsSinceLast >= 0)
      && SumPulls(base) == LastGetTotal(base)
    ensures 0 <= LastGetTotal(h) <= total
    ensures NonDecreasing(h)
    ensures forall i :: 0 <= i < |h| ==> h[i].totalAtGet <= total && h[i].pullsSinceLast >= 0
    ensures SumPulls(h) == LastGetTotal(h)
  {
    var base, group := h[..|h| - n], h[|h| - n..];
    assert h == base + group;
    GroupPulls(group, total - LastGetTotal(base));
    SumPullsAppend(base, group);
    forall i, j | 0 <= i <= j < |h|
      ensures h[i].totalAtGet <= h[j].totalAtGet
    {
      if j < |h| - n {
        assert h[i] == base[i] && h[j] == base[j];
      } else if i < |h| - n {
        assert h[i] == base[i];
      }
    }
  }

  /** A group whose first record carries `since` pulls and the rest 0. */
  lemma {:induction false} GroupPulls(g: seq<Record>, since: int)
    requires |g| >= 1
    requires g[0].pullsSinceLast == since
    requires forall j :: 1 <= j < |g| ==> g[j].pullsSinceLast == 0
    ensures SumPulls(g) == since
    decreases |g|
  {
    if |g| > 1 {
      GroupPulls(g[..|g| - 1], since);
    } else {
      assert g[..0] == [];
    }
  }

  // ------------------------------------------------- each operation keeps it

  lemma AddPullReplays(s: State, amount: int)
    requires Replays(s.totalCount, s.history, s.undoStack) && amount >= 0
    ensures var r := AddPull(s, amount); Replays(r.totalCount, r.history, r.undoStack)
  {
  }

  lemma RecordGetReplays(s: State, n: int)
    requires Replays(s.totalCount, s.history, s.undoStack) && n >= 1
    ensures var r := RecordGet(s, n); Replays(r.totalCount, r.history, r.undoStack)
  {
  }

  lemma UndoReplays(s: State)
    requires Replays(s.totalCount, s.history, s.undoStack) && IdsContiguous(s.history)
    ensures var r := Undo(s); Replays(r.totalCount, r.history, r.undoStack)
  {
  }
}
