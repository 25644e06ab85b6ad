/** The counter's state record and the facts about its history that every
    other module reads. */
module CounterState {

  /** One recorded acquisition: its 1-based position in the history, the pull
      total when it was recorded, the pulls it took since the previous
      acquisition (0 for the extra records of a multi-acquisition), and the
      character name current at that moment. */
  datatype Record = Record(id: int, totalAtGet: int, pullsSinceLast: int, charName: string)

  /** What `undo` needs to reverse one pull or one recorded acquisition. */
  datatype UndoEntry =
    | Pull(amount: int, totalBefore: int)
    | Get(totalBefore: int, getCount: int)

  datatype State = State(
    totalCount: int,
    pityLimit: int,
    creditPerPull: int,
    charName: string,
    history: seq<Record>,
    undoStack: seq<UndoEntry>)

  const DefaultPityLimit: int := 200

  /** The state the page starts from when nothing was saved. */
  function Defaults(): State {
    State(0, DefaultPityLimit, 0, "", [], [])
  }

  /** The pull total at the most recent acquisition, or 0 before the first one. */
  function LastGetTotal(h: seq<Record>): (r: int)
    ensures |h| == 0 ==> r == 0
    ensures NonDecreasing(h) ==> forall i :: 0 <= i < |h| ==> h[i].totalAtGet <= r
  {
    if |h| > 0 then h[|h| - 1].totalAtGet else 0
  }

  /** Every record's id is its 1-based position. */
  predicate IdsContiguous(h: seq<Record>) {
    forall i :: 0 <= i < |h| ==> h[i].id == i + 1
  }

  /** Acquisitions are recorded at pull totals that never go down. */
  predicate NonDecreasing(h: seq<Record>) {
    forall i, j :: 0 <= i <= j < |h| ==> h[i].totalAtGet <= h[j].totalAtGet
  }

  /** The sum of `pullsSinceLast` over a history. */
  function SumPulls(h: seq<Record>): int {
    if |h| == 0 then 0 else SumPulls(h[..|h| - 1]) + h[|h| - 1].pullsSinceLast
  }

  lemma {:induction false} SumPullsAppend(a: seq<Record>, b: seq<Record>)
    ensures SumPulls(a + b) == SumPulls(a) + SumPulls(b)
    decreases |b|
  {
    if |b| == 0 {
      assert a + b == a;
    } else {
      var b' := b[..|b| - 1];
      assert (a + b)[..|a + b| - 1] == a + b';
      SumPullsAppend(a, b');
    }
  }

  lemma IdsContiguousPrefix(h: seq<Record>, k: nat)
    requires IdsContiguous(h) && k <= |h|
    ensures IdsContiguous(h[..k])
  {
  }
}
