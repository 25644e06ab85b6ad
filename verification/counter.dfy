/** The counter's operations (`js/app.js`, "カウント操作" and the setters):
    each takes the current state and returns the next one. */
module Counter {
  import opened Wrappers
  import opened CounterState

  // ---------------------------------------------------------------- addPull

  /** Records `amount` more pulls; `undo` then restores the previous total. */
  function AddPull(s: State, amount: int): (r: State)
    ensures r.totalCount == s.totalCount + amount
    ensures r.undoStack == s.undoStack + [Pull(amount, s.totalCount)]
    ensures r.history == s.history && r.charName == s.charName
    ensures r.pityLimit == s.pityLimit && r.creditPerPull == s.creditPerPull
    ensures Undo(r) == s
  {
    var r := s.(undoStack := s.undoStack + [Pull(amount, s.totalCount)]);
    assert r.undoStack[..|r.undoStack| - 1] == s.undoStack;
    r.(totalCount := r.totalCount + amount)
  }

  // -------------------------------------------------------------- recordGet

  /** recordGet's two guards: some pulls exist, and some happened since the
      last acquisition. Once the last acquisition's total is not negative,
      the first guard is implied by the second. */
  predicate CanRecordGet(s: State)
    ensures LastGetTotal(s.history) >= 0 ==>
      (CanRecordGet(s) <==> s.totalCount > LastGetTotal(s.history))
  {
    s.totalCount != 0 && s.totalCount - LastGetTotal(s.history) > 0
  }

  /** How many records one `recordGet(n)` appends: the first one always, and
      one more for each pass of the loop `for (i = 1; i < n; i++)`. */
  function GroupSize(n: int): int {
    if n > 1 then n else 1
  }

  /** The loop of recordGet: push `k` bonus records, each numbered by the
      history length at the moment it is pushed. */
  function PushBonus(h: seq<Record>, k: int, total: int, name: string): (r: seq<Record>)
    ensures |r| == |h| + (if k > 0 then k else 0)
    ensures r[..|h|] == h
    ensures forall j :: |h| <= j < |r| ==> r[j] == Record(j + 1, total, 0, name)
    decreases k
  {
    if k <= 0 then h
    else PushBonus(h + [Record(|h| + 1, total, 0, name)], k - 1, total, name)
  }

  /** recordGet with the acquisition count `n`: when the guards pass, pushes
      one `get` entry and appends a group of records at the current total,
      the first carrying the pulls since the last acquisition and the rest 0. */
  function RecordGet(s: State, n: int): (r: State)
    ensures r == s <==> !CanRecordGet(s)
    ensures CanRecordGet(s) ==>
      && r.undoStack == s.undoStack + [Get(s.totalCount, n)]
      && r.totalCount == s.totalCount
      && r.pityLimit == s.pityLimit && r.creditPerPull == s.creditPerPull
      && r.charName == s.charName
      && |r.history| == |s.history| + GroupSize(n)
      && r.history[..|s.history|] == s.history
      && (forall j :: |s.history| <= j < |r.history| ==>
            r.history[j] == Record(j + 1, s.totalCount,
                                   if j == |s.history| then s.totalCount - LastGetTotal(s.history) else 0,
                                   s.charName))
    ensures IdsContiguous(s.history) ==> IdsContiguous(r.history)
  {
    if s.totalCount == 0 then s
    else
      var pullsSinceLast := s.totalCount - LastGetTotal(s.history);
      if pullsSinceLast <= 0 then s
      else
        var first := s.history + [Record(|s.history| + 1, s.totalCount, pullsSinceLast, s.charName)];
        var h := PushBonus(first, n - 1, s.totalCount, s.charName);
        assert h[..|s.history|] == first[..|s.history|] == s.history;
        assert |s.undoStack + [Get(s.totalCount, n)]| != |s.undoStack|;
        s.(undoStack := s.undoStack + [Get(s.totalCount, n)], history := h)
  }

  // ------------------------------------------------------------------- undo

  /** `getCount || 1`: an entry whose count is 0 undoes one record. */
  function UndoCount(getCount: int): int {
    if getCount == 0 then 1 else getCount
  }

  /** How many records `k` calls of `pop()` remove from a history of length
      `len`: popping an empty array removes nothing. */
  function Removed(k: int, len: nat): (r: nat)
    ensures r <= len
  {
    if k <= 0 then 0 else if k < len then k else len
  }

  /** The loop of undo: pop the history `k` times. */
  function DropLast(h: seq<Record>, k: int): (r: seq<Record>)
    ensures r == h[..|h| - Removed(k, |h|)]
    decreases k
  {
    if k <= 0 || |h| == 0 then h else DropLast(h[..|h| - 1], k - 1)
  }

  /** undo's renumbering pass: each record's id becomes its position + 1;
      nothing else about a record changes. */
  function Renumber(h: seq<Record>): (r: seq<Record>)
    ensures |r| == |h| && IdsContiguous(r)
    ensures forall i :: 0 <= i < |h| ==> r[i].(id := h[i].id) == h[i]
    ensures IdsContiguous(h) ==> r == h
  {
    seq(|h|, i requires 0 <= i < |h| => h[i].(id := i + 1))
  }

  /** Pops the newest undo entry and reverses it: a `pull` restores the total
      it saved, a `get` drops its group of records and renumbers the rest. */
  function Undo(s: State): (r: State)
    ensures r.pityLimit == s.pityLimit && r.creditPerPull == s.creditPerPull
    ensures r.charName == s.charName
    ensures |s.undoStack| == 0 ==> r == s
    ensures |s.undoStack| > 0 ==> r.undoStack == s.undoStack[..|s.undoStack| - 1]
    ensures |s.undoStack| > 0 && s.undoStack[|s.undoStack| - 1].Pull? ==>
      r.totalCount == s.undoStack[|s.undoStack| - 1].totalBefore && r.history == s.history
    ensures |s.undoStack| > 0 && s.undoStack[|s.undoStack| - 1].Get? ==>
      && r.totalCount == s.totalCount
      && IdsContiguous(r.history)
      && var keep := |s.history| - Removed(UndoCount(s.undoStack[|s.undoStack| - 1].getCount), |s.history|);
         |r.history| == keep &&
         forall i :: 0 <= i < keep ==> r.history[i].(id := s.history[i].id) == s.history[i]
  {
    if |s.undoStack| == 0 then s
    else
      var last := s.undoStack[|s.undoStack| - 1];
      var s' := s.(undoStack := s.undoStack[..|s.undoStack| - 1]);
      match last
      case Pull(_, totalBefore) => s'.(totalCount := totalBefore)
      case Get(_, getCount) =>
        s'.(history := Renumber(DropLast(s.history, UndoCount(getCount))))
  }

  /** An acquisition that was recorded and then undone leaves the state as it
      was, for a history whose ids are already contiguous and any group size
      the undo entry can reverse. */
  lemma UndoAfterRecordGet(s: State, n: int)
    requires CanRecordGet(s) && IdsContiguous(s.history) && n >= 0
    ensures Undo(RecordGet(s, n)) == s
  {
  }

  /** A negative acquisition count breaks the inverse: one record is added but
      `undo` pops none. The UI never produces one (its counter stops at 1). */
  lemma UndoAfterNegativeGetKeepsRecord(s: State)
    requires CanRecordGet(s) && IdsContiguous(s.history)
    ensures |Undo(RecordGet(s, -1)).history| == |s.history| + 1
  {
  }

  // --------------------------------------------------------------- resetAll

  /** Clears the progress (total, name, history, undo stack) and keeps the
      two preferences, the pity limit and the credit per pull. */
  function ResetAll(s: State): (r: State)
    ensures r == Defaults().(pityLimit := s.pityLimit, creditPerPull := s.creditPerPull)
  {
    s.(totalCount := 0, charName := "", history := [], undoStack := [])
  }

  /** After a reset there is nothing to undo, and resetting again changes nothing. */
  lemma ResetIsFinal(s: State)
    ensures Undo(ResetAll(s)) == ResetAll(s)
    ensures ResetAll(ResetAll(s)) == ResetAll(s)
  {
  }

  // ---------------------------------------------------------------- setters

  /** Stores the typed name verbatim as the label for future acquisitions. */
  function UpdateCharName(s: State, value: string): (r: State)
    ensures r.charName == value
    ensures r.history == s.history && r.undoStack == s.undoStack && r.totalCount == s.totalCount
    ensures r.pityLimit == s.pityLimit && r.creditPerPull == s.creditPerPull
  {
    s.(charName := value)
  }

  /** A rename labels the next acquisition and leaves the recorded ones alone. */
  lemma RenameLabelsOnlyFutureRecords(s: State, name: string, n: int)
    requires CanRecordGet(s)
    ensures var r := RecordGet(UpdateCharName(s, name), n);
      && r.history[..|s.history|] == s.history
      && forall j :: |s.history| <= j < |r.history| ==> r.history[j].charName == name
  {
  }

  /** updatePityLimit with the parsed input (`None` is `NaN`): anything that
      is not an integer of at least 1 is ignored. */
  function UpdatePityLimit(s: State, input: Option<int>): (r: State)
    ensures input.Some? && input.value >= 1 ==> r == s.(pityLimit := input.value)
    ensures !(input.Some? && input.value >= 1) ==> r == s
    ensures s.pityLimit >= 1 ==> r.pityLimit >= 1
  {
    match input
    case None => s
    case Some(num) => if num < 1 then s else s.(pityLimit := num)
  }

  /** The +1/+10/-1/-10 buttons: a step that would leave the limit below 1 is
      rejected outright, not clamped to 1. */
  function AdjustPityLimit(s: State, delta: int): (r: State)
    ensures s.pityLimit + delta >= 1 ==> r == s.(pityLimit := s.pityLimit + delta)
    ensures s.pityLimit + delta < 1 ==> r == s
  {
    UpdatePityLimit(s, Some(s.pityLimit + delta))
  }

  /** For instance, a limit of 5 stays 5 after -10 (it does not become 1). */
  lemma AdjustBelowOneIsRejected()
    ensures AdjustPityLimit(Defaults().(pityLimit := 5), -10).pityLimit == 5
  {
  }

  /** The credit input's coercion: an integer of at least 0 is kept, anything
      else (negative, or `NaN`) becomes 0. */
  function CoerceCredit(input: Option<int>): (r: int)
    ensures r >= 0
    ensures input.Some? && input.value >= 0 ==> r == input.value
    ensures !(input.Some? && input.value >= 0) ==> r == 0
  {
    match input
    case None => 0
    case Some(num) => if num < 0 then 0 else num
  }

  /** The credit input's change handler. */
  function UpdateCreditPerPull(s: State, input: Option<int>): (r: State)
    ensures r.creditPerPull == CoerceCredit(input)
    ensures r.(creditPerPull := s.creditPerPull) == s
  {
    s.(creditPerPull := CoerceCredit(input))
  }
}
