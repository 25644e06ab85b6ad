/** The numbers `render` computes from the state before showing them: the
    streak since the last acquisition, the pulls left before the pity
    ceiling, the near-ceiling warning and the credit spent. */
module View {
  import opened CounterState
  import opened Counter

  /** Pulls since the last acquisition (the "current streak"). */
  function SinceLastGet(s: State): (r: int)
    ensures LastGetTotal(s.history) + r == s.totalCount
    ensures CanRecordGet(s) <==> r > 0 && s.totalCount != 0
  {
    s.totalCount - LastGetTotal(s.history)
  }

  /** `Math.max(0, pityLimit - sinceLastGet)`. */
  function PityRemain(s: State): (r: int)
    ensures r >= 0 && r >= s.pityLimit - SinceLastGet(s)
    ensures r == 0 || r == s.pityLimit - SinceLastGet(s)
    ensures s.pityLimit >= 0 && SinceLastGet(s) >= 0 ==> r <= s.pityLimit
  {
    var d := s.pityLimit - SinceLastGet(s);
    if d > 0 then d else 0
  }

  /** The near-ceiling warning: some pulls remain, and at most a fifth of the
      limit does. The source compares against the float `pityLimit * 0.2`;
      since the double nearest 0.2 lies just above 1/5, that float test and
      this integer one agree for every limit below 2^52. */
  function PityNear(s: State): (r: bool)
    ensures r ==> PityRemain(s) > 0
    ensures PityRemain(s) == 0 ==> !r
    ensures r <==> 0 < s.pityLimit - SinceLastGet(s) && 5 * (s.pityLimit - SinceLastGet(s)) <= s.pityLimit
  {
    var remain := PityRemain(s);
    5 * remain <= s.pityLimit && remain > 0
  }

  /** At or past the ceiling nothing remains and no warning is shown. */
  lemma AtCeilingNoWarning(s: State)
    requires SinceLastGet(s) >= s.pityLimit
    ensures PityRemain(s) == 0 && !PityNear(s)
  {
  }

  /** The credit row is shown only for a positive credit per pull; when it is
      hidden with a credit that is not negative, the spent credit is 0. */
  predicate ShowCredit(s: State)
    ensures !ShowCredit(s) && s.creditPerPull >= 0 ==> TotalCredit(s) == 0
  {
    s.creditPerPull > 0
  }

  /** Credit spent so far: every pull costs `creditPerPull`. */
  function TotalCredit(s: State): (r: int)
    ensures s.totalCount >= 0 && s.creditPerPull >= 0 ==> r >= 0
    ensures s.creditPerPull == 0 || s.totalCount == 0 ==> r == 0
  {
    s.totalCount * s.creditPerPull
  }

  /** Each pull adds its cost to the credit spent, and undoing it takes the
      cost back off. */
  lemma PullAddsCredit(s: State, amount: int)
    ensures TotalCredit(AddPull(s, amount)) == TotalCredit(s) + amount * s.creditPerPull
    ensures TotalCredit(Undo(AddPull(s, amount))) == TotalCredit(s)
  {
  }
}
