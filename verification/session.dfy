/** The page as a whole: the state plus the acquisition-count input that the
    page keeps outside the state, driven by the button and input events the
    page listens to. */
module Session {
  import opened Wrappers
  import opened CounterState
  import opened Counter
  import opened View
  import opened Summary
  import opened Replay

  /** `getCount` is the acquisition count the next recordGet uses. */
  datatype Page = Page(state: State, getCount: int)

  /** The user actions the page wires to the counter (buttons and the
      keyboard shortcuts that call the same handlers). */
  datatype Event =
    | PullButton(amount: int)
    | GetButton
    | GetCountPlus
    | GetCountMinus
    | UndoButton
    | ResetConfirmed
    | NameInput(text: string)
    | CreditInput(credit: Option<int>)
    | PityInput(limit: Option<int>)
    | PityStep(delta: int)

  /** The events the page can produce: pulls of 1, 10 or 11 and pity steps
      of +-1 or +-10; the inputs carry whatever was typed. */
  predicate ValidEvent(e: Event) {
    && (e.PullButton? ==> e.amount in {1, 10, 11})
    && (e.PityStep? ==> e.delta in {1, 10, -1, -10})
  }

  function Init(): Page {
    Page(Defaults(), 1)
  }

  /** One event handled to completion. A successful recordGet puts the
      acquisition count back to 1; a refused one leaves it as it was. */
  function Step(sess: Page, e: Event): (r: Page)
    ensures sess.getCount >= 1 ==> r.getCount >= 1
    ensures e.GetButton? ==> r.getCount == (if CanRecordGet(sess.state) then 1 else sess.getCount)
    ensures !(e.GetButton? || e.GetCountPlus? || e.GetCountMinus?) ==> r.getCount == sess.getCount
    ensures e.GetCountPlus? || e.GetCountMinus? ==> r.state == sess.state
  {
    var s := sess.state;
    match e
    case PullButton(amount) => sess.(state := AddPull(s, amount))
    case GetButton =>
      if CanRecordGet(s) then Page(RecordGet(s, sess.getCount), 1) else sess
    case GetCountPlus => sess.(getCount := sess.getCount + 1)
    case GetCountMinus =>
      if sess.getCount > 1 then sess.(getCount := sess.getCount - 1) else sess
    case UndoButton => sess.(state := Undo(s))
    case ResetConfirmed => sess.(state := ResetAll(s))
    case NameInput(text) => sess.(state := UpdateCharName(s, text))
    case CreditInput(credit) => sess.(state := UpdateCreditPerPull(s, credit))
    case PityInput(limit) => sess.(state := UpdatePityLimit(s, limit))
    case PityStep(delta) => sess.(state := AdjustPityLimit(s, delta))
  }

  /** The events handled one after the other. */
  function Run(sess: Page, events: seq<Event>): Page
    decreases |events|
  {
    if |events| == 0 then sess else Run(Step(sess, events[0]), events[1..])
  }

  /** What every session reached from the defaults satisfies. */
  predicate Inv(sess: Page) {
    var s := sess.state;
    && sess.getCount >= 1
    && s.pityLimit >= 1
    && s.creditPerPull >= 0
    && IdsContiguous(s.history)
    && Replays(s.totalCount, s.history, s.undoStack)
  }

  lemma InitInv()
    ensures Inv(Init())
  {
  }

  lemma StepInv(sess: Page, e: Event)
    requires Inv(sess) && ValidEvent(e)
    ensures Inv(Step(sess, e))
  {
    var s := sess.state;
    match e
    case PullButton(amount) => AddPullReplays(s, amount);
    case GetButton => RecordGetReplays(s, sess.getCount);
    case UndoButton => UndoReplays(s);
    case _ =>
  }

  lemma {:induction false} RunInv(sess: Page, events: seq<Event>)
    requires Inv(sess)
    requires forall i :: 0 <= i < |events| ==> ValidEvent(events[i])
    ensures Inv(Run(sess, events))
    decreases |events|
  {
    if |events| > 0 {
      StepInv(sess, events[0]);
      RunInv(Step(sess, events[0]), events[1..]);
    }
  }

  /** In every state the page reaches from its defaults: ids are positions,
      the streak is never negative, acquisition totals never go down, the
      pity countdown lies within the limit, and the credit spent is not
      negative. The groups of the intended summary (`Summarize`) account
      for every record and, in pulls, for the total at the last acquisition;
      so do those of the summary the page computes (`SummarizeAsWritten`)
      as long as no record carries an inherited property name. */
  lemma Reachable(events: seq<Event>)
    requires forall i :: 0 <= i < |events| ==> ValidEvent(events[i])
    ensures var sess := Run(Init(), events); var s := sess.state;
      && sess.getCount >= 1
      && s.totalCount >= 0 && s.pityLimit >= 1
      && IdsContiguous(s.history)
      && NonDecreasing(s.history)
      && SinceLastGet(s) >= 0
      && 0 <= PityRemain(s) <= s.pityLimit
      && TotalCredit(s) >= 0
      && SumPulls(s.history) == LastGetTotal(s.history)
      && Total(Summarize(s.history)) == Group(|s.history|, LastGetTotal(s.history))
      && ((forall i :: 0 <= i < |s.history| ==> Label(s.history[i]) !in InheritedNames) ==>
            Total(SummarizeAsWritten(s.history)) == Group(|s.history|, LastGetTotal(s.history)))
  {
    InitInv();
    RunInv(Init(), events);
    var s := Run(Init(), events).state;
    ReplaysFacts(s.totalCount, s.history, s.undoStack);
    SummaryTotals(s.history);
    if forall i :: 0 <= i < |s.history| ==> Label(s.history[i]) !in InheritedNames {
      NoInheritedGroups(s.history);
      SummaryAsWrittenAgrees(s.history);
    }
  }

  /** Pressing a pull button and then undo gives back the same session. */
  lemma PullThenUndo(sess: Page, amount: int)
    ensures Step(Step(sess, PullButton(amount)), UndoButton) == sess
  {
  }

  /** Recording an acquisition and then pressing undo gives back the same
      state, whatever the acquisition count was; only the count input is
      back at 1. */
  lemma GetThenUndo(sess: Page)
    requires Inv(sess) && CanRecordGet(sess.state)
    ensures Step(Step(sess, GetButton), UndoButton) == sess.(getCount := 1)
  {
  }

  /** A refused recordGet changes nothing, not even the count input. */
  lemma RefusedGetIsNoOp(sess: Page)
    requires !CanRecordGet(sess.state)
    ensures Step(sess, GetButton) == sess
  {
  }
}
