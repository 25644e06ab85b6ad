/** Saving and loading the state (`save`/`load`), without the storage
    itself: a snapshot is the parsed stored object, each field of which may
    be missing. */
module Persistence {
  import opened Wrappers
  import opened CounterState
  import Session

  /** The stored object after `JSON.parse`; `None` is a missing (`null` or
      `undefined`) field. */
  datatype Snapshot = Snapshot(
    totalCount: Option<int>,
    pityLimit: Option<int>,
    creditPerPull: Option<int>,
    charName: Option<string>,
    history: Option<seq<Record>>,
    undoStack: Option<seq<UndoEntry>>)

  /** What `save` writes: every field of the state. */
  function Save(s: State): (r: Snapshot)
    ensures Load(Some(r)) == s
  {
    Snapshot(Some(s.totalCount), Some(s.pityLimit), Some(s.creditPerPull),
             Some(s.charName), Some(s.history), Some(s.undoStack))
  }

  /** What `load` leaves in the state at start-up. `None` stands for every
      way of finding nothing usable: no stored item, an empty one, or one
      that does not parse into an object; the state then keeps its defaults.
      Otherwise each missing field falls back to its own default. */
  function Load(stored: Option<Snapshot>): (r: State)
    ensures stored.None? ==> r == Defaults()
    ensures stored.Some? ==>
      var d := Defaults();
      var p := stored.value;
      && r.totalCount == (if p.totalCount.Some? then p.totalCount.value else d.totalCount)
      && r.pityLimit == (if p.pityLimit.Some? then p.pityLimit.value else d.pityLimit)
      && r.creditPerPull == (if p.creditPerPull.Some? then p.creditPerPull.value else d.creditPerPull)
      && r.charName == (if p.charName.Some? then p.charName.value else d.charName)
      && r.history == (if p.history.Some? then p.history.value else d.history)
      && r.undoStack == (if p.undoStack.Some? then p.undoStack.value else d.undoStack)
  {
    var d := Defaults();
    match stored
    case None => d
    case Some(p) =>
      State(p.totalCount.GetOr(d.totalCount), p.pityLimit.GetOr(d.pityLimit),
            p.creditPerPull.GetOr(d.creditPerPull), p.charName.GetOr(d.charName),
            p.history.GetOr(d.history), p.undoStack.GetOr(d.undoStack))
  }

  /** Loading what was saved gives the saved state back. */
  lemma LoadSave(s: State)
    ensures Load(Some(Save(s))) == s
  {
  }

  /** An object with no known fields loads as the defaults. */
  lemma LoadEmptyObject()
    ensures Load(Some(Snapshot(None, None, None, None, None, None))) == Defaults()
  {
  }

  /** Reloading the page after a save keeps the session within the states
      reachable from the defaults; the acquisition count starts at 1 again. */
  lemma ReloadKeepsInv(sess: Session.Page)
    requires Session.Inv(sess)
    ensures Session.Inv(Session.Page(Load(Some(Save(sess.state))), 1))
  {
  }
}
