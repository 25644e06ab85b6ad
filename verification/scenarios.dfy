/** Worked examples of the counter's behaviour on concrete inputs. */
module Scenarios {
  import opened CounterState
  import opened Counter
  import opened View

  /** From the defaults, ten pulls leave 190 to the ceiling; recording an
      acquisition gives one record with id 1 at total 10 after 10 pulls; undo
      removes it and keeps the total. */
  lemma PullGetUndo()
    ensures var s1 := AddPull(Defaults(), 10);
      && s1.totalCount == 10 && SinceLastGet(s1) == 10 && PityRemain(s1) == 190
      && var s2 := RecordGet(s1, 1);
      && s2.history == [Record(1, 10, 10, "")]
      && var s3 := Undo(s2);
      && s3.history == [] && s3.totalCount == 10
  {
  }

  /** Three acquisitions at once at total 50 give one record with the 50
      pulls and two with none, all at total 50; a single undo removes all
      three. */
  lemma TripleGet(s: State)
    requires s.totalCount == 50 && s.history == []
    ensures var r := RecordGet(s, 3);
      && |r.history| == 3
      && r.history[0].pullsSinceLast == 50 && r.history[1].pullsSinceLast == 0
      && r.history[2].pullsSinceLast == 0
      && r.history[0].totalAtGet == r.history[1].totalAtGet == r.history[2].totalAtGet == 50
      && Undo(r).history == []
  {
  }

  /** A reset clears the progress and keeps a changed pity limit and credit. */
  lemma ResetKeepsPreferences(s: State)
    requires s.pityLimit == 300 && s.creditPerPull == 150
    ensures var r := ResetAll(s);
      && r.totalCount == 0 && r.charName == "" && r.history == [] && r.undoStack == []
      && r.pityLimit == 300 && r.creditPerPull == 150
  {
  }
}
