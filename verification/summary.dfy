/** The acquisition summary of `renderSummary`: the history grouped by
    character name, with per-name counts and pull sums. */
module Summary {
  import opened CounterState

  /** The bucket that records without a character name fall into. */
  const UnsetLabel: string := "(名前未設定)"

  /** The name a record is grouped under (`item.charName || UnsetLabel`). */
  function Label(item: Record): string {
    if item.charName == "" then UnsetLabel else item.charName
  }

  /** The labels of a history, in order. */
  function Labels(h: seq<Record>): (r: seq<string>)
    ensures |r| == |h| && forall i :: 0 <= i < |h| ==> r[i] == Label(h[i])
  {
    seq(|h|, i requires 0 <= i < |h| => Label(h[i]))
  }

  /** The pulls of the records grouped under `name`. */
  function PullsFor(h: seq<Record>, name: string): int {
    if |h| == 0 then 0
    else PullsFor(h[..|h| - 1], name) + (if Label(h[|h| - 1]) == name then h[|h| - 1].pullsSinceLast else 0)
  }

  /** A name no record carries has no pulls. */
  lemma {:induction false} PullsForAbsent(h: seq<Record>, name: string)
    requires name !in Labels(h)
    ensures PullsFor(h, name) == 0
    decreases |h|
  {
    if |h| > 0 {
      assert Labels(h[..|h| - 1]) == Labels(h)[..|h| - 1];
      PullsForAbsent(h[..|h| - 1], name);
    }
  }

  datatype Group = Group(count: int, totalPulls: int)

  function Plus(a: Group, b: Group): Group {
    Group(a.count + b.count, a.totalPulls + b.totalPulls)
  }

  /** One pass of the grouping loop: create the group on first sight, then
      count the record and add its pulls. */
  function Tally(groups: map<string, Group>, item: Record): (r: map<string, Group>)
    ensures forall k :: k in r <==> k in groups || k == Label(item)
    ensures forall k :: k in groups && k != Label(item) ==> r[k] == groups[k]
    ensures Label(item) in groups ==>
      r[Label(item)] == Group(groups[Label(item)].count + 1, groups[Label(item)].totalPulls + item.pullsSinceLast)
    ensures Label(item) !in groups ==> r[Label(item)] == Group(1, item.pullsSinceLast)
  {
    var name := Label(item);
    var g := if name in groups then groups[name] else Group(0, 0);
    groups[name := Plus(g, Group(1, item.pullsSinceLast))]
  }

  /** The summary: the history folded through `Tally`, oldest record first. */
  function Summarize(h: seq<Record>): (r: map<string, Group>)
    ensures r == map[] <==> |h| == 0
    ensures forall k :: k in r ==> r[k].count >= 1
  {
    if |h| == 0 then map[] else Tally(Summarize(h[..|h| - 1]), h[|h| - 1])
  }

  /** The summary holds a group for a name exactly when some record carries
      that label, and the group counts those records and sums their pulls. */
  lemma {:induction false} SummaryGroup(h: seq<Record>, k: string)
    ensures k in Summarize(h) <==> k in Labels(h)
    ensures k in Summarize(h) ==> Summarize(h)[k] == Group(multiset(Labels(h))[k], PullsFor(h, k))
    decreases |h|
  {
    if |h| > 0 {
      var h' := h[..|h| - 1];
      var item := h[|h| - 1];
      SummaryGroup(h', k);
      var m', m := Summarize(h'), Summarize(h);
      var count' := multiset(Labels(h'))[k];
      LabelsSnoc(h);
      assert m == Tally(m', item);
      if Label(item) != k {
        assert multiset(Labels(h))[k] == count';
        assert PullsFor(h, k) == PullsFor(h', k);
        assert k in m <==> k in m';
      } else {
        assert multiset(Labels(h))[k] == count' + 1;
        assert PullsFor(h, k) == PullsFor(h', k) + item.pullsSinceLast;
        if k !in m' {
          assert count' == 0;
          PullsForAbsent(h', k);
        }
      }
    }
  }

  /** The labels of a history are those of all but its last record, then the
      last one's. */
  lemma LabelsSnoc(h: seq<Record>)
    requires |h| > 0
    ensures Labels(h) == Labels(h[..|h| - 1]) + [Label(h[|h| - 1])]
    ensures multiset(Labels(h)) == multiset(Labels(h[..|h| - 1])) + multiset{Label(h[|h| - 1])}
  {
    assert Labels(h) == Labels(h[..|h| - 1]) + [Label(h[|h| - 1])];
  }

  /** The component-wise sum of all groups of a summary. */
  ghost function Total(m: map<string, Group>): Group
    decreases |m|
  {
    if m == map[] then Group(0, 0)
    else
      var k :| k in m;
      Plus(m[k], Total(m - {k}))
  }

  /** The total does not depend on which group is taken out first. */
  lemma {:induction false} TotalRemove(m: map<string, Group>, k: string)
    requires k in m
    ensures Total(m) == Plus(m[k], Total(m - {k}))
    decreases |m|
  {
    var j :| j in m && Total(m) == Plus(m[j], Total(m - {j}));
    if j != k {
      var rest := m - {j} - {k};
      assert rest == m - {k} - {j};
      TotalRemove(m - {j}, k);
      TotalRemove(m - {k}, j);
      assert Total(m - {j}) == Plus(m[k], Total(rest));
      assert Total(m - {k}) == Plus(m[j], Total(rest));
      assert Total(m) == Plus(m[j], Plus(m[k], Total(rest)));
    }
  }

  /** Adding a record to the summary adds one to the count total and its
      pulls to the pulls total. */
  lemma TotalTally(m: map<string, Group>, item: Record)
    ensures Total(Tally(m, item)) == Plus(Total(m), Group(1, item.pullsSinceLast))
  {
    var name := Label(item);
    var t := Tally(m, item);
    TotalRemove(t, name);
    assert t - {name} == m - {name};
    if name in m {
      TotalRemove(m, name);
    } else {
      assert m - {name} == m;
    }
  }

  /** The group counts add up to the length of the history, and the group
      pulls to the pulls of the whole history. */
  lemma {:induction false} SummaryTotals(h: seq<Record>)
    ensures Total(Summarize(h)) == Group(|h|, SumPulls(h))
    decreases |h|
  {
    if |h| > 0 {
      SummaryTotals(h[..|h| - 1]);
      TotalTally(Summarize(h[..|h| - 1]), h[|h| - 1]);
    }
  }

  // ------------------------------------------------- the source as written

  /** The properties every plain JavaScript object inherits from
      `Object.prototype` (section 20.1.3 of ECMA-262, with the Annex B
      accessors). `renderSummary` keeps its groups in such an object. */
  const InheritedNames: set<string> := {
    "constructor", "hasOwnProperty", "isPrototypeOf", "propertyIsEnumerable",
    "toLocaleString", "toString", "valueOf", "__proto__",
    "__defineGetter__", "__defineSetter__", "__lookupGetter__", "__lookupSetter__"}

  /** One pass of the grouping loop as the source runs it: for an inherited
      name, `groups[name]` is already truthy, so no group is created and the
      `+=` updates land on the inherited value, not on `groups`. */
  function TallyAsWritten(groups: map<string, Group>, item: Record): (r: map<string, Group>)
    ensures Label(item) in InheritedNames ==> r == groups
    ensures Label(item) !in InheritedNames ==> r == Tally(groups, item)
  {
    if Label(item) in InheritedNames then groups else Tally(groups, item)
  }

  /** The summary as the source computes it (what `Object.entries` then lists). */
  function SummarizeAsWritten(h: seq<Record>): (r: map<string, Group>)
    ensures forall k :: k in r ==> k !in InheritedNames && k in Labels(h)
  {
    if |h| == 0 then map[] else TallyAsWritten(SummarizeAsWritten(h[..|h| - 1]), h[|h| - 1])
  }

  /** The source's summary is the intended one with every inherited name
      missing. */
  lemma SummaryAsWrittenDropsInheritedNames(h: seq<Record>)
    ensures SummarizeAsWritten(h) == Summarize(h) - InheritedNames
  {
    var aw, m := SummarizeAsWritten(h), Summarize(h) - InheritedNames;
    forall k
      ensures k in aw <==> k in m
      ensures k in aw ==> aw[k] == m[k]
    {
      SummaryAsWrittenAt(h, k);
    }
  }

  /** `SummaryAsWrittenDropsInheritedNames` for one name. */
  lemma {:induction false} SummaryAsWrittenAt(h: seq<Record>, k: string)
    ensures k in SummarizeAsWritten(h) <==> k in Summarize(h) && k !in InheritedNames
    ensures k in SummarizeAsWritten(h) ==> SummarizeAsWritten(h)[k] == Summarize(h)[k]
    decreases |h|
  {
    if |h| > 0 {
      var h' := h[..|h| - 1];
      var item := h[|h| - 1];
      SummaryAsWrittenAt(h', k);
      assert SummarizeAsWritten(h) == TallyAsWritten(SummarizeAsWritten(h'), item);
      assert Summarize(h) == Tally(Summarize(h'), item);
    }
  }

  /** When no group name is inherited, the source's summary is the intended
      one. */
  lemma SummaryAsWrittenAgrees(h: seq<Record>)
    requires Summarize(h).Keys !! InheritedNames
    ensures SummarizeAsWritten(h) == Summarize(h)
  {
    SummaryAsWrittenDropsInheritedNames(h);
    assert Summarize(h) - InheritedNames == Summarize(h);
  }

  /** No group name is inherited when no record's label is. */
  lemma {:induction false} NoInheritedGroups(h: seq<Record>)
    requires forall i :: 0 <= i < |h| ==> Label(h[i]) !in InheritedNames
    ensures Summarize(h).Keys !! InheritedNames
    decreases |h|
  {
    if |h| > 0 {
      var h' := h[..|h| - 1];
      var item := h[|h| - 1];
      assert forall i :: 0 <= i < |h'| ==> h'[i] == h[i];
      NoInheritedGroups(h');
      assert Label(item) !in InheritedNames;
      assert Summarize(h).Keys == Summarize(h').Keys + {Label(item)};
    }
  }

  /** A single acquisition recorded under the name "toString" vanishes from
      the source's summary, so its counts no longer add up to the history
      length; the intended summary keeps it. */
  lemma SummaryAsWrittenLosesInheritedNames()
    ensures var h := [Record(1, 10, 10, "toString")];
      && SummarizeAsWritten(h) == map[]
      && Total(SummarizeAsWritten(h)) == Group(0, 0)
      && Total(Summarize(h)) == Group(|h|, 10)
  {
  }
}
