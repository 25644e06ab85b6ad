# Gacha pull counter: a Dafny model of its state machine

The page (`js/app.js`) counts gacha pulls. It keeps a running pull total and a
configurable pity limit, the ceiling of pulls before an acquisition is
guaranteed. It also keeps a credit cost per pull, the character name current
for the next acquisition, a history of acquisitions and an undo stack. This
project models that state and its operations as pure functions over an
immutable `State`:

- `addPull`, `recordGet` (with the acquisition count the page keeps outside
  the state), `undo`, `resetAll`, the name, pity-limit and credit setters.
- The values `render` derives: streak since the last acquisition, pulls
  left before the ceiling, the near-ceiling warning, credit spent and the
  per-name summary.

It then proves what these operations promise. Every one of them also holds
across whole event sequences that start from the defaults.

Modules:

- `CounterState` (state.dfy): the records, the `UndoEntry` sum type, the
  state, its defaults and the facts about histories.
- `Counter` (counter.dfy): the operations.
- `View` (view.dfy): the derived values of `render`.
- `Summary` (summary.dfy): the per-name grouping of `renderSummary`, both as
  intended and as the source computes it.
- `Replay` (replay.dfy): the reachable-state invariant. Read from the newest
  entry down, the undo stack replays the total and the history from empty.
- `Session` (session.dfy): the page as a whole. It pairs the state with the
  acquisition-count input and handles one event after another.
- `Persistence` (persistence.dfy): `save`/`load` per-field defaulting.
- `Scenarios` (scenarios.dfy): worked examples.
- `Wrappers` (wrappers.dfy): `Option`.

`parseInt` results are modelled as `Option<int>`, where `None` is `NaN`.

## Model

| member | source | states |
|---|---|---|
| CounterState.Defaults | js/app.js:43-50 | the start state: total 0, pity limit 200, credit 0, empty name, history and undo stack |
| CounterState.LastGetTotal | js/app.js:95-97 | the total at the most recent acquisition: 0 for an empty history, and at least every record's total when those never go down |
| Counter.AddPull | js/app.js:207-215 | adds `amount` to the total and pushes exactly one `pull{amount, old total}` entry. History, name, pity limit and credit are unchanged, and `Undo` of the result is the original state |
| Counter.CanRecordGet | js/app.js:224-233 | the two guards of recordGet; once the last acquisition's total is not negative they amount to "the total exceeds the last acquisition's total" |
| Counter.PushBonus | js/app.js:250-258 | the bonus loop appends `k` records (none for `k <= 0`) after the old ones, each numbered by its 1-based position, at the given total with 0 pulls |
| Counter.RecordGet | js/app.js:222-258 | the result equals the input exactly when a guard refuses: the total is 0, or no pulls since the last acquisition. Otherwise it pushes one `get{total, n}` entry and keeps the old records. It appends `max(1, n)` records at the current total carrying the current name, with contiguous ids. The first carries `total - lastGetTotal` pulls, the rest 0. Total, name, pity limit and credit are unchanged, and contiguous ids stay contiguous |
| Counter.DropLast | js/app.js:279-281 | popping `k` times leaves the history's first `len - min(max(k,0), len)` records; popping an empty history removes nothing |
| Counter.Renumber | js/app.js:283-285 | every id becomes its position + 1 and no other field of any record changes; an already contiguous history is left as it is |
| Counter.Undo | js/app.js:270-286 | an empty stack changes nothing. Otherwise exactly the top entry is popped. A `pull` restores its saved total and keeps the history. A `get` keeps the total and removes `getCount` trailing records, or one when it is 0, capped by the length, leaving contiguous ids. Pity limit, credit and name never change |
| Counter.UndoAfterRecordGet | js/app.js:236-258 | a successful recordGet with any count `n >= 0`, then undo, restores total, history and undo stack exactly, for a history with contiguous ids |
| Counter.UndoAfterNegativeGetKeepsRecord | js/app.js:251-281 | with count -1 one record is added but undo removes none; the page's counter never goes below 1, so this stays unreachable |
| Counter.ResetAll | js/app.js:303-306 | total 0, empty name, history and undo stack; pity limit and credit per pull are kept |
| Counter.ResetIsFinal | js/app.js:303-306 | after a reset undo has nothing to do, and a second reset changes nothing |
| Counter.UpdateCharName | js/app.js:312-314 | stores the text verbatim as the name; nothing else changes |
| Counter.RenameLabelsOnlyFutureRecords | js/app.js:247-256 | after a rename the next acquisition's records carry the new name and the recorded ones are untouched |
| Counter.UpdatePityLimit | js/app.js:317-320 | a missing (`NaN`) or < 1 input leaves the state unchanged; otherwise only the pity limit is set; a limit >= 1 stays >= 1 |
| Counter.AdjustPityLimit | js/app.js:376-387 | a +-1/+-10 step sets limit + delta when that is >= 1, and otherwise leaves the state unchanged (rejected, not clamped) |
| Counter.AdjustBelowOneIsRejected | js/app.js:385-387 | a limit of 5 stays 5 after -10 rather than becoming 1 |
| Counter.CoerceCredit | js/app.js:364-365 | a parsed integer >= 0 is kept; a negative or `NaN` input becomes 0; the result is never negative |
| Counter.UpdateCreditPerPull | js/app.js:363-365 | stores the coerced credit and changes nothing else |
| View.SinceLastGet | js/app.js:98 | the streak is what the total has gained since the last acquisition, and recordGet's guards pass exactly when it is positive and the total is not 0 |
| View.PityRemain | js/app.js:95-99 | `max(0, pityLimit - sinceLastGet)`: at least 0 and the difference, equal to one of them, at most the limit when the streak is not negative |
| View.PityNear | js/app.js:117 | the warning implies some pulls remain; it is off when none remain; it holds exactly when `0 < limit - streak` and five times that is at most the limit |
| View.AtCeilingNoWarning | js/app.js:99-117 | at or past the ceiling nothing remains and no warning is shown |
| View.ShowCredit | js/app.js:108-114 | the credit row is shown for a positive credit per pull; when it is hidden (credit 0), the spent credit is 0 |
| View.TotalCredit | js/app.js:108-109 | credit spent is not negative for non-negative total and cost, and 0 when either is 0 |
| View.PullAddsCredit | js/app.js:109 | a pull adds `amount * creditPerPull` to the credit spent, and undoing it takes that back off |
| Summary.Tally | js/app.js:163-168 | one pass of the intended grouping loop: the record's label gains a group of (1, its pulls) or adds 1 and its pulls to its existing group; every other group is unchanged |
| Summary.Summarize | js/app.js:161-169 | the intended summary (every name its own group): empty exactly for an empty history, and every group counts at least one record |
| Summary.SummaryGroup | js/app.js:161-169 | in the intended summary (`Summarize`), a name has a group exactly when some record carries it as its label (an empty name is grouped as the unset bucket). The group's count is the number of records carrying the label, and its pulls are their pulls summed |
| Summary.SummaryTotals | js/app.js:161-169 | in the intended summary (`Summarize`), the group counts sum to the history length, and the group pulls to the pulls of the whole history |
| Summary.TallyAsWritten | js/app.js:163-168 | one pass of the page's grouping loop: a record whose label is an `Object.prototype` property leaves the groups unchanged; any other is tallied as intended |
| Summary.SummarizeAsWritten | js/app.js:161-171 | the summary the page computes and lists: no group name is an inherited property, and every group name is some record's label |
| Summary.SummaryAsWrittenDropsInheritedNames | js/app.js:161-169 | the source's grouping equals the intended one minus every name inherited from `Object.prototype` |
| Summary.SummaryAsWrittenAgrees | js/app.js:161-171 | when no group name is an inherited property, the page's summary equals the intended one |
| Summary.NoInheritedGroups | js/app.js:163 | no group name of the intended summary is inherited when no record's label is |
| Summary.SummaryAsWrittenLosesInheritedNames | js/app.js:161-171 | one record named "toString" leaves the source's summary empty, so its counts sum to 0 rather than 1 |
| Replay.ReplaysFacts | js/app.js:224-258 | in a replayable state `0 <= lastGetTotal <= total`, acquisition totals never go down, no record lies past the total or has negative pulls, and the pulls of all records sum to `lastGetTotal` |
| Replay.AddPullReplays | js/app.js:207-215 | a pull of a non-negative amount keeps the state replayable |
| Replay.RecordGetReplays | js/app.js:222-258 | recordGet with a count >= 1 keeps the state replayable |
| Replay.UndoReplays | js/app.js:270-286 | undo keeps a replayable state with contiguous ids replayable |
| Session.Step | js/app.js:329-387 | one event handled. The acquisition-count input never drops below 1. A get puts it back to 1 exactly when recorded, and leaves it otherwise. Events other than get and the count buttons leave it alone, and the count buttons leave the state alone |
| Session.InitInv | js/app.js:41-50 | the start session satisfies the invariant |
| Session.StepInv | js/app.js:329-387 | every event the page can produce keeps the invariant: count input >= 1, pity limit >= 1, credit >= 0, contiguous ids, replayable undo stack |
| Session.RunInv | js/app.js:329-387 | any sequence of such events keeps the invariant |
| Session.Reachable | js/app.js:95-169 | after any event sequence from the defaults: ids are positions, the streak is not negative and acquisition totals never go down. The countdown lies within `[0, pityLimit]` and the credit spent is not negative. The intended summary's (`Summarize`) counts sum to the history length and its pulls to `lastGetTotal`. So do the page's summary's (`SummarizeAsWritten`) when no record's label is an `Object.prototype` property |
| Session.PullThenUndo | js/app.js:330-332 | a pull button and then undo give back the same session |
| Session.GetThenUndo | js/app.js:333-344 | recording an acquisition (any count) and then undo give back the same state, with the count input back at 1 |
| Session.RefusedGetIsNoOp | js/app.js:222-233 | a refused recordGet leaves the session unchanged, count input included |
| Persistence.Save | js/app.js:56-58 | writes every field of the state, so loading the result gives the state back |
| Persistence.Load | js/app.js:64-79 | nothing usable stored gives the defaults; otherwise each present field is taken and each missing one gets its own default |
| Persistence.LoadSave | js/app.js:56-74 | loading what was saved gives the same state |
| Persistence.LoadEmptyObject | js/app.js:69-74 | a stored object without known fields loads as the defaults |
| Persistence.ReloadKeepsInv | js/app.js:41-79 | reloading a saved session keeps it within the invariant, with the count input back at 1 |
| Scenarios.PullGetUndo | js/app.js:207-286 | from the defaults: 10 pulls leave 190 to the ceiling; one acquisition gives `[{1, 10, 10, ""}]`; undo empties the history and keeps total 10 |
| Scenarios.TripleGet | js/app.js:243-281 | three acquisitions at total 50 give pulls 50, 0, 0, all at total 50, and a single undo removes all three |
| Scenarios.ResetKeepsPreferences | js/app.js:303-306 | a reset clears progress but keeps a pity limit of 300 and a credit of 150 |

## Left out

- DOM lookups, HTML building, scrolling, the flash flag and the animations:
  presentation only.
- The record label `N体目` and `toLocaleString` formatting: presentation only.
- The reset confirmation overlay and the keyboard shortcuts. The shortcuts
  call the same handlers as the buttons, and the overlay only decides
  whether `resetAll` runs, so the model has a single `ResetConfirmed` event.
- `localStorage` and `JSON`: `Load` takes the already parsed object, or
  `None` for every way of getting none. Failed saves are ignored by the
  source and not modelled.
- States that were loaded but never reached through the operations, such as
  an undo stack that does not match the history. The invariants are stated
  for states reachable from the defaults, and for reloads of such states.
- `parseInt` string parsing (prefixes such as `"12abc"`, fractions): inputs
  arrive already parsed as `Option<int>`.
- The JavaScript property order of `Object.entries`: the summary is a map,
  and no output order is stated.
- View.PityNear: the source compares against the float `pityLimit * 0.2`.
  The model uses the integer comparison `5 * remain <= pityLimit`. The
  double nearest 0.2 lies just above 1/5, so the two tests agree for every
  limit below 2^52, inside the range the next line already assumes.
- Number range: totals, limits and credit are unbounded integers. JavaScript
  doubles lose precision past 2^53, and the model does not follow them there.
- The bound "undo stack length <= operations not yet undone" is not stated
  separately. `Replay.Replays` is stronger: each entry matches exactly one
  pull or one acquisition group that is still in effect.

## Findings

| source | as written | input that shows it | evidently intended | confidence | as-written member | corrected member |
|---|---|---|---|---|---|---|
| js/app.js:161-171 | groups live in a plain `{}`. For a name that is a property of `Object.prototype` (`toString`, `constructor`, `__proto__`, ...), `groups[name]` is already truthy. So no own group is created, the `+=` updates land on the inherited value, and `Object.entries` never lists the name | one acquisition recorded under the character name `toString` | every name gets its own group, so the counts sum to the history length | medium, not executed | Summary.SummaryAsWrittenLosesInheritedNames | Summary.SummaryTotals |
