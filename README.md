# Business-analyst roadmap: disclosure and guided-tour state machine

`BusinessAnalystRoadmap` is a React component. It shows a hard-coded tree of
business-analyst skills in four phases: "foundation", "intermediate",
"advanced" and "ai-integration". Each phase has four top-level items. Three
"ai-integration" items own two sub-items each. The component keeps four
state cells:

- `expandedNodes`: id to flag; an id that is absent reads as collapsed.
- `activePhase`: the phase on screen.
- `autoExpanding`: whether the guided tour is running.
- `currentExpandingIndex`: the tour cursor.

A manual click toggles one node and stops the tour. "Start Animation" and
the phase buttons clear the map and restart the tour. The tour runs in
rounds: reveal the node at the cursor, then advance the cursor. When the
phase is exhausted, it moves to the next phase in cyclic order.

The repository contains two copies of the component:

- `src/components/ba-roadmap-visual.tsx` (the typed copy) is the main one.
  Its reveal also expands the sub-items of the current item, in a `forEach`
  loop.
- The root `ba-roadmap-visual.tsx` (the plain copy) expands only the
  top-level item.

The project follows the component's structure:

- `roadmap_data.dfy`, module `RoadmapData`. The content tree (ids, levels,
  sub-items), the phase order and the `indexOf`/modulo step to the next phase.
- `disclosure.dfy`, module `Disclosure`. The pure updaters: the toggle
  spread, each copy's reveal, and which nodes `renderNodes` shows and which
  of them are expanded.
- `tour.dfy`, module `Tour`. The state machine as pure transitions. Each
  handler, effect run or timer callback is one atomic `Step`. A `Variant`
  (`Typed` or `Plain`) selects the reveal, so the difference between the
  copies is explicit. `Tour` holds the lemmas about single steps and about
  traces.
- `typed_roadmap.dfy` and `plain_roadmap.dfy`, modules `TypedRoadmap` and
  `PlainRoadmap`. One class per copy. The four cells are fields, and each
  handler, the two effects and the two timer callbacks are methods. Every
  method states its new fields and that its new state is the matching pure
  transition: `Tour.Step` for the handlers, the tour effect and the timer
  callbacks, and `Tour.PhaseChangeEffect` for the phase-change effect, which
  is not an event of its own. The typed copy's reveal updater is a method with the source's
  loop, proved equal to `Disclosure.RevealedWithSubItems`.

Three points where the code's behaviour is easy to misread, and which the model follows:

- A phase button resets the map and restarts the tour even when the phase
  clicked is the one already active.
- The phase-change effect does not touch `autoExpanding`.
- An empty phase would go straight to the phase timer, because the guard is
  `currentExpandingIndex >= length`. Every phase has four items, so this
  never happens.

## Model

| member | source | states |
|---|---|---|
| `RoadmapData.Items` | src/components/ba-roadmap-visual.tsx:129-298 | `roadmapData`, the four phase literals reduced to ids, levels and sub-items; no ensures of its own: `RoadmapData.PhaseLength`, `RoadmapData.IdsUnique` and `RoadmapData.ContentLevels` state its shape |
| `RoadmapData.NextPhase` | src/components/ba-roadmap-visual.tsx:320-324 | the cyclic phase order as a table; no ensures of its own: `RoadmapData.NextPhaseByIndexOf` shows it is the `indexOf`/modulo step, `RoadmapData.NextPhasePeriod` that it has period four |
| `RoadmapData.NextPhaseKey` | src/components/ba-roadmap-visual.tsx:321-323 | the component's step on string keys; no ensures of its own: `RoadmapData.NextPhaseKeyAgrees` and `RoadmapData.NextPhaseKeyUnknown` state its results |
| `RoadmapData.IndexOf` | src/components/ba-roadmap-visual.tsx:322 | `indexOf` returns -1 exactly when the element is absent; otherwise it returns the position of the element's first occurrence |
| `RoadmapData.NextIn` | src/components/ba-roadmap-visual.tsx:321-323 | the cyclic successor: the result is in the list; an absent element maps to the first entry; in a list without repeats, the entry at position i maps to the entry at (i + 1) mod length |
| `RoadmapData.NextPhaseByIndexOf` | src/components/ba-roadmap-visual.tsx:320-324 | the `indexOf`/modulo step over the phase list equals the cyclic order foundation, intermediate, advanced, ai-integration, foundation |
| `RoadmapData.NextPhasePeriod` | src/components/ba-roadmap-visual.tsx:320-324 | the phase step applied four times is the identity; applied one, two or three times it never is |
| `RoadmapData.NextPhaseKeyAgrees` | src/components/ba-roadmap-visual.tsx:321-323 | the step on string keys, as the component computes it, agrees with the cyclic order of phases |
| `RoadmapData.NextPhaseKeyUnknown` | ba-roadmap-visual.tsx:93-97 | a key outside the four phase names (`indexOf` gives -1) steps to "foundation" |
| `RoadmapData.IdsOfMembership` | src/components/ba-roadmap-visual.tsx:129-298 | an id occurs in the flattened id list exactly when some item or one of its sub-items carries it |
| `RoadmapData.PhaseIdsAreIdsOf` | src/components/ba-roadmap-visual.tsx:129-298 | the set of ids that can be on screen in a phase is exactly the set of the phase's flattened id list |
| `RoadmapData.PhaseLength` | src/components/ba-roadmap-visual.tsx:129-298 | every phase has four top-level items |
| `RoadmapData.IdsUnique` | src/components/ba-roadmap-visual.tsx:129-298 | the store holds 22 ids and no two are equal, across phases and levels |
| `RoadmapData.ContentLevels` | ba-roadmap-visual.tsx:136-305 | top-level items are at level 1 and sub-items at level 2; only ai-integration items 0, 1 and 3 own sub-items, two each |
| `Disclosure.ShowSubItems` | src/components/ba-roadmap-visual.tsx:379 | `showSubItems`: the item's entry is true and it has sub-items; no ensures of its own: `Disclosure.RenderedExactly` states what it shows |
| `Disclosure.ItemNodes` | src/components/ba-roadmap-visual.tsx:383-405 | one item's node followed by its sub-items' nodes when shown; no ensures of its own: `Disclosure.ItemNodesIds` states which ids it renders |
| `Disclosure.Toggled` | src/components/ba-roadmap-visual.tsx:360-363 | the toggle updater negates the truth value of `id` (absent reads as false), adds only `id` as a key and keeps every other entry |
| `Disclosure.ToggleTwice` | src/components/ba-roadmap-visual.tsx:360-363 | toggling the same id twice restores every truth value; the map differs only by an explicit entry for `id` |
| `Disclosure.RevealedWithSubItems` | src/components/ba-roadmap-visual.tsx:333-344 | the typed reveal adds exactly the ids of the item and its sub-items as keys, makes them all true, keeps every other entry and never turns a true entry false |
| `Disclosure.RevealedTopOnly` | ba-roadmap-visual.tsx:106-109 | the plain reveal adds only the item's id, makes it true, keeps every other entry and never turns a true entry false |
| `Disclosure.RevealVariantsDiffer` | src/components/ba-roadmap-visual.tsx:337-341 | the two reveals agree on every id except the sub-item ids, which only the typed reveal makes true |
| `Disclosure.RenderNodes` | src/components/ba-roadmap-visual.tsx:376-409 | every rendered node is displayed as expanded exactly when its entry is true; the id of every top-level item is rendered |
| `Disclosure.RenderedExactly` | src/components/ba-roadmap-visual.tsx:379 | an id is rendered exactly when it is a top-level item of the phase, or a sub-item of an item whose entry is true |
| `Disclosure.FirstSubItemNode` | src/components/ba-roadmap-visual.tsx:376-409 | when the first item's entry is true and it has sub-items, the second rendered node is its first sub-item, with that sub-item's level and flag |
| `Disclosure.RenderCollapsed` | ba-roadmap-visual.tsx:307-341 | with no item's entry true, the rendered nodes are the top-level items alone, in order, all collapsed |
| `Tour.ToggleNode` | src/components/ba-roadmap-visual.tsx:356-364 | the click handler; no ensures of its own: `Tour.ToggleFlipsOne` and `Tour.ManualClickCancelsTour` state its result |
| `Tour.ResetAndAutoExpand` | src/components/ba-roadmap-visual.tsx:366-370 | "Start Animation"; no ensures of its own: `Tour.ResetsClear` states its result |
| `Tour.PhaseChangeEffect` | src/components/ba-roadmap-visual.tsx:300-303 | the effect on `activePhase`; no ensures of its own: `Tour.PhaseChangeKeepsTour` states its result |
| `Tour.SelectPhase` | src/components/ba-roadmap-visual.tsx:447-450 | a phase button: set the phase and reset, then run the phase-change effect only when the phase did change, since React re-runs an effect only when its dependency changes; no ensures of its own: `Tour.ResetsClear` shows the result is the same reset state either way |
| `Tour.ScheduledTimer` | src/components/ba-roadmap-visual.tsx:313-328 | the timer the tour effect leaves pending; no ensures of its own: `Tour.TourGuards` states each case |
| `Tour.RevealItem` | src/components/ba-roadmap-visual.tsx:331-344 | each copy's reveal updater; no ensures of its own: `Disclosure.RevealedWithSubItems`, `Disclosure.RevealedTopOnly` and `Disclosure.RevealVariantsDiffer` state them |
| `Tour.Reveal` | src/components/ba-roadmap-visual.tsx:331-344 | the tour effect's node branch; no ensures of its own: `Tour.RevealTyped`, `Tour.RevealPlain` and `Tour.TourGuards` state its result |
| `Tour.Advance` | src/components/ba-roadmap-visual.tsx:347-349 | the advance timer; no ensures of its own: `Tour.TourGuards` and `Tour.IndexMonotone` state its result |
| `Tour.PhaseAdvance` | src/components/ba-roadmap-visual.tsx:319-325 | the phase timer; no ensures of its own: `Tour.PhaseChangeKeepsTour` and `Tour.TourGuards` state its result |
| `Tour.Step` | src/components/ba-roadmap-visual.tsx:300-370 | one event of the component; no ensures of its own: `Tour.StepPreservesInv`, `Tour.IndexMonotone` and `Tour.StepKeepsKeysInPhase` state what every step keeps |
| `Tour.ToggleFlipsOne` | src/components/ba-roadmap-visual.tsx:356-364 | a click flips only the clicked entry's truth value and keeps the phase and the cursor; a second click on the same node restores all truth values |
| `Tour.ManualClickCancelsTour` | src/components/ba-roadmap-visual.tsx:358 | after a click `autoExpanding` is false, whatever it was; from then on any run of tour events leaves the state unchanged |
| `Tour.TourIdle` | src/components/ba-roadmap-visual.tsx:313 | while `autoExpanding` is false, every run of reveal, advance and phase-timer events is a no-op |
| `Tour.ResetsClear` | src/components/ba-roadmap-visual.tsx:366-370 | "Start Animation" gives an empty map, cursor 0 and the tour on, in the same phase. Any phase button gives the same with its phase, also for the phase already active. The view is then the four top-level items, collapsed |
| `Tour.PhaseChangeKeepsTour` | src/components/ba-roadmap-visual.tsx:300-303 | the phase-change effect empties the map and zeroes the cursor without touching `autoExpanding`, so the phase timer lands on the next phase with the tour still on |
| `Tour.TourGuards` | src/components/ba-roadmap-visual.tsx:313-352 | with the tour off nothing is scheduled and no tour step changes anything. At cursor >= length only the phase timer is pending: it changes the phase, and reveal and advance do nothing. Otherwise the advance timer is pending and adds exactly 1 to the cursor |
| `Tour.RevealTyped` | src/components/ba-roadmap-visual.tsx:331-344 | the typed reveal sets the current item and all its sub-items true, never sets an entry false, and leaves other ids, the phase, the cursor and the tour flag unchanged |
| `Tour.RevealPlain` | ba-roadmap-visual.tsx:104-110 | the plain reveal sets only the current item true; every other id, sub-items included, keeps its previous entry |
| `Tour.StepPreservesInv` | src/components/ba-roadmap-visual.tsx:318-349 | every step keeps the cursor between 0 and the active phase's length |
| `Tour.IndexMonotone` | src/components/ba-roadmap-visual.tsx:347-349 | an event other than a restart, a phase button or the phase timer keeps the phase and moves the cursor by 0 or 1; it moves by 1 exactly when the advance timer fires inside the phase |
| `Tour.RunWithinPhase` | ba-roadmap-visual.tsx:112-114 | over any trace without resets the phase stays fixed and the cursor never decreases; it grows by at most the number of advance events |
| `Tour.RoundsWithinPhase` | src/components/ba-roadmap-visual.tsx:347-349 | from any state, k reveal/advance rounds keep the phase and move the cursor forward by at most k, since only the advance timer moves it |
| `Tour.TourRounds` | src/components/ba-roadmap-visual.tsx:312-354 | k reveal/advance rounds move the cursor by k in the same phase with the tour on; every item passed is expanded (typed: with its sub-items); no entry is collapsed |
| `Tour.TourOfPhase` | src/components/ba-roadmap-visual.tsx:318-328 | the remaining rounds of a phase and then the phase timer reach the next phase with an empty map, cursor 0 and the tour on |
| `Tour.TourCycles` | src/components/ba-roadmap-visual.tsx:320-324 | four full phase tours from a reset state come back to that same state |
| `Tour.StepKeepsKeysInPhase` | src/components/ba-roadmap-visual.tsx:387 | as long as the user only clicks rendered nodes, every key of the map is an id of the active phase's content |
| `Tour.FoundationTour` | src/components/ba-roadmap-visual.tsx:366-370 | "Start Animation" in the initial state, four rounds and the phase timer give phase intermediate, an empty map, cursor 0 and the tour on |
| `Tour.ClickSqlDuringTour` | src/components/ba-roadmap-visual.tsx:356-364 | clicking "sql" during a tour of intermediate stops the tour and changes only the "sql" entry's truth value |
| `Tour.RevealAiFundamentals` | src/components/ba-roadmap-visual.tsx:336-341 | revealing "ai-fundamentals" sets it, "ml-basics" and "ai-ethics" true in the typed copy; the plain copy sets only the parent |
| `Tour.RevealAiFundamentalsView` | ba-roadmap-visual.tsx:311 | after that reveal both copies render "ml-basics" under its parent: expanded in the typed copy, collapsed in the plain one |
| `TypedRoadmap.RevealUpdater` | src/components/ba-roadmap-visual.tsx:333-344 | the copying-then-`forEach` updater computes exactly `RevealedWithSubItems` of the previous map |
| `TypedRoadmap.BusinessAnalystRoadmap.constructor` | src/components/ba-roadmap-visual.tsx:121-125 | the initial cells: empty map, foundation, tour off, cursor 0 |
| `TypedRoadmap.BusinessAnalystRoadmap.ToggleNode` | src/components/ba-roadmap-visual.tsx:356-364 | sets `autoExpanding` false, replaces the map by its toggle, keeps phase and cursor |
| `TypedRoadmap.BusinessAnalystRoadmap.ResetAndAutoExpand` | src/components/ba-roadmap-visual.tsx:366-370 | empty map, cursor 0, tour on, same phase |
| `TypedRoadmap.BusinessAnalystRoadmap.PhaseChangeEffect` | src/components/ba-roadmap-visual.tsx:300-303 | empty map and cursor 0; phase and tour flag unchanged |
| `TypedRoadmap.BusinessAnalystRoadmap.SelectPhase` | src/components/ba-roadmap-visual.tsx:447-450 | the chosen phase with an empty map, cursor 0 and the tour on |
| `TypedRoadmap.BusinessAnalystRoadmap.TourEffect` | src/components/ba-roadmap-visual.tsx:312-354 | returns the timer the effect schedules. It reveals the current item with its sub-items only in the node branch, and otherwise leaves the map unchanged |
| `TypedRoadmap.BusinessAnalystRoadmap.OnAdvanceTimer` | src/components/ba-roadmap-visual.tsx:347-349 | cursor plus one, everything else unchanged |
| `TypedRoadmap.BusinessAnalystRoadmap.OnPhaseTimer` | src/components/ba-roadmap-visual.tsx:319-325 | the next phase, then the phase-change effect: empty map, cursor 0, tour still on |
| `PlainRoadmap.BusinessAnalystRoadmap.constructor` | ba-roadmap-visual.tsx:67-71 | the initial cells: empty map, foundation, tour off, cursor 0 |
| `PlainRoadmap.BusinessAnalystRoadmap.ToggleNode` | ba-roadmap-visual.tsx:120-128 | sets `autoExpanding` false, replaces the map by its toggle, keeps phase and cursor |
| `PlainRoadmap.BusinessAnalystRoadmap.ResetAndAutoExpand` | ba-roadmap-visual.tsx:130-134 | empty map, cursor 0, tour on, same phase |
| `PlainRoadmap.BusinessAnalystRoadmap.PhaseChangeEffect` | ba-roadmap-visual.tsx:73-76 | empty map and cursor 0; phase and tour flag unchanged |
| `PlainRoadmap.BusinessAnalystRoadmap.SelectPhase` | ba-roadmap-visual.tsx:369-372 | the chosen phase with an empty map, cursor 0 and the tour on |
| `PlainRoadmap.BusinessAnalystRoadmap.TourEffect` | ba-roadmap-visual.tsx:85-118 | returns the timer the effect schedules. It reveals the current top-level item, and no sub-item, only in the node branch |
| `PlainRoadmap.BusinessAnalystRoadmap.OnAdvanceTimer` | ba-roadmap-visual.tsx:112-114 | cursor plus one, everything else unchanged |
| `PlainRoadmap.BusinessAnalystRoadmap.OnPhaseTimer` | ba-roadmap-visual.tsx:92-98 | the next phase, then the phase-change effect: empty map, cursor 0, tour still on |

## Left out

- Presentation is not modelled: JSX markup, class strings, `phaseColors`, icons, titles, descriptions, headings and tips.
- The `darkMode` toggle and the `animatePhase` flag with its timer are not modelled. They change only the look, never the four cells.
- Timer delays are not modelled (2 s, 5 s and 7 s in the typed copy; 500 ms, 2 s and 3 s in the plain one). Each effect run and each timer callback is one atomic step.
- React scheduling is not modelled: batching, effect order and cleanup. The events of the pure model (`Tour.Step`) may come in any order. That allows orders React never produces, such as an advance before the reveal at the same cursor, so the trace lemmas cover more runs than the component has. The class methods for the two timers require the guard under which the timer is pending.
- Re-running the tour effect only when a dependency changes is not modelled. In the source, "Start Animation" clicked while the tour is on at cursor 0 of the same phase changes none of the effect's dependencies. The same holds for a phase button for the phase already active. The effect does not re-run, so the reveal is skipped. The pending advance timer then moves the cursor to 1, and item 0 is not revealed again in that round. The model treats a reveal as possible whenever its guard holds.
- `useMemo` and hooks semantics are not modelled; only the resulting state transitions are.
- The optional `subItems` field is a sequence, empty when absent. JavaScript treats `[]` as truthy, but mapping or iterating over `[]` does nothing, so every branch behaves the same.
- `Tour.StepKeepsKeysInPhase`: holds only for clicks on rendered nodes, since `toggleNode` accepts any id. In the component only rendered nodes have click handlers.
