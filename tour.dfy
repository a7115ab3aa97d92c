/** The disclosure and guided-tour state machine of `BusinessAnalystRoadmap`,
    as pure transitions. Every click handler and every timer callback is one
    atomic step; a timer that the component would not have scheduled is a step
    whose guard fails and which leaves the state as it is. */
module Tour {
  import opened RoadmapData
  import opened Disclosure

  /** The two copies of the component differ only in the reveal step: the
      typed one also expands the current item's sub-items. */
  datatype Variant = Typed | Plain

  /** The four state cells of the component. */
  datatype State = State(
    expandedNodes: Expansion,
    activePhase: Phase,
    autoExpanding: bool,
    currentExpandingIndex: nat)

  /** The `useState` initial values. */
  const Initial: State := State(map[], Foundation, false, 0)

  /** The number of top-level items in the active phase. */
  function Length(s: State): nat
  {
    |Items(s.activePhase)|
  }

  /** The tour cursor stays within `[0, Length]`; `Length` means "phase exhausted". */
  predicate Inv(s: State)
  {
    s.currentExpandingIndex <= Length(s)
  }

  /** `toggleNode(id)`: stop the tour and flip the entry for `id`. */
  function ToggleNode(s: State, id: string): State
  {
    s.(autoExpanding := false, expandedNodes := Toggled(s.expandedNodes, id))
  }

  /** `resetAndAutoExpand`, the "Start Animation" button. */
  function ResetAndAutoExpand(s: State): State
  {
    s.(expandedNodes := map[], currentExpandingIndex := 0, autoExpanding := true)
  }

  /** The effect that runs when `activePhase` changes. */
  function PhaseChangeEffect(s: State): State
  {
    s.(expandedNodes := map[], currentExpandingIndex := 0)
  }

  /** A phase button: `setActivePhase(p)` and `resetAndAutoExpand()` in one
      batch, followed by the phase-change effect when the phase did change. */
  function SelectPhase(s: State, p: Phase): State
  {
    var r := ResetAndAutoExpand(s.(activePhase := p));
    if p != s.activePhase then PhaseChangeEffect(r) else r
  }

  /** The tour effect takes its node branch: it reveals the node at the
      cursor and schedules the advance timer. */
  predicate NodeStepEnabled(s: State)
  {
    s.autoExpanding && s.currentExpandingIndex < Length(s)
  }

  /** The tour effect takes its exhausted branch and schedules the phase timer. */
  predicate PhaseStepEnabled(s: State)
  {
    s.autoExpanding && s.currentExpandingIndex >= Length(s)
  }

  /** The timer the tour effect leaves pending after it has run. */
  datatype Timer = NoTimer | AdvanceTimer | PhaseTimer

  function ScheduledTimer(s: State): Timer
  {
    if !s.autoExpanding then NoTimer
    else if s.currentExpandingIndex >= Length(s) then PhaseTimer
    else AdvanceTimer
  }

  /** The reveal updater of each variant. */
  function RevealItem(v: Variant, m: Expansion, item: Item): Expansion
  {
    match v
    case Typed => RevealedWithSubItems(m, item)
    case Plain => RevealedTopOnly(m, item)
  }

  /** The tour effect's reveal: expand `phaseData[currentExpandingIndex]`. */
  function Reveal(v: Variant, s: State): State
  {
    if NodeStepEnabled(s) then
      s.(expandedNodes := RevealItem(v, s.expandedNodes, Items(s.activePhase)[s.currentExpandingIndex]))
    else s
  }

  /** The advance timer: `setCurrentExpandingIndex(prev => prev + 1)`. */
  function Advance(s: State): State
  {
    if NodeStepEnabled(s) then s.(currentExpandingIndex := s.currentExpandingIndex + 1) else s
  }

  /** The phase timer: move to the next phase, which runs the phase-change effect. */
  function PhaseAdvance(s: State): State
  {
    if PhaseStepEnabled(s) then PhaseChangeEffect(s.(activePhase := NextPhase(s.activePhase))) else s
  }

  datatype Event =
    | ClickNode(id: string)
    | ClickStart
    | ClickPhase(phase: Phase)
    | RevealFires
    | AdvanceFires
    | PhaseTimerFires

  /** Events raised by the tour's own effect and timers rather than by the user. */
  predicate IsTourEvent(e: Event)
  {
    e.RevealFires? || e.AdvanceFires? || e.PhaseTimerFires?
  }

  function Step(v: Variant, s: State, e: Event): State
  {
    match e
    case ClickNode(id) => ToggleNode(s, id)
    case ClickStart => ResetAndAutoExpand(s)
    case ClickPhase(p) => SelectPhase(s, p)
    case RevealFires => Reveal(v, s)
    case AdvanceFires => Advance(s)
    case PhaseTimerFires => PhaseAdvance(s)
  }

  function Run(v: Variant, s: State, es: seq<Event>): State
    decreases |es|
  {
    if es == [] then s else Run(v, Step(v, s, es[0]), es[1..])
  }

  /** The view `renderNodes(activePhase)` produces. */
  function Rendered(s: State): seq<RenderedNode>
  {
    RenderNodes(s.expandedNodes, Items(s.activePhase))
  }

  // ---------------------------------------------------------------------------
  // Manual toggling

  /** A click flips only the clicked entry, reading absent as false, and
      clicking the same node twice restores every truth value. */
  lemma ToggleFlipsOne(s: State, id: string)
    ensures forall k :: Truthy(ToggleNode(s, id).expandedNodes, k) == (if k == id then !Truthy(s.expandedNodes, k) else Truthy(s.expandedNodes, k))
    ensures forall k :: Truthy(ToggleNode(ToggleNode(s, id), id).expandedNodes, k) == Truthy(s.expandedNodes, k)
    ensures ToggleNode(s, id).activePhase == s.activePhase
    ensures ToggleNode(s, id).currentExpandingIndex == s.currentExpandingIndex
  {
    ToggleTwice(s.expandedNodes, id);
  }

  /** A manual click cancels the tour, whatever its state: afterwards
      `autoExpanding` is false and no tour timer or effect changes anything
      until the user restarts the tour. */
  lemma ManualClickCancelsTour(v: Variant, s: State, id: string, tour: seq<Event>)
    requires forall j :: 0 <= j < |tour| ==> IsTourEvent(tour[j])
    ensures !ToggleNode(s, id).autoExpanding
    ensures Run(v, ToggleNode(s, id), tour) == ToggleNode(s, id)
  {
    TourIdle(v, ToggleNode(s, id), tour);
  }

  /** While the tour is off, tour events are no-ops. */
  lemma {:induction false} TourIdle(v: Variant, s: State, tour: seq<Event>)
    requires !s.autoExpanding
    requires forall j :: 0 <= j < |tour| ==> IsTourEvent(tour[j])
    ensures Run(v, s, tour) == s
    decreases |tour|
  {
    if tour != [] {
      assert Step(v, s, tour[0]) == s;
      TourIdle(v, s, tour[1..]);
    }
  }

  // ---------------------------------------------------------------------------
  // Resets and phase changes

  /** "Start Animation" and every phase button both leave an empty map,
      cursor 0 and the tour on; a phase button, even for the phase already
      active, also selects its phase. */
  lemma ResetsClear(s: State, p: Phase)
    ensures ResetAndAutoExpand(s) == State(map[], s.activePhase, true, 0)
    ensures SelectPhase(s, p) == State(map[], p, true, 0)
    ensures SelectPhase(s, s.activePhase) == ResetAndAutoExpand(s)
    ensures Rendered(ResetAndAutoExpand(s)) == seq(4, i requires 0 <= i < 4 => RenderedNode(Items(s.activePhase)[i].id, 1, false))
  {
    PhaseLength(s.activePhase);
    ContentLevels(s.activePhase);
    RenderCollapsed(map[], Items(s.activePhase));
  }

  /** The phase-change effect clears the map and the cursor but leaves
      `autoExpanding` alone, so an automatic phase advance keeps the tour going. */
  lemma PhaseChangeKeepsTour(s: State)
    ensures PhaseChangeEffect(s) == State(map[], s.activePhase, s.autoExpanding, 0)
    ensures PhaseStepEnabled(s) ==> PhaseAdvance(s) == State(map[], NextPhase(s.activePhase), true, 0)
  {
  }

  // ---------------------------------------------------------------------------
  // The tour

  /** The three guard cases of the tour effect: with the tour off nothing
      is scheduled and no tour step changes anything; with the phase exhausted
      only the phase timer is pending, and it changes the phase; otherwise the
      advance timer is pending and moves the cursor by exactly one. */
  lemma TourGuards(v: Variant, s: State)
    ensures ScheduledTimer(s) == NoTimer <==> !s.autoExpanding
    ensures ScheduledTimer(s) == AdvanceTimer <==> NodeStepEnabled(s)
    ensures ScheduledTimer(s) == PhaseTimer <==> PhaseStepEnabled(s)
    ensures !s.autoExpanding ==> Reveal(v, s) == s && Advance(s) == s && PhaseAdvance(s) == s
    ensures s.autoExpanding && s.currentExpandingIndex >= Length(s) ==>
      Reveal(v, s) == s && Advance(s) == s && PhaseAdvance(s).activePhase != s.activePhase
    ensures s.autoExpanding && s.currentExpandingIndex < Length(s) ==>
      Advance(s).currentExpandingIndex == s.currentExpandingIndex + 1 && PhaseAdvance(s) == s
  {
    NextPhasePeriod(s.activePhase);
  }

  /** A reveal of the typed variant expands the current item and its
      sub-items, never collapses an entry and leaves every other entry alone. */
  lemma RevealTyped(s: State)
    requires NodeStepEnabled(s)
    ensures var item := Items(s.activePhase)[s.currentExpandingIndex];
      var m := Reveal(Typed, s).expandedNodes;
      && Truthy(m, item.id)
      && (forall j :: 0 <= j < |item.subItems| ==> Truthy(m, item.subItems[j].id))
      && (forall k :: Truthy(s.expandedNodes, k) ==> Truthy(m, k))
      && (forall k :: k !in ItemIds(item) ==> (k in m <==> k in s.expandedNodes) && (k in m ==> m[k] == s.expandedNodes[k]))
    ensures Reveal(Typed, s).activePhase == s.activePhase
    ensures Reveal(Typed, s).currentExpandingIndex == s.currentExpandingIndex
    ensures Reveal(Typed, s).autoExpanding
  {
    var item := Items(s.activePhase)[s.currentExpandingIndex];
    forall j | 0 <= j < |item.subItems| ensures item.subItems[j].id in ItemIds(item) {
      assert ItemIds(item)[j + 1] == item.subItems[j].id;
    }
  }

  /** A reveal of the plain variant expands the current item only: a sub-item
      id other than the item's own keeps its previous entry. */
  lemma RevealPlain(s: State)
    requires NodeStepEnabled(s)
    ensures var item := Items(s.activePhase)[s.currentExpandingIndex];
      var m := Reveal(Plain, s).expandedNodes;
      && Truthy(m, item.id)
      && (forall k :: Truthy(s.expandedNodes, k) ==> Truthy(m, k))
      && (forall k :: k != item.id ==> (k in m <==> k in s.expandedNodes) && (k in m ==> m[k] == s.expandedNodes[k]))
    ensures Reveal(Plain, s).activePhase == s.activePhase
    ensures Reveal(Plain, s).currentExpandingIndex == s.currentExpandingIndex
  {
  }

  /** Every step keeps the cursor within bounds. */
  lemma StepPreservesInv(v: Variant, s: State, e: Event)
    requires Inv(s)
    ensures Inv(Step(v, s, e))
  {
    PhaseLength(s.activePhase);
    PhaseLength(NextPhase(s.activePhase));
    if e.ClickPhase? {
      PhaseLength(e.phase);
    }
  }

  /** An event that resets the cursor: a restart, a phase button or the phase timer. */
  predicate IsReset(e: Event)
  {
    e.ClickStart? || e.ClickPhase? || e.PhaseTimerFires?
  }

  /** Within a phase the cursor never moves back, and it moves forward one
      item at a time, only on the advance timer. */
  lemma IndexMonotone(v: Variant, s: State, e: Event)
    requires !IsReset(e)
    ensures Step(v, s, e).activePhase == s.activePhase
    ensures s.currentExpandingIndex <= Step(v, s, e).currentExpandingIndex <= s.currentExpandingIndex + 1
    ensures Step(v, s, e).currentExpandingIndex == s.currentExpandingIndex + 1 <==> e.AdvanceFires? && NodeStepEnabled(s)
  {
  }

  /** The number of advance events in a trace. */
  function Advances(es: seq<Event>): nat
  {
    if es == [] then 0 else (if es[0].AdvanceFires? then 1 else 0) + Advances(es[1..])
  }

  /** Over any trace without a reset the phase stays put, and the cursor only
      grows, by at most the number of advance timers that fired. */
  lemma {:induction false} RunWithinPhase(v: Variant, s: State, es: seq<Event>)
    requires forall j :: 0 <= j < |es| ==> !IsReset(es[j])
    ensures Run(v, s, es).activePhase == s.activePhase
    ensures s.currentExpandingIndex <= Run(v, s, es).currentExpandingIndex <= s.currentExpandingIndex + Advances(es)
    decreases |es|
  {
    if es != [] {
      IndexMonotone(v, s, es[0]);
      RunWithinPhase(v, Step(v, s, es[0]), es[1..]);
    }
  }

  /** `k` reveal-then-advance rounds of the tour. */
  function Rounds(k: nat): (r: seq<Event>)
    ensures |r| == 2 * k
  {
    if k == 0 then [] else [RevealFires, AdvanceFires] + Rounds(k - 1)
  }

  /** Rounds hold no reset, and one advance per round. */
  lemma {:induction false} RoundsShape(k: nat)
    ensures forall j :: 0 <= j < |Rounds(k)| ==> !IsReset(Rounds(k)[j])
    ensures Advances(Rounds(k)) == k
  {
    if k > 0 {
      RoundsShape(k - 1);
      var r := Rounds(k);
      assert r[1..] == [AdvanceFires] + Rounds(k - 1) && r[1..][1..] == Rounds(k - 1);
      forall j | 2 <= j < |r| ensures !IsReset(r[j]) {
        assert r[j] == Rounds(k - 1)[j - 2];
      }
    }
  }

  /** From any state, `k` rounds keep the phase and move the cursor forward
      by at most `k`, even where the guards stop some of them. */
  lemma RoundsWithinPhase(v: Variant, s: State, k: nat)
    ensures Run(v, s, Rounds(k)).activePhase == s.activePhase
    ensures s.currentExpandingIndex <= Run(v, s, Rounds(k)).currentExpandingIndex <= s.currentExpandingIndex + k
  {
    RoundsShape(k);
    RunWithinPhase(v, s, Rounds(k));
  }

  predicate Revealed(v: Variant, m: Expansion, item: Item)
  {
    Truthy(m, item.id) && (v == Typed ==> forall j :: 0 <= j < |item.subItems| ==> Truthy(m, item.subItems[j].id))
  }

  /** `k` rounds from cursor `i` move the cursor to `i + k` in the same phase,
      with the tour still on, every item passed over revealed, and no entry
      collapsed. */
  lemma {:induction false} TourRounds(v: Variant, s: State, k: nat)
    requires s.autoExpanding && s.currentExpandingIndex + k <= Length(s)
    ensures var r := Run(v, s, Rounds(k));
      && r.activePhase == s.activePhase
      && r.autoExpanding
      && r.currentExpandingIndex == s.currentExpandingIndex + k
      && (forall i :: s.currentExpandingIndex <= i < r.currentExpandingIndex ==> Revealed(v, r.expandedNodes, Items(s.activePhase)[i]))
      && (forall x :: Truthy(s.expandedNodes, x) ==> Truthy(r.expandedNodes, x))
    decreases k
  {
    if k > 0 {
      var s1 := Reveal(v, s);
      var s2 := Advance(s1);
      if v == Typed { RevealTyped(s); } else { RevealPlain(s); }
      assert Rounds(k)[0] == RevealFires && Rounds(k)[1..] == [AdvanceFires] + Rounds(k - 1);
      assert Run(v, s, Rounds(k)) == Run(v, s2, Rounds(k - 1)) by {
        assert Step(v, s, RevealFires) == s1;
        assert ([AdvanceFires] + Rounds(k - 1))[1..] == Rounds(k - 1);
      }
      TourRounds(v, s2, k - 1);
      var r := Run(v, s2, Rounds(k - 1));
      forall i | s.currentExpandingIndex <= i < r.currentExpandingIndex
        ensures Revealed(v, r.expandedNodes, Items(s.activePhase)[i])
      {
        if i == s.currentExpandingIndex {
          assert Revealed(v, s1.expandedNodes, Items(s.activePhase)[i]);
        }
      }
    }
  }

  /** A full tour of the phase: one round per remaining item, then the phase
      timer, which lands on the next phase with an empty map, cursor 0 and the
      tour still on. */
  function PhaseTour(s: State): seq<Event>
  {
    Rounds(if Inv(s) then Length(s) - s.currentExpandingIndex else 0) + [PhaseTimerFires]
  }

  lemma RunConcat(v: Variant, s: State, a: seq<Event>, b: seq<Event>)
    ensures Run(v, s, a + b) == Run(v, Run(v, s, a), b)
    decreases |a|
  {
    if a != [] {
      assert (a + b)[0] == a[0] && (a + b)[1..] == a[1..] + b;
      assert Run(v, s, a + b) == Run(v, Step(v, s, a[0]), a[1..] + b);
      RunConcat(v, Step(v, s, a[0]), a[1..], b);
    } else {
      assert a + b == b;
    }
  }

  lemma TourOfPhase(v: Variant, s: State)
    requires Inv(s) && s.autoExpanding
    ensures Run(v, s, PhaseTour(s)) == State(map[], NextPhase(s.activePhase), true, 0)
  {
    var k := Length(s) - s.currentExpandingIndex;
    assert PhaseTour(s) == Rounds(k) + [PhaseTimerFires];
    TourRounds(v, s, k);
    var r := Run(v, s, Rounds(k));
    assert PhaseStepEnabled(r) && r.activePhase == s.activePhase;
    RunConcat(v, s, Rounds(k), [PhaseTimerFires]);
    assert Run(v, r, [PhaseTimerFires]) == Run(v, PhaseAdvance(r), []);
  }

  /** Four phase tours in a row come back to the starting phase, reset. */
  lemma TourCycles(v: Variant, p: Phase)
    ensures var s0 := State(map[], p, true, 0);
      var s1 := Run(v, s0, PhaseTour(s0));
      var s2 := Run(v, s1, PhaseTour(s1));
      var s3 := Run(v, s2, PhaseTour(s2));
      Run(v, s3, PhaseTour(s3)) == s0
  {
    var s0 := State(map[], p, true, 0);
    TourOfPhase(v, s0);
    var s1 := Run(v, s0, PhaseTour(s0));
    TourOfPhase(v, s1);
    var s2 := Run(v, s1, PhaseTour(s1));
    TourOfPhase(v, s2);
    var s3 := Run(v, s2, PhaseTour(s2));
    TourOfPhase(v, s3);
    NextPhasePeriod(p);
  }

  // ---------------------------------------------------------------------------
  // The map only holds ids of the active phase

  predicate KeysInPhase(s: State)
  {
    s.expandedNodes.Keys <= PhaseIds(s.activePhase)
  }

  /** The user can only click a node that is on screen. */
  predicate Clickable(s: State, e: Event)
  {
    e.ClickNode? ==> IsRendered(Rendered(s), e.id)
  }

  lemma ItemIdsInPhase(p: Phase, i: nat)
    requires i < |Items(p)|
    ensures forall x :: x in ItemIds(Items(p)[i]) ==> x in PhaseIds(p)
  {
    forall x | x in ItemIds(Items(p)[i]) ensures x in PhaseIds(p) {
      var k :| 0 <= k < |ItemIds(Items(p)[i])| && ItemIds(Items(p)[i])[k] == x;
    }
  }

  /** Clicks on rendered nodes, reveals and resets keep every key of the map
      an id of the active phase's content. */
  lemma StepKeepsKeysInPhase(v: Variant, s: State, e: Event)
    requires Inv(s) && KeysInPhase(s) && Clickable(s, e)
    ensures KeysInPhase(Step(v, s, e))
  {
    match e
    case ClickNode(id) =>
      var items := Items(s.activePhase);
      RenderedExactly(s.expandedNodes, items, id);
      var i :| 0 <= i < |items| && (items[i].id == id || (Truthy(s.expandedNodes, items[i].id) && id in SubItemIds(items[i])));
      ItemIdsInPhase(s.activePhase, i);
      assert id in ItemIds(items[i]);
    case RevealFires =>
      if NodeStepEnabled(s) {
        ItemIdsInPhase(s.activePhase, s.currentExpandingIndex);
      }
    case _ =>
  }

  // ---------------------------------------------------------------------------
  // Worked scenarios

  /** Starting the tour on "foundation" and letting it run over the four items
      ends on "intermediate" with an empty map, cursor 0 and the tour on. */
  lemma FoundationTour(v: Variant)
    ensures Run(v, Initial, [ClickStart] + Rounds(4) + [PhaseTimerFires]) == State(map[], Intermediate, true, 0)
  {
    var s0 := ResetAndAutoExpand(Initial);
    var es := Rounds(4) + [PhaseTimerFires];
    assert es == PhaseTour(s0) by {
      PhaseLength(Foundation);
    }
    TourOfPhase(v, s0);
    assert [ClickStart] + Rounds(4) + [PhaseTimerFires] == [ClickStart] + es;
    RunConcat(v, Initial, [ClickStart], es);
    assert Run(v, Initial, [ClickStart]) == s0 by {
      assert [ClickStart][1..] == [];
    }
  }

  /** Clicking "sql" while the tour runs on "intermediate" stops the tour and
      changes the "sql" entry alone. */
  lemma ClickSqlDuringTour(v: Variant, s: State)
    requires s.activePhase == Intermediate && s.autoExpanding
    ensures var r := Step(v, s, ClickNode("sql"));
      && !r.autoExpanding
      && Truthy(r.expandedNodes, "sql") == !Truthy(s.expandedNodes, "sql")
      && (forall k :: k != "sql" ==> Truthy(r.expandedNodes, k) == Truthy(s.expandedNodes, k))
  {
  }

  /** Revealing "ai-fundamentals" marks it and both its sub-items in the typed
      variant; the plain variant marks the parent only. */
  lemma RevealAiFundamentals()
    ensures var s := State(map[], AiIntegration, true, 0);
      && Truthy(Reveal(Typed, s).expandedNodes, "ai-fundamentals")
      && Truthy(Reveal(Typed, s).expandedNodes, "ml-basics")
      && Truthy(Reveal(Typed, s).expandedNodes, "ai-ethics")
      && Truthy(Reveal(Plain, s).expandedNodes, "ai-fundamentals")
      && !Truthy(Reveal(Plain, s).expandedNodes, "ml-basics")
      && !Truthy(Reveal(Plain, s).expandedNodes, "ai-ethics")
  {
    var s := State(map[], AiIntegration, true, 0);
    var item := Items(AiIntegration)[0];
    assert item.subItems[0].id == "ml-basics" && item.subItems[1].id == "ai-ethics";
    assert "ml-basics" != "ai-fundamentals" && "ai-ethics" != "ai-fundamentals";
    RevealTyped(s);
  }

  /** After that first reveal both variants show the two sub-items under
      "ai-fundamentals"; the typed variant shows them expanded, the plain
      variant collapsed. */
  lemma RevealAiFundamentalsView()
    ensures var s := State(map[], AiIntegration, true, 0);
      && IsRendered(Rendered(Reveal(Typed, s)), "ml-basics")
      && IsRendered(Rendered(Reveal(Plain, s)), "ml-basics")
      && Rendered(Reveal(Typed, s))[1] == RenderedNode("ml-basics", 2, true)
      && Rendered(Reveal(Plain, s))[1] == RenderedNode("ml-basics", 2, false)
  {
    var s := State(map[], AiIntegration, true, 0);
    RevealAiFundamentals();
    var items := Items(AiIntegration);
    assert "ml-basics" in SubItemIds(items[0]) by {
      assert SubItemIds(items[0])[0] == "ml-basics";
    }
    FirstSubItemNode(Reveal(Typed, s).expandedNodes, items);
    FirstSubItemNode(Reveal(Plain, s).expandedNodes, items);
  }
}
