/** The plain copy of `BusinessAnalystRoadmap`: the same four state cells and
    handlers as the typed copy, except that its tour reveal expands the current
    top-level item only. */
module PlainRoadmap {
  import opened RoadmapData
  import opened Disclosure
  import Tour

  class BusinessAnalystRoadmap {
    var expandedNodes: Expansion
    var activePhase: Phase
    var autoExpanding: bool
    var currentExpandingIndex: nat

    function State(): Tour.State
      reads this
    {
      Tour.State(expandedNodes, activePhase, autoExpanding, currentExpandingIndex)
    }

    ghost predicate Valid()
      reads this
    {
      Tour.Inv(State())
    }

    /** The initial `useState` values. */
    constructor ()
      ensures Valid() && State() == Tour.Initial
    {
      expandedNodes := map[];
      activePhase := Foundation;
      autoExpanding := false;
      currentExpandingIndex := 0;
    }

    /** `toggleNode(id)`: a manual click cancels the tour and flips `id`. */
    method ToggleNode(id: string)
      requires Valid()
      modifies this
      ensures Valid()
      ensures !autoExpanding
      ensures expandedNodes == Toggled(old(expandedNodes), id)
      ensures activePhase == old(activePhase) && currentExpandingIndex == old(currentExpandingIndex)
      ensures State() == Tour.Step(Tour.Plain, old(State()), Tour.ClickNode(id))
    {
      autoExpanding := false;
      expandedNodes := Toggled(expandedNodes, id);
    }

    /** `resetAndAutoExpand`, the "Start Animation" button. */
    method ResetAndAutoExpand()
      requires Valid()
      modifies this
      ensures Valid()
      ensures expandedNodes == map[] && currentExpandingIndex == 0 && autoExpanding
      ensures activePhase == old(activePhase)
      ensures State() == Tour.Step(Tour.Plain, old(State()), Tour.ClickStart)
    {
      expandedNodes := map[];
      currentExpandingIndex := 0;
      autoExpanding := true;
    }

    /** The effect that runs whenever `activePhase` changes. */
    method PhaseChangeEffect()
      requires Valid()
      modifies this
      ensures Valid()
      ensures expandedNodes == map[] && currentExpandingIndex == 0
      ensures activePhase == old(activePhase) && autoExpanding == old(autoExpanding)
      ensures State() == Tour.PhaseChangeEffect(old(State()))
    {
      expandedNodes := map[];
      currentExpandingIndex := 0;
    }

    /** A phase button: `setActivePhase(phase)` and `resetAndAutoExpand()`,
        then the phase-change effect if the phase is a different one. */
    method SelectPhase(phase: Phase)
      requires Valid()
      modifies this
      ensures Valid()
      ensures activePhase == phase
      ensures expandedNodes == map[] && currentExpandingIndex == 0 && autoExpanding
      ensures State() == Tour.Step(Tour.Plain, old(State()), Tour.ClickPhase(phase))
    {
      var changed := phase != activePhase;
      activePhase := phase;
      PhaseLength(phase);
      ResetAndAutoExpand();
      if changed {
        PhaseChangeEffect();
      }
    }

    /** The tour effect: nothing while the tour is off; at the end of the
        phase, schedule the phase timer; otherwise reveal the current item,
        without its sub-items, and schedule the advance timer. */
    method TourEffect() returns (timer: Tour.Timer)
      requires Valid()
      modifies this
      ensures Valid()
      ensures timer == Tour.ScheduledTimer(old(State()))
      ensures activePhase == old(activePhase) && autoExpanding == old(autoExpanding)
      ensures currentExpandingIndex == old(currentExpandingIndex)
      ensures timer == Tour.AdvanceTimer ==>
        expandedNodes == RevealedTopOnly(old(expandedNodes), Items(activePhase)[currentExpandingIndex])
      ensures timer != Tour.AdvanceTimer ==> expandedNodes == old(expandedNodes)
      ensures State() == Tour.Step(Tour.Plain, old(State()), Tour.RevealFires)
    {
      if !autoExpanding {
        return Tour.NoTimer;
      }
      var phaseData := Items(activePhase);
      if currentExpandingIndex >= |phaseData| {
        return Tour.PhaseTimer;
      }
      var currentNode := phaseData[currentExpandingIndex];
      expandedNodes := RevealedTopOnly(expandedNodes, currentNode);
      return Tour.AdvanceTimer;
    }

    /** The advance timer fires: it is pending only while the tour is on and
        the cursor is inside the phase. */
    method OnAdvanceTimer()
      requires Valid() && Tour.ScheduledTimer(State()) == Tour.AdvanceTimer
      modifies this
      ensures Valid()
      ensures currentExpandingIndex == old(currentExpandingIndex) + 1
      ensures expandedNodes == old(expandedNodes) && activePhase == old(activePhase) && autoExpanding == old(autoExpanding)
      ensures State() == Tour.Step(Tour.Plain, old(State()), Tour.AdvanceFires)
    {
      currentExpandingIndex := currentExpandingIndex + 1;
    }

    /** The phase timer fires: it is pending only while the tour is on and the
        phase is exhausted. The phase moves on, and the phase-change effect runs. */
    method OnPhaseTimer()
      requires Valid() && Tour.ScheduledTimer(State()) == Tour.PhaseTimer
      modifies this
      ensures Valid()
      ensures activePhase == NextPhase(old(activePhase))
      ensures expandedNodes == map[] && currentExpandingIndex == 0 && autoExpanding
      ensures State() == Tour.Step(Tour.Plain, old(State()), Tour.PhaseTimerFires)
    {
      ghost var before := State();
      var next := NextIn(Phases, activePhase);
      NextPhaseByIndexOf(activePhase);
      PhaseLength(activePhase);
      PhaseLength(next);
      activePhase := next;
      PhaseChangeEffect();
      assert State() == Tour.PhaseAdvance(before);
    }
  }
}
