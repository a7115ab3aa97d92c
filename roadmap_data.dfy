/** The fixed content tree of the business-analyst roadmap: the four phases, the
    cyclic phase order, and the ids of every top-level item and sub-item.
    Titles, descriptions and icons are presentation only and are not modelled. */
module RoadmapData {

  datatype Phase = Foundation | Intermediate | Advanced | AiIntegration

  /** The string key under which a phase is stored and compared. */
  function PhaseKey(p: Phase): string
  {
    match p
    case Foundation => "foundation"
    case Intermediate => "intermediate"
    case Advanced => "advanced"
    case AiIntegration => "ai-integration"
  }

  /** The phase order of the tour. */
  const Phases: seq<Phase> := [Foundation, Intermediate, Advanced, AiIntegration]

  /** The same order as the string keys the component cycles through. */
  const PhaseKeys: seq<string> := ["foundation", "intermediate", "advanced", "ai-integration"]

  /** JavaScript's `Array.prototype.indexOf`: the first position of `x`, or -1. */
  function IndexOf<T(==)>(xs: seq<T>, x: T): (r: int)
    ensures -1 <= r < |xs|
    ensures r == -1 <==> x !in xs
    ensures 0 <= r ==> xs[r] == x && forall j :: 0 <= j < r ==> xs[j] != x
  {
    if xs == [] then -1
    else if xs[0] == x then 0
    else
      var k := IndexOf(xs[1..], x);
      if k == -1 then -1 else k + 1
  }

  predicate Distinct<T(==)>(xs: seq<T>)
  {
    forall i, j :: 0 <= i < j < |xs| ==> xs[i] != xs[j]
  }

  /** In a sequence without repetitions, `indexOf` finds each element's own position. */
  lemma IndexOfDistinct<T>(xs: seq<T>, i: nat)
    requires Distinct(xs) && i < |xs|
    ensures IndexOf(xs, xs[i]) == i
  {
  }

  /** The element after the first occurrence of `x`, wrapping to the front;
      an absent `x` (index -1) yields the first element. */
  function NextIn<T(==)>(xs: seq<T>, x: T): (r: T)
    requires |xs| > 0
    ensures r in xs
    ensures x !in xs ==> r == xs[0]
    ensures Distinct(xs) ==> forall i {:trigger xs[i]} :: 0 <= i < |xs| && xs[i] == x ==> r == xs[(i + 1) % |xs|]
  {
    var i := IndexOf(xs, x);
    assert Distinct(xs) ==> forall j :: 0 <= j < |xs| && xs[j] == x ==> i == j by {
      if Distinct(xs) {
        forall j | 0 <= j < |xs| && xs[j] == x ensures i == j {
          IndexOfDistinct(xs, j);
        }
      }
    }
    xs[(i + 1) % |xs|]
  }

  /** The cyclic phase order, foundation to ai-integration and back. */
  function NextPhase(p: Phase): Phase
  {
    match p
    case Foundation => Intermediate
    case Intermediate => Advanced
    case Advanced => AiIntegration
    case AiIntegration => Foundation
  }

  /** The step the component computes: the key after the current one in
      `PhaseKeys`, found by `indexOf` and taken modulo the length. */
  function NextPhaseKey(current: string): string
  {
    NextIn(PhaseKeys, current)
  }

  /** The same `indexOf`/modulo step over the list of phases is the cyclic order. */
  lemma NextPhaseByIndexOf(p: Phase)
    ensures NextIn(Phases, p) == NextPhase(p)
  {
    assert Distinct(Phases);
    assert Phases[0] == Foundation && Phases[1] == Intermediate;
    assert Phases[2] == Advanced && Phases[3] == AiIntegration;
  }

  /** Applying the phase step `n` times. */
  function Iterate(n: nat, p: Phase): Phase
  {
    if n == 0 then p else NextPhase(Iterate(n - 1, p))
  }

  /** The phase sequence has period exactly four. */
  lemma NextPhasePeriod(p: Phase)
    ensures Iterate(4, p) == p
    ensures Iterate(1, p) != p && Iterate(2, p) != p && Iterate(3, p) != p
  {
    var p1 := NextPhase(p);
    var p2 := NextPhase(p1);
    var p3 := NextPhase(p2);
    assert Iterate(1, p) == p1;
    assert Iterate(2, p) == p2;
    assert Iterate(3, p) == p3;
    assert Iterate(4, p) == NextPhase(p3);
  }

  /** The key-level step the component performs agrees with the cyclic order. */
  lemma NextPhaseKeyAgrees(p: Phase)
    ensures NextPhaseKey(PhaseKey(p)) == PhaseKey(NextPhase(p))
  {
    NextPhaseKeyCycle();
  }

  lemma NextPhaseKeyCycle()
    ensures NextPhaseKey("foundation") == "intermediate"
    ensures NextPhaseKey("intermediate") == "advanced"
    ensures NextPhaseKey("advanced") == "ai-integration"
    ensures NextPhaseKey("ai-integration") == "foundation"
  {
    assert Distinct(PhaseKeys);
    assert PhaseKeys[0] == "foundation" && PhaseKeys[1] == "intermediate";
    assert PhaseKeys[2] == "advanced" && PhaseKeys[3] == "ai-integration";
  }

  /** An unknown key, for which `indexOf` yields -1, falls back to "foundation". */
  lemma NextPhaseKeyUnknown(k: string)
    requires k !in PhaseKeys
    ensures NextPhaseKey(k) == "foundation"
  {
  }

  datatype SubItem = SubItem(id: string, level: nat)

  /** A top-level item; an item without `subItems` has the empty sequence. */
  datatype Item = Item(id: string, level: nat, subItems: seq<SubItem>)

  function Top(id: string): Item
  {
    Item(id, 1, [])
  }

  function Parent(id: string, sub1: string, sub2: string): Item
  {
    Item(id, 1, [SubItem(sub1, 2), SubItem(sub2, 2)])
  }

  /** `roadmapData[phase]`. */
  function Items(p: Phase): seq<Item>
  {
    match p
    case Foundation =>
      [Top("business-fundamentals"), Top("requirements-elicitation"), Top("documentation"), Top("data-analysis")]
    case Intermediate =>
      [Top("process-modeling"), Top("sql"), Top("visualization"), Top("agile")]
    case Advanced =>
      [Top("product-management"), Top("python"), Top("change-management"), Top("enterprise-architecture")]
    case AiIntegration =>
      [Parent("ai-fundamentals", "ml-basics", "ai-ethics"),
       Parent("ai-tools", "llm-prompting", "ai-automation"),
       Top("data-for-ai"),
       Parent("ai-use-cases", "ai-implementation", "ai-metrics")]
  }

  function SubItemIds(item: Item): (r: seq<string>)
    ensures |r| == |item.subItems|
    ensures forall j :: 0 <= j < |r| ==> r[j] == item.subItems[j].id
  {
    seq(|item.subItems|, j requires 0 <= j < |item.subItems| => item.subItems[j].id)
  }

  /** The ids a reveal of `item` may touch: the item's own and its sub-items'. */
  function ItemIds(item: Item): seq<string>
  {
    [item.id] + SubItemIds(item)
  }

  /** Every id that can appear on screen while phase `p` is active. */
  function PhaseIds(p: Phase): set<string>
  {
    set i, k | 0 <= i < |Items(p)| && 0 <= k < |ItemIds(Items(p)[i])| :: ItemIds(Items(p)[i])[k]
  }

  /** The ids of a sequence of items in display order, each item followed by its sub-items. */
  function IdsOf(items: seq<Item>): seq<string>
  {
    if items == [] then [] else ItemIds(items[0]) + IdsOf(items[1..])
  }

  lemma {:induction false} IdsOfMembership(items: seq<Item>, x: string)
    ensures x in IdsOf(items) <==> exists i :: 0 <= i < |items| && x in ItemIds(items[i])
  {
    if items != [] {
      IdsOfMembership(items[1..], x);
      if x in IdsOf(items[1..]) {
        var i :| 0 <= i < |items[1..]| && x in ItemIds(items[1..][i]);
        assert x in ItemIds(items[i + 1]);
      }
      if exists i :: 0 <= i < |items| && x in ItemIds(items[i]) {
        var i :| 0 <= i < |items| && x in ItemIds(items[i]);
        if i > 0 { assert items[1..][i - 1] == items[i]; }
      }
    }
  }

  /** The set of a phase's ids is the set of its flattened id list. */
  lemma PhaseIdsAreIdsOf(p: Phase)
    ensures PhaseIds(p) == set x | x in IdsOf(Items(p))
  {
    var items := Items(p);
    forall x ensures x in PhaseIds(p) <==> x in IdsOf(items) {
      IdsOfMembership(items, x);
      if x in IdsOf(items) {
        var i :| 0 <= i < |items| && x in ItemIds(items[i]);
        var k :| 0 <= k < |ItemIds(items[i])| && ItemIds(items[i])[k] == x;
        assert x in PhaseIds(p);
      }
      if x in PhaseIds(p) {
        var i, k :| 0 <= i < |items| && 0 <= k < |ItemIds(items[i])| && ItemIds(items[i])[k] == x;
        assert x in ItemIds(items[i]);
      }
    }
  }

  /** All ids of the content store, phase by phase. */
  function AllIds(): seq<string>
  {
    IdsOf(Items(Foundation)) + IdsOf(Items(Intermediate)) + IdsOf(Items(Advanced)) + IdsOf(Items(AiIntegration))
  }

  /** Every phase has four top-level items. */
  lemma PhaseLength(p: Phase)
    ensures |Items(p)| == 4
  {
  }

  /** The store holds 22 ids, no two alike, so an id names one node across all
      phases and both levels. */
  lemma IdsUnique()
    ensures |AllIds()| == 22
    ensures Distinct(AllIds())
  {
    PhaseIdsListed();
    assert IdList == IdList[..4] + IdList[4..8] + IdList[8..12] + IdList[12..];
    IdListDistinct();
  }

  lemma PhaseIdsListed()
    ensures IdsOf(Items(Foundation)) == IdList[..4]
    ensures IdsOf(Items(Intermediate)) == IdList[4..8]
    ensures IdsOf(Items(Advanced)) == IdList[8..12]
    ensures IdsOf(Items(AiIntegration)) == IdList[12..]
  {
    AiIdsListed();
  }

  lemma AiIdsListed()
    ensures IdsOf(Items(AiIntegration)) == IdList[12..]
  {
    var items := Items(AiIntegration);
    assert ItemIds(items[0]) == ["ai-fundamentals", "ml-basics", "ai-ethics"];
    assert ItemIds(items[1]) == ["ai-tools", "llm-prompting", "ai-automation"];
    assert ItemIds(items[2]) == ["data-for-ai"];
    assert ItemIds(items[3]) == ["ai-use-cases", "ai-implementation", "ai-metrics"];
  }

  /** The ids of the content store written out, as the literal shows them. */
  const IdList: seq<string> :=
    ["business-fundamentals", "requirements-elicitation", "documentation", "data-analysis",
     "process-modeling", "sql", "visualization", "agile",
     "product-management", "python", "change-management", "enterprise-architecture",
     "ai-fundamentals", "ml-basics", "ai-ethics", "ai-tools", "llm-prompting", "ai-automation",
     "data-for-ai", "ai-use-cases", "ai-implementation", "ai-metrics"]

  lemma IdListDistinct()
    ensures Distinct(IdList)
  {
  }

  /** Top-level items sit at level 1 and sub-items at level 2; only three
      "ai-integration" items own sub-items, two each. */
  lemma ContentLevels(p: Phase)
    ensures forall i :: 0 <= i < |Items(p)| ==> Items(p)[i].level == 1
    ensures forall i, j :: 0 <= i < |Items(p)| && 0 <= j < |Items(p)[i].subItems| ==> Items(p)[i].subItems[j].level == 2
    ensures forall i :: 0 <= i < |Items(p)| ==> (Items(p)[i].subItems != [] <==> p == AiIntegration && i != 2)
    ensures forall i :: 0 <= i < |Items(p)| && Items(p)[i].subItems != [] ==> |Items(p)[i].subItems| == 2
  {
  }
}
