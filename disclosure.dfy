/** The pure parts of the component: the expansion map and its updaters, and
    which nodes `renderNodes` shows for a given map. */
module Disclosure {
  import opened RoadmapData

  /** `expandedNodes`: id to expanded flag; an id never written is absent. */
  type Expansion = map<string, bool>

  /** `!!expandedNodes[id]`: an absent id reads as collapsed. */
  predicate Truthy(m: Expansion, id: string)
  {
    id in m && m[id]
  }

  /** The toggle updater, `{ ...prev, [id]: !prev[id] }`. */
  function Toggled(m: Expansion, id: string): (r: Expansion)
    ensures r.Keys == m.Keys + {id}
    ensures Truthy(r, id) == !Truthy(m, id)
    ensures forall k :: k in m && k != id ==> r[k] == m[k]
  {
    m[id := !Truthy(m, id)]
  }

  /** Toggling twice restores every truth value; the map itself only gains an
      explicit entry for `id` where it had none. */
  lemma ToggleTwice(m: Expansion, id: string)
    ensures forall k :: Truthy(Toggled(Toggled(m, id), id), k) == Truthy(m, k)
    ensures Toggled(Toggled(m, id), id) == m[id := Truthy(m, id)]
  {
  }

  /** The reveal updater of the typed variant: the current item and every one
      of its sub-items become expanded. */
  function RevealedWithSubItems(m: Expansion, item: Item): (r: Expansion)
    ensures r.Keys == m.Keys + set k | k in ItemIds(item)
    ensures forall k :: k in ItemIds(item) ==> Truthy(r, k)
    ensures forall k :: k in m && k !in ItemIds(item) ==> r[k] == m[k]
    ensures forall k :: Truthy(m, k) ==> Truthy(r, k)
  {
    m[item.id := true] + map k | k in SubItemIds(item) :: true
  }

  /** The reveal updater of the plain variant, `{ ...prev, [currentNode.id]: true }`. */
  function RevealedTopOnly(m: Expansion, item: Item): (r: Expansion)
    ensures r.Keys == m.Keys + {item.id}
    ensures Truthy(r, item.id)
    ensures forall k :: k in m && k != item.id ==> r[k] == m[k]
    ensures forall k :: Truthy(m, k) ==> Truthy(r, k)
  {
    m[item.id := true]
  }

  /** The two variants agree except on sub-item ids, which only the typed one expands. */
  lemma RevealVariantsDiffer(m: Expansion, item: Item, k: string)
    ensures Truthy(RevealedWithSubItems(m, item), k) == (Truthy(RevealedTopOnly(m, item), k) || k in SubItemIds(item))
  {
  }

  /** One `RoadmapNode` as rendered: its id, indentation level and `isExpanded`. */
  datatype RenderedNode = RenderedNode(id: string, level: nat, isExpanded: bool)

  function SubItemNodes(m: Expansion, subs: seq<SubItem>): (r: seq<RenderedNode>)
    ensures |r| == |subs|
    ensures forall j :: 0 <= j < |r| ==> r[j] == RenderedNode(subs[j].id, subs[j].level, Truthy(m, subs[j].id))
  {
    seq(|subs|, j requires 0 <= j < |subs| => RenderedNode(subs[j].id, subs[j].level, Truthy(m, subs[j].id)))
  }

  /** `showSubItems = expandedNodes[item.id] && item.subItems`. */
  predicate ShowSubItems(m: Expansion, item: Item)
  {
    Truthy(m, item.id) && item.subItems != []
  }

  /** One item of `renderNodes`: its node, then its sub-items' nodes when shown. */
  function ItemNodes(m: Expansion, item: Item): seq<RenderedNode>
  {
    [RenderedNode(item.id, item.level, Truthy(m, item.id))]
      + (if ShowSubItems(m, item) then SubItemNodes(m, item.subItems) else [])
  }

  /** `renderNodes(phase)` over the phase's items, in order. */
  function RenderNodes(m: Expansion, items: seq<Item>): (r: seq<RenderedNode>)
    ensures |r| >= |items|
    ensures forall i :: 0 <= i < |items| ==> IsRendered(r, items[i].id)
    ensures forall j :: 0 <= j < |r| ==> r[j].isExpanded == Truthy(m, r[j].id)
  {
    if items == [] then []
    else
      var head := ItemNodes(m, items[0]);
      var rest := RenderNodes(m, items[1..]);
      assert IsRendered(head + rest, items[0].id) by {
        assert (head + rest)[0].id == items[0].id;
      }
      assert forall i :: 1 <= i < |items| ==> IsRendered(head + rest, items[i].id) by {
        forall i | 1 <= i < |items| ensures IsRendered(head + rest, items[i].id) {
          assert items[1..][i - 1] == items[i];
          var j :| 0 <= j < |rest| && rest[j].id == items[i].id;
          assert (head + rest)[|head| + j].id == items[i].id;
        }
      }
      head + rest
  }

  /** `x` is on screen: a top-level item, or a sub-item of an expanded item. */
  predicate Shown(m: Expansion, items: seq<Item>, x: string)
  {
    exists i :: 0 <= i < |items| && (items[i].id == x || (Truthy(m, items[i].id) && x in SubItemIds(items[i])))
  }

  predicate IsRendered(nodes: seq<RenderedNode>, x: string)
  {
    exists j :: 0 <= j < |nodes| && nodes[j].id == x
  }

  lemma ItemNodesIds(m: Expansion, item: Item, x: string)
    ensures IsRendered(ItemNodes(m, item), x) <==> (item.id == x || (Truthy(m, item.id) && x in SubItemIds(item)))
  {
    var nodes := ItemNodes(m, item);
    if x in SubItemIds(item) && Truthy(m, item.id) {
      var j :| 0 <= j < |SubItemIds(item)| && SubItemIds(item)[j] == x;
      assert nodes[j + 1].id == x;
    }
    if item.id == x {
      assert nodes[0].id == x;
    }
    if IsRendered(nodes, x) && item.id != x {
      var j :| 0 <= j < |nodes| && nodes[j].id == x;
      assert SubItemIds(item)[j - 1] == x;
    }
  }

  lemma IsRenderedConcat(a: seq<RenderedNode>, b: seq<RenderedNode>, x: string)
    ensures IsRendered(a + b, x) <==> IsRendered(a, x) || IsRendered(b, x)
  {
    if IsRendered(b, x) {
      var j :| 0 <= j < |b| && b[j].id == x;
      assert (a + b)[|a| + j].id == x;
    }
    if IsRendered(a, x) {
      var j :| 0 <= j < |a| && a[j].id == x;
      assert (a + b)[j].id == x;
    }
  }

  /** `renderNodes` shows exactly the phase's top-level items, plus the
      sub-items of each item whose entry is true. */
  lemma {:induction false} RenderedExactly(m: Expansion, items: seq<Item>, x: string)
    ensures IsRendered(RenderNodes(m, items), x) <==> Shown(m, items, x)
  {
    if items != [] {
      RenderedExactly(m, items[1..], x);
      IsRenderedConcat(ItemNodes(m, items[0]), RenderNodes(m, items[1..]), x);
      ItemNodesIds(m, items[0], x);
      if Shown(m, items[1..], x) {
        var i :| 0 <= i < |items[1..]| && (items[1..][i].id == x || (Truthy(m, items[1..][i].id) && x in SubItemIds(items[1..][i])));
        assert items[1..][i] == items[i + 1];
      }
      if Shown(m, items, x) {
        var i :| 0 <= i < |items| && (items[i].id == x || (Truthy(m, items[i].id) && x in SubItemIds(items[i])));
        if i > 0 {
          assert items[1..][i - 1] == items[i];
        }
      }
    }
  }

  /** When the first item's entry is true, its first sub-item is the second node rendered. */
  lemma FirstSubItemNode(m: Expansion, items: seq<Item>)
    requires items != [] && items[0].subItems != [] && Truthy(m, items[0].id)
    ensures |RenderNodes(m, items)| > 1
    ensures RenderNodes(m, items)[1] == RenderedNode(items[0].subItems[0].id, items[0].subItems[0].level, Truthy(m, items[0].subItems[0].id))
    ensures IsRendered(RenderNodes(m, items), items[0].subItems[0].id)
  {
    var r := RenderNodes(m, items);
    assert r == ItemNodes(m, items[0]) + RenderNodes(m, items[1..]);
    assert r[1].id == items[0].subItems[0].id;
  }

  /** With no item expanded, `renderNodes` shows the top-level items alone, in
      order and collapsed: the view right after a reset. */
  lemma {:induction false} RenderCollapsed(m: Expansion, items: seq<Item>)
    requires forall i :: 0 <= i < |items| ==> !Truthy(m, items[i].id)
    ensures RenderNodes(m, items) == seq(|items|, i requires 0 <= i < |items| => RenderedNode(items[i].id, items[i].level, false))
  {
    if items != [] {
      RenderCollapsed(m, items[1..]);
    }
  }
}
