/**
 * The layer stack of the panel editor: an ordered list of rectangular
 * overlay layers (later entries paint on top), the selected layer, and the
 * handlers that the canvas and the layer list call.  Every list handler
 * builds a new list and hands it to the owner through `onLayersChange`.
 */
module LayeredEditor {
  import opened Wrappers

  datatype LayerKind = Hair | Eyes | Clothes | Background | Custom

  /** One overlay region.  Geometry and opacity are JavaScript numbers, modelled as reals. */
  datatype Layer = Layer(
    id: string,
    name: string,
    kind: LayerKind,
    visible: bool,
    x: real,
    y: real,
    width: real,
    height: real,
    color: Option<string>,
    opacity: real)

  datatype Direction = Up | Down

  /** What the canvas reports for the transformed shape at the end of a drag or resize. */
  datatype Node = Node(id: string, x: real, y: real, width: real, height: real, scaleX: real, scaleY: real)

  /** The box the transformer proposes while resizing. */
  datatype Box = Box(x: real, y: real, width: real, height: real, rotation: real)

  /** The smallest width and height the transformer lets a box shrink to. */
  const MinSize: real := 5.0

  predicate HasLayer(ls: seq<Layer>, id: string) {
    exists i | 0 <= i < |ls| :: ls[i].id == id
  }

  // ---------------------------------------------------------------------
  // Selection
  // ---------------------------------------------------------------------

  /** Clicking a layer selects it, or clears the selection if it was the selected one. */
  function Select(selected: Option<string>, id: string): (r: Option<string>)
    ensures r == None <==> selected == Some(id)
    ensures r != None ==> r == Some(id)
  {
    if selected == Some(id) then None else Some(id)
  }

  // ---------------------------------------------------------------------
  // Updates by id (the `layers.map(layer => layer.id === id ? ... : layer)` pattern)
  // ---------------------------------------------------------------------

  /** Applies `f` to every layer whose id is `id` and keeps the others. */
  function MapMatching(ls: seq<Layer>, id: string, f: Layer -> Layer): (r: seq<Layer>)
    ensures |r| == |ls|
    ensures forall i :: 0 <= i < |ls| && ls[i].id == id ==> r[i] == f(ls[i])
    ensures forall i :: 0 <= i < |ls| && ls[i].id != id ==> r[i] == ls[i]
  {
    if ls == [] then [] else [if ls[0].id == id then f(ls[0]) else ls[0]] + MapMatching(ls[1..], id, f)
  }

  function FlipVisible(l: Layer): Layer {
    l.(visible := !l.visible)
  }

  /** `toggleLayerVisibility`: flips `visible` on the matching layers, nothing else. */
  function Toggled(ls: seq<Layer>, id: string): (r: seq<Layer>)
    ensures |r| == |ls|
    ensures forall i :: 0 <= i < |ls| ==> r[i].visible == (ls[i].visible != (ls[i].id == id))
    ensures forall i :: 0 <= i < |ls| ==> r[i] == ls[i].(visible := r[i].visible)
  {
    MapMatching(ls, id, FlipVisible)
  }

  /** Toggling the same layer twice restores the list. */
  lemma ToggledTwice(ls: seq<Layer>, id: string)
    ensures Toggled(Toggled(ls, id), id) == ls
  {
  }

  /** `updateLayerOpacity`: stores the given value on the matching layers, without clamping. */
  function WithOpacity(ls: seq<Layer>, id: string, opacity: real): (r: seq<Layer>)
    ensures |r| == |ls|
    ensures forall i :: 0 <= i < |ls| ==> r[i].opacity == (if ls[i].id == id then opacity else ls[i].opacity)
    ensures forall i :: 0 <= i < |ls| ==> r[i] == ls[i].(opacity := r[i].opacity)
  {
    MapMatching(ls, id, (l: Layer) => l.(opacity := opacity))
  }

  /** Two opacity updates of the same layer: the second one wins. */
  lemma WithOpacityLastWins(ls: seq<Layer>, id: string, a: real, b: real)
    ensures WithOpacity(WithOpacity(ls, id, a), id, b) == WithOpacity(ls, id, b)
  {
  }

  /** The stored opacity can leave [0,1]: a value of 2 is kept as 2. */
  lemma OpacityIsNotClamped(ls: seq<Layer>, i: nat)
    requires i < |ls|
    ensures WithOpacity(ls, ls[i].id, 2.0)[i].opacity == 2.0
    ensures WithOpacity(ls, ls[i].id, -1.0)[i].opacity == -1.0
  {
  }

  /** The new geometry of a layer from the transformed node: position, and size times scale. */
  function FromNode(l: Layer, node: Node): Layer {
    l.(x := node.x, y := node.y, width := node.width * node.scaleX, height := node.height * node.scaleY)
  }

  /** `handleTransformEnd`: the layer with the node's id takes the node's geometry. */
  function Transformed(ls: seq<Layer>, node: Node): (r: seq<Layer>)
    ensures |r| == |ls|
    ensures forall i :: 0 <= i < |ls| && ls[i].id == node.id ==>
      && r[i].x == node.x && r[i].y == node.y
      && r[i].width == node.width * node.scaleX && r[i].height == node.height * node.scaleY
      && r[i] == ls[i].(x := r[i].x, y := r[i].y, width := r[i].width, height := r[i].height)
    ensures forall i :: 0 <= i < |ls| && ls[i].id != node.id ==> r[i] == ls[i]
  {
    MapMatching(ls, node.id, (l: Layer) => FromNode(l, node))
  }

  /** The node as the next render leaves it: scale reset to 1, size taken from the stored layer. */
  function ResetScale(node: Node): Node {
    node.(width := node.width * node.scaleX, height := node.height * node.scaleY, scaleX := 1.0, scaleY := 1.0)
  }

  /**
   * Storing the absolute size and resetting the scale keeps transforms from
   * compounding: reporting the reset node again changes nothing.
   */
  lemma TransformSettles(ls: seq<Layer>, node: Node)
    ensures Transformed(Transformed(ls, node), ResetScale(node)) == Transformed(ls, node)
  {
  }

  // ---------------------------------------------------------------------
  // Removal (`layers.filter(layer => layer.id !== id)`)
  // ---------------------------------------------------------------------

  function Removed(ls: seq<Layer>, id: string): (r: seq<Layer>)
    ensures |r| <= |ls|
    ensures !HasLayer(r, id)
    ensures forall l: Layer :: l.id == id ==> multiset(r)[l] == 0
    ensures forall l: Layer :: l.id != id ==> multiset(r)[l] == multiset(ls)[l]
  {
    if ls == [] then []
    else
      var rest := Removed(ls[1..], id);
      assert ls == [ls[0]] + ls[1..];
      if ls[0].id == id then rest else [ls[0]] + rest
  }

  /** Removal keeps the relative order: it distributes over concatenation. */
  lemma {:induction false} RemovedAppend(a: seq<Layer>, b: seq<Layer>, id: string)
    ensures Removed(a + b, id) == Removed(a, id) + Removed(b, id)
  {
    if a == [] {
      assert a + b == b;
    } else {
      assert (a + b)[0] == a[0];
      assert (a + b)[1..] == a[1..] + b;
      RemovedAppend(a[1..], b, id);
    }
  }

  /** Removing an id that is not listed leaves the list unchanged. */
  lemma {:induction false} RemovedAbsent(ls: seq<Layer>, id: string)
    requires !HasLayer(ls, id)
    ensures Removed(ls, id) == ls
  {
    if ls != [] {
      assert ls[0].id != id;
      assert !HasLayer(ls[1..], id) by {
        forall i | 0 <= i < |ls| - 1 ensures ls[1..][i].id != id {
          assert ls[1..][i] == ls[i + 1];
        }
      }
      RemovedAbsent(ls[1..], id);
    }
  }

  /** A second removal of the same id is a no-op. */
  lemma RemovedTwice(ls: seq<Layer>, id: string)
    ensures Removed(Removed(ls, id), id) == Removed(ls, id)
  {
    RemovedAbsent(Removed(ls, id), id);
  }

  // ---------------------------------------------------------------------
  // Reordering (`findIndex`, then two `splice` calls on a copy)
  // ---------------------------------------------------------------------

  /** `findIndex`: the first position holding `id`, or -1. */
  function FirstIndex(ls: seq<Layer>, id: string): (k: int)
    ensures -1 <= k < |ls|
    ensures k == -1 <==> !HasLayer(ls, id)
    ensures k >= 0 ==> ls[k].id == id && forall j :: 0 <= j < k ==> ls[j].id != id
  {
    if ls == [] then -1
    else if ls[0].id == id then 0
    else
      var k := FirstIndex(ls[1..], id);
      assert forall j :: 1 <= j < |ls| ==> ls[j] == ls[1..][j - 1];
      if k == -1 then -1 else k + 1
  }

  /**
   * `moveLayer` leaves the list alone when the layer is already at the end it
   * moves towards: first in the list for up, last for down.  For an id that
   * is not there, `findIndex` gives -1, which is the last index only of the
   * empty list.
   */
  predicate AtBoundary(ls: seq<Layer>, id: string, dir: Direction): (b: bool)
    ensures HasLayer(ls, id) && dir == Up ==> (b <==> ls[0].id == id)
    ensures HasLayer(ls, id) && dir == Down ==>
      (b <==> ls[|ls| - 1].id == id && forall k :: 0 <= k < |ls| - 1 ==> ls[k].id != id)
    ensures !HasLayer(ls, id) ==> (b <==> dir == Down && ls == [])
  {
    var i := FirstIndex(ls, id);
    (dir == Up && i == 0) || (dir == Down && i == |ls| - 1)
  }

  /** `splice(i, 1)`. */
  function RemoveAt(s: seq<Layer>, i: nat): (r: seq<Layer>)
    requires i < |s|
    ensures |r| == |s| - 1
    ensures forall k :: 0 <= k < i ==> r[k] == s[k]
    ensures forall k :: i <= k < |r| ==> r[k] == s[k + 1]
  {
    s[..i] + s[i + 1..]
  }

  /** `splice(i, 0, x)`. */
  function InsertAt(s: seq<Layer>, i: nat, x: Layer): (r: seq<Layer>)
    requires i <= |s|
    ensures |r| == |s| + 1 && r[i] == x
    ensures forall k :: 0 <= k < i ==> r[k] == s[k]
    ensures forall k :: i < k < |r| ==> r[k] == s[k - 1]
  {
    s[..i] + [x] + s[i..]
  }

  /** Taking out the entry at `i` and inserting it at the neighbouring `j` swaps the two. */
  lemma SpliceNeighbours(ls: seq<Layer>, i: nat, j: nat)
    requires i < |ls| && j < |ls| && (j == i + 1 || i == j + 1)
    ensures InsertAt(RemoveAt(ls, i), j, ls[i]) == ls[i := ls[j]][j := ls[i]]
  {
  }

  /** Swapping two entries gives a permutation. */
  lemma SwapPermutes(ls: seq<Layer>, i: nat, j: nat)
    requires i < |ls| && j < |ls|
    ensures multiset(ls[i := ls[j]][j := ls[i]]) == multiset(ls)
  {
  }

  /**
   * `moveLayer(id, dir)` on a list that holds `id`: take the layer out and
   * put it back one place up or down.  The net effect is a swap of two
   * neighbours, and the result is a permutation of the input.
   */
  function Moved(ls: seq<Layer>, id: string, dir: Direction): (r: seq<Layer>)
    requires HasLayer(ls, id)
    ensures |r| == |ls| && multiset(r) == multiset(ls)
    ensures AtBoundary(ls, id, dir) ==> r == ls
    ensures !AtBoundary(ls, id, dir) ==>
      var i := FirstIndex(ls, id);
      var j := if dir == Up then i - 1 else i + 1;
      && 0 <= j < |ls|
      && r[j] == ls[i] && r[i] == ls[j]
      && forall k :: 0 <= k < |ls| && k != i && k != j ==> r[k] == ls[k]
  {
    var i := FirstIndex(ls, id);
    if (dir == Up && i == 0) || (dir == Down && i == |ls| - 1) then ls
    else
      assert 0 <= i < |ls|;
      var j := if dir == Up then i - 1 else i + 1;
      assert dir == Down ==> i + 1 < |ls|;
      SpliceNeighbours(ls, i, j);
      SwapPermutes(ls, i, j);
      InsertAt(RemoveAt(ls, i), j, ls[i])
  }

  /**
   * Moving a layer up and then down again restores the list; so does moving
   * it down and then up, unless the layer below carries the same id (then
   * `findIndex` finds that one on the way back).
   */
  lemma MovedRoundTrip(ls: seq<Layer>, id: string, dir: Direction)
    requires HasLayer(ls, id) && !AtBoundary(ls, id, dir)
    requires dir == Down ==> ls[FirstIndex(ls, id) + 1].id != id
    ensures var r := Moved(ls, id, dir);
      HasLayer(r, id) && Moved(r, id, if dir == Up then Down else Up) == ls
  {
    var i := FirstIndex(ls, id);
    var j := if dir == Up then i - 1 else i + 1;
    var r := Moved(ls, id, dir);
    var back := if dir == Up then Down else Up;
    FirstIndexAt(r, id, j);
    MovedIsSwap(r, id, back, j, i, ls);
  }

  /** The first layer with `id` is at `k` when it is at `k` and at no earlier index. */
  lemma FirstIndexAt(ls: seq<Layer>, id: string, k: int)
    requires 0 <= k < |ls| && ls[k].id == id
    requires forall m :: 0 <= m < k ==> ls[m].id != id
    ensures FirstIndex(ls, id) == k
  {
  }

  /** `findIndex`, written as the loop it runs. */
  method FindIndex(ls: seq<Layer>, id: string) returns (k: int)
    ensures k == FirstIndex(ls, id)
    ensures k == -1 || (0 <= k < |ls| && ls[k].id == id)
  {
    k := 0;
    while k < |ls| && ls[k].id != id
      invariant 0 <= k <= |ls|
      invariant forall j :: 0 <= j < k ==> ls[j].id != id
    {
      k := k + 1;
    }
    if k == |ls| {
      k := -1;
    }
  }

  /**
   * The body of `moveLayer`: find the layer, copy the list, and move the
   * layer to its neighbour's place in the copy.
   */
  method MoveInCopy(ls: seq<Layer>, id: string, dir: Direction) returns (moved: bool, r: seq<Layer>)
    requires HasLayer(ls, id)
    ensures moved == !AtBoundary(ls, id, dir)
    ensures r == Moved(ls, id, dir)
  {
    var index := FindIndex(ls, id);
    if (dir == Up && index == 0) || (dir == Down && index == |ls| - 1) {
      return false, ls;
    }
    var newIndex := if dir == Up then index - 1 else index + 1;
    assert 0 <= newIndex < |ls|;
    var copy := new Layer[|ls|](i requires 0 <= i < |ls| => ls[i]);
    // splice(index, 1) followed by splice(newIndex, 0, movedLayer) on neighbours
    copy[index], copy[newIndex] := copy[newIndex], copy[index];
    moved, r := true, copy[..];
    MovedIsSwap(ls, id, dir, index, newIndex, r);
  }

  /** A list that swaps the moved layer with its neighbour and keeps the rest is `Moved`. */
  lemma MovedIsSwap(ls: seq<Layer>, id: string, dir: Direction, i: int, j: int, r: seq<Layer>)
    requires HasLayer(ls, id) && !AtBoundary(ls, id, dir)
    requires i == FirstIndex(ls, id) && j == (if dir == Up then i - 1 else i + 1)
    requires 0 <= j < |ls| && |r| == |ls| && r[i] == ls[j] && r[j] == ls[i]
    requires forall k :: 0 <= k < |ls| && k != i && k != j ==> r[k] == ls[k]
    ensures r == Moved(ls, id, dir)
  {
  }

  // ---------------------------------------------------------------------
  // The transformer's size rule (`boundBoxFunc`)
  // ---------------------------------------------------------------------

  /** The whole proposed box is refused when either side would drop below the minimum. */
  function BoundBox(oldBox: Box, newBox: Box): (r: Box)
    ensures r == newBox || r == oldBox
    ensures newBox.width < MinSize || newBox.height < MinSize ==> r == oldBox
    ensures newBox.width >= MinSize && newBox.height >= MinSize ==> r == newBox
  {
    if newBox.width < MinSize || newBox.height < MinSize then oldBox else newBox
  }

  predicate MeetsMinimum(b: Box) {
    b.width >= MinSize && b.height >= MinSize
  }

  /** The box after the transformer has been offered each proposal in turn. */
  function BoundAll(start: Box, proposals: seq<Box>): Box
    decreases proposals
  {
    if proposals == [] then start else BoundAll(BoundBox(start, proposals[0]), proposals[1..])
  }

  /** Starting from a box that meets the minimum, no sequence of proposals shrinks it below. */
  lemma {:induction false} BoundAllMeetsMinimum(start: Box, proposals: seq<Box>)
    requires MeetsMinimum(start)
    ensures MeetsMinimum(BoundAll(start, proposals))
    decreases proposals
  {
    if proposals != [] {
      BoundAllMeetsMinimum(BoundBox(start, proposals[0]), proposals[1..]);
    }
  }

  /** A 3 x 3 proposal over a 100 x 100 box is refused outright. */
  lemma TinyBoxRefused(oldBox: Box, newBox: Box)
    requires oldBox.width == 100.0 && oldBox.height == 100.0
    requires newBox.width == 3.0 && newBox.height == 3.0
    ensures BoundBox(oldBox, newBox) == oldBox
  {
  }

  // ---------------------------------------------------------------------
  // The editor component's state
  // ---------------------------------------------------------------------

  class Editor {
    /** `selectedId`: the selected layer's id, if any. */
    var selectedId: Option<string>
    /** `currentLayers`: the list the editor shows and edits. */
    var currentLayers: seq<Layer>
    /** Every list handed to `onLayersChange`, oldest first. */
    var reported: seq<seq<Layer>>

    constructor(layers: seq<Layer>)
      ensures selectedId == None && currentLayers == layers && reported == []
    {
      selectedId, currentLayers, reported := None, layers, [];
    }

    /** The owner passed a new `layers` prop. */
    method SyncLayers(layers: seq<Layer>)
      modifies this
      ensures currentLayers == layers
      ensures selectedId == old(selectedId) && reported == old(reported)
    {
      currentLayers := layers;
    }

    method HandleSelect(id: string)
      modifies this
      ensures selectedId == Select(old(selectedId), id)
      ensures currentLayers == old(currentLayers) && reported == old(reported)
    {
      selectedId := if selectedId == Some(id) then None else Some(id);
    }

    method HandleTransformEnd(node: Node)
      modifies this
      ensures currentLayers == Transformed(old(currentLayers), node)
      ensures reported == old(reported) + [currentLayers]
      ensures selectedId == old(selectedId)
    {
      currentLayers := Transformed(currentLayers, node);
      reported := reported + [currentLayers];
    }

    method ToggleLayerVisibility(id: string)
      modifies this
      ensures currentLayers == Toggled(old(currentLayers), id)
      ensures reported == old(reported) + [currentLayers]
      ensures selectedId == old(selectedId)
    {
      currentLayers := Toggled(currentLayers, id);
      reported := reported + [currentLayers];
    }

    /** The layer list only offers to move listed layers. */
    method MoveLayer(id: string, dir: Direction)
      requires HasLayer(currentLayers, id)
      modifies this
      ensures currentLayers == Moved(old(currentLayers), id, dir)
      ensures reported == if AtBoundary(old(currentLayers), id, dir) then old(reported)
                          else old(reported) + [currentLayers]
      ensures selectedId == old(selectedId)
    {
      var moved, updated := MoveInCopy(currentLayers, id, dir);
      if !moved {
        return;
      }
      currentLayers := updated;
      reported := reported + [currentLayers];
    }

    method RemoveLayer(id: string)
      modifies this
      ensures currentLayers == Removed(old(currentLayers), id)
      ensures reported == old(reported) + [currentLayers]
      ensures selectedId == if old(selectedId) == Some(id) then None else old(selectedId)
    {
      currentLayers := Removed(currentLayers, id);
      reported := reported + [currentLayers];
      if selectedId == Some(id) {
        selectedId := None;
      }
    }

    method UpdateLayerOpacity(id: string, opacity: real)
      modifies this
      ensures currentLayers == WithOpacity(old(currentLayers), id, opacity)
      ensures reported == old(reported) + [currentLayers]
      ensures selectedId == old(selectedId)
    {
      currentLayers := WithOpacity(currentLayers, id, opacity);
      reported := reported + [currentLayers];
    }
  }
}
