/**
  The scene object registry of the farm demo: four insertion-ordered
  collections (fields, crops, livestock, equipment) of renderable handles.
  The rendering library owns the handles; of each one the model keeps only
  what the demo reads or writes: its position and its visibility flag.
 */
module Scene {

  /** A point in world units. The demo's coordinates are JavaScript numbers;
      every value it computes exactly (grid offsets, 1.5) is a real here. */
  datatype Vec3 = Vec3(x: real, y: real, z: real)

  /** A renderable handle as far as the demo is concerned. */
  datatype Handle = Handle(position: Vec3, visible: bool)

  /** The four collections a view can show. */
  datatype Group = Fields | Crops | Livestock | Equipment

  /** The registry `farmModel`: one ordered collection per group. */
  datatype FarmModel = FarmModel(
    fields: seq<Handle>,
    crops: seq<Handle>,
    livestock: seq<Handle>,
    equipment: seq<Handle>)
  {
    /** The collection that holds the objects of group `g`. */
    function Of(g: Group): seq<Handle> {
      match g
      case Fields => fields
      case Crops => crops
      case Livestock => livestock
      case Equipment => equipment
    }
  }

  /** The registry as the page declares it, before any scene is built. */
  const EmptyModel := FarmModel([], [], [], [])

  /** The positions of a collection, in order: what is left of it once the
      visibility flags are forgotten. */
  function Positions(hs: seq<Handle>): seq<Vec3> {
    seq(|hs|, i requires 0 <= i < |hs| => hs[i].position)
  }

  /** Two collections have the same positions exactly when they have the
      same length and agree on the position at every index. */
  lemma SamePositions(a: seq<Handle>, b: seq<Handle>)
    ensures Positions(a) == Positions(b)
        <==> |a| == |b| && forall i :: 0 <= i < |a| ==> a[i].position == b[i].position
  {
    if Positions(a) == Positions(b) {
      assert |a| == |Positions(a)| == |Positions(b)| == |b|;
      forall i | 0 <= i < |a| ensures a[i].position == b[i].position {
        assert a[i].position == Positions(a)[i] == Positions(b)[i] == b[i].position;
      }
    }
  }

  /** The layout of the registry: how many objects each collection holds,
      in which order, and where each one stands. */
  datatype Layout = Layout(
    fields: seq<Vec3>,
    crops: seq<Vec3>,
    livestock: seq<Vec3>,
    equipment: seq<Vec3>)

  function LayoutOf(m: FarmModel): Layout {
    Layout(Positions(m.fields), Positions(m.crops), Positions(m.livestock), Positions(m.equipment))
  }

  /** `collection.forEach(o => o.visible = on)`: every handle of the
      collection gets the flag `on`, and nothing else about it changes. */
  function SetVisible(hs: seq<Handle>, on: bool): (r: seq<Handle>)
    ensures Positions(r) == Positions(hs)
    ensures forall i :: 0 <= i < |r| ==> r[i].visible == on
  {
    if hs == [] then []
    else
      var r := [hs[0].(visible := on)] + SetVisible(hs[1..], on);
      SamePositions(SetVisible(hs[1..], on), hs[1..]);
      SamePositions(r, hs);
      r
  }

  /** Two collections with the same positions and the same flag everywhere
      are the same collection: a handle is nothing but these two things. */
  lemma SameFlagsSameCollection(a: seq<Handle>, b: seq<Handle>)
    requires Positions(a) == Positions(b)
    requires forall i :: 0 <= i < |a| ==> a[i].visible == b[i].visible
    ensures a == b
  {
    SamePositions(a, b);
  }
}
