/**
  Scene construction: the object factories `createField`, `createCrop`,
  `createLivestock`, `createEquipment` (positions and starting visibility
  only) and `initializeFarmElements`, which fills the registry.
 */
module Farm {
  import opened Scene

  const FieldCount := 4
  const CropCount := 16
  const LivestockCount := 5
  const EquipmentCount := 1

  /** Grid origin and spacing of the fields and crops, in world units. */
  const GridOrigin := -20
  const GridStep := 15

  /** Height at which a crop cone's centre sits above the point it is
      planted at (half of its height of 3). */
  const CropLift := 1.5

  /** A freshly made object is visible: the rendering library's default. */
  function CreateField(x: real, y: real, z: real): Handle {
    Handle(Vec3(x, y, z), true)
  }

  function CreateCrop(x: real, y: real, z: real): Handle {
    Handle(Vec3(x, y + CropLift, z), true)
  }

  function CreateLivestock(x: real, y: real, z: real): Handle {
    Handle(Vec3(x, y, z), true)
  }

  function CreateEquipment(x: real, y: real, z: real): Handle {
    Handle(Vec3(x, y, z), true)
  }

  /** The number of `Math.random()` draws one initialisation consumes:
      an x and a z for each animal, in that order. */
  const DrawCount := 2 * LivestockCount

  /** A draw of `Math.random()` lies in [0, 1). */
  predicate UnitDraws(random: seq<real>) {
    forall k :: 0 <= k < |random| ==> 0.0 <= random[k] < 1.0
  }

  /** `Math.random() * 40 - 20`. */
  function Scatter(r: real): real {
    r * 40.0 - 20.0
  }

  function NewFields(): seq<Handle> {
    seq(FieldCount, i requires 0 <= i < FieldCount =>
      CreateField((GridOrigin + i * GridStep) as real, 0.0, GridOrigin as real))
  }

  function NewCrops(): seq<Handle> {
    seq(CropCount, i requires 0 <= i < CropCount =>
      CreateCrop((GridOrigin + (i % 4) * GridStep) as real, 0.0,
                 (GridOrigin + (i / 4) * GridStep) as real).(visible := false))
  }

  function NewLivestock(random: seq<real>): seq<Handle>
    requires |random| == DrawCount
  {
    seq(LivestockCount, i requires 0 <= i < LivestockCount =>
      CreateLivestock(Scatter(random[2 * i]), 0.0, Scatter(random[2 * i + 1])).(visible := false))
  }

  function NewEquipment(): seq<Handle> {
    [CreateEquipment(0.0, 0.0, 0.0).(visible := false)]
  }

  /** `initializeFarmElements()`: push four fields, sixteen crops, five
      animals and one tractor onto the registry. `random` supplies the
      values `Math.random()` returns, in call order. Objects already in the
      registry stay where they are, in front of the new ones. */
  function InitializeFarmElements(m: FarmModel, random: seq<real>): (r: FarmModel)
    requires |random| == DrawCount
    ensures |r.fields| == |m.fields| + 4 && r.fields[..|m.fields|] == m.fields
    ensures |r.crops| == |m.crops| + 16 && r.crops[..|m.crops|] == m.crops
    ensures |r.livestock| == |m.livestock| + 5 && r.livestock[..|m.livestock|] == m.livestock
    ensures |r.equipment| == |m.equipment| + 1 && r.equipment[..|m.equipment|] == m.equipment
  {
    FarmModel(
      m.fields + NewFields(),
      m.crops + NewCrops(),
      m.livestock + NewLivestock(random),
      m.equipment + NewEquipment())
  }

  /** The scene a first initialisation builds. */
  function InitialModel(random: seq<real>): FarmModel
    requires |random| == DrawCount
  {
    InitializeFarmElements(EmptyModel, random)
  }

  /** The grid cell (column, row) a point falls in: the inverse of the
      placement of fields and crops. */
  function Cell(p: Vec3): (int, int) {
    (((p.x - GridOrigin as real) / GridStep as real).Floor,
     ((p.z - GridOrigin as real) / GridStep as real).Floor)
  }

  /** After the first initialisation the registry holds 4 fields, 16 crops,
      5 animals and 1 tractor; the fields are visible and everything else
      starts hidden. */
  lemma InitialSizesAndVisibility(random: seq<real>)
    requires |random| == DrawCount
    ensures var m := InitialModel(random);
      && |m.fields| == 4 && |m.crops| == 16 && |m.livestock| == 5 && |m.equipment| == 1
      && (forall i :: 0 <= i < |m.fields| ==> m.fields[i].visible)
      && (forall i :: 0 <= i < |m.crops| ==> !m.crops[i].visible)
      && (forall i :: 0 <= i < |m.livestock| ==> !m.livestock[i].visible)
      && (forall i :: 0 <= i < |m.equipment| ==> !m.equipment[i].visible)
  {
  }

  /** Field `i` sits at (-20 + 15 i, 0, -20): in column `i` of row 0. */
  lemma FieldPlacement(random: seq<real>, i: int)
    requires |random| == DrawCount
    requires 0 <= i < 4
    ensures InitialModel(random).fields[i].position == Vec3((-20 + 15 * i) as real, 0.0, -20.0)
    ensures Cell(InitialModel(random).fields[i].position) == (i, 0)
  {
  }

  /** Crop `i` sits at (-20 + 15 (i mod 4), 1.5, -20 + 15 (i div 4)): in
      column `i mod 4` of row `i div 4`, so row-major order on a 4 by 4
      grid and no two crops share a cell. */
  lemma CropPlacement(random: seq<real>, i: int)
    requires |random| == DrawCount
    requires 0 <= i < 16
    ensures InitialModel(random).crops[i].position
         == Vec3((-20 + 15 * (i % 4)) as real, 1.5, (-20 + 15 * (i / 4)) as real)
    ensures Cell(InitialModel(random).crops[i].position) == (i % 4, i / 4)
    ensures var (col, row) := Cell(InitialModel(random).crops[i].position); col + 4 * row == i
  {
  }

  /** Two distinct crops never stand at the same place. */
  lemma CropsApart(random: seq<real>, i: int, j: int)
    requires |random| == DrawCount
    requires 0 <= i < 16 && 0 <= j < 16 && i != j
    ensures InitialModel(random).crops[i].position != InitialModel(random).crops[j].position
  {
  }

  /** A crop shares its x with the field of its column; only the first row
      of crops stands in the cell of a field, the other three rows lie
      beyond the fields (all fields are in row 0). */
  lemma CropsAgainstFields(random: seq<real>, i: int)
    requires |random| == DrawCount
    requires 0 <= i < 16
    ensures InitialModel(random).crops[i].position.x == InitialModel(random).fields[i % 4].position.x
    ensures (exists k :: 0 <= k < 4 && Cell(InitialModel(random).fields[k].position) == Cell(InitialModel(random).crops[i].position))
        <==> i < 4
  {
  }

  /** Animal `i` is placed from the draws `2 i` and `2 i + 1`; with draws
      in [0, 1) it stands on the ground inside the square [-20, 20) x [-20, 20). */
  lemma LivestockPlacement(random: seq<real>, i: int)
    requires |random| == DrawCount
    requires 0 <= i < 5
    ensures InitialModel(random).livestock[i].position
         == Vec3(random[2 * i] * 40.0 - 20.0, 0.0, random[2 * i + 1] * 40.0 - 20.0)
    ensures UnitDraws(random) ==>
      var p := InitialModel(random).livestock[i].position;
      -20.0 <= p.x < 20.0 && -20.0 <= p.z < 20.0
  {
  }

  /** The tractor starts at the origin. */
  lemma EquipmentPlacement(random: seq<real>)
    requires |random| == DrawCount
    ensures InitialModel(random).equipment == [Handle(Vec3(0.0, 0.0, 0.0), false)]
  {
  }
}
