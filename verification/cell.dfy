/**
 * Simulation cells. The source's class hierarchy (Cell, its abstract
 * refinements Solid, Liquid, Gas and Life, and the concrete materials)
 * is flattened into one record and one constructor function per class;
 * each function's defaults are those of the class's constructor.
 */
module Cells {
  import opened Wrappers
  import opened Enums
  import opened Speeds

  /** A grid address. */
  datatype Position = Position(x: int, y: int)

  /**
   * One cell. `integrity` is None where the source stores `null` (not
   * applicable); `position` is None until a grid fill stamps the cell's
   * coordinates on it.
   */
  datatype Cell = Cell(
    state: MatterState,
    cellType: CellType,
    mass: int,
    speed: Speed,
    temperature: int,
    integrity: Option<int>,
    position: Option<Position>)

  /** Integrity of a freshly built solid. */
  const FullIntegrity: int := 255

  // ---------------------------------------------------------------------
  // Generic cells

  /** The base constructor: every argument is stored unchanged. */
  function NewCell(state: MatterState := Absent, cellType: CellType := Void, mass: int := 0,
                   speed: Speed := Zero, temperature: int := 0,
                   integrity: Option<int> := Some(FullIntegrity)): (c: Cell)
    ensures c.state == state && c.cellType == cellType && c.mass == mass
    ensures c.speed == speed && c.temperature == temperature && c.integrity == integrity
    ensures c.position == None
  {
    Cell(state, cellType, mass, speed, temperature, integrity, None)
  }

  /** A solid: the state is fixed, the integrity is the caller's. */
  function NewSolid(cellType: CellType := Rock, mass: int := 2, speed: Speed := Zero,
                    temperature: int := 0, integrity: Option<int> := Some(FullIntegrity)): (c: Cell)
    ensures c.state == Solid && c.cellType == cellType && c.mass == mass
    ensures c.speed == speed && c.temperature == temperature && c.integrity == integrity
    ensures c.position == None
  {
    NewCell(Solid, cellType, mass, speed, temperature, integrity)
  }

  /** A liquid: the state is fixed and integrity does not apply. */
  function NewLiquid(cellType: CellType := Water, mass: int := 1, speed: Speed := Zero,
                     temperature: int := 0): (c: Cell)
    ensures c.state == Liquid && c.cellType == cellType && c.mass == mass
    ensures c.speed == speed && c.temperature == temperature && c.integrity == None
    ensures c.position == None
  {
    NewCell(Liquid, cellType, mass, speed, temperature, None)
  }

  /** A gas: the state is fixed and integrity does not apply. */
  function NewGas(cellType: CellType := Nitrogen, mass: int := 0, speed: Speed := Zero,
                  temperature: int := 0): (c: Cell)
    ensures c.state == Gas && c.cellType == cellType && c.mass == mass
    ensures c.speed == speed && c.temperature == temperature && c.integrity == None
    ensures c.position == None
  {
    NewCell(Gas, cellType, mass, speed, temperature, None)
  }

  /** A living cell is a solid with living-cell defaults. */
  function NewLife(cellType: CellType := Algae, mass: int := 1, speed: Speed := Zero,
                   temperature: int := 0, integrity: Option<int> := Some(FullIntegrity)): (c: Cell)
    ensures c.state == Solid && c.cellType == cellType && c.mass == mass
    ensures c.speed == speed && c.temperature == temperature && c.integrity == integrity
    ensures c.position == None
  {
    NewSolid(cellType, mass, speed, temperature, integrity)
  }

  // ---------------------------------------------------------------------
  // Materials

  function NewRock(speed: Speed := Zero, temperature: int := 0,
                   integrity: Option<int> := Some(FullIntegrity)): (c: Cell)
    ensures c.cellType == Rock && c.state == Solid && c.mass == 2
    ensures c.speed == speed && c.temperature == temperature && c.integrity == integrity
    ensures c.position == None
  {
    NewSolid(Rock, 2, speed, temperature, integrity)
  }

  function NewSoil(speed: Speed := Zero, temperature: int := 0,
                   integrity: Option<int> := Some(FullIntegrity)): (c: Cell)
    ensures c.cellType == Soil && c.state == Solid && c.mass == 2
    ensures c.speed == speed && c.temperature == temperature && c.integrity == integrity
    ensures c.position == None
  {
    NewSolid(Soil, 2, speed, temperature, integrity)
  }

  function NewQuartz(speed: Speed := Zero, temperature: int := 0,
                     integrity: Option<int> := Some(FullIntegrity)): (c: Cell)
    ensures c.cellType == Quartz && c.state == Solid && c.mass == 2
    ensures c.speed == speed && c.temperature == temperature && c.integrity == integrity
    ensures c.position == None
  {
    NewSolid(Quartz, 2, speed, temperature, integrity)
  }

  function NewWater(speed: Speed := Zero, temperature: int := 0): (c: Cell)
    ensures c.cellType == Water && c.state == Liquid && c.mass == 1
    ensures c.speed == speed && c.temperature == temperature && c.integrity == None
    ensures c.position == None
  {
    NewLiquid(Water, 1, speed, temperature)
  }

  function NewNitrogen(speed: Speed := Zero, temperature: int := 0): (c: Cell)
    ensures c.cellType == Nitrogen && c.state == Gas && c.mass == 1
    ensures c.speed == speed && c.temperature == temperature && c.integrity == None
    ensures c.position == None
  {
    NewGas(Nitrogen, 1, speed, temperature)
  }

  function NewOxygen(speed: Speed := Zero, temperature: int := 0): (c: Cell)
    ensures c.cellType == Oxygen && c.state == Gas && c.mass == 1
    ensures c.speed == speed && c.temperature == temperature && c.integrity == None
    ensures c.position == None
  {
    NewGas(Oxygen, 1, speed, temperature)
  }

  function NewCO2(speed: Speed := Zero, temperature: int := 0): (c: Cell)
    ensures c.cellType == CO2 && c.state == Gas && c.mass == 1
    ensures c.speed == speed && c.temperature == temperature && c.integrity == None
    ensures c.position == None
  {
    NewGas(CO2, 1, speed, temperature)
  }

  function NewAlgae(speed: Speed := Zero, temperature: int := 0,
                    integrity: Option<int> := Some(FullIntegrity)): (c: Cell)
    ensures c.cellType == Algae && c.state == Solid && c.mass == 1
    ensures c.speed == speed && c.temperature == temperature && c.integrity == integrity
    ensures c.position == None
  {
    NewLife(Algae, 1, speed, temperature, integrity)
  }

  // ---------------------------------------------------------------------
  // Placement

  /** The cell once a fill has stamped the address (x, y) on it. */
  function Placed(c: Cell, x: int, y: int): (p: Cell)
    ensures p.position == Some(Position(x, y))
    ensures p.(position := c.position) == c
  {
    c.(position := Some(Position(x, y)))
  }

  // ---------------------------------------------------------------------
  // Consistency of the taxonomy

  /** The state of matter each material is built with. */
  function MaterialState(t: CellType): MatterState {
    match t
    case Void => Absent
    case Rock | Soil | Quartz | Algae => Solid
    case Water => Liquid
    case Nitrogen | Oxygen | CO2 => Gas
  }

  /** Whether a cell of this state carries an integrity at all. */
  predicate HasIntegrity(s: MatterState) {
    s == Solid
  }

  /**
   * A cell whose state matches its material, and which has an integrity in
   * 0..255 exactly when it is a solid.
   */
  predicate Consistent(c: Cell) {
    && c.state == MaterialState(c.cellType)
    && (c.integrity.Some? <==> HasIntegrity(c.state))
    && (c.integrity.Some? ==> 0 <= c.integrity.value <= 255)
  }

  /** Every material built with an integrity in 0..255 (or the default) is consistent. */
  lemma MaterialsConsistent(speed: Speed, temperature: int, integrity: int)
    requires 0 <= integrity <= 255
    ensures Consistent(NewRock(speed, temperature, Some(integrity))) && Consistent(NewRock())
    ensures Consistent(NewSoil(speed, temperature, Some(integrity))) && Consistent(NewSoil())
    ensures Consistent(NewQuartz(speed, temperature, Some(integrity))) && Consistent(NewQuartz())
    ensures Consistent(NewWater(speed, temperature)) && Consistent(NewWater())
    ensures Consistent(NewNitrogen(speed, temperature)) && Consistent(NewNitrogen())
    ensures Consistent(NewOxygen(speed, temperature)) && Consistent(NewOxygen())
    ensures Consistent(NewCO2(speed, temperature)) && Consistent(NewCO2())
    ensures Consistent(NewAlgae(speed, temperature, Some(integrity))) && Consistent(NewAlgae())
  {
  }

  /**
   * The generic constructors do not check the material against the state:
   * a solid of water and a solid with a `null` integrity can be built.
   */
  lemma GenericConstructorsUnchecked()
    ensures !Consistent(NewSolid(Water))
    ensures !Consistent(NewRock(Zero, 0, None))
    ensures forall t :: NewLiquid(t).integrity == None && NewGas(t).integrity == None
  {
  }
}
