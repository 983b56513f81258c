/**
 * The game world: a square grid, a sun, a gravity source and a clock,
 * with three algae cells seeded on the top row at construction.
 */
module Worlds {
  import opened Wrappers
  import opened Enums
  import opened Cells
  import opened Suns
  import opened Gravities
  import opened Grids

  /** Side length of the square world when none is given. */
  const DefaultSize: nat := 128

  /** The seeding rectangle's corners. */
  const SeedStart: Corner := Corner(1.0, 0.0)
  const SeedEnd: Corner := Corner(3.0, 0.0)

  /** A function building one algae cell, called once per seeded address. */
  const SeedFactory: () -> Cell := () => NewAlgae()

  /** The addresses the construction seeds, in seeding order. */
  function SeedVisits(size: nat): seq<Position> {
    RectangleVisits(SeedStart, SeedEnd, size, size)
  }

  /** Whether the construction seeds (x, y) in a world of at least that size. */
  predicate Seeded(x: int, y: int) {
    y == 0 && 1 <= x <= 3
  }

  /**
   * Seeding visits (1, 0), (2, 0), (3, 0) in that order, cut short by the
   * world's edge when the world is narrower than four cells.
   */
  lemma SeedOrder(size: nat)
    ensures size >= 4 ==> SeedVisits(size) == [Position(1, 0), Position(2, 0), Position(3, 0)]
    ensures size == 3 ==> SeedVisits(size) == [Position(1, 0), Position(2, 0)]
    ensures size == 2 ==> SeedVisits(size) == [Position(1, 0)]
    ensures size <= 1 ==> SeedVisits(size) == []
  {
  }

  class World {
    const size: nat
    var time: int
    const grid: Grid
    var sun: Sun
    var gravity: Gravity
    /** The addresses the construction visited, in order. */
    ghost var seeding: seq<Position>

    /**
     * A size x size world at time 0 with the default sun and gravity,
     * whose grid holds an algae cell at each seeded address, stamped with
     * that address, and is empty everywhere else.
     */
    constructor (size: nat := DefaultSize)
      ensures this.size == size && time == 0
      ensures sun == NewSun() && gravity == NewGravity()
      ensures fresh(grid) && fresh(grid.columns) && grid.Valid()
      ensures grid.width == size && grid.height == size
      ensures seeding == SeedVisits(size)
      ensures forall x, y :: 0 <= x < size && 0 <= y < size ==>
        grid.Get(x, y) == if Seeded(x, y) then Some(Placed(NewAlgae(), x, y)) else None
    {
      this.size := size;
      time := 0;
      grid := new Grid(size, size);
      sun := NewSun();
      gravity := NewGravity();
      new;
      seeding := grid.Rectangle(SeedStart, SeedEnd, Fill(SeedFactory));
    }
  }

  // ---------------------------------------------------------------------
  // Construction as written

  /** The argument the world's constructor passes: an algae cell, not a function. */
  const SeedArgumentAsWritten: FillArgument := CellObject(NewAlgae())

  /** The argument evidently meant: a function that builds an algae cell. */
  const SeedArgument: FillArgument := CellFunction(SeedFactory)

  /**
   * The seeding of a new (empty) world run with the fill visitor's view
   * calls: the map of seeded cells, or the error the first failing visit
   * throws.
   */
  function SeedAsWritten(size: nat, arg: FillArgument, haveView: bool): Result<map<Position, Cell>, VisitError> {
    RunFill(SeedVisits(size), arg, haveView, map[])
  }

  /**
   * As written, constructing any world of size 2 or more throws at the first
   * seeded address, where the algae object is called, whether or not cells
   * have a view; a factory only moves
   * the throw to the missing view; with a factory and cells that have a view,
   * seeding completes and places an algae cell on each seeded address.
   */
  lemma SeedingAsWrittenThrows(size: nat)
    ensures SeedAsWritten(size, SeedArgumentAsWritten, CellsHaveView).Failure? <==> size >= 2
    ensures size >= 2 ==> SeedAsWritten(size, SeedArgumentAsWritten, CellsHaveView) == Failure(NotAFunction)
    ensures size >= 2 ==> SeedAsWritten(size, SeedArgumentAsWritten, true) == Failure(NotAFunction)
    ensures size >= 2 ==> SeedAsWritten(size, SeedArgument, CellsHaveView) == Failure(NoUpdateView)
    ensures SeedAsWritten(size, SeedArgument, true).Success?
    ensures forall p :: p in SeedAsWritten(size, SeedArgument, true).value <==> p in SeedVisits(size)
  {
    SeedOrder(size);
    var visits := SeedVisits(size);
    if size >= 2 {
      assert visits == [] + [visits[0]] + visits[1..];
      RunFillStopsAt([], visits[0], visits[1..], SeedArgumentAsWritten, CellsHaveView, map[]);
      RunFillStopsAt([], visits[0], visits[1..], SeedArgumentAsWritten, true, map[]);
      RunFillStopsAt([], visits[0], visits[1..], SeedArgument, CellsHaveView, map[]);
    }
    RunFillWithView(visits, SeedFactory, map[]);
  }
}
