/**
 * The two-dimensional cell grid: a width x height store of optional cells
 * addressed as (x, y), with a clipped rectangular iteration and the fill
 * visitor that seeds cells into it.
 */
module Grids {
  import opened Wrappers
  import opened Cells

  // ---------------------------------------------------------------------
  // Rectangle arithmetic

  /** A rectangle corner as given by a caller; not necessarily integral. */
  datatype Corner = Corner(x: real, y: real)

  /** An axis-aligned box of addresses, both bounds inclusive on each axis. */
  datatype Box = Box(lx: int, hx: int, ly: int, hy: int) {
    predicate Contains(x: int, y: int) {
      lx <= x <= hx && ly <= y <= hy
    }
  }

  /** `Math.floor`. */
  function Floor(r: real): (f: int)
    ensures f as real <= r < f as real + 1.0
  {
    r.Floor
  }

  function Min(a: int, b: int): int { if a <= b then a else b }

  function Max(a: int, b: int): int { if a <= b then b else a }

  /** Number of integers in lo..hi. */
  function Span(lo: int, hi: int): nat { if hi < lo then 0 else hi - lo + 1 }

  /** v lies between the floors of a and b, whichever of them is smaller. */
  predicate Between(v: int, a: real, b: real) {
    (Floor(a) <= v <= Floor(b)) || (Floor(b) <= v <= Floor(a))
  }

  /**
   * The box `rectangle` iterates over: the corners are floored, ordered per
   * axis, and the result is clipped to the grid. It contains exactly the
   * grid addresses between the two corners, both corners included.
   */
  function ClipBox(start: Corner, end: Corner, width: int, height: int): (b: Box)
    ensures 0 <= b.lx && b.hx <= width - 1 && 0 <= b.ly && b.hy <= height - 1
    ensures forall x, y :: b.Contains(x, y) <==>
      0 <= x < width && 0 <= y < height && Between(x, start.x, end.x) && Between(y, start.y, end.y)
  {
    var sx, sy := Floor(start.x), Floor(start.y);
    var ex, ey := Floor(end.x), Floor(end.y);
    var lowX, lowY := Min(sx, ex), Min(sy, ey);
    var highX, highY := Max(sx, ex), Max(sy, ey);
    Box(Max(lowX, 0), Min(highX, width - 1), Max(lowY, 0), Min(highY, height - 1))
  }

  /** Addresses (x, ly), ..., (x, hy): one column, rows ascending. */
  function Column(x: int, ly: int, hy: int): seq<Position>
    decreases Span(ly, hy)
  {
    if hy < ly then [] else Column(x, ly, hy - 1) + [Position(x, hy)]
  }

  /** All addresses of the box lx..hx by ly..hy, column by column. */
  function Addresses(lx: int, hx: int, ly: int, hy: int): seq<Position>
    decreases Span(lx, hx)
  {
    if hx < lx then [] else Addresses(lx, hx - 1, ly, hy) + Column(hx, ly, hy)
  }

  /** The addresses `rectangle` visits, in the order it visits them. */
  function RectangleVisits(start: Corner, end: Corner, width: int, height: int): seq<Position> {
    var b := ClipBox(start, end, width, height);
    Addresses(b.lx, b.hx, b.ly, b.hy)
  }

  /** Column-major order: x ascending first, then y ascending. */
  predicate Before(p: Position, q: Position) {
    p.x < q.x || (p.x == q.x && p.y < q.y)
  }

  // ---------------------------------------------------------------------
  // Lemmas about the visit sequence

  lemma {:induction false} ColumnAt(x: int, ly: int, hy: int)
    ensures |Column(x, ly, hy)| == Span(ly, hy)
    ensures forall i :: 0 <= i < |Column(x, ly, hy)| ==> Column(x, ly, hy)[i] == Position(x, ly + i)
    decreases Span(ly, hy)
  {
    if ly <= hy {
      ColumnAt(x, ly, hy - 1);
    }
  }

  lemma ColumnMembership(x: int, ly: int, hy: int, p: Position)
    ensures p in Column(x, ly, hy) <==> p.x == x && ly <= p.y <= hy
  {
    ColumnAt(x, ly, hy);
    if p.x == x && ly <= p.y <= hy {
      assert Column(x, ly, hy)[p.y - ly] == p;
    }
  }

  /** The box enumeration holds exactly the addresses of the box. */
  lemma {:induction false} AddressesMembership(lx: int, hx: int, ly: int, hy: int, p: Position)
    ensures p in Addresses(lx, hx, ly, hy) <==> lx <= p.x <= hx && ly <= p.y <= hy
    decreases Span(lx, hx)
  {
    if lx <= hx {
      AddressesMembership(lx, hx - 1, ly, hy, p);
      ColumnMembership(hx, ly, hy, p);
    }
  }

  /** The box enumeration has one entry per address of the box. */
  lemma {:induction false} AddressesLength(lx: int, hx: int, ly: int, hy: int)
    ensures |Addresses(lx, hx, ly, hy)| == Span(lx, hx) * Span(ly, hy)
    decreases Span(lx, hx)
  {
    if lx <= hx {
      AddressesLength(lx, hx - 1, ly, hy);
      ColumnAt(hx, ly, hy);
      assert Span(lx, hx) == Span(lx, hx - 1) + 1;
    }
  }

  /** The box enumeration is strictly increasing in column-major order. */
  lemma {:induction false} AddressesOrdered(lx: int, hx: int, ly: int, hy: int)
    ensures forall i, j :: 0 <= i < j < |Addresses(lx, hx, ly, hy)| ==>
      Before(Addresses(lx, hx, ly, hy)[i], Addresses(lx, hx, ly, hy)[j])
    decreases Span(lx, hx)
  {
    if lx <= hx {
      var prefix := Addresses(lx, hx - 1, ly, hy);
      var column := Column(hx, ly, hy);
      var all := Addresses(lx, hx, ly, hy);
      AddressesOrdered(lx, hx - 1, ly, hy);
      ColumnAt(hx, ly, hy);
      assert all == prefix + column;
      forall i, j | 0 <= i < j < |all| ensures Before(all[i], all[j]) {
        if j < |prefix| {
          assert all[i] == prefix[i] && all[j] == prefix[j];
        } else if i < |prefix| {
          assert all[i] == prefix[i];
          AddressesMembership(lx, hx - 1, ly, hy, prefix[i]);
          assert all[j] == column[j - |prefix|];
        } else {
          assert all[i] == column[i - |prefix|] && all[j] == column[j - |prefix|];
        }
      }
    }
  }

  /**
   * `rectangle` visits exactly the grid addresses between the two corners,
   * both corners included.
   */
  lemma RectangleVisitsExactly(start: Corner, end: Corner, width: int, height: int, p: Position)
    ensures p in RectangleVisits(start, end, width, height) <==>
      0 <= p.x < width && 0 <= p.y < height && Between(p.x, start.x, end.x) && Between(p.y, start.y, end.y)
  {
    var b := ClipBox(start, end, width, height);
    AddressesMembership(b.lx, b.hx, b.ly, b.hy, p);
    assert b.Contains(p.x, p.y) <==> b.lx <= p.x <= b.hx && b.ly <= p.y <= b.hy;
  }

  /**
   * Visits go column by column with rows ascending in each column, so no
   * address is visited twice.
   */
  lemma RectangleVisitOrder(start: Corner, end: Corner, width: int, height: int)
    ensures var v := RectangleVisits(start, end, width, height);
      && (forall i, j :: 0 <= i < j < |v| ==> Before(v[i], v[j]))
      && (forall i, j :: 0 <= i < j < |v| ==> v[i] != v[j])
  {
    var b := ClipBox(start, end, width, height);
    AddressesOrdered(b.lx, b.hx, b.ly, b.hy);
  }

  /** The number of visits is the product of the clipped spans. */
  lemma RectangleVisitCount(start: Corner, end: Corner, width: int, height: int)
    ensures var b := ClipBox(start, end, width, height);
      |RectangleVisits(start, end, width, height)| == Span(b.lx, b.hx) * Span(b.ly, b.hy)
  {
    var b := ClipBox(start, end, width, height);
    AddressesLength(b.lx, b.hx, b.ly, b.hy);
  }

  /** Swapping the two corners changes nothing. */
  lemma RectangleCornersSymmetric(start: Corner, end: Corner, width: int, height: int)
    ensures RectangleVisits(start, end, width, height) == RectangleVisits(end, start, width, height)
  {
  }

  /** A corner behaves like its floor. */
  lemma RectangleFloorsCorners(start: Corner, end: Corner, width: int, height: int)
    ensures RectangleVisits(start, end, width, height) ==
      RectangleVisits(Corner(Floor(start.x) as real, Floor(start.y) as real),
                      Corner(Floor(end.x) as real, Floor(end.y) as real), width, height)
  {
  }

  /** A rectangle entirely outside the grid visits nothing. */
  lemma RectangleOutsideGrid(start: Corner, end: Corner, width: int, height: int)
    requires || Max(Floor(start.x), Floor(end.x)) < 0 || Min(Floor(start.x), Floor(end.x)) >= width
             || Max(Floor(start.y), Floor(end.y)) < 0 || Min(Floor(start.y), Floor(end.y)) >= height
    ensures RectangleVisits(start, end, width, height) == []
  {
    RectangleVisitCount(start, end, width, height);
  }

  // ---------------------------------------------------------------------
  // The grid

  /**
   * The visitor `Grid.fill(cellConstructor)` returns: it replaces whatever
   * occupies the visited address by a newly constructed cell and stamps
   * the address on it.
   */
  datatype Visitor = Fill(cellConstructor: () -> Cell)

  /** What a visitor leaves at (x, y). */
  function Visited(visitor: Visitor, x: int, y: int): (c: Option<Cell>)
    ensures c.Some? && c.value.position == Some(Position(x, y))
    ensures c.value.(position := None) == visitor.cellConstructor().(position := None)
  {
    Some(Placed(visitor.cellConstructor(), x, y))
  }

  // ---------------------------------------------------------------------
  // The fill visitor with its view calls

  /** A value handed to `Grid.fill` as its cell constructor. */
  datatype FillArgument = CellFunction(make: () -> Cell) | CellObject(cell: Cell)

  /** The TypeErrors a fill visit can throw. */
  datatype VisitError =
    | NotAFunction  // calling a cell object as the constructor
    | NoSprite      // destroying the sprite of an occupant that has none
    | NoUpdateView  // refreshing the view of a cell that has no `updateView`

  /** Calling the fill argument: only a plain factory function can be called. */
  function CallCellConstructor(arg: FillArgument): (r: Result<Cell, VisitError>)
    ensures r.Success? <==> arg.CellFunction?
    ensures r.Success? ==> r.value == arg.make()
    ensures r.Failure? ==> r.error == NotAFunction
  {
    match arg
    case CellFunction(make) => Success(make())
    case CellObject(_) => Failure(NotAFunction)
  }

  /**
   * Whether cells carry the view members the fill visitor uses (`sprite`,
   * `staggerTimeoutHandle`, `updateView`). No cell class defines them.
   */
  const CellsHaveView: bool := false

  /**
   * One visit of the fill visitor with its view calls: an occupant's sprite
   * is destroyed, the argument is called, the address is stamped on the new
   * cell and its view refreshed. Each step can throw.
   */
  function VisitWithView(arg: FillArgument, occupant: Option<Cell>, x: int, y: int, haveView: bool): (r: Result<Cell, VisitError>)
    ensures r.Success? <==> arg.CellFunction? && haveView
    ensures r.Success? ==> Some(r.value) == Visited(Fill(arg.make), x, y)
  {
    if occupant.Some? && !haveView then Failure(NoSprite)
    else match CallCellConstructor(arg)
      case Failure(e) => Failure(e)
      case Success(c) => if haveView then Success(Placed(c, x, y)) else Failure(NoUpdateView)
  }

  /**
   * As written, every fill visit throws: at the sprite of an occupant, else
   * at the call of a non-function, else at the new cell's missing view.
   */
  lemma VisitAsWrittenThrows(arg: FillArgument, occupant: Option<Cell>, x: int, y: int)
    ensures VisitWithView(arg, occupant, x, y, CellsHaveView) ==
      if occupant.Some? then Failure(NoSprite)
      else if arg.CellObject? then Failure(NotAFunction)
      else Failure(NoUpdateView)
  {
  }

  /**
   * The fill visitor run over a sequence of addresses, stopping at the first
   * throw; `placed` holds the occupants left so far.
   */
  function RunFill(visits: seq<Position>, arg: FillArgument, haveView: bool, placed: map<Position, Cell>)
    : Result<map<Position, Cell>, VisitError>
    decreases |visits|
  {
    if visits == [] then Success(placed)
    else
      var p := visits[0];
      match VisitWithView(arg, if p in placed then Some(placed[p]) else None, p.x, p.y, haveView)
      case Failure(e) => Failure(e)
      case Success(c) => RunFill(visits[1..], arg, haveView, placed[p := c])
  }

  /**
   * A visit that throws ends the whole run with its error, whatever follows:
   * the visits before it completed and left the occupants `m`.
   */
  lemma {:induction false} RunFillStopsAt(pre: seq<Position>, p: Position, post: seq<Position>,
                                          arg: FillArgument, haveView: bool, placed: map<Position, Cell>)
    requires RunFill(pre, arg, haveView, placed).Success?
    ensures var m := RunFill(pre, arg, haveView, placed).value;
      var v := VisitWithView(arg, if p in m then Some(m[p]) else None, p.x, p.y, haveView);
      v.Failure? ==> RunFill(pre + [p] + post, arg, haveView, placed) == Failure(v.error)
    decreases |pre|
  {
    if pre != [] {
      var q := pre[0];
      var c := VisitWithView(arg, if q in placed then Some(placed[q]) else None, q.x, q.y, haveView);
      assert (pre + [p] + post)[1..] == pre[1..] + [p] + post;
      RunFillStopsAt(pre[1..], p, post, arg, haveView, placed[q := c.value]);
    }
  }

  /**
   * With a factory and cells that have a view, a run completes and leaves
   * every visited address holding a new cell stamped with that address,
   * while the other occupants stay.
   */
  lemma {:induction false} RunFillWithView(visits: seq<Position>, make: () -> Cell, placed: map<Position, Cell>)
    ensures RunFill(visits, CellFunction(make), true, placed) ==
      Success(map p | p in placed.Keys + (set q | q in visits) ::
                if p in visits then Placed(make(), p.x, p.y) else placed[p])
    decreases |visits|
  {
    if visits == [] {
      var filled := map p | p in placed.Keys + (set q | q in visits) ::
                      if p in visits then Placed(make(), p.x, p.y) else placed[p];
      assert filled == placed;
    } else {
      var p := visits[0];
      var placed' := placed[p := Placed(make(), p.x, p.y)];
      RunFillWithView(visits[1..], make, placed');
      var rest := visits[1..];
      var lhs := map q | q in placed'.Keys + (set r | r in rest) ::
                   if q in rest then Placed(make(), q.x, q.y) else placed'[q];
      var rhs := map q | q in placed.Keys + (set r | r in visits) ::
                   if q in visits then Placed(make(), q.x, q.y) else placed[q];
      assert lhs == rhs;
    }
  }

  class Grid {
    const width: nat
    const height: nat
    /** Column x, row y of the grid. */
    const columns: array2<Option<Cell>>

    ghost predicate Valid()
      reads this
    {
      columns.Length0 == width && columns.Length1 == height
    }

    /** A grid of the given size whose addresses are all empty. */
    constructor (width: nat, height: nat)
      ensures Valid() && fresh(columns)
      ensures this.width == width && this.height == height
      ensures forall x, y :: 0 <= x < width && 0 <= y < height ==> Get(x, y) == None
    {
      this.width := width;
      this.height := height;
      columns := new Option<Cell>[width, height]((x, y) => None);
    }

    /** The occupant of (x, y), if any. */
    function Get(x: int, y: int): Option<Cell>
      reads this, columns
      requires Valid() && 0 <= x < width && 0 <= y < height
    {
      columns[x, y]
    }

    /** Puts c at (x, y); no other address changes. */
    method Set(x: int, y: int, c: Option<Cell>)
      requires Valid() && 0 <= x < width && 0 <= y < height
      modifies columns
      ensures Valid()
      ensures Get(x, y) == c
      ensures forall a, b :: 0 <= a < width && 0 <= b < height && (a != x || b != y) ==>
        Get(a, b) == old(Get(a, b))
    {
      columns[x, y] := c;
    }

    /**
     * Runs a visitor on (x, y): any occupant is discarded, a newly
     * constructed cell takes its place, and the cell's position is set to
     * (x, y). No other address changes.
     */
    method Visit(visitor: Visitor, x: int, y: int)
      requires Valid() && 0 <= x < width && 0 <= y < height
      modifies columns
      ensures Valid()
      ensures Get(x, y) == Visited(visitor, x, y)
      ensures forall a, b :: 0 <= a < width && 0 <= b < height && (a != x || b != y) ==>
        Get(a, b) == old(Get(a, b))
    {
      if columns[x, y].Some? {
        columns[x, y] := None;
      }
      columns[x, y] := Some(visitor.cellConstructor());
      var placed := columns[x, y].value;
      columns[x, y] := Some(Placed(placed, x, y));
    }

    /**
     * Runs the visitor on every grid address between the corners, column by
     * column. Returns the addresses in visiting order; every address of the
     * clipped box holds what the visitor left there and every other address
     * is unchanged.
     */
    method Rectangle(start: Corner, end: Corner, visitor: Visitor) returns (ghost visits: seq<Position>)
      requires Valid()
      modifies columns
      ensures Valid()
      ensures visits == RectangleVisits(start, end, width, height)
      ensures forall a, b :: 0 <= a < width && 0 <= b < height ==>
        Get(a, b) == if ClipBox(start, end, width, height).Contains(a, b)
                     then Visited(visitor, a, b) else old(Get(a, b))
    {
      var box := ClipBox(start, end, width, height);
      visits := [];
      var x := box.lx;
      while x <= box.hx
        invariant x == box.lx || box.lx <= x <= box.hx + 1
        invariant visits == Addresses(box.lx, x - 1, box.ly, box.hy)
        invariant forall a, b :: 0 <= a < width && 0 <= b < height ==>
          Get(a, b) == if box.lx <= a < x && box.ly <= b <= box.hy
                       then Visited(visitor, a, b) else old(Get(a, b))
      {
        var y := box.ly;
        while y <= box.hy
          invariant y == box.ly || box.ly <= y <= box.hy + 1
          invariant visits == Addresses(box.lx, x - 1, box.ly, box.hy) + Column(x, box.ly, y - 1)
          invariant forall a, b :: 0 <= a < width && 0 <= b < height ==>
            Get(a, b) == if (box.lx <= a < x && box.ly <= b <= box.hy) || (a == x && box.ly <= b < y)
                         then Visited(visitor, a, b) else old(Get(a, b))
        {
          Visit(visitor, x, y);
          visits := visits + [Position(x, y)];
          y := y + 1;
        }
        x := x + 1;
      }
    }
  }
}
