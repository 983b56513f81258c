# Cellulata simulation substrate in Dafny

A model of the data core of Cellulata, a grid-based cellular-automaton game:

- the two label tables, `MatterState` and `CellType`, and the loop that registers a symbol for each label (`enums.dfy`);
- the `Speed` value with its shared `zero` instance (`speed.dfy`);
- the `Sun` record (`sun.dfy`) and the argument-less `Gravity` source (`gravity.dfy`);
- the cell taxonomy (`cell.dfy`). The class hierarchy Cell → Solid / Liquid / Gas → Life → materials becomes one `Cell` record. Each class becomes one constructor function with the class's default arguments. The grid address a fill stamps on a cell is an optional `position` field;
- the `Grid` class (`grid.dfy`): a width × height `array2` of optional cells. It has explicit `Get`/`Set` in place of the source's `Proxy` accessors. `Rectangle` iterates over a clipped region in column-major order. The visitor built by `Grid.fill` replaces an occupant with a freshly constructed cell and stamps that cell's address on it. Separately, `VisitWithView` and `RunFill` model that visitor together with its view calls, which throw, because no cell class has a sprite or an `updateView`;
- the `World` constructor (`world.dfy`). It builds a square grid, the default sun and gravity and time 0, and seeds algae on the top row.

`Rectangle` returns, as a ghost value, the addresses it visited in order. That sequence is proved equal to the pure function `RectangleVisits`. The lemmas about `RectangleVisits` then give exact coverage, column-major order with no repeats, the number of visits, symmetry in the corners, flooring of corners and clipping.

The model follows the code as it stands:
- `World` seeds three algae cells itself.
- Cell constructors do not reject a cell whose state does not suit its material, such as a solid of water (`GenericConstructorsUnchecked`).
- `Grid` has no bounds check. The model states this as preconditions.
- `Gravity` keeps none of its arguments.
- There is no simulation step.

## Model

| member | source | states |
|---|---|---|
| Enums.LookupMatterState | src/classes/enums.js:9-11 | `MatterState[key]` yields a state-of-matter label exactly for the four listed keys, and then the label with that key (the object's own `keys` property and inherited names are not labels) |
| Enums.LookupCellType | src/classes/enums.js:17-19 | `CellType[key]` yields a cell-type label exactly for the nine listed keys, and then the label with that key (the object's own `keys` property and inherited names are not labels) |
| Enums.KeysInDeclarationOrder | src/classes/enums.js:10-18 | the key lists are exactly absent, solid, liquid, gas and void, rock, soil, quartz, water, nitrogen, oxygen, co2, algae, in that order |
| Enums.KeysDistinct | src/classes/enums.js:10-18 | no key is listed twice in either table |
| Enums.KeysListed | src/classes/enums.js:10-18 | every label's key appears in its table's key list |
| Enums.KeyRoundTrip | src/classes/enums.js:27-29 | looking up a label's key gives back that label, so distinct labels are never confused |
| Enums.CreateSymbols | src/classes/enums.js:27-29 | the per-key loop maps every listed key and nothing else; each key's symbol is newly created and points back at that key, so no two keys share a symbol; with distinct keys, the i-th key gets the i-th symbol |
| Enums.RegisterEnums | src/classes/enums.js:23-30 | after both tables are processed, each maps exactly its own keys, in list order, to symbols that are distinct within and across the two tables |
| Speeds.NewSpeed | src/classes/speed.js:12-16 | the constructor stores value and direction unchanged |
| Speeds.ZeroIsValidAndStill | src/classes/speed.js:9-19 | `Speed.zero` equals the all-default speed (value 0, direction 0), is in the documented range (value ≥ 0, direction 0..8) and does not move |
| Suns.NewSun | src/classes/sun.js:13-18 | the constructor stores distance, position and intensity unchanged |
| Suns.DefaultSun | src/classes/sun.js:10-13 | the defaults are distance 1024, position 0, intensity 256, and the default position lies in the cycle |
| Gravities.NewGravity | src/classes/gravity.js:13-16 | the constructor ignores both its arguments and yields a gravity source without data |
| Cells.NewCell | src/classes/cell.js:25-33 | the base constructor stores each argument unchanged, with defaults absent / void / 0 / `Speed.zero` / 0 / 255, and has no position yet |
| Cells.NewSolid | src/classes/cell.js:50-53 | a solid has state solid and keeps the caller's type, mass, speed, temperature and integrity (defaults rock, 2, zero, 0, 255) |
| Cells.NewLiquid | src/classes/cell.js:69-72 | a liquid has state liquid and no integrity whatever the caller passes (defaults water, mass 1) |
| Cells.NewGas | src/classes/cell.js:88-91 | a gas has state gas and no integrity whatever the caller passes (defaults nitrogen, mass 0) |
| Cells.NewLife | src/classes/cell.js:108-111 | a living cell is a solid with the caller's integrity (defaults algae, mass 1, 255) |
| Cells.NewRock | src/classes/cell.js:130-133 | rock: type rock, state solid, mass 2; speed, temperature and integrity passed through |
| Cells.NewSoil | src/classes/cell.js:148-151 | soil: type soil, state solid, mass 2; speed, temperature and integrity passed through |
| Cells.NewQuartz | src/classes/cell.js:166-169 | quartz: type quartz, state solid, mass 2; speed, temperature and integrity passed through |
| Cells.NewWater | src/classes/cell.js:183-186 | water: type water, state liquid, mass 1, no integrity; speed and temperature passed through |
| Cells.NewNitrogen | src/classes/cell.js:200-203 | nitrogen: type nitrogen, state gas, mass 1 (not the gas default 0), no integrity |
| Cells.NewOxygen | src/classes/cell.js:217-220 | oxygen: type oxygen, state gas, mass 1, no integrity |
| Cells.NewCO2 | src/classes/cell.js:234-237 | carbon dioxide: type co2, state gas, mass 1, no integrity |
| Cells.NewAlgae | src/classes/cell.js:252-255 | algae: type algae, state solid, mass 1; speed, temperature and integrity passed through |
| Cells.MaterialsConsistent | src/classes/cell.js:130-255 | every material, built with defaults or with an integrity in 0..255, has the state of its material, and has an integrity exactly when it is solid |
| Cells.GenericConstructorsUnchecked | src/classes/cell.js:50-91 | the generic constructors do not validate: a solid of water and a rock with `null` integrity can be built, while liquids and gases never carry integrity |
| Cells.Placed | src/classes/grid.js:98-100 | stamping an address sets the cell's position to it and changes nothing else |
| Grids.Floor | src/classes/grid.js:58-59 | `Math.floor`: the greatest integer not above the argument |
| Grids.ClipBox | src/classes/grid.js:58-67 | the clipped box lies inside the grid and contains exactly the grid addresses between the floored corners on both axes, both corners included |
| Grids.ColumnAt | src/classes/grid.js:71 | one column's visits are (x, ly), (x, ly+1), …, (x, hy) |
| Grids.ColumnMembership | src/classes/grid.js:71 | a column's visits are exactly the addresses of that column between the row bounds |
| Grids.AddressesMembership | src/classes/grid.js:70-74 | the nested loops visit exactly the addresses of the box |
| Grids.AddressesLength | src/classes/grid.js:70-74 | the nested loops make width-span × height-span visits |
| Grids.AddressesOrdered | src/classes/grid.js:70-74 | visits are strictly increasing in column-major order |
| Grids.RectangleVisitsExactly | src/classes/grid.js:55-75 | `rectangle` visits an address if and only if it lies in the grid and between the floored corners on both axes |
| Grids.RectangleVisitOrder | src/classes/grid.js:70-74 | visits run x ascending, then y ascending within a column, and no address is visited twice |
| Grids.RectangleVisitCount | src/classes/grid.js:66-71 | the number of visits is max(0, hx−lx+1) × max(0, hy−ly+1) over the clipped bounds |
| Grids.RectangleCornersSymmetric | src/classes/grid.js:62-63 | swapping the start and end corners gives the identical visit sequence |
| Grids.RectangleFloorsCorners | src/classes/grid.js:58-59 | a non-integral corner behaves like its floor |
| Grids.RectangleOutsideGrid | src/classes/grid.js:66-71 | a rectangle lying entirely outside the grid makes no visit (and raises no error) |
| Grids.Visited | src/classes/grid.js:96-100 | the fill visitor leaves a cell whose position is the visited address and which otherwise is the constructor's cell, field for field |
| Grids.Grid.constructor | src/classes/grid.js:13-30 | a new grid has the given width and height and every address is empty |
| Grids.Grid.Get | src/classes/grid.js:34-35 | the read `grid[x][y]`, allowed only for in-range addresses; it is the accessor through which the contracts of the constructor, `Set`, `Visit` and `Rectangle` state the grid's contents, and `Set`'s contract holds the set-then-get promise |
| Grids.Grid.Set | src/classes/grid.js:34-35 | the element write `grid[x][y] = c`, as at grid.js:96 (the get trap yields column x, then a plain array store): a following read returns c, and no other address changes |
| Grids.Grid.Visit | src/classes/grid.js:86-102 | the fill visitor discards any occupant and leaves a freshly constructed cell stamped with (x, y); no other address changes |
| Grids.CallCellConstructor | src/classes/grid.js:96 | calling the fill argument succeeds exactly when it is a plain factory function, and yields what the factory builds; calling a cell object throws |
| Grids.VisitWithView | src/classes/grid.js:86-102 | one fill visit with its view calls succeeds exactly when the argument is a factory and cells have a view, and then leaves the same cell as the model's visitor |
| Grids.VisitAsWrittenThrows | src/classes/grid.js:89-101 | with the cells cell.js builds, every fill visit throws: at the occupant's sprite (line 91), else at calling a non-function (line 96), else at the missing `updateView` (line 101) |
| Grids.RunFillStopsAt | src/classes/grid.js:70-74 | wherever it falls in the sequence, a visit that throws, given the occupants the earlier visits left, ends the whole iteration with that visit's error, whatever visits follow |
| Grids.RunFillWithView | src/classes/grid.js:70-101 | with a factory and cells that have a view, filling a sequence of addresses completes; each visited address holds a new cell stamped with it, and other occupants stay |
| Grids.Grid.Rectangle | src/classes/grid.js:55-75 | the visits are `RectangleVisits`; afterwards every address in the clipped box holds what the visitor leaves, and every other address is unchanged |
| Worlds.SeedOrder | src/classes/world.js:26 | seeding visits (1,0), (2,0), (3,0) in that order when size ≥ 4, and a prefix of that cut at the world's edge otherwise |
| Worlds.World.constructor | src/classes/world.js:16-27 | a size × size world (default 128) at time 0 with default sun and gravity; the seeded addresses hold algae cells (solid, mass 1, integrity 255) carrying their own address, all others are empty |
| Worlds.SeedingAsWrittenThrows | src/classes/world.js:26 | with the cell object the code passes, seeding throws at the first call for every size ≥ 2 and only then; the object throws even where cells have a view; a factory alone moves the throw to the missing `updateView`; only a factory together with cells that have a view completes, with a cell on exactly the seeded addresses |

## Findings

| source | as written | input that shows it | evidently intended | confidence | as-written member | corrected member |
|---|---|---|---|---|---|---|
| src/classes/world.js:26 | passes an Algae instance, `new Cell.Algae()`, to `Grid.fill`, whose visitor calls its argument as a function (src/classes/grid.js:96) | `new World()` (size 128), or any size ≥ 2: the first visit, at (1, 0), calls a non-function and throws a TypeError | pass a factory, `() => new Cell.Algae()`, so each seeded address gets its own algae cell; seeding then completes only if cells also have the view the visitor uses (next row) | high; not executed | Worlds.SeedingAsWrittenThrows | Worlds.World.constructor |
| src/classes/grid.js:101 | the fill visitor calls `updateView()` on the new cell, and for an occupied address `sprite.destroy(true)` on the old one (line 91); no cell class in src/classes/cell.js defines `updateView`, `sprite` or `staggerTimeoutHandle` | any fill visit, e.g. a factory fill of (0, 0) on an empty 1 × 1 grid: the new cell has no `updateView`, and the call throws a TypeError | cells carry a view (a sprite and an `updateView` method) that the rendering layer provides, so a visit ends with the new cell in place | high; not executed | Grids.VisitAsWrittenThrows | Grids.Grid.Visit |

## Left out

- Grids.Grid.Visit: leaves out the view calls of src/classes/grid.js:90-91 and 101 (`clearTimeout`, `sprite.destroy`, `updateView`). With the cells src/classes/cell.js builds, those calls throw on every visit, so this visitor completes where the source's does not. The same holds for Grids.Grid.Rectangle and Worlds.World.constructor, which run it. The throwing version is modelled separately by Grids.VisitWithView and Grids.RunFill. Destroying the old occupant is a plain overwrite.
- The `Proxy` that lets a grid be indexed as `grid[x][y]` and also used as a property bag (src/classes/grid.js:33-45) is replaced by `Get`/`Set` on coordinates.
- Grids.Grid.Get: out-of-range addresses are excluded by a precondition. The source does no check: a missing column makes the read throw, and a missing row yields `undefined`.
- Grids.Grid.Set: out-of-range addresses are excluded by preconditions. The source does no check: reading a missing column throws, and writing past a column's end extends that JavaScript array.
- Grids.Grid.Rectangle: the visitor is a `Fill` visitor. Arbitrary JavaScript callbacks are not modelled, because `Grid.fill` is the only visitor the code builds.
- Grid and world sizes are `nat`. A negative or fractional size makes JavaScript's `new Array` throw a RangeError, and the model does not cover that path.
- Numbers: mass, temperature, speed and integrity are integers, and the Sun's fields are reals. JavaScript's floating-point behaviour, `NaN` and `undefined` arguments are not modelled.
- Cell constructors accept a `null` integrity for solids and any value range, and any state/material pair. The model keeps that and does not add constructors that reject a state that does not suit its material.
- A cell's independence from other cells (each fill calls the constructor afresh) holds trivially here, because cells are values. Object identity and aliasing are not modelled.
- `Gravity`'s arguments are discarded by its constructor (src/classes/gravity.js:13-16), so the model's gravity carries no data.
- There is no simulation step, tick or transition rule, because the game loop is empty (src/classes/cellulata.js:80-88). `World.time` is only ever 0.
- Texture generation, shaders, Phaser and DOM bootstrap, and build tooling are not part of this model (src/classes/util.js, src/classes/shaders.js, src/classes/cellulata.js, src/app.js, gulpfile.js).
