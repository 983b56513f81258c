/**
 * The two label tables of the simulation: states of matter and cell types.
 * In the source each table is an object holding a `keys` list, and a loop
 * gives every key a property holding a freshly created Symbol. Here the
 * labels are datatype constructors, the key lists are constants, and the
 * loop that creates the symbols is modelled by `CreateSymbols`, where a
 * symbol is identified by the order in which it was created.
 */
module Enums {
  import opened Wrappers

  /** State of a cell's matter, declared in the order of its key list. */
  datatype MatterState = Absent | Solid | Liquid | Gas

  /** Type of a cell, declared in the order of its key list. */
  datatype CellType = Void | Rock | Soil | Quartz | Water | Nitrogen | Oxygen | CO2 | Algae

  const MatterStateKeys: seq<string> := ["absent", "solid", "liquid", "gas"]

  const CellTypeKeys: seq<string> :=
    ["void", "rock", "soil", "quartz", "water", "nitrogen", "oxygen", "co2", "algae"]

  /** A symbol is known by its creation number; every creation yields a new one. */
  type Symbol = nat

  predicate Distinct(keys: seq<string>) {
    forall i, j :: 0 <= i < j < |keys| ==> keys[i] != keys[j]
  }

  /** The key under which a state of matter is registered. */
  function MatterStateKey(s: MatterState): string {
    match s
    case Absent => "absent"
    case Solid => "solid"
    case Liquid => "liquid"
    case Gas => "gas"
  }

  /** The key under which a cell type is registered. */
  function CellTypeKey(t: CellType): string {
    match t
    case Void => "void"
    case Rock => "rock"
    case Soil => "soil"
    case Quartz => "quartz"
    case Water => "water"
    case Nitrogen => "nitrogen"
    case Oxygen => "oxygen"
    case CO2 => "co2"
    case Algae => "algae"
  }

  /** Property lookup `MatterState[key]`: defined exactly for the registered keys. */
  function LookupMatterState(key: string): (r: Option<MatterState>)
    ensures r.Some? <==> key in MatterStateKeys
    ensures r.Some? ==> MatterStateKey(r.value) == key
  {
    if key == "absent" then Some(Absent)
    else if key == "solid" then Some(Solid)
    else if key == "liquid" then Some(Liquid)
    else if key == "gas" then Some(Gas)
    else None
  }

  /** Property lookup `CellType[key]`: defined exactly for the registered keys. */
  function LookupCellType(key: string): (r: Option<CellType>)
    ensures r.Some? <==> key in CellTypeKeys
    ensures r.Some? ==> CellTypeKey(r.value) == key
  {
    if key == "void" then Some(Void)
    else if key == "rock" then Some(Rock)
    else if key == "soil" then Some(Soil)
    else if key == "quartz" then Some(Quartz)
    else if key == "water" then Some(Water)
    else if key == "nitrogen" then Some(Nitrogen)
    else if key == "oxygen" then Some(Oxygen)
    else if key == "co2" then Some(CO2)
    else if key == "algae" then Some(Algae)
    else None
  }

  /** The key lists hold exactly the labels of the datatypes, in declaration order. */
  lemma KeysInDeclarationOrder()
    ensures MatterStateKeys == [MatterStateKey(Absent), MatterStateKey(Solid),
                                MatterStateKey(Liquid), MatterStateKey(Gas)]
    ensures CellTypeKeys == [CellTypeKey(Void), CellTypeKey(Rock), CellTypeKey(Soil),
                             CellTypeKey(Quartz), CellTypeKey(Water), CellTypeKey(Nitrogen),
                             CellTypeKey(Oxygen), CellTypeKey(CO2), CellTypeKey(Algae)]
  {
  }

  /** No key is listed twice. */
  lemma KeysDistinct()
    ensures Distinct(MatterStateKeys) && Distinct(CellTypeKeys)
  {
  }

  /** Every label's key is registered. */
  lemma KeysListed()
    ensures forall s :: MatterStateKey(s) in MatterStateKeys
    ensures forall t :: CellTypeKey(t) in CellTypeKeys
  {
  }

  /** Every label round-trips through its key: distinct labels have distinct keys. */
  lemma KeyRoundTrip(s: MatterState, t: CellType)
    ensures LookupMatterState(MatterStateKey(s)) == Some(s)
    ensures LookupCellType(CellTypeKey(t)) == Some(t)
  {
  }

  /**
   * The loop that registers one enum: for each key, in list order, a new
   * symbol is created and stored under that key. `first` is the number of
   * the first symbol created; `next` is the number after the last one.
   */
  method CreateSymbols(keys: seq<string>, first: Symbol) returns (symbols: map<string, Symbol>, next: Symbol)
    ensures next == first + |keys|
    ensures forall k :: k in symbols <==> k in keys
    ensures forall k :: k in symbols ==> first <= symbols[k] < next && keys[symbols[k] - first] == k
    ensures forall a, b :: a in symbols && b in symbols && a != b ==> symbols[a] != symbols[b]
    ensures Distinct(keys) ==> forall i :: 0 <= i < |keys| ==> symbols[keys[i]] == first + i
  {
    symbols := map[];
    var i := 0;
    while i < |keys|
      invariant 0 <= i <= |keys|
      invariant forall k :: k in symbols <==> k in keys[..i]
      invariant forall k :: k in symbols ==> first <= symbols[k] < first + i && keys[symbols[k] - first] == k
    {
      symbols := symbols[keys[i] := first + i];
      i := i + 1;
    }
    assert keys[..i] == keys;
    next := first + |keys|;
    if Distinct(keys) {
      forall i | 0 <= i < |keys| ensures symbols[keys[i]] == first + i {
        assert keys[symbols[keys[i]] - first] == keys[i];
      }
    }
  }

  /**
   * Registration of both enums, MatterState first: every key of each table
   * is mapped to its own symbol, nothing else is mapped, and no symbol is
   * shared, neither within a table nor across the two.
   */
  method RegisterEnums() returns (matterState: map<string, Symbol>, cellType: map<string, Symbol>)
    ensures forall k :: k in matterState <==> k in MatterStateKeys
    ensures forall k :: k in cellType <==> k in CellTypeKeys
    ensures forall s :: MatterStateKey(s) in matterState
    ensures forall t :: CellTypeKey(t) in cellType
    ensures forall i :: 0 <= i < |MatterStateKeys| ==> matterState[MatterStateKeys[i]] == i
    ensures forall i :: 0 <= i < |CellTypeKeys| ==> cellType[CellTypeKeys[i]] == |MatterStateKeys| + i
    ensures forall a, b :: a in matterState && b in matterState && a != b ==> matterState[a] != matterState[b]
    ensures forall a, b :: a in cellType && b in cellType && a != b ==> cellType[a] != cellType[b]
    ensures forall a, b :: a in matterState && b in cellType ==> matterState[a] != cellType[b]
  {
    KeysDistinct();
    var next;
    matterState, next := CreateSymbols(MatterStateKeys, 0);
    cellType, next := CreateSymbols(CellTypeKeys, next);
    KeysListed();
  }
}
