/**
  The settings record and the cell -> asset map that OnEnable builds from it.
  An asset reference is modelled by its GUID string; "" stands for a
  reference with no asset assigned.
 */
module CellMap {
  import opened SpatialHash

  /** One (position, asset) pair of the settings asset. */
  datatype StreamableAssetReference = StreamableAssetReference(position: Vector3, assetGuid: string)

  /** LevelStreamerSettingsAsset: the cell size and the list of placed assets. */
  datatype Settings = Settings(cellSize: int, assets: seq<StreamableAssetReference>)

  /** The cell an asset entry falls in. */
  function CellOf(a: StreamableAssetReference, cellSize: int): Cell
    requires cellSize > 0
  {
    FromVector3(a.position, cellSize)
  }

  /** The map built by adding the entries in order, keeping the first entry seen for a cell. */
  function BuildCells(assets: seq<StreamableAssetReference>, cellSize: int): map<Cell, string>
    requires cellSize > 0
  {
    if assets == [] then map[]
    else
      var m := BuildCells(assets[..|assets| - 1], cellSize);
      var last := assets[|assets| - 1];
      var c := CellOf(last, cellSize);
      if c in m then m else m[c := last.assetGuid]
  }

  /** A cell is mapped when its entry exists and names an asset. */
  predicate Mapped(cells: map<Cell, string>, c: Cell)
  {
    c in cells && cells[c] != ""
  }

  /** The cells of the map are exactly the cells some entry falls in. */
  lemma {:induction false} BuildCellsKeys(assets: seq<StreamableAssetReference>, cellSize: int, c: Cell)
    requires cellSize > 0
    ensures c in BuildCells(assets, cellSize) <==> exists i :: 0 <= i < |assets| && CellOf(assets[i], cellSize) == c
  {
    if assets != [] {
      var init := assets[..|assets| - 1];
      BuildCellsKeys(init, cellSize, c);
      if c in BuildCells(init, cellSize) {
        var i :| 0 <= i < |init| && CellOf(init[i], cellSize) == c;
        assert assets[i] == init[i];
      }
      if exists i :: 0 <= i < |assets| && CellOf(assets[i], cellSize) == c {
        var i :| 0 <= i < |assets| && CellOf(assets[i], cellSize) == c;
        if i < |init| {
          assert init[i] == assets[i];
        }
      }
    }
  }

  /** First wins: the entry stored for a cell is the earliest entry falling in that cell. */
  lemma {:induction false} BuildCellsFirstWins(assets: seq<StreamableAssetReference>, cellSize: int, i: int)
    requires cellSize > 0
    requires 0 <= i < |assets|
    requires forall j :: 0 <= j < i ==> CellOf(assets[j], cellSize) != CellOf(assets[i], cellSize)
    ensures CellOf(assets[i], cellSize) in BuildCells(assets, cellSize)
    ensures BuildCells(assets, cellSize)[CellOf(assets[i], cellSize)] == assets[i].assetGuid
  {
    var init := assets[..|assets| - 1];
    var c := CellOf(assets[i], cellSize);
    if i < |assets| - 1 {
      assert forall j :: 0 <= j < i ==> init[j] == assets[j];
      BuildCellsFirstWins(init, cellSize, i);
      assert init[i] == assets[i];
    } else {
      BuildCellsKeys(init, cellSize, c);
    }
  }
}
