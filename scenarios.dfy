/**
  Concrete runs of the component and the two behaviours of the lifecycle that
  a reader of the code might not expect: a still-desired cell left empty by a
  stale-generation completion, and the cell map and centre memo surviving a
  disable/enable cycle.  A third lemma records that a cancelled load which
  still completes with a result has both its handle and its instance released.
 */
module Scenarios {
  import opened Wrappers
  import opened SpatialHash
  import opened CellMap
  import opened Streaming
  import opened StreamingProperties

  /** The component as deserialised, before its first OnEnable. */
  function Initial(st: Settings): Manager
  {
    Manager(Some(st), Config(false, 0, map[]), State(map[], map[], {}, 0, Cell(0, 0), false, {}, {}))
  }

  /** Cell size 10; "a" and "c" both fall in cell (0,0), "b" in cell (1,0). */
  function DemoSettings(): Settings
  {
    Settings(10, [StreamableAssetReference(Vector3(5.0, 0.0, 5.0), "a"),
                  StreamableAssetReference(Vector3(15.0, 0.0, 5.0), "b"),
                  StreamableAssetReference(Vector3(7.0, 0.0, 3.0), "c")])
  }

  /** The demo assets fall in cells (0,0), (1,0) and (0,0). */
  lemma DemoCellsOfAssets()
    ensures FromVector3(Vector3(5.0, 0.0, 5.0), 10) == Cell(0, 0)
    ensures FromVector3(Vector3(15.0, 0.0, 5.0), 10) == Cell(1, 0)
    ensures FromVector3(Vector3(7.0, 0.0, 3.0), 10) == Cell(0, 0)
  {
    CellCoordUnique(5.0, 10, 0);
    CellCoordUnique(15.0, 10, 1);
    CellCoordUnique(7.0, 10, 0);
    CellCoordUnique(3.0, 10, 0);
  }

  /** OnEnable keeps the first asset seen for cell (0,0). */
  lemma DemoContentMap()
    ensures ContentMap(DemoSettings()) == map[Cell(0, 0) := "a", Cell(1, 0) := "b"]
  {
    var assets := DemoSettings().assets;
    DemoCellsOfAssets();
    assert assets[..2][..1] == assets[..1] && assets[..1][..0] == [];
    assert BuildCells(assets[..1], 10) == map[Cell(0, 0) := "a"];
    assert BuildCells(assets[..2], 10) == map[Cell(0, 0) := "a", Cell(1, 0) := "b"];
  }

  /** From an empty state, a reconciliation around (0,0) starts loads for exactly the two mapped cells. */
  lemma DemoFirstReconciliation(s: State)
    requires s.instances == map[] && s.loading == map[]
    ensures var r := Stream3x3(s, Cell(0, 0), map[Cell(0, 0) := "a", Cell(1, 0) := "b"]);
      && r.loading == map[Cell(0, 0) := Handle(s.gen + 1, Cell(0, 0)), Cell(1, 0) := Handle(s.gen + 1, Cell(1, 0))]
      && r.instances == map[]
  {
    var cells := map[Cell(0, 0) := "a", Cell(1, 0) := "b"];
    var b := s.(gen := s.gen + 1, desired := Neighborhood(Cell(0, 0)));
    assert Retire(b).loading == map[] && Retire(b).instances == map[];
    assert Chebyshev(Cell(1, 0), Cell(0, 0)) <= 1;
    assert ToStart(Retire(b), cells) == {Cell(0, 0), Cell(1, 0)};
  }

  /** OnEnable, then the first Update with the probe at (5,0,5): two loads, at generation 2. */
  lemma FirstTickLoadsMappedNeighbours()
    ensures var m1 := OnEnable(Initial(DemoSettings()), true);
      m1.config.cells == map[Cell(0, 0) := "a", Cell(1, 0) := "b"]
    ensures var m2 := Update(OnEnable(Initial(DemoSettings()), true), Vector3(5.0, 0.0, 5.0));
      && m2.state.loading == map[Cell(0, 0) := Handle(2, Cell(0, 0)), Cell(1, 0) := Handle(2, Cell(1, 0))]
      && m2.state.instances == map[]
      && m2.state.lastCenter == Cell(0, 0)
  {
    DemoCellsOfAssets();
    DemoContentMap();
    var m1 := OnEnable(Initial(DemoSettings()), true);
    DemoFirstReconciliation(m1.state);
  }

  /**
    A still-desired cell can be left empty: a load that survives a reconciliation
    because its cell stays in the block is released on completion, since its
    generation is stale, and the cell ends in neither map.
   */
  lemma StillDesiredCellLeftEmpty(s: State, center: Cell, cells: map<Cell, string>, c: Cell)
    requires Inv(s) && c in s.loading && c in Neighborhood(center)
    ensures var r := Stream3x3(s, center, cells);
      && c in r.loading && r.loading[c] == s.loading[c] && s.loading[c] in r.pending
      && c in r.desired
    ensures var r := Stream3x3(s, center, cells);
      var f := Complete(r, s.loading[c], true, true);
      && c !in f.instances && c !in f.loading && c in f.desired
      && ReleaseInstance(GameObject(s.loading[c])) in f.released - r.released
  {
    var r := Stream3x3(s, center, cells);
    var h := s.loading[c];
    Stream3x3Retires(s, center, cells, c);
    Stream3x3KeepsInv(s, center, cells);
    Stream3x3StartsExactlyNeeded(s, center, cells, c);
    assert h.gen <= s.gen < r.gen;
    assert h in r.pending;
    MatchingCompletion(r, h, true, true);
  }

  /**
    The cell map, the probe and the centre memo survive a disable/enable cycle:
    the second OnEnable finds the settings consumed and returns at once, so an
    Update with the probe back in the remembered cell streams nothing, although
    the teardown emptied every collection.
   */
  lemma ReEnableKeepsMapAndCentre(m: Manager, cameraPresent: bool, p: Vector3)
    requires m.settings.None?
    requires m.state.hasCenter && !Idle(m.config)
    requires FromVector3(p, m.config.cellSize) == m.state.lastCenter
    ensures var e := OnEnable(OnDisable(m), cameraPresent);
      && e.config == m.config
      && e.state.hasCenter && e.state.lastCenter == m.state.lastCenter
      && Update(e, p) == e
      && e.state.desired == {} && e.state.loading == map[] && e.state.instances == map[]
  {
    var e := OnEnable(OnDisable(m), cameraPresent);
    UpdateSkips(e, p);
  }

  /**
    A load cancelled while in flight whose operation still completes with a
    result gets two release calls: Addressables.Release on its handle from
    CancelLoad, and Addressables.ReleaseInstance on its result from the callback.
   */
  lemma CancelledLoadReleasedTwice(s: State, c: Cell, succeeded: bool, hasResult: bool)
    requires Sound(s) && c in s.loading
    ensures var h := s.loading[c];
      var f := Complete(CancelLoad(s, c), h, succeeded, hasResult);
      && ReleaseHandle(h) in f.released
      && (ReleaseInstance(GameObject(h)) in f.released <==> succeeded && hasResult)
      && f.loading == s.loading - {c} && f.instances == s.instances
  {
    var h := s.loading[c];
    CancelLoadReleasesOnce(s, c);
    StaleHandleCompletion(CancelLoad(s, c), h, succeeded, hasResult);
  }
}
