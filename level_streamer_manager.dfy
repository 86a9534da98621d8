/**
  LevelStreamerManager: the streaming controller as a class whose fields are
  updated in place.  Each method is proved to move the abstract state `Model()`
  exactly as the corresponding operation of module Streaming does, and to keep
  the controller invariant `Valid()`.

  The asset loader is reduced to what the controller can observe: starting an
  operation adds it to the ghost set `pending` (its completion has yet to fire),
  and every release call is recorded in the ghost set `released`.  A release
  call requires that the same resource was not released before, so each call
  site proves that the controller never releases anything twice.
 */
module Runtime {
  import opened Wrappers
  import opened SpatialHash
  import opened CellMap
  import opened Streaming
  import opened StreamingProperties

  class LevelStreamerManager {
    var streamerSettings: Option<Settings>
    var hasProbe: bool                    // probe != null
    var cellSize: int
    var cells: map<Cell, string>          // the cell -> asset GUID map
    var instances: map<Cell, GameObject>  // _instances
    var loading: map<Cell, Handle>        // _loading
    var desired: set<Cell>                // _desired
    var streamGen: int                    // _streamGen
    var lastCenter: Cell                  // _lastCenter
    var hasCenter: bool                   // _hasCenter
    ghost var pending: set<Handle>
    ghost var released: set<Release>

    ghost function Abs(): State
      reads this
    {
      State(instances, loading, desired, streamGen, lastCenter, hasCenter, pending, released)
    }

    ghost function Model(): Manager
      reads this
    {
      Manager(streamerSettings, Config(hasProbe, cellSize, cells), Abs())
    }

    ghost predicate Valid()
      reads this
    {
      Inv(Abs())
    }

    /** A fresh component holding the serialised settings, before OnEnable. */
    constructor (settings: Option<Settings>)
      ensures Valid()
      ensures Model() == Manager(settings, Config(false, 0, map[]),
                                 State(map[], map[], {}, 0, Cell(0, 0), false, {}, {}))
    {
      streamerSettings := settings;
      hasProbe, cellSize, cells := false, 0, map[];
      instances, loading, desired := map[], map[], {};
      streamGen, lastCenter, hasCenter := 0, Cell(0, 0), false;
      pending, released := {}, {};
    }

    // -------------------------------------------------------------------------
    // The loader's release calls

    /** Addressables.Release on an operation handle. */
    method AddressablesRelease(h: Handle)
      requires ReleaseHandle(h) !in released
      modifies this`released
      ensures released == old(released) + {ReleaseHandle(h)}
    {
      released := released + {ReleaseHandle(h)};
    }

    /** Addressables.ReleaseInstance on a produced GameObject. */
    method AddressablesReleaseInstance(go: GameObject)
      requires ReleaseInstance(go) !in released
      modifies this`released
      ensures released == old(released) + {ReleaseInstance(go)}
    {
      released := released + {ReleaseInstance(go)};
    }

    // -------------------------------------------------------------------------
    // Lifecycle

    /**
      OnEnable: once the settings have been consumed this returns at once;
      otherwise it records the probe and cell size, builds the content map
      (first entry per cell wins), nulls the settings and resets the state.
     */
    method OnEnable(cameraPresent: bool)
      requires Valid()
      modifies this`streamerSettings, this`hasProbe, this`cellSize, this`cells,
               this`instances, this`loading, this`desired, this`hasCenter, this`streamGen
      ensures Valid()
      ensures Model() == Streaming.OnEnable(old(Model()), cameraPresent)
    {
      ghost var m0 := Model();
      if streamerSettings.None? {
        return;
      }
      var settings := streamerSettings.value;
      hasProbe := cameraPresent;
      cellSize := settings.cellSize;
      RebuildCells(settings);
      streamerSettings := None;
      ResetState();
      OnEnableKeepsInv(m0, cameraPresent);
    }

    /** The end of OnEnable: clear the three collections and the centre memo, bump the generation. */
    method ResetState()
      modifies this`instances, this`loading, this`desired, this`hasCenter, this`streamGen
      ensures Abs() == Reset(old(Abs()))
    {
      instances := map[];
      loading := map[];
      desired := {};
      hasCenter := false;
      streamGen := streamGen + 1;
    }

    /** The loop of OnEnable that fills the content map, keeping the first entry for each cell. */
    method RebuildCells(settings: Settings)
      requires cellSize == settings.cellSize
      modifies this`cells
      ensures cells == ContentMap(settings)
    {
      cells := map[];
      if cellSize > 0 {
        for i := 0 to |settings.assets|
          invariant cells == BuildCells(settings.assets[..i], cellSize)
        {
          assert settings.assets[..i + 1][..i] == settings.assets[..i];
          var asset := settings.assets[i];
          var cell := FromVector3(asset.position, cellSize);
          if cell !in cells {
            cells := cells[cell := asset.assetGuid];
          }
        }
        assert settings.assets[..|settings.assets|] == settings.assets;
      }
    }

    /** OnDisable: UnloadAll. */
    method OnDisable()
      requires Valid()
      modifies this`instances, this`loading, this`desired, this`streamGen, this`released
      ensures Valid()
      ensures Model() == Streaming.OnDisable(old(Model()))
    {
      UnloadAll();
    }

    /** Update: skip while idle or while the probe stays in the last centre cell; otherwise reconcile. */
    method Update(probePosition: Vector3)
      requires Valid()
      modifies this`instances, this`loading, this`desired, this`streamGen, this`lastCenter, this`hasCenter,
               this`pending, this`released
      ensures Valid()
      ensures Model() == Streaming.Update(old(Model()), probePosition)
    {
      if !hasProbe || cellSize <= 0 || |cells| == 0 {
        return;
      }
      var center := FromVector3(probePosition, cellSize);
      if hasCenter && center.x == lastCenter.x && center.z == lastCenter.z {
        return;
      }
      ghost var m0 := Model();
      Stream3x3(center);
      lastCenter := center;
      hasCenter := true;
      ghost var r := Model();
      assert r == Streaming.Update(m0, probePosition) by {
        assert r == m0.(state := Streaming.Stream3x3(m0.state, center, cells).(lastCenter := center, hasCenter := true));
      }
      UpdateKeepsInv(m0, probePosition);
    }

    // -------------------------------------------------------------------------
    // Streaming core

    /** Stream3x3: new generation, new 3x3 desired set, retire what left it, start what is missing. */
    method Stream3x3(center: Cell)
      requires Valid()
      modifies this`instances, this`loading, this`desired, this`streamGen, this`pending, this`released
      ensures Valid()
      ensures Abs() == Streaming.Stream3x3(old(Abs()), center, cells)
    {
      ghost var s0 := Abs();
      streamGen := streamGen + 1;
      BuildDesired(center);
      ghost var s1 := Abs();
      assert s1 == s0.(gen := s0.gen + 1, desired := Neighborhood(center));
      BumpIsFresh(s0, center);
      // 1) unload anything not desired, loaded cells first, then in-flight loads
      RetireUndesired();
      ghost var s2 := Abs();
      // 2) start loads for desired cells that are neither loaded nor loading
      StartMissing();
      ghost var s3 := Abs();
      assert s3 == Streaming.Stream3x3(s0, center, cells) by {
        assert s2 == Retire(s1);
        assert s3 == StartLoads(s2, cells);
      }
      Stream3x3KeepsInv(s0, center, cells);
    }

    /** Stream3x3, step 1: unload the loaded cells outside the desired set, then cancel the loads outside it. */
    method RetireUndesired()
      requires Sound(Abs())
      modifies this`instances, this`loading, this`released
      ensures Abs() == Retire(old(Abs()))
    {
      ghost var s1 := Abs();
      UnloadUndesired();
      UnloadCellsSound(s1, s1.instances.Keys - s1.desired);
      CancelUndesired();
      RetireInPhases(s1);
    }

    /** The nested loops of Stream3x3 that refill the desired set, row by row. */
    method BuildDesired(center: Cell)
      modifies this`desired
      ensures desired == Neighborhood(center)
    {
      desired := {};
      for dz := -1 to 2
        invariant forall c {:trigger c in desired} ::
          c in desired <==> Chebyshev(c, center) <= 1 && c.z < center.z + dz
      {
        for dx := -1 to 2
          invariant forall c {:trigger c in desired} ::
            c in desired <==> (Chebyshev(c, center) <= 1 && c.z < center.z + dz)
                              || (c.z == center.z + dz && center.x - 1 <= c.x < center.x + dx)
        {
          desired := desired + {Offset(center, dx, dz)};
        }
      }
    }

    /** The temporary list of Stream3x3: the given cells that are not desired, collected one by one. */
    method CollectUndesired(keys: set<Cell>) returns (r: set<Cell>)
      ensures r == keys - desired
    {
      r := {};
      var scan := keys;
      while scan != {}
        invariant scan <= keys
        invariant r == (keys - scan) - desired
        decreases scan
      {
        var c :| c in scan;
        if c !in desired {
          r := r + {c};
        }
        scan := scan - {c};
      }
    }

    /** Stream3x3, step 1 for loaded cells: collect those outside the desired set, then UnloadCell each. */
    method UnloadUndesired()
      requires Sound(Abs())
      modifies this`instances, this`loading, this`released
      ensures Abs() == UnloadCells(old(Abs()), old(instances).Keys - desired)
    {
      ghost var s0 := Abs();
      var toRelease := CollectUndesired(instances.Keys);
      var todo := toRelease;
      while todo != {}
        invariant todo <= toRelease
        invariant Abs() == UnloadCells(s0, toRelease - todo)
        decreases todo
      {
        var c :| c in todo;
        UnloadCellsSound(s0, toRelease - todo);
        UnloadCellsStep(s0, toRelease - todo, c);
        UnloadCell(c);
        OneMoreDone(toRelease, todo, c);
        todo := todo - {c};
      }
      AllDone(toRelease, todo);
    }

    /** Stream3x3, step 1 for in-flight loads: collect those outside the desired set, then CancelLoad each. */
    method CancelUndesired()
      requires Sound(Abs())
      modifies this`loading, this`released
      ensures Abs() == CancelLoads(old(Abs()), old(loading).Keys - desired)
    {
      ghost var s0 := Abs();
      var toCancel := CollectUndesired(loading.Keys);
      var todo := toCancel;
      while todo != {}
        invariant todo <= toCancel
        invariant Abs() == CancelLoads(s0, toCancel - todo)
        decreases todo
      {
        var c :| c in todo;
        CancelLoadsStep(s0, toCancel - todo, c);
        CancelLoad(c);
        OneMoreDone(toCancel, todo, c);
        todo := todo - {c};
      }
      AllDone(toCancel, todo);
    }

    /** Stream3x3, step 2: start one load, at the current generation, for each cell of ToStart. */
    method StartMissing()
      modifies this`loading, this`pending
      ensures Abs() == StartLoads(old(Abs()), cells)
    {
      ghost var s := Abs();
      ghost var started: set<Cell> := {};
      var toVisit := desired;
      while toVisit != {}
        invariant toVisit <= desired
        invariant started == ToStartAmong(s, cells, desired - toVisit)
        invariant loading == s.loading + StartedLoads(s.gen, started)
        invariant pending == s.pending + StartedHandles(s.gen, started)
        decreases toVisit
      {
        var cell :| cell in toVisit;
        ToStartAmongStep(s, cells, desired - toVisit, cell);
        OneMoreDone(desired, toVisit, cell);
        assert cell !in StartedLoads(s.gen, started);
        toVisit := toVisit - {cell};
        if cell in instances || cell in loading {
          continue;
        }
        if cell !in cells || cells[cell] == "" {
          continue;  // nothing mapped for this cell
        }
        var spawnPos := SpawnPosition(cell, cellSize);  // handed to InstantiateAsync; not observed by the model
        var genAtStart := streamGen;
        // InstantiateAsync: the operation is identified by the cell and generation its callback captures
        var handle := Handle(genAtStart, cell);
        pending := pending + {handle};
        loading := loading[cell := handle];
        StartedGrows(s, started, cell);
        started := started + {cell};
      }
      AllDone(desired, toVisit);
    }

    /**
      The completion callback registered for operation `h`, run once when the
      operation finishes, successfully or not, with or without a result.
     */
    method Complete(h: Handle, succeeded: bool, hasResult: bool)
      requires Valid() && h in pending
      modifies this`instances, this`loading, this`pending, this`released
      ensures Valid()
      ensures Abs() == Streaming.Complete(old(Abs()), h, succeeded, hasResult)
    {
      ghost var s0 := Abs();
      CompleteKeepsInv(s0, h, succeeded, hasResult);
      pending := pending - {h};
      var cell, genAtStart := h.cell, h.gen;
      if !(cell in loading && loading[cell] == h) {
        // replaced or cancelled: give back what it produced
        if succeeded && hasResult {
          AddressablesReleaseInstance(GameObject(h));
        }
        return;
      }
      loading := loading - {cell};
      if !succeeded || !hasResult {
        return;
      }
      if genAtStart != streamGen || cell !in desired {
        AddressablesReleaseInstance(GameObject(h));
        return;
      }
      instances := instances[cell := GameObject(h)];
    }

    /** UnloadCell: cancel the cell's load if any, release its instance if any, forget both. */
    method UnloadCell(cell: Cell)
      requires Sound(Abs())
      modifies this`instances, this`loading, this`released
      ensures Sound(Abs())
      ensures Abs() == Streaming.UnloadCell(old(Abs()), cell)
    {
      UnloadCellReleasesOnce(Abs(), cell);
      if cell in loading {
        var h := loading[cell];
        AddressablesRelease(h);
        loading := loading - {cell};
      }
      if cell in instances {
        var go := instances[cell];
        AddressablesReleaseInstance(go);
      }
      instances := instances - {cell};
    }

    /** CancelLoad: release the cell's in-flight load if any and forget it. */
    method CancelLoad(cell: Cell)
      requires Sound(Abs())
      modifies this`loading, this`released
      ensures Sound(Abs())
      ensures Abs() == Streaming.CancelLoad(old(Abs()), cell)
    {
      CancelLoadReleasesOnce(Abs(), cell);
      if cell in loading {
        var h := loading[cell];
        AddressablesRelease(h);
        loading := loading - {cell};
      }
    }

    /** The first loop of UnloadAll: Addressables.Release on every in-flight load. */
    method ReleaseAllLoads()
      requires forall c | c in loading :: loading[c].cell == c && ReleaseHandle(loading[c]) !in released
      modifies this`released
      ensures released == old(released) + HandleReleases(loading, loading.Keys)
    {
      var scan := loading.Keys;
      while scan != {}
        invariant scan <= loading.Keys
        invariant released == old(released) + HandleReleases(loading, loading.Keys - scan)
        decreases scan
      {
        var c :| c in scan;
        HandleReleasesStep(loading, loading.Keys - scan, c);
        AddressablesRelease(loading[c]);
        OneMoreDone(loading.Keys, scan, c);
        scan := scan - {c};
      }
    }

    /** The second loop of UnloadAll: Addressables.ReleaseInstance on every loaded instance. */
    method ReleaseAllInstances()
      requires forall c | c in instances :: instances[c].op.cell == c && ReleaseInstance(instances[c]) !in released
      modifies this`released
      ensures released == old(released) + InstanceReleases(instances, instances.Keys)
    {
      var scan := instances.Keys;
      while scan != {}
        invariant scan <= instances.Keys
        invariant released == old(released) + InstanceReleases(instances, instances.Keys - scan)
        decreases scan
      {
        var c :| c in scan;
        InstanceReleasesStep(instances, instances.Keys - scan, c);
        AddressablesReleaseInstance(instances[c]);
        OneMoreDone(instances.Keys, scan, c);
        scan := scan - {c};
      }
    }

    /** UnloadAll: release every in-flight load, then every instance; clear everything; bump the generation. */
    method UnloadAll()
      requires Sound(Abs())
      modifies this`instances, this`loading, this`desired, this`streamGen, this`released
      ensures Valid()
      ensures Abs() == Streaming.UnloadAll(old(Abs()))
    {
      ghost var s0 := Abs();
      UnloadAllReleasesEverythingOnce(s0);
      ReleaseAllLoads();
      loading := map[];
      ReleaseAllInstances();
      instances := map[];
      desired := {};
      streamGen := streamGen + 1;
    }
  }
}
