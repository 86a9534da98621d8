/**
  What the streaming controller promises, proved about the operations of
  module Streaming: the invariant is kept by every operation, a reconciliation
  sets up exactly the 3x3 block, retires what left it and starts loads only
  where needed, completions are arbitrated by handle identity, generation and
  membership, and teardown releases every resource exactly once.
 */
module StreamingProperties {
  import opened SpatialHash
  import opened CellMap
  import opened Streaming

  // ---------------------------------------------------------------------------
  // Reconciliation (Stream3x3)

  /** Bumping the generation makes every known operation older than the counter. */
  lemma BumpIsFresh(s: State, center: Cell)
    requires Sound(s)
    ensures Sound(s.(gen := s.gen + 1, desired := Neighborhood(center)))
    ensures Fresh(s.(gen := s.gen + 1, desired := Neighborhood(center)))
  {
  }

  /** The retirement phase keeps the bookkeeping and leaves only desired cells. */
  lemma RetireKeepsSound(s: State)
    requires Sound(s) && Fresh(s)
    ensures Sound(Retire(s)) && Fresh(Retire(s))
    ensures Retire(s).instances.Keys <= s.desired && Retire(s).loading.Keys <= s.desired
  {
  }

  /** The start phase keeps the invariant when all known operations predate the counter. */
  lemma StartLoadsKeepsInv(s: State, cells: map<Cell, string>)
    requires Sound(s) && Fresh(s)
    requires s.instances.Keys <= s.desired && s.loading.Keys <= s.desired
    ensures Inv(StartLoads(s, cells))
  {
    var r := StartLoads(s, cells);
    forall c | c in r.loading
      ensures r.loading[c].cell == c && r.loading[c] in r.pending && ReleaseHandle(r.loading[c]) !in r.released
    {
      if c !in s.loading {
        assert c in ToStart(s, cells);
        assert r.loading[c] == Handle(s.gen, c);
      }
    }
  }

  /** Starting one more load extends the in-flight map and the pending set by that load. */
  lemma StartedGrows(s: State, started: set<Cell>, c: Cell)
    ensures s.loading + StartedLoads(s.gen, started + {c}) == (s.loading + StartedLoads(s.gen, started))[c := Handle(s.gen, c)]
    ensures s.pending + StartedHandles(s.gen, started + {c}) == s.pending + StartedHandles(s.gen, started) + {Handle(s.gen, c)}
  {
  }

  /** Stream3x3 keeps the invariant, sets the desired set to the nine cells around the centre, and bumps the generation. */
  lemma Stream3x3KeepsInv(s: State, center: Cell, cells: map<Cell, string>)
    requires Inv(s)
    ensures Inv(Stream3x3(s, center, cells))
    ensures Stream3x3(s, center, cells).desired == Neighborhood(center)
    ensures |Stream3x3(s, center, cells).desired| == 9
    ensures Stream3x3(s, center, cells).gen > s.gen
  {
    var b := s.(gen := s.gen + 1, desired := Neighborhood(center));
    BumpIsFresh(s, center);
    RetireKeepsSound(b);
    StartLoadsKeepsInv(Retire(b), cells);
    NeighborhoodHasNineCells(center);
  }

  /**
    Retirement: a loaded cell or in-flight load outside the new block is dropped
    and its resource is released now for the first time; entries inside the block
    are kept as they were (a pending load is never restarted).
   */
  lemma Stream3x3Retires(s: State, center: Cell, cells: map<Cell, string>, c: Cell)
    requires Inv(s)
    ensures var r := Stream3x3(s, center, cells);
      && (c in s.instances && c !in Neighborhood(center) ==>
            c !in r.instances && ReleaseInstance(s.instances[c]) in r.released - s.released)
      && (c in s.loading && c !in Neighborhood(center) ==>
            c !in r.loading && ReleaseHandle(s.loading[c]) in r.released - s.released)
      && (c in s.instances && c in Neighborhood(center) ==>
            c in r.instances && r.instances[c] == s.instances[c])
      && (c in s.loading && c in Neighborhood(center) ==>
            c in r.loading && r.loading[c] == s.loading[c])
  {
    var b := s.(gen := s.gen + 1, desired := Neighborhood(center));
    RetireDropsOrKeeps(b, c);
    StartLoadsKeepsEntries(Retire(b), cells, c);
  }

  /** Retire drops and releases the entries of a cell outside the desired set and keeps those inside it. */
  lemma RetireDropsOrKeeps(b: State, c: Cell)
    ensures var t := Retire(b);
      && (c in b.instances && c !in b.desired ==> c !in t.instances && ReleaseInstance(b.instances[c]) in t.released)
      && (c in b.loading && c !in b.desired ==> c !in t.loading && ReleaseHandle(b.loading[c]) in t.released)
      && (c in b.instances && c in b.desired ==> c in t.instances && t.instances[c] == b.instances[c])
      && (c in b.loading && c in b.desired ==> c in t.loading && t.loading[c] == b.loading[c])
  {
    if c in b.instances && c !in b.desired {
      assert ReleaseInstance(b.instances[c]) in InstanceReleases(b.instances, b.instances.Keys - b.desired);
    }
    if c in b.loading && c !in b.desired {
      assert ReleaseHandle(b.loading[c]) in HandleReleases(b.loading, b.loading.Keys - b.desired);
    }
  }

  /** The start phase releases nothing, loads nothing and keeps every in-flight entry. */
  lemma StartLoadsKeepsEntries(t: State, cells: map<Cell, string>, c: Cell)
    ensures var r := StartLoads(t, cells);
      && r.instances == t.instances && r.released == t.released
      && (c in t.loading ==> c in r.loading && r.loading[c] == t.loading[c])
  {
    var r := StartLoads(t, cells);
    if c in t.loading {
      assert c !in ToStart(t, cells);
    }
  }

  /**
    A reconciliation starts a load for cell c (a new handle at the new generation)
    exactly when c is in the new block, is neither loaded nor loading afterwards
    retirement, and has an asset mapped; no cell ever gets a second load.
   */
  lemma Stream3x3StartsExactlyNeeded(s: State, center: Cell, cells: map<Cell, string>, c: Cell)
    requires Inv(s)
    ensures var r := Stream3x3(s, center, cells);
      (c in r.loading && (c !in s.loading || r.loading[c] != s.loading[c]))
      <==> (c in Neighborhood(center) && c !in s.instances && c !in s.loading && Mapped(cells, c))
    ensures var r := Stream3x3(s, center, cells);
      c in r.loading && (c !in s.loading || r.loading[c] != s.loading[c]) ==>
        r.loading[c] == Handle(r.gen, c) && Handle(r.gen, c) !in s.pending && c !in r.instances
  {
    var b := s.(gen := s.gen + 1, desired := Neighborhood(center));
    var t := Retire(b);
    var r := Stream3x3(s, center, cells);
    BumpIsFresh(s, center);
    RetireKeepsSound(b);
    assert r == StartLoads(t, cells);
    assert c in t.loading <==> c in s.loading && c in Neighborhood(center);
    assert c in t.instances <==> c in s.instances && c in Neighborhood(center);
    assert c in t.loading ==> t.loading[c] == s.loading[c];
    if c in ToStart(t, cells) {
      assert r.loading[c] == Handle(b.gen, c);
    } else {
      assert c in r.loading ==> c in t.loading && r.loading[c] == t.loading[c];
    }
  }

  // ---------------------------------------------------------------------------
  // Completion callback

  /** A completion of an operation that has not fired yet keeps the invariant, the desired set and the generation. */
  lemma CompleteKeepsInv(s: State, h: Handle, succeeded: bool, hasResult: bool)
    requires Inv(s) && h in s.pending
    ensures Inv(Complete(s, h, succeeded, hasResult))
    ensures Complete(s, h, succeeded, hasResult).desired == s.desired
    ensures Complete(s, h, succeeded, hasResult).gen == s.gen
  {
    var r := Complete(s, h, succeeded, hasResult);
    if !(h.cell in s.loading && s.loading[h.cell] == h) {
      assert r.instances == s.instances && r.loading == s.loading;
    } else if succeeded && hasResult && h.gen == s.gen && h.cell in s.desired {
      assert r.instances == s.instances[h.cell := GameObject(h)];
      assert r.loading == s.loading - {h.cell};
      assert r.released == s.released;
      forall c | c in r.instances
        ensures r.instances[c].op !in r.pending && ReleaseInstance(r.instances[c]) !in r.released
      {
        if c != h.cell {
          assert s.instances[c].op != h;
        }
      }
    } else {
      assert r.instances == s.instances;
      assert r.loading == s.loading - {h.cell};
    }
  }

  /**
    A completion whose handle is no longer the cell's in-flight load changes none
    of the collections nor the generation; it releases its instance, for the first
    time, exactly when it succeeded with a result, and releases nothing else.
   */
  lemma StaleHandleCompletion(s: State, h: Handle, succeeded: bool, hasResult: bool)
    requires Sound(s) && h in s.pending
    requires !(h.cell in s.loading && s.loading[h.cell] == h)
    ensures var r := Complete(s, h, succeeded, hasResult);
      && r.instances == s.instances && r.loading == s.loading
      && r.desired == s.desired && r.gen == s.gen
      && (ReleaseInstance(GameObject(h)) in r.released <==> succeeded && hasResult)
      && ReleaseInstance(GameObject(h)) !in s.released
      && r.released - {ReleaseInstance(GameObject(h))} == s.released
  {
  }

  /**
    A completion whose handle is the cell's in-flight load always ends the load;
    the cell becomes resident, with this operation's instance, exactly when the load
    succeeded with a result, its generation is current and the cell is still
    desired; otherwise a produced instance is released, for the first time.
   */
  lemma MatchingCompletion(s: State, h: Handle, succeeded: bool, hasResult: bool)
    requires Sound(s) && h in s.pending
    requires h.cell in s.loading && s.loading[h.cell] == h
    ensures var r := Complete(s, h, succeeded, hasResult);
      && h.cell !in r.loading
      && (h.cell in r.instances <==> succeeded && hasResult && h.gen == s.gen && h.cell in s.desired)
      && (h.cell in r.instances ==> r.instances[h.cell] == GameObject(h) && r.released == s.released)
      && (ReleaseInstance(GameObject(h)) in r.released <==> succeeded && hasResult && h.cell !in r.instances)
      && ReleaseInstance(GameObject(h)) !in s.released
      && r.released - {ReleaseInstance(GameObject(h))} == s.released
      && (forall c | c != h.cell :: (c in r.instances <==> c in s.instances) && (c in r.loading <==> c in s.loading))
  {
  }

  /**
    A load whose generation is stale or whose cell left the desired set never
    becomes resident: its completion leaves the loaded map unchanged and releases
    any instance it produced.
   */
  lemma StaleCompletionNeverResident(s: State, h: Handle, succeeded: bool, hasResult: bool)
    requires Sound(s) && h in s.pending
    requires h.gen != s.gen || h.cell !in s.desired
    ensures var r := Complete(s, h, succeeded, hasResult);
      && r.instances == s.instances
      && (succeeded && hasResult ==> ReleaseInstance(GameObject(h)) in r.released - s.released)
  {
  }

  // ---------------------------------------------------------------------------
  // UnloadCell, CancelLoad, UnloadAll

  /** UnloadCell keeps the bookkeeping, forgets the cell and releases each of its resources for the first time. */
  lemma UnloadCellReleasesOnce(s: State, c: Cell)
    requires Sound(s)
    ensures var r := UnloadCell(s, c);
      && Sound(r) && c !in r.loading && c !in r.instances
      && (c in s.loading ==> ReleaseHandle(s.loading[c]) in r.released - s.released)
      && (c in s.instances ==> ReleaseInstance(s.instances[c]) in r.released - s.released)
      && (forall e | e in r.released - s.released ::
            (c in s.loading && e == ReleaseHandle(s.loading[c])) || (c in s.instances && e == ReleaseInstance(s.instances[c])))
  {
  }

  /** CancelLoad keeps the bookkeeping and the loaded map, and releases the cell's load for the first time. */
  lemma CancelLoadReleasesOnce(s: State, c: Cell)
    requires Sound(s)
    ensures var r := CancelLoad(s, c);
      && Sound(r) && c !in r.loading && r.instances == s.instances
      && (c in s.loading ==> ReleaseHandle(s.loading[c]) in r.released - s.released)
      && (forall e | e in r.released - s.released :: c in s.loading && e == ReleaseHandle(s.loading[c]))
  {
  }

  /**
    UnloadAll empties the loaded map, the in-flight map and the desired set,
    strictly increases the generation, keeps the invariant, and releases every
    prior load and every prior instance, none of which had been released before.
   */
  lemma UnloadAllReleasesEverythingOnce(s: State)
    requires Sound(s)
    ensures var r := UnloadAll(s);
      && Inv(r) && r.instances == map[] && r.loading == map[] && r.desired == {} && r.gen > s.gen
      && (forall c | c in s.loading :: ReleaseHandle(s.loading[c]) in r.released - s.released)
      && (forall c | c in s.instances :: ReleaseInstance(s.instances[c]) in r.released - s.released)
  {
    var r := UnloadAll(s);
    forall c | c in s.loading
      ensures ReleaseHandle(s.loading[c]) in r.released
    {
    }
    forall c | c in s.instances
      ensures ReleaseInstance(s.instances[c]) in r.released
    {
    }
  }

  /** UnloadAll on a torn-down controller changes nothing but the generation. */
  lemma UnloadAllTwice(s: State)
    requires Sound(s)
    ensures var r := UnloadAll(UnloadAll(s));
      r == UnloadAll(s).(gen := s.gen + 2)
  {
  }

  /**
    Releasing the loads of one more cell adds exactly that cell's release, which
    is not among the earlier ones: each in-flight load is filed under its own cell.
   */
  lemma HandleReleasesStep(loading: map<Cell, Handle>, cs: set<Cell>, c: Cell)
    requires forall d | d in loading :: loading[d].cell == d
    requires c !in cs
    ensures HandleReleases(loading, cs + {c})
            == HandleReleases(loading, cs) + (if c in loading then {ReleaseHandle(loading[c])} else {})
    ensures c in loading ==> ReleaseHandle(loading[c]) !in HandleReleases(loading, cs)
  {
  }

  /** The same for the instances of one more cell. */
  lemma InstanceReleasesStep(instances: map<Cell, GameObject>, cs: set<Cell>, c: Cell)
    requires forall d | d in instances :: instances[d].op.cell == d
    requires c !in cs
    ensures InstanceReleases(instances, cs + {c})
            == InstanceReleases(instances, cs) + (if c in instances then {ReleaseInstance(instances[c])} else {})
    ensures c in instances ==> ReleaseInstance(instances[c]) !in InstanceReleases(instances, cs)
  {
  }

  /**
    The retirement phase as the source runs it: unload the loaded cells outside
    the block, then cancel the loads still in flight outside it.
   */
  lemma RetireInPhases(s: State)
    ensures var u := UnloadCells(s, s.instances.Keys - s.desired);
      Retire(s) == CancelLoads(u, u.loading.Keys - u.desired)
  {
    var u := UnloadCells(s, s.instances.Keys - s.desired);
    var r := CancelLoads(u, u.loading.Keys - u.desired);
    assert r.loading == Retire(s).loading;
    assert r.released == Retire(s).released by {
      var U := s.instances.Keys - s.desired;
      var C := s.loading.Keys - s.desired;
      assert HandleReleases(s.loading, U) + HandleReleases(u.loading, u.loading.Keys - u.desired)
             == HandleReleases(s.loading, C);
    }
  }

  /** Unloading a batch of cells keeps the bookkeeping. */
  lemma UnloadCellsSound(s: State, cs: set<Cell>)
    requires Sound(s)
    ensures Sound(UnloadCells(s, cs))
  {
    var u := UnloadCells(s, cs);
    forall c | c in u.loading
      ensures ReleaseHandle(u.loading[c]) !in u.released
    {
      assert ReleaseHandle(s.loading[c]) !in HandleReleases(s.loading, cs);
    }
    forall c | c in u.instances
      ensures ReleaseInstance(u.instances[c]) !in u.released
    {
      assert ReleaseInstance(s.instances[c]) !in InstanceReleases(s.instances, cs);
    }
  }

  /** Unloading one more cell extends the batch by that cell. */
  lemma UnloadCellsStep(s: State, cs: set<Cell>, c: Cell)
    requires Sound(s) && c !in cs
    ensures UnloadCell(UnloadCells(s, cs), c) == UnloadCells(s, cs + {c})
  {
    HandleReleasesStep(s.loading, cs, c);
    InstanceReleasesStep(s.instances, cs, c);
    RemoveOneMore(s.loading, cs, c);
    RemoveOneMore(s.instances, cs, c);
  }

  /** Cancelling one more cell, under the bookkeeping, extends the batch by that cell and keeps Sound. */
  lemma CancelLoadsStep(s: State, cs: set<Cell>, c: Cell)
    requires Sound(s) && c !in cs
    ensures Sound(CancelLoads(s, cs))
    ensures CancelLoad(CancelLoads(s, cs), c) == CancelLoads(s, cs + {c})
  {
    HandleReleasesStep(s.loading, cs, c);
    RemoveOneMore(s.loading, cs, c);
  }

  /** Taking `c` off the work list `todo` adds it to the finished part of `all`. */
  lemma OneMoreDone<T>(all: set<T>, todo: set<T>, c: T)
    requires todo <= all && c in todo
    ensures all - (todo - {c}) == (all - todo) + {c}
    ensures c !in all - todo
  {
  }

  /** With the work list empty, all of `all` is finished. */
  lemma AllDone<T>(all: set<T>, todo: set<T>)
    requires todo == {}
    ensures all - todo == all
  {
  }

  /** Removing the keys `a` and then `c` removes the keys of `a + {c}`. */
  lemma RemoveOneMore<K, V>(m: map<K, V>, a: set<K>, c: K)
    ensures (m - a) - {c} == m - (a + {c})
  {
  }

  /** Among one more cell, exactly that cell is added when it needs a load. */
  lemma ToStartAmongStep(s: State, cells: map<Cell, string>, cs: set<Cell>, c: Cell)
    ensures ToStartAmong(s, cells, cs + {c})
            == ToStartAmong(s, cells, cs) + (if NeedsLoad(s, cells, c) then {c} else {})
  {
  }

  // ---------------------------------------------------------------------------
  // OnEnable, OnDisable, Update

  /** OnEnable keeps the invariant; when it runs it builds the content map and strictly increases the generation. */
  lemma OnEnableKeepsInv(m: Manager, cameraPresent: bool)
    requires Inv(m.state)
    ensures var r := OnEnable(m, cameraPresent);
      && Inv(r.state) && r.settings.None?
      && (m.settings.Some? ==>
            r.state.gen > m.state.gen && r.state.instances == map[] && r.state.loading == map[]
            && r.state.desired == {} && !r.state.hasCenter
            && r.config.cellSize == m.settings.value.cellSize
            && (m.settings.value.cellSize > 0 ==> r.config.cells == BuildCells(m.settings.value.assets, m.settings.value.cellSize)))
      && (m.settings.None? ==> r == m)
  {
  }

  /**
    Update does nothing (no map, set, generation or memo changes) while the
    configuration is idle, or when the probe is still in the remembered centre cell.
   */
  lemma UpdateSkips(m: Manager, probePosition: Vector3)
    requires Idle(m.config) || (m.state.hasCenter && FromVector3(probePosition, m.config.cellSize) == m.state.lastCenter)
    ensures Update(m, probePosition) == m
  {
  }

  /**
    Update keeps the invariant and the configuration.  It reconciles exactly when
    the configuration is not idle and the probe's cell differs from the remembered
    centre (or none is remembered); then it remembers that cell, centres the
    desired block on it and increases the generation.  Otherwise it changes nothing.
   */
  lemma UpdateKeepsInv(m: Manager, probePosition: Vector3)
    requires Inv(m.state)
    ensures var r := Update(m, probePosition);
      && Inv(r.state) && r.config == m.config && r.settings == m.settings
      && (!Idle(m.config) && !(m.state.hasCenter && FromVector3(probePosition, m.config.cellSize) == m.state.lastCenter) ==>
            && r.state.hasCenter && r.state.lastCenter == FromVector3(probePosition, m.config.cellSize)
            && r.state.desired == Neighborhood(r.state.lastCenter) && r.state.gen > m.state.gen)
      && (r == m <==> Idle(m.config) || (m.state.hasCenter && FromVector3(probePosition, m.config.cellSize) == m.state.lastCenter))
  {
    if !Idle(m.config) {
      var center := FromVector3(probePosition, m.config.cellSize);
      if !(m.state.hasCenter && center == m.state.lastCenter) {
        Stream3x3KeepsInv(m.state, center, m.config.cells);
      }
    }
  }

  /**
    Sampling the probe twice at positions in the same cell reconciles at most once:
    the second Update changes nothing.
   */
  lemma UpdateSameCellIsNoOp(m: Manager, p: Vector3, q: Vector3)
    requires !Idle(m.config) ==> FromVector3(p, m.config.cellSize) == FromVector3(q, m.config.cellSize)
    ensures Update(Update(m, p), q) == Update(m, p)
  {
  }

  // ---------------------------------------------------------------------------
  // Runs of events

  /** The events that drive the component, in the order the single logical thread sees them. */
  datatype Event =
    | Enable(cameraPresent: bool)
    | Disable
    | Tick(probePosition: Vector3)
    | Done(h: Handle, succeeded: bool, hasResult: bool)

  function Step(m: Manager, e: Event): Manager
  {
    match e
    case Enable(cam) => OnEnable(m, cam)
    case Disable => OnDisable(m)
    case Tick(p) => Update(m, p)
    case Done(h, ok, res) => Completed(m, h, ok, res)
  }

  function Run(m: Manager, events: seq<Event>): Manager
    decreases |events|
  {
    if events == [] then m else Run(Step(m, events[0]), events[1..])
  }

  /** No event ever lowers the generation. */
  lemma StepGenerationMonotone(m: Manager, e: Event)
    ensures Step(m, e).state.gen >= m.state.gen
  {
  }

  /**
    An operation started before the current generation never makes its instance
    resident, whatever events follow: the generation check of the completion
    callback holds across any later sequence of reconciliations and completions.
   */
  lemma {:induction false} StaleLoadNeverResident(m: Manager, events: seq<Event>, h: Handle)
    requires h.gen < m.state.gen
    requires GameObject(h) !in m.state.instances.Values
    ensures GameObject(h) !in Run(m, events).state.instances.Values
    decreases |events|
  {
    if events != [] {
      var next := Step(m, events[0]);
      StepGenerationMonotone(m, events[0]);
      StaleLoadNeverResident(next, events[1..], h);
    }
  }

  /** Each completion in the run fires for an operation that was started and has not fired yet. */
  predicate Legal(m: Manager, events: seq<Event>)
    decreases |events|
  {
    events == [] ||
    ((events[0].Done? ==> events[0].h in m.state.pending) && Legal(Step(m, events[0]), events[1..]))
  }

  /** Every legal run from a state satisfying the invariant keeps it. */
  lemma {:induction false} RunKeepsInv(m: Manager, events: seq<Event>)
    requires Inv(m.state)
    requires Legal(m, events)
    ensures Inv(Run(m, events).state)
    decreases |events|
  {
    if events != [] {
      match events[0] {
        case Enable(cam) => OnEnableKeepsInv(m, cam);
        case Disable => UnloadAllReleasesEverythingOnce(m.state);
        case Tick(p) => UpdateKeepsInv(m, p);
        case Done(h, ok, res) => CompleteKeepsInv(m.state, h, ok, res);
      }
      RunKeepsInv(Step(m, events[0]), events[1..]);
    }
  }
}
