/**
  The streaming controller as a state machine over values.

  `State` holds the controller's live collections (loaded instances, in-flight
  loads, the desired 3x3 block), the generation counter, the centre memo, and
  two pieces of bookkeeping about the asset loader: the operations whose
  completion callback has not fired yet (`pending`) and every release call made
  so far (`released`).  Each operation of the controller is a function from the
  old state to the new one; the lemmas state what the controller promises.

  An InstantiateAsync operation is identified by the two values its completion
  callback captures: the generation at which it was started and its cell.  The
  controller starts at most one load per cell per reconciliation and bumps the
  generation before each, so no two operations share that pair.
 */
module Streaming {
  import opened Wrappers
  import opened SpatialHash
  import opened CellMap

  /** An in-flight InstantiateAsync operation (AsyncOperationHandle). */
  datatype Handle = Handle(gen: int, cell: Cell)

  /** The GameObject an operation produces when it succeeds with a result. */
  datatype GameObject = GameObject(op: Handle)

  /** A call that gives a resource back to the loader. */
  datatype Release = ReleaseHandle(h: Handle) | ReleaseInstance(go: GameObject)
  {
    /** The operation the released resource came from. */
    function Op(): Handle
    {
      match this
      case ReleaseHandle(h) => h
      case ReleaseInstance(go) => go.op
    }
  }

  datatype State = State(
    instances: map<Cell, GameObject>,  // _instances: loaded cells
    loading: map<Cell, Handle>,        // _loading: in-flight loads
    desired: set<Cell>,                // _desired: the current 3x3 block
    gen: int,                          // _streamGen
    lastCenter: Cell,                  // _lastCenter
    hasCenter: bool,                   // _hasCenter
    pending: set<Handle>,              // started operations whose callback has not fired
    released: set<Release>)            // release calls made so far

  /** What the cell derivation and the load starts read: probe presence, cell size, content map. */
  datatype Config = Config(hasProbe: bool, cellSize: int, cells: map<Cell, string>)

  /** The whole component: the serialised settings field, the configuration and the live state. */
  datatype Manager = Manager(settings: Option<Settings>, config: Config, state: State)

  // ---------------------------------------------------------------------------
  // Invariants

  /**
    Bookkeeping that holds after every step, also midway through a reconciliation:
    a cell is never loaded and loading at once; every in-flight load is tracked
    under its own cell, has not fired and has not been released; every loaded
    instance sits under its own cell, came from a fired operation and has not
    been released; no generation exceeds the counter.
   */
  predicate Sound(s: State)
  {
    && s.instances.Keys !! s.loading.Keys
    && (forall c | c in s.loading ::
          s.loading[c].cell == c && s.loading[c] in s.pending && ReleaseHandle(s.loading[c]) !in s.released)
    && (forall c | c in s.instances ::
          s.instances[c].op.cell == c && s.instances[c].op.gen <= s.gen &&
          s.instances[c].op !in s.pending && ReleaseInstance(s.instances[c]) !in s.released)
    && (forall h | h in s.pending :: h.gen <= s.gen && ReleaseInstance(GameObject(h)) !in s.released)
    && (forall e | e in s.released :: e.Op().gen <= s.gen)
  }

  /** The controller invariant: Sound, and nothing is loaded or loading outside the desired block. */
  predicate Inv(s: State)
  {
    Sound(s) && s.instances.Keys <= s.desired && s.loading.Keys <= s.desired
  }

  /** Every operation known so far predates the current generation. */
  predicate Fresh(s: State)
  {
    && (forall h | h in s.pending :: h.gen < s.gen)
    && (forall e | e in s.released :: e.Op().gen < s.gen)
    && (forall c | c in s.instances :: s.instances[c].op.gen < s.gen)
  }

  // ---------------------------------------------------------------------------
  // Operations

  /** The release calls for the in-flight loads of the cells `cs`. */
  function HandleReleases(loading: map<Cell, Handle>, cs: set<Cell>): set<Release>
  {
    set c | c in cs && c in loading :: ReleaseHandle(loading[c])
  }

  /** The release calls for the loaded instances of the cells `cs`. */
  function InstanceReleases(instances: map<Cell, GameObject>, cs: set<Cell>): set<Release>
  {
    set c | c in cs && c in instances :: ReleaseInstance(instances[c])
  }

  /**
    Reconciliation, retirement phase: UnloadCell for every loaded cell outside
    the desired block, then CancelLoad for every in-flight load outside it.
   */
  function Retire(s: State): State
  {
    var unloaded := s.instances.Keys - s.desired;
    var cancelled := s.loading.Keys - s.desired;
    s.(instances := s.instances - unloaded,
       loading := s.loading - cancelled,
       released := s.released + InstanceReleases(s.instances, unloaded) + HandleReleases(s.loading, cancelled))
  }

  /** UnloadCell applied to every cell of `cs`, in any order. */
  function UnloadCells(s: State, cs: set<Cell>): State
  {
    s.(instances := s.instances - cs,
       loading := s.loading - cs,
       released := s.released + InstanceReleases(s.instances, cs) + HandleReleases(s.loading, cs))
  }

  /** CancelLoad applied to every cell of `cs`, in any order. */
  function CancelLoads(s: State, cs: set<Cell>): State
  {
    s.(loading := s.loading - cs,
       released := s.released + HandleReleases(s.loading, cs))
  }

  /** A desired cell that is neither loaded nor loading and has an asset mapped. */
  predicate NeedsLoad(s: State, cells: map<Cell, string>, c: Cell)
  {
    c !in s.instances && c !in s.loading && Mapped(cells, c)
  }

  /** The cells among `cs` that need a load. */
  function ToStartAmong(s: State, cells: map<Cell, string>, cs: set<Cell>): set<Cell>
  {
    set c | c in cs && NeedsLoad(s, cells, c)
  }

  /** Desired cells neither loaded nor loading that have an asset mapped. */
  function ToStart(s: State, cells: map<Cell, string>): set<Cell>
  {
    ToStartAmong(s, cells, s.desired)
  }

  /** The in-flight entries of loads started at generation `gen` for the cells `started`. */
  function StartedLoads(gen: int, started: set<Cell>): map<Cell, Handle>
  {
    map c | c in started :: Handle(gen, c)
  }

  /** The operations started at generation `gen` for the cells `started`. */
  function StartedHandles(gen: int, started: set<Cell>): set<Handle>
  {
    set c | c in started :: Handle(gen, c)
  }

  /** Reconciliation, start phase: one load per cell of ToStart, captured at the current generation. */
  function StartLoads(s: State, cells: map<Cell, string>): State
  {
    var started := ToStart(s, cells);
    s.(loading := s.loading + StartedLoads(s.gen, started),
       pending := s.pending + StartedHandles(s.gen, started))
  }

  /** Stream3x3: bump the generation, replace the desired block, retire, start. */
  function Stream3x3(s: State, center: Cell, cells: map<Cell, string>): State
  {
    StartLoads(Retire(s.(gen := s.gen + 1, desired := Neighborhood(center))), cells)
  }

  /** The completion callback of operation h, which succeeded or not and produced a result or not. */
  function Complete(s: State, h: Handle, succeeded: bool, hasResult: bool): State
  {
    var produced := succeeded && hasResult;
    var fired := s.(pending := s.pending - {h});
    if !(h.cell in s.loading && s.loading[h.cell] == h) then
      if produced then fired.(released := fired.released + {ReleaseInstance(GameObject(h))}) else fired
    else
      var removed := fired.(loading := fired.loading - {h.cell});
      if !produced then removed
      else if h.gen != s.gen || h.cell !in s.desired then
        removed.(released := removed.released + {ReleaseInstance(GameObject(h))})
      else
        removed.(instances := removed.instances[h.cell := GameObject(h)])
  }

  /** UnloadCell: cancel the cell's load if any, release its instance if any, forget both. */
  function UnloadCell(s: State, c: Cell): State
  {
    s.(loading := s.loading - {c},
       instances := s.instances - {c},
       released := s.released
                   + (if c in s.loading then {ReleaseHandle(s.loading[c])} else {})
                   + (if c in s.instances then {ReleaseInstance(s.instances[c])} else {}))
  }

  /** CancelLoad: release the cell's in-flight load if any and forget it. */
  function CancelLoad(s: State, c: Cell): State
  {
    s.(loading := s.loading - {c},
       released := s.released + (if c in s.loading then {ReleaseHandle(s.loading[c])} else {}))
  }

  /** UnloadAll: release every load and every instance, clear all three collections, bump the generation. */
  function UnloadAll(s: State): State
  {
    s.(loading := map[], instances := map[], desired := {}, gen := s.gen + 1,
       released := s.released
                   + HandleReleases(s.loading, s.loading.Keys)
                   + InstanceReleases(s.instances, s.instances.Keys))
  }

  /** The reset at the end of OnEnable: collections cleared (nothing released), memo cleared, generation bumped. */
  function Reset(s: State): State
  {
    s.(instances := map[], loading := map[], desired := {}, hasCenter := false, gen := s.gen + 1)
  }

  /** The content map OnEnable builds; with a non-positive cell size it is never consulted. */
  function ContentMap(st: Settings): map<Cell, string>
  {
    if st.cellSize > 0 then BuildCells(st.assets, st.cellSize) else map[]
  }

  /** OnEnable: a no-op once the settings have been consumed; otherwise build the map, null the settings, reset. */
  function OnEnable(m: Manager, cameraPresent: bool): Manager
  {
    match m.settings
    case None => m
    case Some(st) => Manager(None, Config(cameraPresent, st.cellSize, ContentMap(st)), Reset(m.state))
  }

  /** OnDisable: UnloadAll. */
  function OnDisable(m: Manager): Manager
  {
    m.(state := UnloadAll(m.state))
  }

  /** No probe, a non-positive cell size or an empty content map: Update does nothing. */
  predicate Idle(cfg: Config)
  {
    !cfg.hasProbe || cfg.cellSize <= 0 || |cfg.cells| == 0
  }

  /** Update: derive the probe's cell; reconcile and remember it unless idle or unchanged. */
  function Update(m: Manager, probePosition: Vector3): Manager
  {
    if Idle(m.config) then m
    else
      var center := FromVector3(probePosition, m.config.cellSize);
      if m.state.hasCenter && center == m.state.lastCenter then m
      else m.(state := Stream3x3(m.state, center, m.config.cells).(lastCenter := center, hasCenter := true))
  }

  /** The completion callback of operation h, at the level of the whole component. */
  function Completed(m: Manager, h: Handle, succeeded: bool, hasResult: bool): Manager
  {
    m.(state := Complete(m.state, h, succeeded, hasResult))
  }
}
