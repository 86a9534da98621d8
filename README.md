# LevelStreamer: a verified model of the streaming controller

LevelStreamer streams a world in grid cells around an observer. `LevelStreamerManager`
(a Unity component) owns:

- the **cell → asset map**, built once from the settings asset;
- the **loaded** instances (`_instances`);
- the **in-flight** loads (`_loading`);
- the **desired** 3×3 block around the observer's cell (`_desired`);
- the generation counter `_streamGen`;
- the centre memo (`_lastCenter`, `_hasCenter`).

On every `Update` it derives the observer's cell. When that cell changed, it
reconciles (`Stream3x3`):

1. bump the generation and rebuild the desired block;
2. unload the cells that left it and cancel the loads that left it;
3. start one `InstantiateAsync` for every desired cell that is neither loaded
   nor loading and has an asset mapped.

A completion callback arbitrates each finished load by three checks: is the
handle still the cell's in-flight load, is its generation current, and is its
cell still desired.

## Project layout

- `spatial_hash.dfy` (module `SpatialHash`): positions, cells, the floor-based
  cell derivation, the spawn point and the 3×3 neighbourhood.
- `cell_map.dfy` (module `CellMap`): the settings record and the map OnEnable
  builds (first entry per cell wins).
- `streaming.dfy` (module `Streaming`): the controller as functions from state
  to state, and the invariant `Inv`.
- `streaming_properties.dfy` (module `StreamingProperties`): what the controller
  promises, proved about those functions, including runs of arbitrary event
  sequences.
- `level_streamer_manager.dfy` (module `Runtime`): class `LevelStreamerManager`,
  whose fields are updated in place by methods with the source's loops. Each
  method's `ensures` ties its new state to the function of module `Streaming`
  applied to the old state.
- `scenarios.dfy` (module `Scenarios`): a concrete run and the lifecycle
  behaviours described below.

### How the asset loader is modelled

- An `InstantiateAsync` operation is identified by the two values its callback
  captures: the generation at start and the cell (`Handle(gen, cell)`).
- The GameObject an operation produces is `GameObject(handle)`.
- Ghost state records two things: the operations whose callback has not fired
  (`pending`), and every `Release` / `ReleaseInstance` call so far (`released`).
- The two release methods require that their resource has not been released
  before. So every call site proves that the controller never releases the
  same resource twice.

### Behaviour of the code that differs from what one might expect (the model follows the code)

- **Re-enabling does not start over.** One might expect no state to survive a
  disable/enable cycle. In the code, OnEnable sets `streamerSettings` to
  null (Runtime/LevelStreamerManager.cs:47), so a second OnEnable returns at
  line 32. The cell map, the probe and the centre memo therefore survive, and
  `UnloadAll` does not clear `_hasCenter`. After re-enabling with the observer
  still in the remembered cell, Update streams nothing until the observer moves
  (`Scenarios.ReEnableKeepsMapAndCentre`).
- **A second teardown is not a no-op.** Teardown might be expected to be
  idempotent, but the code bumps the generation on each call. `UnloadAllTwice` proves that
  the generation is the only thing that changes.
- **A still-desired cell can be left empty.** A load that survives a
  reconciliation, because its cell is still desired, is released on completion
  because its generation is stale. The cell then stays empty until the next
  reconciliation (`Scenarios.StillDesiredCellLeftEmpty`).
- **A cancelled load that completes gets two release calls.** If a load
  cancelled by `Addressables.Release` still completes with a result, the
  callback also calls `ReleaseInstance` on that result
  (`Scenarios.CancelledLoadReleasedTwice`). Whether that is one release too many
  depends on Addressables internals, which are outside this model.

## Model

| member | source | states |
|---|---|---|
| SpatialHash.CellCoord | Runtime/LevelStreamerManager.cs:41 | the cell coordinate k of v satisfies k*size <= v < (k+1)*size, so negative positions floor rather than truncate |
| SpatialHash.FromVector3 | Runtime/LevelStreamerManager.cs:66 | the derived cell's x and z bound the position's x and z within one cell width |
| SpatialHash.CellCoordUnique | Runtime/LevelStreamerManager.cs:66 | those bounds determine the cell coordinate uniquely |
| SpatialHash.NegativePositionFloors | Runtime/LevelStreamerManager.cs:66 | x = -0.1 with cell size 10 lies in column -1 |
| SpatialHash.SpawnPositionInCell | Runtime/LevelStreamerManager.cs:109-113 | the spawn point of a cell (its centre) lies in that same cell |
| SpatialHash.Neighborhood | Runtime/LevelStreamerManager.cs:83-85 | the desired block is exactly the cells within Chebyshev distance 1 of the centre |
| SpatialHash.NeighborhoodHasNineCells | Runtime/LevelStreamerManager.cs:83-85 | the desired block has exactly nine cells |
| SpatialHash.NeighborhoodSymmetric | Runtime/LevelStreamerManager.cs:83-85 | c is in the block of d exactly when d is in the block of c |
| CellMap.BuildCellsKeys | Runtime/LevelStreamerManager.cs:38-46 | a cell has an entry iff some asset's position falls in it |
| CellMap.BuildCellsFirstWins | Runtime/LevelStreamerManager.cs:42-45 | the entry stored for a cell is the GUID of the earliest asset falling in it |
| StreamingProperties.BumpIsFresh | Runtime/LevelStreamerManager.cs:79-85 | after the bump every known operation, instance and release predates the new generation, and the bookkeeping holds |
| StreamingProperties.RetireKeepsSound | Runtime/LevelStreamerManager.cs:87-97 | after retirement every loaded and loading cell is desired, loaded and loading stay disjoint, and nothing is released twice |
| StreamingProperties.RetireDropsOrKeeps | Runtime/LevelStreamerManager.cs:89-97 | an undesired instance or load is dropped and released; a desired one is kept unchanged |
| StreamingProperties.RetireInPhases | Runtime/LevelStreamerManager.cs:89-97 | unloading the undesired loaded cells, then cancelling the undesired loads still in flight, is the retirement phase |
| StreamingProperties.UnloadCellsSound | Runtime/LevelStreamerManager.cs:92 | unloading any batch of cells keeps the bookkeeping |
| StreamingProperties.UnloadCellsStep | Runtime/LevelStreamerManager.cs:92 | UnloadCell on one more cell extends the batch by exactly that cell, whatever the order |
| StreamingProperties.CancelLoadsStep | Runtime/LevelStreamerManager.cs:97 | CancelLoad on one more cell extends the batch by exactly that cell and keeps the bookkeeping |
| StreamingProperties.HandleReleasesStep | Runtime/LevelStreamerManager.cs:176-177 | releasing one more cell's load adds exactly its handle, which was not released in the batch before |
| StreamingProperties.InstanceReleasesStep | Runtime/LevelStreamerManager.cs:181-182 | releasing one more cell's instance adds exactly that instance, which was not released in the batch before |
| StreamingProperties.StartLoadsKeepsInv | Runtime/LevelStreamerManager.cs:100-117 | the start phase keeps loaded and loading disjoint and every new load pending and unreleased |
| StreamingProperties.StartLoadsKeepsEntries | Runtime/LevelStreamerManager.cs:100-117 | the start phase releases nothing, changes no instance and keeps every in-flight load |
| StreamingProperties.ToStartAmongStep | Runtime/LevelStreamerManager.cs:100-106 | visiting one more desired cell adds it to the started set exactly when it is unloaded, not loading and mapped |
| StreamingProperties.StartedGrows | Runtime/LevelStreamerManager.cs:115-117 | starting one more load extends the in-flight map and the pending set by exactly that handle |
| StreamingProperties.Stream3x3KeepsInv | Runtime/LevelStreamerManager.cs:77-146 | Stream3x3 keeps the invariant, sets the desired set to the nine cells around the centre and strictly increases the generation |
| StreamingProperties.Stream3x3Retires | Runtime/LevelStreamerManager.cs:87-97 | an undesired instance or load is dropped and released for the first time; desired ones are kept, and a pending load is never restarted |
| StreamingProperties.Stream3x3StartsExactlyNeeded | Runtime/LevelStreamerManager.cs:100-117 | a new load for c starts iff c is desired, neither loaded nor loading, and mapped; the new load carries the new generation and is a fresh operation |
| StreamingProperties.CompleteKeepsInv | Runtime/LevelStreamerManager.cs:119-144 | a completion keeps the invariant, the desired set and the generation |
| StreamingProperties.StaleHandleCompletion | Runtime/LevelStreamerManager.cs:122-128 | a completion whose handle is no longer the cell's load changes no collection, and releases its instance, for the first time, iff it succeeded with a result |
| StreamingProperties.MatchingCompletion | Runtime/LevelStreamerManager.cs:130-143 | a matching completion always ends the load; it becomes resident iff it succeeded with a result, at the current generation and for a desired cell; otherwise a produced instance is released once |
| StreamingProperties.StaleCompletionNeverResident | Runtime/LevelStreamerManager.cs:135-140 | a stale-generation or undesired completion leaves the loaded map unchanged and releases what it produced |
| StreamingProperties.UnloadCellReleasesOnce | Runtime/LevelStreamerManager.cs:148-162 | UnloadCell forgets the cell and releases its load and its instance, each for the first time, and nothing else |
| StreamingProperties.CancelLoadReleasesOnce | Runtime/LevelStreamerManager.cs:164-171 | CancelLoad forgets the cell's load, keeps the instances and releases only that load, for the first time |
| StreamingProperties.UnloadAllReleasesEverythingOnce | Runtime/LevelStreamerManager.cs:173-187 | teardown empties all three collections, strictly increases the generation, keeps the invariant and releases every prior load and instance for the first time |
| StreamingProperties.UnloadAllTwice | Runtime/LevelStreamerManager.cs:173-187 | a second teardown changes only the generation |
| StreamingProperties.OnEnableKeepsInv | Runtime/LevelStreamerManager.cs:30-54 | OnEnable keeps the invariant; with settings present it builds the first-wins map, clears the collections and the memo and strictly increases the generation; without them it changes nothing |
| StreamingProperties.UpdateSkips | Runtime/LevelStreamerManager.cs:63-68 | Update changes nothing without a probe, with a non-positive cell size or an empty map, or when the probe is still in the remembered centre cell |
| StreamingProperties.UpdateKeepsInv | Runtime/LevelStreamerManager.cs:61-73 | Update keeps the invariant and the configuration; when it is not idle and the probe's cell differs from the remembered centre, or no centre is remembered, it remembers the probe's cell, centres the desired block on it and increases the generation; it changes nothing iff it is idle or the probe is in the remembered cell |
| StreamingProperties.UpdateSameCellIsNoOp | Runtime/LevelStreamerManager.cs:66-68 | two samples in the same cell reconcile at most once |
| StreamingProperties.StepGenerationMonotone | Runtime/LevelStreamerManager.cs:53 | no lifecycle event, tick or completion lowers the generation |
| StreamingProperties.StaleLoadNeverResident | Runtime/LevelStreamerManager.cs:136 | an operation older than the current generation never becomes resident, whatever events follow |
| StreamingProperties.RunKeepsInv | Runtime/LevelStreamerManager.cs:30-187 | every sequence of enables, disables, ticks and completions of pending operations keeps the invariant |
| Runtime.LevelStreamerManager.constructor | Runtime/LevelStreamerManager.cs:10-28 | a fresh component holds its settings and empty state, and satisfies the invariant |
| Runtime.LevelStreamerManager.AddressablesRelease | Runtime/LevelStreamerManager.cs:153 | a handle release is recorded, and may only be made for a handle not released before |
| Runtime.LevelStreamerManager.AddressablesReleaseInstance | Runtime/LevelStreamerManager.cs:159 | an instance release is recorded, and may only be made for an instance not released before |
| Runtime.LevelStreamerManager.OnEnable | Runtime/LevelStreamerManager.cs:30-54 | the component moves exactly as Streaming.OnEnable, keeping the invariant |
| Runtime.LevelStreamerManager.RebuildCells | Runtime/LevelStreamerManager.cs:38-46 | the loop builds exactly the first-wins content map |
| Runtime.LevelStreamerManager.ResetState | Runtime/LevelStreamerManager.cs:49-53 | the collections and the memo are cleared and the generation is bumped |
| Runtime.LevelStreamerManager.OnDisable | Runtime/LevelStreamerManager.cs:56-59 | the component moves exactly as Streaming.OnDisable, keeping the invariant |
| Runtime.LevelStreamerManager.Update | Runtime/LevelStreamerManager.cs:61-73 | the component moves exactly as Streaming.Update, keeping the invariant |
| Runtime.LevelStreamerManager.Stream3x3 | Runtime/LevelStreamerManager.cs:77-146 | the state moves exactly as Streaming.Stream3x3, keeping the invariant |
| Runtime.LevelStreamerManager.BuildDesired | Runtime/LevelStreamerManager.cs:80-85 | the nested loops leave the desired set equal to the 3×3 block |
| Runtime.LevelStreamerManager.CollectUndesired | Runtime/LevelStreamerManager.cs:89-91 | the temporary list holds exactly the given cells that are not desired |
| Runtime.LevelStreamerManager.RetireUndesired | Runtime/LevelStreamerManager.cs:87-97 | the state moves exactly as Streaming.Retire: unload the undesired loaded cells, then cancel the undesired loads |
| Runtime.LevelStreamerManager.UnloadUndesired | Runtime/LevelStreamerManager.cs:89-92 | the state moves exactly as unloading every undesired loaded cell |
| Runtime.LevelStreamerManager.CancelUndesired | Runtime/LevelStreamerManager.cs:94-97 | the state moves exactly as cancelling every undesired in-flight load |
| Runtime.LevelStreamerManager.StartMissing | Runtime/LevelStreamerManager.cs:100-117 | the state moves exactly as Streaming.StartLoads: one load per cell of ToStart, at the current generation |
| Runtime.LevelStreamerManager.Complete | Runtime/LevelStreamerManager.cs:119-144 | the state moves exactly as Streaming.Complete, keeping the invariant |
| Runtime.LevelStreamerManager.UnloadCell | Runtime/LevelStreamerManager.cs:148-162 | the state moves exactly as Streaming.UnloadCell, keeping the bookkeeping |
| Runtime.LevelStreamerManager.CancelLoad | Runtime/LevelStreamerManager.cs:164-171 | the state moves exactly as Streaming.CancelLoad, keeping the bookkeeping |
| Runtime.LevelStreamerManager.ReleaseAllLoads | Runtime/LevelStreamerManager.cs:176-177 | every in-flight handle is released, each for the first time |
| Runtime.LevelStreamerManager.ReleaseAllInstances | Runtime/LevelStreamerManager.cs:181-182 | every loaded instance is released, each for the first time |
| Runtime.LevelStreamerManager.UnloadAll | Runtime/LevelStreamerManager.cs:173-187 | the state moves exactly as Streaming.UnloadAll and satisfies the invariant |
| Scenarios.DemoContentMap | Runtime/LevelStreamerManager.cs:38-46 | with two assets in cell (0,0), the map keeps the first one's GUID |
| Scenarios.DemoFirstReconciliation | Runtime/LevelStreamerManager.cs:77-117 | around (0,0), with only (0,0) and (1,0) mapped, exactly those two loads start |
| Scenarios.FirstTickLoadsMappedNeighbours | Runtime/LevelStreamerManager.cs:30-117 | enable, then one Update at (5,0,5): the map is built first-wins and exactly two loads are in flight, at generation 2 |
| Scenarios.StillDesiredCellLeftEmpty | Runtime/LevelStreamerManager.cs:95-97 | a load kept because its cell stays desired is released on completion, leaving a desired cell empty |
| Scenarios.ReEnableKeepsMapAndCentre | Runtime/LevelStreamerManager.cs:32-47 | after disable and enable the map, probe and centre memo survive, and an Update in the remembered cell does nothing |
| Scenarios.CancelledLoadReleasedTwice | Runtime/LevelStreamerManager.cs:122-128 | a cancelled load that completes with a result has both its handle and its instance released |

## Left out

- World positions are exact reals. Unity's single-precision `Vector3` arithmetic,
  rounding in the spawn position and in the cell derivation are not modelled.
- `SpatialCell.FromVector3` is not part of this model's sources. It is modelled
  as floor division of x and z by the cell size, so negative coordinates
  partition correctly.
- With a non-positive cell size, the model's OnEnable builds an empty map.
  Update never consults the map in that case, because it idles on
  `cellSize <= 0`. What the code would put there depends on `FromVector3`.
- Unity's null semantics are not modelled: "fake null" destroyed objects, and
  `aref == null` as distinct from an empty GUID. An asset reference is its GUID
  string, and "" stands for one with no asset assigned.
- The public fields `cells` and `streamerSettings` can be changed from outside
  the component. The model assumes they are not. The re-enable behaviour above
  holds only if nobody reassigns `streamerSettings` between cycles.
- HashSet and Dictionary iteration order is not modelled: loops pick an
  arbitrary element. Operations are identified by generation and cell, so the
  resulting state does not depend on that order.
- The Addressables system is reduced to handle identity and a ghost log of
  release calls. Reference counting, the spawn position given to
  `InstantiateAsync`, and what a release does to an operation still in flight
  are left out.
- OnEnable's reset clears the loaded and in-flight maps without releasing them.
  The model does the same and does not require them to be empty. The invariant
  bounds what those maps held only through the OnDisable that precedes a
  re-enable in Unity's lifecycle.
- Asynchrony and Unity's scheduling are modelled as explicit completion calls
  interleaved with Update and the lifecycle events. A completion is allowed only
  for an operation that was started and has not fired yet.
- The `Editor/` tools (the streaming tab) are editor UI and asset-database calls,
  and are not part of this model.
- The generation counter `_streamGen` and the cell coordinates are 32-bit C#
  `int`s in the source (incremented at Runtime/LevelStreamerManager.cs:53, 79 and
  186; `center.x + dx` at line 85; `cell.x * cellSize` at line 110). The model
  uses unbounded integers, so wrap-around after 2^32 generation bumps is not
  captured. The members below state their generation facts for the unbounded
  counter.
- StepGenerationMonotone: does not model 32-bit wrap-around of `_streamGen`; at
  `int.MaxValue` the source's next bump wraps to `int.MinValue`.
- StaleLoadNeverResident: does not model wrap-around. In the source, a load left
  pending across 2^32 bumps would pass the generation check at line 136 again.
- Stream3x3KeepsInv: its `gen > s.gen` holds for the unbounded counter only.
- UnloadAllReleasesEverythingOnce: its `gen > s.gen` holds for the unbounded
  counter only.
- OnEnableKeepsInv: its `gen > m.state.gen` holds for the unbounded counter only.
- UpdateKeepsInv: its `gen > m.state.gen` holds for the unbounded counter only.
