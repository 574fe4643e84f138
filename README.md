# volumina 3-D overview: label volume, label allocator and scene reconciliation

This project models the core of volumina's 3-D overview renderer
(`volumina/view3d/volumeRendering.py`) in Dafny and proves properties of the model.

- **`LabelManager`** hands out object labels from the pool [1, n).
  - `request` returns the smallest free label, or fails when none is left.
  - `free()` with no argument resets the pool.
  - `free(l)` returns a used label to the pool and ignores any other label.
- **`RenderingManager`** owns a uint8 label volume.
  - The volume is stored transposed, in reversed axis order.
  - A change to the volume marks the manager dirty and runs `update`.
  - `update` reconciles the overview scene with the labels present in the volume:
    - it removes the objects that no voxel carries any more;
    - it re-adds the labels the scene still holds geometry for;
    - it sends the remaining labels to the mesh generator as one batch, and the scene is marked busy meanwhile.
  - `update` never plans label 0 (background) for display.
  - Label 1, the object being edited ("current label"), is always regenerated and never served from the cache.

## Modules

| file | module | what it holds |
|---|---|---|
| `common.dfy` | `Common`, `Constants` | `Option`, `Result` with the error `OutOfLabels`, integer ranges, and `NOBJECTS = 256`, `BG_LABEL = 0`, `CURRENT_LABEL = 1` |
| `labels.dfy` | `LabelAllocation` | `Pool`, the abstract allocator state, with `Allocate`/`Release` as its meaning; the class `LabelManager`, proved to follow them |
| `layout.dfy` | `VolumeLayout` | shapes, row-major offsets, `numpy.transpose` of a 3-D volume (`Transposed`), and the set of voxel values (`numpy.unique`) |
| `scene.dfy` | `SceneModel` | the overview scene, reduced to what the manager observes and commands: the visible objects, the labels with cached geometry, the busy flag, and a ghost log of commands |
| `reconcile.dfy` | `Reconciliation` | the decision one `update` pass makes, as pure set arithmetic (`Plan`, `Reconcile`), and its properties |
| `rendering.dfy` | `VolumeRendering` | the class `RenderingManager` and the scene-side loops of `update` |

### How the code is modelled

- **Buffer.** The volume is a flat `array<int>` in row-major order, with every element in [0, 256).
  - The setter stores each element as `x % 256`, numpy's wrap-around cast to uint8.
  - The setter's "has anything changed" test compares the unwrapped value with the stored buffer, as numpy does.
- **The scene's visible set is a live set.** `update` holds the scene's own visible set.
  - `old_labels.remove(CURRENT_LABEL)` therefore removes the current label from the scene's visible objects.
  - The model writes that through to `scene.visible`.
- **Mesh generation.** Starting a mesh generator is modelled as recording a `MeshJob`: the batch of labels plus a reference to the buffer it reads.
  - Every submitted batch is also appended to the ghost history `batches`.
  - The generator's callbacks arrive through `OnMeshGenerated`.

### A label that is still visible is not added again

With voxels {0, 2, 3}, the scene showing {2, 4} and only label 2 cached, `update` does three things:

- it removes object 4;
- it issues no `add_object(2)`, because line 157 computes `new_labels - old_labels` and 2 is still visible;
- it submits the batch {3}.

`Reconciliation.MixedPass` proves this plan.

## Model

| member | source | states |
|---|---|---|
| `LabelAllocation.Initial` | volumina/view3d/volumeRendering.py:78-81 | a fresh pool has every label in [1, n) available and none used, and satisfies the partition invariant |
| `LabelAllocation.MinOf` | volumina/view3d/volumeRendering.py:86 | `min` of a non-empty set is a member and no larger than any member |
| `LabelAllocation.Smallest` | volumina/view3d/volumeRendering.py:86 | the scan returns a member of the set that is no larger than any member |
| `LabelAllocation.Allocate` | volumina/view3d/volumeRendering.py:83-89 | fails with `OutOfLabels` iff no label is available; otherwise returns the least available label and moves exactly it from available to used |
| `LabelAllocation.AllocatePreservesPartition` | volumina/view3d/volumeRendering.py:83-89 | a successful request keeps available and used disjoint with union [1, n) |
| `LabelAllocation.Release` | volumina/view3d/volumeRendering.py:91-97 | `free` keeps n and never adds a used label; with no label nothing is used any more; with a used label, exactly that label moves from used to available; with any label, no free label is lost and the union of free and used labels is unchanged |
| `LabelAllocation.ReleasePreservesPartition` | volumina/view3d/volumeRendering.py:91-97 | `free`, with or without a label, keeps the partition invariant |
| `LabelAllocation.ReleaseAllResets` | volumina/view3d/volumeRendering.py:91-94 | `free()` restores the initial state whatever came before |
| `LabelAllocation.ReleaseUnusedIsNoop` | volumina/view3d/volumeRendering.py:95-97 | freeing a label that is not in use changes nothing and raises nothing |
| `LabelAllocation.ReleaseUndoesAllocate` | volumina/view3d/volumeRendering.py:83-97 | freeing the label just requested restores the exact previous state |
| `LabelAllocation.AllocateReusesFreed` | volumina/view3d/volumeRendering.py:86-97 | a freed label smaller than every free label is the next one handed out |
| `LabelAllocation.AllocateFromSplit` | volumina/view3d/volumeRendering.py:83-89 | from the state with [1, lo) used, a request returns lo and leaves [1, lo + 1) used |
| `LabelAllocation.AllocateManyFromSplit` | volumina/view3d/volumeRendering.py:83-89 | k requests from that state hand out lo .. lo + k - 1 in order |
| `LabelAllocation.FirstAllocationIsOne` | volumina/view3d/volumeRendering.py:78-89 | the first request on a fresh allocator returns 1 |
| `LabelAllocation.CapacityIsNMinusOne` | volumina/view3d/volumeRendering.py:78-89 | a fresh allocator serves exactly n - 1 requests and the next one fails (255 with `NOBJECTS` = 256) |
| `LabelAllocation.LabelManager.constructor` | volumina/view3d/volumeRendering.py:78-81 | the new allocator is in the initial state for n |
| `LabelAllocation.LabelManager.Request` | volumina/view3d/volumeRendering.py:83-89 | the result and new state are those of `Allocate`; on failure the state is unchanged; the partition invariant is kept |
| `LabelAllocation.LabelManager.Free` | volumina/view3d/volumeRendering.py:91-97 | the new state is `Release` of the old one (reset, return a used label, or no change); the invariant is kept |
| `VolumeLayout.Reversed` | volumina/view3d/volumeRendering.py:122 | `shape[::-1]` keeps the voxel count |
| `VolumeLayout.Offset` | volumina/view3d/volumeRendering.py:122-123 | the row-major position of an in-box voxel lies inside the buffer |
| `VolumeLayout.Coords` | volumina/view3d/volumeRendering.py:122-123 | every buffer position has in-box coordinates whose offset is that position |
| `VolumeLayout.CoordsOfOffset` | volumina/view3d/volumeRendering.py:122-123 | `Offset` is injective: the coordinates of an offset are the voxel it came from |
| `VolumeLayout.Transposed` | volumina/view3d/volumeRendering.py:186-195 | the transposed volume has as many voxels as the input |
| `VolumeLayout.TransposedAt` | volumina/view3d/volumeRendering.py:188-189 | transposition moves voxel (i, j, k) to (k, j, i) |
| `VolumeLayout.TransposedAll` | volumina/view3d/volumeRendering.py:188-189 | the same for every voxel at once |
| `VolumeLayout.TransposeTwice` | volumina/view3d/volumeRendering.py:186-197 | transposing the transposed volume gives back the original voxels |
| `VolumeLayout.Values` | volumina/view3d/volumeRendering.py:142 | `set(numpy.unique(v))`: every voxel value is in the set, and every member of the set is some voxel's value |
| `VolumeLayout.TransposedValues` | volumina/view3d/volumeRendering.py:142 | transposition keeps the set of voxel values, so `numpy.unique` of the stored buffer is that of the value set |
| `SceneModel.Scene.HasObject` | volumina/view3d/volumeRendering.py:158 | `has_object`: the scene holds geometry for the label (a predicate on the scene's cache, with no contract of its own) |
| `SceneModel.Scene.RemoveObject` | volumina/view3d/volumeRendering.py:149-150 | the label is no longer visible, cache and busy flag are unchanged, one `Removed` command is logged |
| `SceneModel.Scene.AddObject` | volumina/view3d/volumeRendering.py:166-167 | the label becomes visible; the cache gains the label when a mesh is given and is otherwise unchanged; one `Added` command is logged |
| `SceneModel.Scene.SetBusy` | volumina/view3d/volumeRendering.py:169-170 | the busy flag takes the value; one `BusySet` command is logged |
| `Reconciliation.NewLabels` | volumina/view3d/volumeRendering.py:142-147 | the labels to show are the voxel values other than background, and never include background |
| `Reconciliation.Reconcile` | volumina/view3d/volumeRendering.py:142-164 | the decision of one pass. Only visible objects are stale. The labels taken from the cache are cached, exclude the current label and are disjoint from the batch. Background is in neither. `ReconcilePartition` states the full characterisation |
| `Reconciliation.Shown` | volumina/view3d/volumeRendering.py:149-167 | the objects the scene shows when the pass returns: the visible ones minus the stale ones and the current label, plus those added from cache (a definition with no contract of its own; `PassConverges` states its property) |
| `Reconciliation.ReconcilePartition` | volumina/view3d/volumeRendering.py:142-164 | stale objects are exactly the visible labels absent from the volume; known and generate are disjoint; together they are exactly the new labels not already shown, with the current label counting as not shown; known is cached and excludes the current label; generate is uncached or the current label; background is in neither; a current label in the volume is always generated |
| `Reconciliation.PassConverges` | volumina/view3d/volumeRendering.py:142-171 | what the scene shows after the pass and the generated batch are disjoint, and together are exactly the new labels |
| `Reconciliation.SettledPassOnlyRegeneratesCurrent` | volumina/view3d/volumeRendering.py:149-164 | against a scene already showing the new labels, a pass removes and re-adds nothing, and regenerates only the current label if it is present |
| `Reconciliation.EmptyVolumeEmptyScene` | volumina/view3d/volumeRendering.py:142-171 | an all-background volume against an empty scene plans no removal, no addition and no batch |
| `Reconciliation.MixedPass` | volumina/view3d/volumeRendering.py:142-164 | voxels {0, 2, 3}, scene {2, 4}, cache {2}: remove 4, add nothing from cache, generate {3} |
| `Reconciliation.CachedPass` | volumina/view3d/volumeRendering.py:142-167 | voxels {0, 2, 5}, scene {2, 4}, cache {2, 5}: remove 4, add 5 from cache, no batch |
| `VolumeRendering.ToUint8` | volumina/view3d/volumeRendering.py:197 | the stored element is in [0, 256), equals the input when the input fits, and differs from it by a multiple of 256 |
| `VolumeRendering.Wrapped` | volumina/view3d/volumeRendering.py:197 | the stored sequence has the same length and is all uint8, and equals the input when the input is all uint8 |
| `VolumeRendering.StoredRoundTrip` | volumina/view3d/volumeRendering.py:186-197 | a uint8 value is stored without change, and un-transposing the stored buffer gives back its voxels |
| `VolumeRendering.RemoveEach` | volumina/view3d/volumeRendering.py:149-150 | the visible set loses exactly the given labels; the log gains one removal per label and nothing else |
| `VolumeRendering.AddEachCached` | volumina/view3d/volumeRendering.py:166-167 | the visible set gains exactly the given labels; the cache is unchanged; the log gains one cached addition per label and nothing else |
| `VolumeRendering.ApplyDiff` | volumina/view3d/volumeRendering.py:142-167 | the scene side of a pass carries out `Reconcile`. The scene shows `Shown(visible, plan)`. The log is the plan's removals followed by its cached additions. The labels returned are the plan's batch |
| `VolumeRendering.RenderingManager.constructor` | volumina/view3d/volumeRendering.py:108-114 | not ready, not dirty, empty colour map, no job, allocator in its initial state for 256 labels |
| `VolumeRendering.RenderingManager.Setup` | volumina/view3d/volumeRendering.py:121-130 | a fresh all-background buffer of the reversed data shape; ready; nothing else changes |
| `VolumeRendering.RenderingManager.Update` | volumina/view3d/volumeRendering.py:132-171 | when clean, nothing changes. When dirty, the flag is cleared and the scene follows `Reconcile` of the buffer's values. The scene is sent `set_busy(True)` and one batch is submitted iff the batch is non-empty; that batch becomes the current job |
| `VolumeRendering.RenderingManager.OnMeshGenerated` | volumina/view3d/volumeRendering.py:173-181 | (0, no mesh) clears the busy flag and changes nothing else; any other pair adds that object, caching the mesh if one is given |
| `VolumeRendering.RenderingManager.SetColor` | volumina/view3d/volumeRendering.py:183-184 | the colour map maps the label to the colour and is otherwise unchanged |
| `VolumeRendering.RenderingManager.CurrentVolume` | volumina/view3d/volumeRendering.py:186-189 | the getter has the caller's shape, and its voxel (i, j, k) is buffer voxel (k, j, i) |
| `VolumeRendering.RenderingManager.Store` | volumina/view3d/volumeRendering.py:197 | the buffer holds the incoming voxels, each stored as uint8 |
| `VolumeRendering.RenderingManager.SetVolume` | volumina/view3d/volumeRendering.py:191-199 | the buffer ends up holding the transposed value as uint8. If the transposed value, before the uint8 cast, equals the old buffer, nothing changes. Otherwise exactly one reconciliation pass over the new voxel values runs, as in `Update` |
| `VolumeRendering.RenderingManager.ReadBack` | volumina/view3d/volumeRendering.py:186-199 | get after set: once a uint8 value has been stored, the getter returns that value |
| `VolumeRendering.RenderingManager.SetToCurrentIsNoop` | volumina/view3d/volumeRendering.py:186-199 | setting the volume to the getter's own result compares equal to the buffer, so the setter does nothing |
| `VolumeRendering.RenderingManager.SecondSetIsNoop` | volumina/view3d/volumeRendering.py:191-199 | after a set, setting the same value again finds no difference iff every voxel fits in uint8 |
| `VolumeRendering.RenderingManager.AddObject` | volumina/view3d/volumeRendering.py:201-206 | the allocator follows `Allocate`; on success the new label gets the colour; on `OutOfLabels` the allocator and colours are unchanged |
| `VolumeRendering.RenderingManager.RemoveObject` | volumina/view3d/volumeRendering.py:208-209 | the allocator follows `Release` of the argument: no label resets it, a used label goes back to the pool, any other label changes nothing; colours are kept |
| `VolumeRendering.RenderingManager.Clear` | volumina/view3d/volumeRendering.py:211-213 | every voxel becomes background, the allocator is back in its initial state, and the next label handed out is 1 |

## Left out

- `makeVolumeRenderingPipeline` (VTK importer, colour and opacity transfer functions): VTK is foreign code, and `setup` no longer calls the pipeline.
- The main-thread assertions in `update` and `_on_mesh_generated`: the model is single-threaded.
- The mesh generator itself: the thread, the surface extraction and the order of its callbacks.
  - A batch is recorded as a `MeshJob`.
  - Each delivered mesh is an `OnMeshGenerated` call made by the caller.
  - A batch that starts while another is outstanding replaces the job reference, as in the code; nothing is cancelled.
- The random default colour of `addObject`: randomness is left out, so `AddObject` takes the colour as a parameter.
- The Qt signal connection and `_handle_scene_init`: a caller runs `Setup` followed by `Update`.
- The overview scene's own rendering: the scene is reduced to visible objects, cached labels, the busy flag and a command log.
- `VolumeRendering.RenderingManager.SetVolume`: numpy broadcasting and value dtypes are not modelled.
  - The value must have exactly the reversed buffer shape.
  - Voxels are integers; floating-point values are not modelled.
- `VolumeRendering.RenderingManager.constructor`: before `setup` the code has no volume at all, and the model has an empty buffer of shape (0, 0, 0) instead. Calling the getter, the setter or `clear` before `setup` raises in the code. In the model they are defined, and the getter returns an empty volume.
- `VolumeRendering.RenderingManager.CurrentVolume`: `numpy.transpose` returns a view that aliases the buffer, while the model returns a value copy.
- `VolumeRendering.RemoveEach` and `VolumeRendering.AddEachCached`: the iteration order of a Python set is not modelled. Each label is handled once, in some order.
- The out-of-labels case: `request` raises `RuntimeError`, while the model returns `Err(OutOfLabels)`. `addObject` passes that error on.
