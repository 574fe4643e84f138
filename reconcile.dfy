/**
  The decision made by one reconciliation pass of `RenderingManager.update`, as set
  arithmetic: which visible objects are stale, which new labels the scene can show
  from cached geometry, and which must be sent to the mesh generator.
 */
module Reconciliation {
  import opened Constants

  /** `stale`: objects to remove; `known`: labels to add from cache; `generate`: the mesh batch. */
  datatype Plan = Plan(stale: set<int>, known: set<int>, generate: set<int>)

  /** The labels that must be shown: every voxel value except the background. */
  function NewLabels(present: set<int>): (r: set<int>)
    ensures BG_LABEL !in r && forall l :: l != BG_LABEL ==> (l in r <==> l in present)
  {
    present - {BG_LABEL}
  }

  /**
    The pass for voxel values `present`, visible objects `visible` and cached labels
    `cached`. The stale objects are removed first, so what is left of `visible` is its
    intersection with the new labels; the current label is then dropped from it, so it
    is never taken as already shown, and it is never served from the cache.
   */
  function Reconcile(present: set<int>, visible: set<int>, cached: set<int>): (r: Plan)
    ensures r.stale <= visible && r.known <= cached && r.known !! r.generate
    ensures CURRENT_LABEL !in r.known && BG_LABEL !in r.known + r.generate
  {
    var newLabels := NewLabels(present);
    var stale := visible - newLabels;
    var remaining := (visible - stale) - {CURRENT_LABEL};
    var toAdd := newLabels - remaining;
    var known := toAdd * cached;
    var generate := toAdd - known;
    if CURRENT_LABEL in known then
      Plan(stale, known - {CURRENT_LABEL}, generate + {CURRENT_LABEL})
    else
      Plan(stale, known, generate)
  }

  /**
    What a pass decides: remove exactly the visible objects that no voxel carries;
    split the labels to add, which are the new labels not already shown (the current
    label counting as not shown), into a cached part and a generated part; never
    serve the current label or the background from the cache.
   */
  lemma ReconcilePartition(present: set<int>, visible: set<int>, cached: set<int>)
    ensures var p := Reconcile(present, visible, cached);
      (forall l :: l in p.stale <==> l in visible && l !in NewLabels(present)) &&
      p.known !! p.generate &&
      p.known + p.generate == NewLabels(present) - (visible - {CURRENT_LABEL}) &&
      BG_LABEL !in p.known + p.generate &&
      (forall l :: l in p.known ==> l in cached && l != CURRENT_LABEL) &&
      (forall l :: l in p.generate ==> l !in cached || l == CURRENT_LABEL) &&
      (CURRENT_LABEL in NewLabels(present) ==> CURRENT_LABEL in p.generate && CURRENT_LABEL !in p.known)
  {
  }

  /** The objects the scene shows when the pass returns, before any mesh arrives. */
  function Shown(visible: set<int>, p: Plan): set<int>
  {
    (visible - p.stale - {CURRENT_LABEL}) + p.known
  }

  /**
    The pass converges: what the scene shows on return and the batch sent for
    generation are disjoint and together are exactly the new labels, so once the
    generator has delivered a mesh for each label of the batch the scene shows the
    labels of the volume, and nothing else.
   */
  lemma PassConverges(present: set<int>, visible: set<int>, cached: set<int>)
    ensures var p := Reconcile(present, visible, cached);
      Shown(visible, p) !! p.generate &&
      Shown(visible, p) + p.generate == NewLabels(present)
  {
  }

  /**
    Once the scene shows exactly the new labels, a further pass removes nothing and
    adds nothing from cache; the only work left is regenerating the current label.
   */
  lemma SettledPassOnlyRegeneratesCurrent(present: set<int>, cached: set<int>)
    ensures var p := Reconcile(present, NewLabels(present), cached);
      p.stale == {} && p.known == {} &&
      p.generate == NewLabels(present) * {CURRENT_LABEL}
  {
  }

  /** An all-background volume against an empty scene: no removal, no addition, no batch. */
  lemma EmptyVolumeEmptyScene(cached: set<int>)
    ensures Reconcile({BG_LABEL}, {}, cached) == Plan({}, {}, {})
  {
  }

  /**
    Voxels {0, 2, 3}, scene showing {2, 4}, only 2 cached: 4 is removed and 3 is
    generated; 2 is already shown, so it is not added again.
   */
  lemma MixedPass()
    ensures Reconcile({0, 2, 3}, {2, 4}, {2}) == Plan({4}, {}, {3})
  {
  }

  /** A label in the volume that the scene has cached but does not show is added from the cache. */
  lemma CachedPass()
    ensures Reconcile({0, 2, 5}, {2, 4}, {2, 5}) == Plan({4}, {5}, {})
  {
  }
}
