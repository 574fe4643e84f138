/**
  `RenderingManager`: owns the label volume, keeps the overview scene in step with it,
  and hands out object labels and colours.

  The volume is kept in a flat buffer in reversed axis order (the layout of
  `numpy.transpose` of the volume the caller sees). A change to the buffer marks the
  manager dirty; `Update` then runs one reconciliation pass, which follows the plan
  computed by `Reconciliation.Reconcile`.
 */
module VolumeRendering {
  import opened Common
  import opened Constants
  import opened LabelAllocation
  import opened VolumeLayout
  import opened SceneModel
  import opened Reconciliation

  /** An RGB colour; only stored, never computed on. */
  datatype Color = Rgb(r: real, g: real, b: real)

  /** A batch handed to the mesh generator: the labels to extract and the buffer it reads them from. */
  datatype MeshJob = MeshJob(labels: set<int>, volume: array<int>)

  /** The buffer's element type is uint8. */
  predicate IsUint8(x: int)
  {
    0 <= x < 256
  }

  predicate AllUint8(s: seq<int>)
  {
    forall o :: 0 <= o < |s| ==> IsUint8(s[o])
  }

  /** Storing x into a uint8 element keeps its low eight bits. */
  function ToUint8(x: int): (r: int)
    ensures IsUint8(r) && (IsUint8(x) ==> r == x)
    ensures exists q :: x == q * 256 + r
  {
    assert x == (x / 256) * 256 + x % 256;
    x % 256
  }

  /** A sequence stored element by element into uint8 elements. */
  function Wrapped(s: seq<int>): (r: seq<int>)
    ensures |r| == |s| && AllUint8(r)
    ensures AllUint8(s) ==> r == s
  {
    seq(|s|, o requires 0 <= o < |s| => ToUint8(s[o]))
  }

  /** A uint8 volume stored in reversed axis order is stored unchanged and reads back as itself. */
  lemma {:induction false} StoredRoundTrip(value: Volume, shape: Shape)
    requires WellFormed(value) && value.shape == Reversed(shape) && AllUint8(value.voxels)
    ensures var incoming := Transposed(value.shape, value.voxels);
      Wrapped(incoming) == incoming && Transposed(shape, incoming) == value.voxels
  {
    var incoming := Transposed(value.shape, value.voxels);
    TransposedValues(value.shape, value.voxels);
    forall o | 0 <= o < |incoming|
      ensures IsUint8(incoming[o])
    {
      assert incoming[o] in Values(incoming);
    }
    TransposeTwice(value.shape, value.voxels);
  }

  /** `set_busy(True)` is sent exactly when a pass has a batch to submit. */
  function BusyCommands(p: Plan): seq<Command>
  {
    if p.generate == {} then [] else [BusySet(true)]
  }

  /** `remove_object` for every label of a set, in some order. */
  method RemoveEach(scene: Scene, labels: set<int>) returns (ghost issued: seq<Command>)
    modifies scene
    ensures scene.visible == old(scene.visible) - labels
    ensures scene.cached == old(scene.cached) && scene.busy == old(scene.busy)
    ensures scene.log == old(scene.log) + issued && RemovesExactly(issued, labels)
  {
    var todo := labels;
    ghost var done: set<int> := {};
    issued := [];
    while todo != {}
      invariant todo !! done && todo + done == labels
      invariant scene.visible == old(scene.visible) - done
      invariant scene.cached == old(scene.cached) && scene.busy == old(scene.busy)
      invariant scene.log == old(scene.log) + issued && RemovesExactly(issued, done)
      decreases todo
    {
      NonEmptyHasElement(todo);
      var l :| l in todo;
      scene.RemoveObject(l);
      AppendCommand(old(scene.log), issued, Removed(l));
      RemovesStep(issued, done, l);
      issued, done, todo := issued + [Removed(l)], done + {l}, todo - {l};
    }
  }

  /** `add_object` from cached geometry for every label of a set, in some order. */
  method AddEachCached(scene: Scene, labels: set<int>) returns (ghost issued: seq<Command>)
    modifies scene
    ensures scene.visible == old(scene.visible) + labels
    ensures scene.cached == old(scene.cached) && scene.busy == old(scene.busy)
    ensures scene.log == old(scene.log) + issued && AddsCachedExactly(issued, labels)
  {
    var todo := labels;
    ghost var done: set<int> := {};
    issued := [];
    while todo != {}
      invariant todo !! done && todo + done == labels
      invariant scene.visible == old(scene.visible) + done
      invariant scene.cached == old(scene.cached) && scene.busy == old(scene.busy)
      invariant scene.log == old(scene.log) + issued && AddsCachedExactly(issued, done)
      decreases todo
    {
      NonEmptyHasElement(todo);
      var l :| l in todo;
      ghost var shown := scene.visible;
      scene.AddObject(l, None);
      assert scene.visible == shown + {l} && scene.cached == old(scene.cached);
      AppendCommand(old(scene.log), issued, Added(l, None));
      AddsCachedStep(issued, done, l);
      issued, done, todo := issued + [Added(l, None)], done + {l}, todo - {l};
    }
  }

  /**
    The scene side of one pass over voxel values `present`: drop the background,
    remove the stale objects, take the current label out of the scene's visible set
    (the manager holds that very set), split the labels to add into those the scene
    has geometry for and the rest, keep the current label out of the cached ones, and
    add the cached ones. Returns the labels left to generate.
   */
  method ApplyDiff(scene: Scene, present: set<int>)
    returns (generate: set<int>, ghost p: Plan, ghost removals: seq<Command>, ghost additions: seq<Command>)
    modifies scene
    ensures p == Reconcile(present, old(scene.visible), old(scene.cached))
    ensures generate == p.generate
    ensures scene.visible == Shown(old(scene.visible), p)
    ensures scene.cached == old(scene.cached) && scene.busy == old(scene.busy)
    ensures scene.log == old(scene.log) + removals + additions
    ensures RemovesExactly(removals, p.stale) && AddsCachedExactly(additions, p.known)
  {
    p := Reconcile(present, scene.visible, scene.cached);
    var newLabels := NewLabels(present);
    var oldLabels := scene.visible;
    removals := RemoveEach(scene, oldLabels - newLabels);

    // old_labels is the scene's own set: removing the current label from it changes the scene.
    scene.visible := scene.visible - {CURRENT_LABEL};

    var labelsToAdd := newLabels - scene.visible;
    var known := set l | l in labelsToAdd && scene.HasObject(l);
    generate := labelsToAdd - known;
    if CURRENT_LABEL in known {
      known := known - {CURRENT_LABEL};
      generate := generate + {CURRENT_LABEL};
    }
    assert known == p.known && generate == p.generate;

    additions := AddEachCached(scene, known);
  }

  class RenderingManager {
    const scene: Scene
    const labelmgr: LabelManager
    var ready: bool
    var cmap: map<int, Color>
    var meshJob: Option<MeshJob>
    var dirty: bool
    /** The voxels in reversed axis order, and their shape. */
    var buffer: array<int>
    var shape: Shape
    /** Every batch submitted to the mesh generator, oldest first. */
    ghost var batches: seq<set<int>>

    ghost predicate Valid()
      reads this, labelmgr, buffer
    {
      labelmgr.Valid() && labelmgr.n == NOBJECTS &&
      buffer.Length == Cells(shape) &&
      forall o :: 0 <= o < buffer.Length ==> IsUint8(buffer[o])
    }

    /**
      The state after a pass that carried out plan `p` against the scene as it was
      (`s0`) and the batches and job as they were: the flag is clear; the scene was sent
      `removals`, which remove each stale object once, then `additions`, which add each
      cached label once, then `set_busy(True)` if there is a batch; the batch, if any,
      was submitted once and is the current job.
     */
    ghost predicate PassDone(p: Plan, s0: SceneState, batches0: seq<set<int>>, job0: Option<MeshJob>,
                             removals: seq<Command>, additions: seq<Command>)
      reads this, scene
    {
      !dirty &&
      scene.visible == Shown(s0.visible, p) &&
      scene.cached == s0.cached &&
      scene.busy == (if p.generate == {} then s0.busy else true) &&
      scene.log == s0.log + removals + additions + BusyCommands(p) &&
      RemovesExactly(removals, p.stale) && AddsCachedExactly(additions, p.known) &&
      batches == batches0 + (if p.generate == {} then [] else [p.generate]) &&
      meshJob == (if p.generate == {} then job0 else Some(MeshJob(p.generate, buffer)))
    }

    constructor (scene: Scene)
      ensures Valid() && this.scene == scene && fresh(labelmgr) && fresh(buffer)
      ensures labelmgr.State() == Initial(NOBJECTS)
      ensures !ready && !dirty && cmap == map[] && meshJob == None && batches == []
    {
      this.scene := scene;
      labelmgr := new LabelManager(NOBJECTS);
      ready := false;
      cmap := map[];
      meshJob := None;
      dirty := false;
      shape := Shape(0, 0, 0);
      buffer := new int[0];
      batches := [];
    }

    /** `setup`: a fresh all-background buffer of the reversed data shape. */
    method Setup(dataShape: Shape)
      requires Valid()
      modifies this
      ensures Valid() && ready && fresh(buffer)
      ensures shape == Reversed(dataShape) && buffer[..] == seq(Cells(shape), _ => BG_LABEL)
      ensures dirty == old(dirty) && cmap == old(cmap) && meshJob == old(meshJob) && batches == old(batches)
    {
      shape := Reversed(dataShape);
      buffer := new int[Cells(shape)](_ => BG_LABEL);
      ready := true;
    }

    /**
      `update`: nothing when clean. When dirty: clear the flag, remove the stale objects,
      drop the current label from the scene's own visible set, add the cached labels,
      and submit the rest as one mesh batch.
     */
    method Update() returns (ghost p: Plan, ghost removals: seq<Command>, ghost additions: seq<Command>)
      requires Valid()
      modifies this`dirty, this`meshJob, this`batches, scene
      ensures Valid()
      ensures !old(dirty) ==> unchanged(this, scene)
      ensures old(dirty) ==> p == Reconcile(Values(old(buffer[..])), old(scene.visible), old(scene.cached))
      ensures old(dirty) ==> PassDone(p, old(scene.Snapshot()), old(batches), old(meshJob), removals, additions)
    {
      if !dirty {
        return Plan({}, {}, {}), [], [];
      }
      // The buffer is only read from here on; this snapshot is what the pass reconciles against.
      var data := buffer[..];
      dirty := false;

      var generate;
      generate, p, removals, additions := ApplyDiff(scene, Values(data));

      if generate != {} {
        scene.SetBusy(true);
        meshJob := Some(MeshJob(generate, buffer));
        batches := batches + [generate];
      }
    }

    /** `_on_mesh_generated`: the pair (0, no mesh) ends the batch; any other pair adds that object. */
    method OnMeshGenerated(l: int, mesh: Option<Mesh>)
      modifies scene
      ensures l == 0 && mesh.None? ==>
        !scene.busy && scene.visible == old(scene.visible) && scene.cached == old(scene.cached) &&
        scene.log == old(scene.log) + [BusySet(false)]
      ensures !(l == 0 && mesh.None?) ==>
        scene.visible == old(scene.visible) + {l} && scene.busy == old(scene.busy) &&
        scene.cached == (if mesh.Some? then old(scene.cached) + {l} else old(scene.cached)) &&
        scene.log == old(scene.log) + [Added(l, mesh)]
    {
      if l == 0 && mesh.None? {
        scene.SetBusy(false);
      } else {
        scene.AddObject(l, mesh);
      }
    }

    /** `setColor`: record the colour of a label. */
    method SetColor(l: int, color: Color)
      modifies this
      ensures cmap == old(cmap)[l := color]
      ensures ready == old(ready) && dirty == old(dirty) && buffer == old(buffer) && shape == old(shape)
      ensures meshJob == old(meshJob) && batches == old(batches)
    {
      cmap := cmap[l := color];
    }

    /** The `volume` getter: the buffer transposed back into the caller's axis order. */
    function CurrentVolume(): (v: Volume)
      requires Valid()
      reads this, labelmgr, buffer
      ensures WellFormed(v) && v.shape == Reversed(shape)
      ensures forall i: nat, j: nat, k: nat :: InBox(v.shape, i, j, k) ==>
        v.voxels[Offset(v.shape, i, j, k)] == buffer[Offset(shape, k, j, i)]
    {
      TransposedAll(shape, buffer[..]);
      Volume(Reversed(shape), Transposed(shape, buffer[..]))
    }

    /** `self._volume[:] = new_volume`: element-wise assignment into the uint8 buffer. */
    method Store(incoming: seq<int>)
      requires Valid() && |incoming| == buffer.Length
      modifies buffer
      ensures Valid() && buffer[..] == Wrapped(incoming)
    {
      forall o | 0 <= o < buffer.Length {
        buffer[o] := ToUint8(incoming[o]);
      }
    }

    /**
      The `volume` setter: when the transposed value equals the buffer nothing happens;
      otherwise it is copied into the buffer (as uint8), the manager is marked dirty and
      a reconciliation pass runs. Either way the buffer ends up holding the transposed
      value as uint8, which is what `ReadBack` and `SecondSetIsNoop` start from.
     */
    method SetVolume(value: Volume) returns (ghost p: Plan, ghost removals: seq<Command>, ghost additions: seq<Command>)
      requires Valid() && WellFormed(value) && value.shape == Reversed(shape)
      modifies this, buffer, scene
      ensures Valid()
      ensures ready == old(ready) && cmap == old(cmap) && buffer == old(buffer) && shape == old(shape)
      ensures buffer[..] == Wrapped(Transposed(value.shape, value.voxels))
      ensures var incoming := Transposed(value.shape, value.voxels);
        if incoming == old(buffer[..]) then
          unchanged(this, buffer, scene)
        else
          p == Reconcile(Values(Wrapped(incoming)), old(scene.visible), old(scene.cached)) &&
          PassDone(p, old(scene.Snapshot()), old(batches), old(meshJob), removals, additions)
    {
      var incoming := Transposed(value.shape, value.voxels);
      if incoming != buffer[..] {
        Store(incoming);
        dirty := true;
        p, removals, additions := Update();
        assert buffer[..] == Wrapped(incoming);
      } else {
        p, removals, additions := Plan({}, {}, {}), [], [];
        StoredUnchanged(incoming);
      }
    }

    /** A sequence equal to the buffer is all uint8, so storing it changes nothing. */
    lemma StoredUnchanged(incoming: seq<int>)
      requires Valid() && incoming == buffer[..]
      ensures Wrapped(incoming) == incoming
    {
    }

    /** Get after set: once a uint8 volume has been stored, reading it back gives that volume. */
    lemma ReadBack(value: Volume)
      requires Valid() && WellFormed(value) && value.shape == Reversed(shape) && AllUint8(value.voxels)
      requires buffer[..] == Wrapped(Transposed(value.shape, value.voxels))
      ensures CurrentVolume() == value
    {
      StoredRoundTrip(value, shape);
    }

    /** Setting the volume to what the getter returns finds no difference, so it is a no-op. */
    lemma {:induction false} SetToCurrentIsNoop()
      requires Valid()
      ensures Transposed(CurrentVolume().shape, CurrentVolume().voxels) == buffer[..]
    {
      TransposeTwice(shape, buffer[..]);
    }

    /**
      Setting the volume again to the value just set is a no-op (the setter's comparison
      finds no difference) exactly when every voxel of the value fits in uint8; a value
      outside [0, 256) differs from its stored copy, so every set of it runs a new pass.
     */
    lemma {:induction false} SecondSetIsNoop(value: Volume)
      requires Valid() && WellFormed(value) && value.shape == Reversed(shape)
      requires buffer[..] == Wrapped(Transposed(value.shape, value.voxels))
      ensures Transposed(value.shape, value.voxels) == buffer[..] <==> AllUint8(value.voxels)
    {
      var incoming := Transposed(value.shape, value.voxels);
      if AllUint8(value.voxels) {
        StoredRoundTrip(value, shape);
      }
      if incoming == buffer[..] {
        TransposedValues(value.shape, value.voxels);
        forall o | 0 <= o < |value.voxels|
          ensures IsUint8(value.voxels[o])
        {
          assert value.voxels[o] in Values(incoming);
          var o' :| 0 <= o' < |incoming| && incoming[o'] == value.voxels[o];
          assert incoming[o'] == buffer[o'];
        }
      }
    }

    /** `addObject`: a new label with the given colour; `OutOfLabels` leaves everything as it was. */
    method AddObject(color: Color) returns (r: Result<int>)
      requires Valid()
      modifies this, labelmgr
      ensures Valid()
      ensures match Allocate(old(labelmgr.State()))
        case Err(e) => r == Err(e) && labelmgr.State() == old(labelmgr.State()) && cmap == old(cmap)
        case Ok(granted) => r == Ok(granted.0) && labelmgr.State() == granted.1 && cmap == old(cmap)[granted.0 := color]
      ensures ready == old(ready) && dirty == old(dirty) && buffer == old(buffer) && shape == old(shape)
      ensures meshJob == old(meshJob) && batches == old(batches)
    {
      r := labelmgr.Request();
      if r.Ok? {
        SetColor(r.value, color);
      }
    }

    /** `removeObject`: passes its argument on to `free`, so no label resets the allocator; colours are kept. */
    method RemoveObject(freed: Option<int>)
      requires Valid()
      modifies labelmgr
      ensures Valid()
      ensures labelmgr.State() == Release(old(labelmgr.State()), freed)
    {
      labelmgr.Free(freed);
    }

    /**
      `clear`: every voxel becomes background and the allocator is reset, so the next
      label handed out is 1. The manager is not marked dirty and the scene is untouched.
     */
    method Clear()
      requires Valid()
      modifies buffer, labelmgr
      ensures Valid()
      ensures buffer[..] == seq(buffer.Length, _ => BG_LABEL)
      ensures labelmgr.State() == Initial(NOBJECTS)
      ensures Allocate(labelmgr.State()).Ok? && Allocate(labelmgr.State()).value.0 == 1
    {
      forall o | 0 <= o < buffer.Length {
        buffer[o] := BG_LABEL;
      }
      labelmgr.Free(None);
      FirstAllocationIsOne(NOBJECTS);
    }
  }
}
