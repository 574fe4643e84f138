/**
  The overview scene, the rendering manager's external collaborator, reduced to what
  the manager observes and commands: the set of visible objects, the labels it holds
  geometry for (`has_object`), its busy indicator, and a record of every command
  the manager issued to it.
 */
module SceneModel {
  import opened Common

  /** Extracted surface geometry for one label; its content is not modelled. */
  datatype Mesh = Mesh(id: nat)

  /** A command sent to the scene. `Added(l, None)` asks the scene to reuse its cached geometry. */
  datatype Command = Removed(target: int) | Added(target: int, mesh: Option<Mesh>) | BusySet(busy: bool)

  /** What the rendering manager can observe of the scene at one moment. */
  datatype SceneState = SceneState(visible: set<int>, cached: set<int>, busy: bool, log: seq<Command>)

  class Scene {
    var visible: set<int>
    var cached: set<int>
    var busy: bool
    ghost var log: seq<Command>

    /** An empty, idle scene. */
    constructor ()
      ensures visible == {} && cached == {} && !busy && log == []
    {
      visible, cached, busy, log := {}, {}, false, [];
    }

    ghost function Snapshot(): SceneState
      reads this
    {
      SceneState(visible, cached, busy, log)
    }

    /** `has_object`: the scene has geometry for this label. */
    predicate HasObject(l: int)
      reads this
    {
      l in cached
    }

    /** `remove_object`: the object is no longer shown; its geometry stays cached. */
    method RemoveObject(l: int)
      modifies this
      ensures visible == old(visible) - {l} && cached == old(cached) && busy == old(busy)
      ensures log == old(log) + [Removed(l)]
    {
      visible := visible - {l};
      log := log + [Removed(l)];
    }

    /** `add_object`: the object is shown; a mesh given with it is cached. */
    method AddObject(l: int, mesh: Option<Mesh>)
      modifies this
      ensures visible == old(visible) + {l} && busy == old(busy)
      ensures cached == if mesh.Some? then old(cached) + {l} else old(cached)
      ensures log == old(log) + [Added(l, mesh)]
    {
      visible := visible + {l};
      if mesh.Some? {
        cached := cached + {l};
      }
      log := log + [Added(l, mesh)];
    }

    /** `set_busy`. */
    method SetBusy(b: bool)
      modifies this
      ensures busy == b && visible == old(visible) && cached == old(cached)
      ensures log == old(log) + [BusySet(b)]
    {
      busy := b;
      log := log + [BusySet(b)];
    }
  }

  /** Appending one command after a suffix is appending it to the whole log. */
  lemma AppendCommand(log: seq<Command>, cmds: seq<Command>, c: Command)
    ensures log + cmds + [c] == log + (cmds + [c])
  {
  }

  /** cmds removes each label of `labels` exactly once, in some order, and does nothing else. */
  ghost predicate RemovesExactly(cmds: seq<Command>, labels: set<int>)
    decreases |cmds|
  {
    if cmds == [] then labels == {}
    else
      var c := cmds[|cmds| - 1];
      c.Removed? && c.target in labels && RemovesExactly(cmds[..|cmds| - 1], labels - {c.target})
  }

  /** cmds adds each label of `labels` from cached geometry exactly once, in some order, and does nothing else. */
  ghost predicate AddsCachedExactly(cmds: seq<Command>, labels: set<int>)
    decreases |cmds|
  {
    if cmds == [] then labels == {}
    else
      var c := cmds[|cmds| - 1];
      c.Added? && c.mesh.None? && c.target in labels && AddsCachedExactly(cmds[..|cmds| - 1], labels - {c.target})
  }

  lemma RemovesStep(cmds: seq<Command>, done: set<int>, l: int)
    requires RemovesExactly(cmds, done) && l !in done
    ensures RemovesExactly(cmds + [Removed(l)], done + {l})
  {
  }

  lemma AddsCachedStep(cmds: seq<Command>, done: set<int>, l: int)
    requires AddsCachedExactly(cmds, done) && l !in done
    ensures AddsCachedExactly(cmds + [Added(l, None)], done + {l})
  {
  }
}
