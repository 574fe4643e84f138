/** Small shared vocabulary: optional values, the allocator's error, and integer ranges. */
module Common {

  /** An argument that may be absent (Python's `None`). */
  datatype Option<T> = None | Some(value: T)

  /** The one error the core raises to its callers. */
  datatype Error = OutOfLabels

  /** A value, or the error that was raised instead of returning it. */
  datatype Result<T> = Ok(value: T) | Err(error: Error)

  /** The integers of the half-open range [lo, hi), like Python's `set(range(lo, hi))`. */
  function Range(lo: int, hi: int): set<int>
  {
    // Between repeats the bounds so that the comprehension has a term to trigger on.
    set i | lo <= i < hi && Between(lo, i, hi)
  }

  predicate Between(lo: int, i: int, hi: int)
  {
    lo <= i < hi
  }

  /** A non-empty set has an element, so a label can be picked from it. */
  lemma NonEmptyHasElement(s: set<int>)
    requires s != {}
    ensures exists x :: x in s
  {
    if forall x :: x !in s {
      assert false;
    }
  }
}

/** Module-level constants of the rendering module. */
module Constants {

  /** Capacity of the label allocator: labels are drawn from [1, NOBJECTS). */
  const NOBJECTS: int := 256

  /** The voxel value of transparent background; never rendered. */
  const BG_LABEL: int := 0

  /** The label of the object being edited; always given fresh geometry. */
  const CURRENT_LABEL: int := 1
}
