/**
  The volume's index space. A volume of shape (d0, d1, d2) is a flat sequence of
  d0 * d1 * d2 voxels in row-major order (the last axis varies fastest, as in a
  C-ordered array). Transposing a 3-D volume reverses its axes: the voxel at
  (i, j, k) of the input is at (k, j, i) of the result, whose shape is (d2, d1, d0).
 */
module VolumeLayout {

  datatype Shape = Shape(d0: nat, d1: nat, d2: nat)

  /** A volume as a value: its shape and its voxels in row-major order. */
  datatype Volume = Volume(shape: Shape, voxels: seq<int>)

  predicate WellFormed(v: Volume)
  {
    |v.voxels| == Cells(v.shape)
  }

  /** The shape with its axes in reverse order (Python's `shape[::-1]`). */
  function Reversed(s: Shape): (r: Shape)
    ensures Cells(r) == Cells(s)
  {
    assert s.d2 * s.d1 * s.d0 == s.d0 * s.d1 * s.d2;
    Shape(s.d2, s.d1, s.d0)
  }

  /** The number of voxels of a shape. */
  function Cells(s: Shape): nat
  {
    s.d0 * s.d1 * s.d2
  }

  predicate InBox(s: Shape, i: nat, j: nat, k: nat)
  {
    i < s.d0 && j < s.d1 && k < s.d2
  }

  lemma MulMono(x: int, a: int, b: int)
    requires 0 <= x <= a && 0 <= b
    ensures x * b <= a * b
  {
  }

  /** One more row-major step: x < a and y < b place x * b + y inside [0, a * b). */
  lemma RowMajorBound(x: nat, a: nat, y: nat, b: nat)
    requires x < a && y < b
    ensures x * b + y < a * b
  {
    MulMono(x + 1, a, b);
  }

  /** The quotient and remainder of o by b are the only q, r with o == q * b + r and 0 <= r < b. */
  lemma DivModUnique(o: int, b: int, q: int, r: int)
    requires b > 0 && 0 <= r < b && o == q * b + r
    ensures o / b == q && o % b == r
  {
    var q', r' := o / b, o % b;
    if q' < q {
      MulMono(q' + 1, q, b);
    } else if q < q' {
      MulMono(q + 1, q', b);
    }
  }

  /** The flat position of voxel (i, j, k). */
  function Offset(s: Shape, i: nat, j: nat, k: nat): (o: nat)
    requires InBox(s, i, j, k)
    ensures o < Cells(s)
  {
    RowMajorBound(i, s.d0, j, s.d1);
    RowMajorBound(i * s.d1 + j, s.d0 * s.d1, k, s.d2);
    (i * s.d1 + j) * s.d2 + k
  }

  /** Below a * b, the quotient by b is below a (and neither factor is zero). */
  lemma QuotientBound(o: int, a: int, b: int)
    requires 0 <= o < a * b && 0 <= a && 0 <= b
    ensures 0 < a && 0 < b && o / b < a && o == (o / b) * b + o % b
  {
  }

  /** The coordinates of a flat position: the inverse of `Offset`. */
  function Coords(s: Shape, o: nat): (c: (nat, nat, nat))
    requires o < Cells(s)
    ensures InBox(s, c.0, c.1, c.2) && Offset(s, c.0, c.1, c.2) == o
  {
    QuotientBound(o, s.d0 * s.d1, s.d2);
    var q := o / s.d2;
    QuotientBound(q, s.d0, s.d1);
    (q / s.d1, q % s.d1, o % s.d2)
  }

  /** `Offset` is injective: the coordinates of the offset of (i, j, k) are (i, j, k). */
  lemma {:induction false} CoordsOfOffset(s: Shape, i: nat, j: nat, k: nat)
    requires InBox(s, i, j, k)
    ensures Coords(s, Offset(s, i, j, k)) == (i, j, k)
  {
    var o := Offset(s, i, j, k);
    DivModUnique(o, s.d2, i * s.d1 + j, k);
    DivModUnique(i * s.d1 + j, s.d1, i, j);
  }

  /** `numpy.transpose` of a 3-D volume given as its shape and row-major voxels. */
  function Transposed(s: Shape, data: seq<int>): (r: seq<int>)
    requires |data| == Cells(s)
    ensures |r| == Cells(Reversed(s)) == |data|
  {
    seq(Cells(Reversed(s)), o requires 0 <= o < Cells(Reversed(s)) =>
      var c := Coords(Reversed(s), o);
      data[Offset(s, c.2, c.1, c.0)])
  }

  /** Transposition moves the voxel at (i, j, k) to (k, j, i). */
  lemma {:induction false} TransposedAt(s: Shape, data: seq<int>, i: nat, j: nat, k: nat)
    requires |data| == Cells(s) && InBox(s, i, j, k)
    ensures Transposed(s, data)[Offset(Reversed(s), k, j, i)] == data[Offset(s, i, j, k)]
  {
    CoordsOfOffset(Reversed(s), k, j, i);
  }

  /** `TransposedAt` for every voxel at once. */
  lemma TransposedAll(s: Shape, data: seq<int>)
    requires |data| == Cells(s)
    ensures forall i: nat, j: nat, k: nat :: InBox(s, i, j, k) ==>
      Transposed(s, data)[Offset(Reversed(s), k, j, i)] == data[Offset(s, i, j, k)]
  {
    forall i: nat, j: nat, k: nat | InBox(s, i, j, k)
      ensures Transposed(s, data)[Offset(Reversed(s), k, j, i)] == data[Offset(s, i, j, k)]
    {
      TransposedAt(s, data, i, j, k);
    }
  }

  /** Transposing twice gives back the original voxels: the getter undoes the setter's reordering. */
  lemma {:induction false} TransposeTwice(s: Shape, data: seq<int>)
    requires |data| == Cells(s)
    ensures Transposed(Reversed(s), Transposed(s, data)) == data
  {
    var t := Transposed(s, data);
    var tt := Transposed(Reversed(s), t);
    forall o | 0 <= o < |data|
      ensures tt[o] == data[o]
    {
      var c := Coords(s, o);
      TransposedAt(s, data, c.0, c.1, c.2);
      TransposedAt(Reversed(s), t, c.2, c.1, c.0);
    }
  }

  /** The voxel values of a volume, as a set (`set(numpy.unique(v))`). */
  function Values(data: seq<int>): (r: set<int>)
    ensures forall o :: 0 <= o < |data| ==> data[o] in r
    ensures forall v :: v in r ==> exists o :: 0 <= o < |data| && data[o] == v
  {
    set v | v in data
  }

  /** Transposition keeps the set of voxel values: the labels seen are independent of the axis order. */
  lemma {:induction false} TransposedValues(s: Shape, data: seq<int>)
    requires |data| == Cells(s)
    ensures Values(Transposed(s, data)) == Values(data)
  {
    var t := Transposed(s, data);
    forall v | v in data
      ensures v in t
    {
      var o :| 0 <= o < |data| && data[o] == v;
      var c := Coords(s, o);
      TransposedAt(s, data, c.0, c.1, c.2);
    }
  }
}
