/** The rod state the boundary conditions act on. A rod keeps four arrays
    indexed by column: position (3 x n), directors (3 x 3 x m), velocity
    (3 x n) and omega (3 x m). Column 0 is the rod's start and the last column
    of each array its end. Each array keeps its own column count. */
module Rods {
  import opened Linalg

  /** The rod's kinematic state as values, one entry per column. */
  datatype RodState = RodState(position: seq<Vec3>, directors: seq<Mat3>, velocity: seq<Vec3>, omega: seq<Vec3>)
  {
    /** Every array has a start column. */
    predicate Valid()
    {
      |position| >= 1 && |directors| >= 1 && |velocity| >= 1 && |omega| >= 1
    }

    /** Same number of columns in each array as `other`. */
    predicate SameShape(other: RodState)
    {
      |position| == |other.position| && |directors| == |other.directors|
      && |velocity| == |other.velocity| && |omega| == |other.omega|
    }
  }

  /** Overwrites the start column: numpy's `s[..., 0] = v`. */
  function SetFirst<T>(s: seq<T>, v: T): (r: seq<T>)
    requires |s| >= 1
    ensures |r| == |s| && r[0] == v
    ensures forall k :: 1 <= k < |s| ==> r[k] == s[k]
  {
    s[0 := v]
  }

  /** Overwrites the start column, then the end column: numpy's
      `s[..., 0] = first` followed by `s[..., -1] = last`. With one column
      the second write wins. */
  function SetEnds<T>(s: seq<T>, first: T, last: T): (r: seq<T>)
    requires |s| >= 1
    ensures |r| == |s| && r[|s| - 1] == last
    ensures |s| > 1 ==> r[0] == first
    ensures forall k :: 0 < k < |s| - 1 ==> r[k] == s[k]
  {
    s[0 := first][|s| - 1 := last]
  }

  /** Column k of a 3 x n array. */
  function Column(a: array2<real>, k: nat): Vec3
    reads a
    requires a.Length0 == 3 && k < a.Length1
  {
    Vec3(a[0, k], a[1, k], a[2, k])
  }

  /** Slice k of a 3 x 3 x m array, as the matrix whose entry (i, j) is a[i, j, k]. */
  function Frame(a: array3<real>, k: nat): Mat3
    reads a
    requires a.Length0 == 3 && a.Length1 == 3 && k < a.Length2
  {
    Mat3(Vec3(a[0, 0, k], a[0, 1, k], a[0, 2, k]),
         Vec3(a[1, 0, k], a[1, 1, k], a[1, 2, k]),
         Vec3(a[2, 0, k], a[2, 1, k], a[2, 2, k]))
  }

  ghost function Columns(a: array2<real>): (s: seq<Vec3>)
    reads a
    requires a.Length0 == 3
    ensures |s| == a.Length1
    ensures forall k :: 0 <= k < a.Length1 ==> s[k] == Column(a, k)
  {
    seq(a.Length1, k requires 0 <= k < a.Length1 reads a => Column(a, k))
  }

  ghost function Frames(a: array3<real>): (s: seq<Mat3>)
    reads a
    requires a.Length0 == 3 && a.Length1 == 3
    ensures |s| == a.Length2
    ensures forall k :: 0 <= k < a.Length2 ==> s[k] == Frame(a, k)
  {
    seq(a.Length2, k requires 0 <= k < a.Length2 reads a => Frame(a, k))
  }

  /** `a[..., k] = v` on a 3 x n array. */
  method SetColumn(a: array2<real>, k: nat, v: Vec3)
    requires a.Length0 == 3 && k < a.Length1
    modifies a
    ensures Columns(a) == old(Columns(a))[k := v]
  {
    a[0, k], a[1, k], a[2, k] := v.x, v.y, v.z;
  }

  /** `a[..., k] = m` on a 3 x 3 x m array. */
  method SetFrame(a: array3<real>, k: nat, m: Mat3)
    requires a.Length0 == 3 && a.Length1 == 3 && k < a.Length2
    modifies a
    ensures Frames(a) == old(Frames(a))[k := m]
  {
    a[0, 0, k], a[0, 1, k], a[0, 2, k] := m.r0.x, m.r0.y, m.r0.z;
    a[1, 0, k], a[1, 1, k], a[1, 2, k] := m.r1.x, m.r1.y, m.r1.z;
    a[2, 0, k], a[2, 1, k], a[2, 2, k] := m.r2.x, m.r2.y, m.r2.z;
  }

  /** A rod as the boundary conditions see it: four arrays they overwrite in
      place. The arrays themselves never change identity. */
  class Rod {
    const position: array2<real>
    const directors: array3<real>
    const velocity: array2<real>
    const omega: array2<real>

    /** The shapes the arrays must have, and three distinct 3 x n arrays. */
    ghost predicate Valid()
    {
      && position.Length0 == 3 && position.Length1 >= 1
      && directors.Length0 == 3 && directors.Length1 == 3 && directors.Length2 >= 1
      && velocity.Length0 == 3 && velocity.Length1 >= 1
      && omega.Length0 == 3 && omega.Length1 >= 1
      && position != velocity && position != omega && velocity != omega
    }

    constructor (position: array2<real>, directors: array3<real>, velocity: array2<real>, omega: array2<real>)
      requires position.Length0 == 3 && position.Length1 >= 1
      requires directors.Length0 == 3 && directors.Length1 == 3 && directors.Length2 >= 1
      requires velocity.Length0 == 3 && velocity.Length1 >= 1
      requires omega.Length0 == 3 && omega.Length1 >= 1
      requires position != velocity && position != omega && velocity != omega
      ensures Valid()
      ensures this.position == position && this.directors == directors
      ensures this.velocity == velocity && this.omega == omega
    {
      this.position := position;
      this.directors := directors;
      this.velocity := velocity;
      this.omega := omega;
    }

    /** The current contents of the four arrays. */
    ghost function State(): (s: RodState)
      reads position, directors, velocity, omega
      requires Valid()
      ensures s.Valid()
    {
      RodState(Columns(position), Frames(directors), Columns(velocity), Columns(omega))
    }
  }
}
