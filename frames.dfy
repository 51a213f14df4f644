/**
 * Positions of the selected atoms and the layout in which a batch of them
 * is written: numpy's `np.transpose(data, [0, 2, 1])` in `report`
 * (mdtools/openmm/reporter.py) turns [frame, atom, coordinate] into
 * [frame, coordinate, atom].
 */
module Frames {

  /** One atom's position; R is the (floating-point) coordinate type. */
  datatype Vec3<R> = Vec3(x: R, y: R, z: R)

  /** Coordinate c (0 = x, 1 = y, 2 = z) of a position. */
  function Coord<R>(v: Vec3<R>, c: nat): R
    requires c < 3
  {
    if c == 0 then v.x else if c == 1 then v.y else v.z
  }

  /** A frame in coordinate-major layout: three rows, one entry per atom in each. */
  predicate CoordinateMajor<R>(t: seq<seq<R>>) {
    |t| == 3 && |t[1]| == |t[0]| && |t[2]| == |t[0]|
  }

  /** One frame turned from [atom, coordinate] into [coordinate, atom]. */
  function TransposeFrame<R>(frame: seq<Vec3<R>>): (t: seq<seq<R>>)
    ensures CoordinateMajor(t) && |t[0]| == |frame|
    ensures forall c, a :: 0 <= c < 3 && 0 <= a < |frame| ==> t[c][a] == Coord(frame[a], c)
  {
    [seq(|frame|, a requires 0 <= a < |frame| => frame[a].x),
     seq(|frame|, a requires 0 <= a < |frame| => frame[a].y),
     seq(|frame|, a requires 0 <= a < |frame| => frame[a].z)]
  }

  /** Reading a stored frame back into one position per atom. */
  function UntransposeFrame<R>(t: seq<seq<R>>): (frame: seq<Vec3<R>>)
    requires CoordinateMajor(t)
    ensures |frame| == |t[0]|
  {
    seq(|t[0]|, a requires 0 <= a < |t[0]| => Vec3(t[0][a], t[1][a], t[2][a]))
  }

  /** The stored layout loses nothing: reading it back gives the collected frame. */
  lemma TransposeRoundTrip<R>(frame: seq<Vec3<R>>)
    ensures UntransposeFrame(TransposeFrame(frame)) == frame
  {
    var back := UntransposeFrame(TransposeFrame(frame));
    forall a | 0 <= a < |frame| ensures back[a] == frame[a] {
      assert back[a].x == Coord(frame[a], 0);
      assert back[a].y == Coord(frame[a], 1);
      assert back[a].z == Coord(frame[a], 2);
    }
  }

  /** And every coordinate-major frame is the transpose of the frame read from it. */
  lemma UntransposeRoundTrip<R>(t: seq<seq<R>>)
    requires CoordinateMajor(t)
    ensures TransposeFrame(UntransposeFrame(t)) == t
  {
    var again := TransposeFrame(UntransposeFrame(t));
    forall c | 0 <= c < 3 ensures again[c] == t[c] {
      forall a | 0 <= a < |t[0]| ensures again[c][a] == t[c][a] {
        assert again[c][a] == Coord(UntransposeFrame(t)[a], c);
      }
    }
  }

  /** A whole batch transposed with axes [0, 2, 1]: frame order kept, each frame transposed. */
  function TransposeBatch<R>(frames: seq<seq<Vec3<R>>>): (r: seq<seq<seq<R>>>)
    ensures |r| == |frames|
    ensures forall f :: 0 <= f < |frames| ==>
      CoordinateMajor(r[f]) && |r[f][0]| == |frames[f]| &&
      forall c, a :: 0 <= c < 3 && 0 <= a < |frames[f]| ==> r[f][c][a] == Coord(frames[f][a], c)
  {
    seq(|frames|, f requires 0 <= f < |frames| => TransposeFrame(frames[f]))
  }
}
