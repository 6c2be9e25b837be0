/** The instanced sphere geometry behind one render group (InstancedStar.cpp): a list
    of star positions plus two GPU buffers, one position and one scale per star, that
    are resized and written in place and kept in lock-step with the list. */
module InstancedStars {
  import opened Common

  /** What an instanced geometry holds, as a value: the positions placed so far, in
      order, and the scale of each. */
  datatype StarBuffer = StarBuffer(points: seq<Point>, scales: seq<real>)
  {
    ghost predicate LockStep() {
      |scales| == |points|
    }

    function Count(): nat {
      |points|
    }
  }

  /** The scale `addPoint` uses when none is given (InstancedStar.h:20). */
  const DEFAULT_SCALE: real := 1.0

  /** The buffer after one `addPoint(point, scale)`: the new instance goes at the end. */
  function AddedTo(b: StarBuffer, point: Point, scale: real): (r: StarBuffer)
    requires b.LockStep()
    ensures r.LockStep() && r.Count() == b.Count() + 1
    ensures r.points[..b.Count()] == b.points && r.scales[..b.Count()] == b.scales
    ensures r.points[b.Count()] == point && r.scales[b.Count()] == scale
  {
    StarBuffer(b.points + [point], b.scales + [scale])
  }

  /** The buffer after `setPoints(ps)`: exactly `ps`, every scale 1. */
  function Reset(ps: seq<Point>): (r: StarBuffer)
    ensures r.LockStep() && r.points == ps
    ensures forall i :: 0 <= i < |ps| ==> r.scales[i] == 1.0
  {
    StarBuffer(ps, seq(|ps|, _ => 1.0))
  }

  /** The buffer obtained by adding each of `ps` in turn with the default scale. */
  function AddedInTurn(b: StarBuffer, ps: seq<Point>): StarBuffer
    requires b.LockStep()
  {
    if ps == [] then b else AddedTo(AddedInTurn(b, ps[..|ps| - 1]), ps[|ps| - 1], DEFAULT_SCALE)
  }

  /** Placing the stars of a list one by one with the default scale, starting from an
      empty geometry, leaves the same contents as `setPoints` with the whole list. */
  lemma {:induction false} AddInTurnIsReset(ps: seq<Point>)
    ensures AddedInTurn(StarBuffer([], []), ps) == Reset(ps)
  {
    if ps != [] {
      var init := ps[..|ps| - 1];
      AddInTurnIsReset(init);
      assert init + [ps[|ps| - 1]] == ps;
    }
  }

  /** Resizing a byte array keeps its leading entries; new entries hold whatever
      `filler` stands for (QByteArray leaves them uninitialised). */
  method Resize<T>(a: array<T>, n: nat, filler: T) returns (b: array<T>)
    ensures fresh(b) && b.Length == n
    ensures forall i :: 0 <= i < n && i < a.Length ==> b[i] == a[i]
  {
    var prefix := a[..];
    b := new T[n](i => if 0 <= i < |prefix| then prefix[i] else filler);
  }

  class InstancedStar {
    /** `_points`: the positions placed so far. */
    var points: seq<Point>
    /** `_positionBufferData` read as an array of positions. */
    var positionData: array<Point>
    /** `_scaleBufferData` read as an array of floats. */
    var scaleData: array<real>
    /** What `setData` last handed to the position and scale buffers. */
    var positionBuffer: seq<Point>
    var scaleBuffer: seq<real>
    /** The `count` of the position and scale attributes. */
    var positionCount: int
    var scaleCount: int

    /** The two buffers and both attribute counts are in lock-step with `_points`. */
    ghost predicate Valid()
      reads this, positionData, scaleData
    {
      positionData.Length == |points| && scaleData.Length == |points| &&
      positionData[..] == points &&
      positionBuffer == positionData[..] && scaleBuffer == scaleData[..] &&
      positionCount == |points| && scaleCount == |points|
    }

    ghost function Contents(): StarBuffer
      reads this, scaleData
    {
      StarBuffer(points, scaleData[..])
    }

    constructor ()
      ensures Valid() && Contents() == StarBuffer([], [])
    {
      points := [];
      positionData := new Point[0];
      scaleData := new real[0];
      positionBuffer, scaleBuffer := [], [];
      positionCount, scaleCount := 0, 0;
    }

    method GetCount() returns (n: int)
      requires Valid()
      ensures n == |points| == positionData.Length == scaleData.Length
      ensures n == positionCount == scaleCount
    {
      n := |points|;
    }

    method SetPoints(ps: seq<Point>)
      requires Valid()
      modifies this
      ensures Valid() && fresh(positionData) && fresh(scaleData)
      ensures Contents() == Reset(ps)
    {
      points := ps;
      positionData := Resize(positionData, |ps|, Point(0.0, 0.0, 0.0));
      scaleData := Resize(scaleData, |ps|, 0.0);
      for i := 0 to |ps|
        invariant fresh(positionData) && fresh(scaleData) && points == ps
        invariant positionData.Length == |ps| == scaleData.Length
        invariant forall j :: 0 <= j < i ==> positionData[j] == ps[j] && scaleData[j] == 1.0
      {
        positionData[i] := ps[i];
        scaleData[i] := 1.0;
      }
      positionBuffer := positionData[..];
      positionCount := |points|;
      scaleBuffer := scaleData[..];
      scaleCount := |points|;
    }

    method AddPoint(point: Point, scale: real := DEFAULT_SCALE)
      requires Valid()
      modifies this
      ensures Valid() && fresh(positionData) && fresh(scaleData)
      ensures Contents() == AddedTo(old(Contents()), point, scale)
      ensures |points| == old(|points|) + 1
    {
      var n := |points|;
      positionData := Resize(positionData, n + 1, point);
      scaleData := Resize(scaleData, n + 1, scale);
      positionData[n] := point;
      scaleData[n] := scale;
      positionBuffer := positionData[..];
      positionCount := n + 1;
      scaleBuffer := scaleData[..];
      scaleCount := n + 1;
      points := points + [point];
    }
  }
}
