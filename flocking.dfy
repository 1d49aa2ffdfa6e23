/** The neighbour scan of the flocking behaviour in `VR`: for one agent,
    which other agents count as neighbours, and the three sums collected
    over them before they are averaged, normalised and weighted.

    Agent positions and forward directions live in the engine's transforms;
    here they are two sequences indexed like the flock list. */
module Flocking {

  /** Agents closer than this squared distance are neighbours. */
  const NEIGHBOUR_SQUARED_DISTANCE: real := 5.0

  datatype Vec3 = Vec3(x: real, y: real, z: real)

  const Zero: Vec3 := Vec3(0.0, 0.0, 0.0)

  function Add(a: Vec3, b: Vec3): Vec3 { Vec3(a.x + b.x, a.y + b.y, a.z + b.z) }

  function Sub(a: Vec3, b: Vec3): Vec3 { Vec3(a.x - b.x, a.y - b.y, a.z - b.z) }

  function Neg(a: Vec3): Vec3 { Vec3(-a.x, -a.y, -a.z) }

  function Scale(a: Vec3, k: real): Vec3 { Vec3(a.x * k, a.y * k, a.z * k) }

  function Div(a: Vec3, k: real): Vec3
    requires k != 0.0
  {
    Vec3(a.x / k, a.y / k, a.z / k)
  }

  function SqrMagnitude(a: Vec3): real
  {
    a.x * a.x + a.y * a.y + a.z * a.z
  }

  /** A well-formed flock view: one forward direction per position and a
      valid index for the agent being steered. */
  predicate ValidFlock(positions: seq<Vec3>, forwards: seq<Vec3>, current: int)
  {
    |positions| == |forwards| && 0 <= current < |positions|
  }

  /** Agent `j` influences agent `current`: it is another agent, strictly
      inside the neighbour radius, and not at the very same position. */
  predicate IsNeighbour(positions: seq<Vec3>, current: nat, j: nat)
    requires current < |positions| && j < |positions|
    // an agent never steers by itself, nor by an agent at its own position
    ensures IsNeighbour(positions, current, j) ==> j != current && positions[j] != positions[current]
  {
    var distance := SqrMagnitude(Sub(positions[current], positions[j]));
    j != current && distance > 0.0 && distance < NEIGHBOUR_SQUARED_DISTANCE
  }

  /** The neighbours of `current` among the first `n` agents. */
  function NeighbourIndices(positions: seq<Vec3>, current: nat, n: nat): set<nat>
    requires current < |positions| && n <= |positions|
  {
    set j: nat | j < n && IsNeighbour(positions, current, j)
  }

  /** How many of the first `n` agents are neighbours of `current`. */
  function NeighbourCount(positions: seq<Vec3>, current: nat, n: nat): nat
    requires current < |positions| && n <= |positions|
  {
    if n == 0 then 0
    else NeighbourCount(positions, current, n - 1) + if IsNeighbour(positions, current, n - 1) then 1 else 0
  }

  /** Sum of the neighbours' positions among the first `n` agents. */
  function PositionSum(positions: seq<Vec3>, current: nat, n: nat): Vec3
    requires current < |positions| && n <= |positions|
  {
    if n == 0 then Zero
    else
      var rest := PositionSum(positions, current, n - 1);
      if IsNeighbour(positions, current, n - 1) then Add(rest, positions[n - 1]) else rest
  }

  /** Sum of the offsets from `current` to its neighbours among the first `n` agents. */
  function OffsetSum(positions: seq<Vec3>, current: nat, n: nat): Vec3
    requires current < |positions| && n <= |positions|
  {
    if n == 0 then Zero
    else
      var rest := OffsetSum(positions, current, n - 1);
      if IsNeighbour(positions, current, n - 1) then Add(rest, Sub(positions[n - 1], positions[current])) else rest
  }

  /** Sum of the neighbours' forward directions among the first `n` agents. */
  function HeadingSum(positions: seq<Vec3>, forwards: seq<Vec3>, current: nat, n: nat): Vec3
    requires ValidFlock(positions, forwards, current) && n <= |positions|
  {
    if n == 0 then Zero
    else
      var rest := HeadingSum(positions, forwards, current, n - 1);
      if IsNeighbour(positions, current, n - 1) then Add(rest, forwards[n - 1]) else rest
  }

  /** The running count is the number of indices that satisfy the
      neighbour predicate. */
  lemma {:induction false} NeighbourCountIsCardinality(positions: seq<Vec3>, current: nat, n: nat)
    requires current < |positions| && n <= |positions|
    ensures NeighbourCount(positions, current, n) == |NeighbourIndices(positions, current, n)|
  {
    if n > 0 {
      NeighbourCountIsCardinality(positions, current, n - 1);
      var before := NeighbourIndices(positions, current, n - 1);
      if IsNeighbour(positions, current, n - 1) {
        assert NeighbourIndices(positions, current, n) == before + {n - 1};
      } else {
        assert NeighbourIndices(positions, current, n) == before;
      }
    }
  }

  /** The offsets summed over the neighbours are the summed positions less
      the agent's own position once per neighbour. */
  lemma {:induction false} OffsetSumFromPositions(positions: seq<Vec3>, current: nat, n: nat)
    requires current < |positions| && n <= |positions|
    ensures OffsetSum(positions, current, n) ==
      Sub(PositionSum(positions, current, n), Scale(positions[current], NeighbourCount(positions, current, n) as real))
  {
    if n > 0 {
      OffsetSumFromPositions(positions, current, n - 1);
      var p := positions[current];
      var c := NeighbourCount(positions, current, n - 1) as real;
      var sum := PositionSum(positions, current, n - 1);
      if IsNeighbour(positions, current, n - 1) {
        var q := positions[n - 1];
        assert NeighbourCount(positions, current, n) as real == c + 1.0;
        assert OffsetSum(positions, current, n) == Add(Sub(sum, Scale(p, c)), Sub(q, p));
        assert PositionSum(positions, current, n) == Add(sum, q);
        ScaleStep(p, c);
      } else {
        assert NeighbourCount(positions, current, n) == NeighbourCount(positions, current, n - 1);
      }
    }
  }

  /** One more copy of `p`: (c + 1) p == c p + p. */
  lemma ScaleStep(p: Vec3, c: real)
    ensures Scale(p, c + 1.0) == Add(Scale(p, c), p)
  {
    assert p.x * (c + 1.0) == p.x * c + p.x;
    assert p.y * (c + 1.0) == p.y * c + p.y;
    assert p.z * (c + 1.0) == p.z * c + p.z;
  }

  /** No index is a neighbour exactly when the neighbour set is empty. */
  lemma NoNeighbourIffEmpty(positions: seq<Vec3>, current: nat)
    requires current < |positions|
    ensures |NeighbourIndices(positions, current, |positions|)| == 0 <==>
      forall j: nat :: j < |positions| ==> !IsNeighbour(positions, current, j)
  {
    var found := NeighbourIndices(positions, current, |positions|);
    if exists j: nat :: j < |positions| && IsNeighbour(positions, current, j) {
      var j: nat :| j < |positions| && IsNeighbour(positions, current, j);
      assert j in found;
    }
    if found != {} {
      var j :| j in found;
      assert IsNeighbour(positions, current, j);
    }
  }

  /** The neighbour loop: one pass over the flock, skipping the agent itself,
      accumulating position, offset and heading sums over the neighbours. */
  method AccumulateNeighbours(positions: seq<Vec3>, forwards: seq<Vec3>, current: nat)
    returns (count: nat, cohesion: Vec3, separate: Vec3, alignment: Vec3)
    requires ValidFlock(positions, forwards, current)
    ensures count == |NeighbourIndices(positions, current, |positions|)|
    ensures count == 0 <==> forall j: nat :: j < |positions| ==> !IsNeighbour(positions, current, j)
    ensures cohesion == PositionSum(positions, current, |positions|)
    ensures separate == OffsetSum(positions, current, |positions|)
    ensures alignment == HeadingSum(positions, forwards, current, |positions|)
  {
    count := 0;
    cohesion, separate, alignment := Zero, Zero, Zero;
    var index := 0;
    while index < |positions|
      invariant 0 <= index <= |positions|
      invariant count == NeighbourCount(positions, current, index)
      invariant cohesion == PositionSum(positions, current, index)
      invariant separate == OffsetSum(positions, current, index)
      invariant alignment == HeadingSum(positions, forwards, current, index)
    {
      if index != current {
        var distance := SqrMagnitude(Sub(positions[current], positions[index]));
        if distance > 0.0 && distance < NEIGHBOUR_SQUARED_DISTANCE {
          cohesion := Add(cohesion, positions[index]);
          separate := Add(separate, Sub(positions[index], positions[current]));
          alignment := Add(alignment, forwards[index]);
          count := count + 1;
        }
      }
      index := index + 1;
    }
    NeighbourCountIsCardinality(positions, current, |positions|);
    NoNeighbourIffEmpty(positions, current);
  }

  /** The three steering terms before normalisation, or no steering at all. */
  datatype Steering =
    | NoSteering                                        // the zero vector
    | Terms(separation: Vec3, cohesion: Vec3, alignment: Vec3)

  /** The averaging half of the flocking velocity: with no neighbour the
      steering is zero; otherwise separation is the negated mean offset,
      alignment the mean heading and cohesion the offset to the mean position. */
  method FlockingTerms(positions: seq<Vec3>, forwards: seq<Vec3>, current: nat) returns (s: Steering)
    requires ValidFlock(positions, forwards, current)
    ensures s == NoSteering <==> forall j: nat :: j < |positions| ==> !IsNeighbour(positions, current, j)
    ensures s.Terms? ==>
      var n := |NeighbourIndices(positions, current, |positions|)| as real;
      n > 0.0 &&
      s.cohesion == Sub(Div(PositionSum(positions, current, |positions|), n), positions[current]) &&
      s.alignment == Div(HeadingSum(positions, forwards, current, |positions|), n) &&
      // separation pulls exactly against cohesion: it is not distance-weighted
      s.separation == Neg(s.cohesion)
  {
    var count, cohesion, separate, alignment := AccumulateNeighbours(positions, forwards, current);
    if count == 0 {
      return NoSteering;
    }
    var n := count as real;
    NeighbourCountIsCardinality(positions, current, |positions|);
    OffsetSumFromPositions(positions, current, |positions|);
    separate := Neg(Div(separate, n));
    alignment := Div(alignment, n);
    var mean := Div(cohesion, n);
    cohesion := Sub(mean, positions[current]);
    MeanOffset(PositionSum(positions, current, |positions|), positions[current], n);
    s := Terms(separate, cohesion, alignment);
  }

  /** Averaging an offset sum: (sum - n p) / n == sum / n - p. */
  lemma MeanOffset(sum: Vec3, p: Vec3, n: real)
    requires n != 0.0
    ensures Div(Sub(sum, Scale(p, n)), n) == Sub(Div(sum, n), p)
  {
    assert (sum.x - p.x * n) / n == sum.x / n - p.x;
    assert (sum.y - p.y * n) / n == sum.y / n - p.y;
    assert (sum.z - p.z * n) / n == sum.z / n - p.z;
  }
}
