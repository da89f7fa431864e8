/** Path detection ahead of the player and the random split of a path into
    segments, as done by the `PathDetector` component. */
module PathDetector {
  import opened Common

  /** The part of a physics ray hit the game reads. */
  datatype RayHit = RayHit(point: Vec3, distance: real, hitObject: nat, tag: string)

  /** The result record of a path query; `hitObject` is None where the source leaves it null. */
  datatype PathInfo = PathInfo(
    startPosition: Vec3,
    endPosition: Vec3,
    direction: Vec3,
    pathLength: real,
    hitObject: Option<nat>,
    hitTurnPoint: bool)

  const TurnPointTag := "TurnPoint"

  /** Default of the serialized `maxRaycastDistance`. */
  const DefaultMaxRaycastDistance := 500.0

  /** `DetectPath`: the engine's ray cast (limited to `maxRaycastDistance`) is
      the argument `hit`. The result keeps the query's start and direction;
      without a hit the path runs the full ray length, with a hit it ends at
      the hit and is flagged when the hit collider is a turn point. */
  function DetectPath(startPosition: Vec3, direction: Vec3, maxRaycastDistance: real, hit: Option<RayHit>): (p: PathInfo)
    ensures p.startPosition == startPosition && p.direction == direction
    ensures hit.None? ==> p.pathLength == maxRaycastDistance && !p.hitTurnPoint && p.hitObject.None?
    ensures hit.None? ==> p.endPosition == startPosition.Plus(direction.Scale(maxRaycastDistance))
    ensures hit.Some? ==> p.pathLength == hit.value.distance && p.endPosition == hit.value.point
    ensures hit.Some? ==> p.hitObject == Some(hit.value.hitObject)
    ensures p.hitTurnPoint <==> hit.Some? && hit.value.tag == TurnPointTag
  {
    match hit
    case Some(h) =>
      PathInfo(startPosition, h.point, direction, h.distance, Some(h.hitObject), h.tag == TurnPointTag)
    case None =>
      PathInfo(startPosition, startPosition.Plus(direction.Scale(maxRaycastDistance)), direction,
               maxRaycastDistance, None, false)
  }

  /** The length one loop pass appends: the drawn length, cut back to what is
      left of the path when it would run past the end. */
  function ClipToPath(drawn: real, remaining: real): (r: real)
    ensures r <= drawn && r <= remaining
    ensures r == drawn || r == remaining
  {
    if drawn > remaining then remaining else drawn
  }

  /** Whole minimum lengths left between `position` and the end of the path:
      the measure that every full step lowers. */
  function StepsLeft(pathLength: real, position: real, minSegmentSize: real): nat
    requires minSegmentSize > 0.0
  {
    if position < pathLength then ((pathLength - position) / minSegmentSize).Floor + 1 else 0
  }

  /** The split the segmentation loop produces from `position` on, using the
      draws from index `k` on: each segment is its draw clipped to the rest of
      the path, and the split ends when the path is covered. */
  function Split(pathLength: real, position: real, k: nat, minSegmentSize: real, draw: nat -> real): seq<real>
    requires minSegmentSize > 0.0
    requires forall j :: minSegmentSize <= draw(j)
    decreases StepsLeft(pathLength, position, minSegmentSize)
  {
    if position >= pathLength then []
    else
      var s := ClipToPath(draw(k), pathLength - position);
      StepShrinksMeasure(pathLength, position, s, minSegmentSize);
      [s] + Split(pathLength, position + s, k + 1, minSegmentSize, draw)
  }

  /** `DividePathIntoSegments`: `draw(k)` is the k-th `Random.Range(min, max)`
      draw (inclusive of both ends). The result is exactly the split of the
      path by those draws; its properties are the lemmas below. */
  method DividePathIntoSegments(pathLength: real, minSegmentSize: real, maxSegmentSize: real, draw: nat -> real)
    returns (segments: seq<real>)
    requires 0.0 < minSegmentSize <= maxSegmentSize
    requires forall k :: minSegmentSize <= draw(k) <= maxSegmentSize
    ensures segments == Split(pathLength, 0.0, 0, minSegmentSize, draw)
  {
    segments := [];
    var currentPosition := 0.0;
    while currentPosition < pathLength
      invariant segments + Split(pathLength, currentPosition, |segments|, minSegmentSize, draw)
                == Split(pathLength, 0.0, 0, minSegmentSize, draw)
      decreases StepsLeft(pathLength, currentPosition, minSegmentSize)
    {
      var segmentLength := draw(|segments|);
      if currentPosition + segmentLength > pathLength {
        segmentLength := pathLength - currentPosition;
      }
      StepShrinksMeasure(pathLength, currentPosition, segmentLength, minSegmentSize);
      assert segmentLength == ClipToPath(draw(|segments|), pathLength - currentPosition);
      segments := segments + [segmentLength];
      currentPosition := currentPosition + segmentLength;
    }
  }

  /** Termination of the split: a step either covers the rest of the path or
      is a full draw of at least the minimum, which lowers the measure. */
  lemma StepShrinksMeasure(pathLength: real, position: real, step: real, m: real)
    requires m > 0.0 && position < pathLength
    requires step == pathLength - position || (step >= m && position + step < pathLength) || position + step >= pathLength
    ensures StepsLeft(pathLength, position + step, m) < StepsLeft(pathLength, position, m)
  {
    if position + step < pathLength {
      var rest := pathLength - position - step;
      assert (rest + step) / m == rest / m + step / m;
      assert step / m >= 1.0;
    }
  }

  /** The split covers the path exactly: its lengths add up to the distance
      from `position` to the end, and nothing is produced for an empty path. */
  lemma {:induction false} SplitSum(pathLength: real, position: real, k: nat, minSegmentSize: real, draw: nat -> real)
    requires minSegmentSize > 0.0
    requires forall j :: minSegmentSize <= draw(j)
    ensures position >= pathLength ==> Split(pathLength, position, k, minSegmentSize, draw) == []
    ensures position < pathLength ==> Sum(Split(pathLength, position, k, minSegmentSize, draw)) == pathLength - position
    decreases StepsLeft(pathLength, position, minSegmentSize)
  {
    if position < pathLength {
      var s := ClipToPath(draw(k), pathLength - position);
      StepShrinksMeasure(pathLength, position, s, minSegmentSize);
      SplitSum(pathLength, position + s, k + 1, minSegmentSize, draw);
    }
  }

  /** Every segment of the split is positive and at most the maximum draw,
      and every segment but the last is at least the minimum. */
  lemma {:induction false} SplitSizes(pathLength: real, position: real, k: nat, minSegmentSize: real, maxSegmentSize: real, draw: nat -> real)
    requires 0.0 < minSegmentSize <= maxSegmentSize
    requires forall j :: minSegmentSize <= draw(j) <= maxSegmentSize
    ensures forall i :: 0 <= i < |Split(pathLength, position, k, minSegmentSize, draw)| ==>
      0.0 < Split(pathLength, position, k, minSegmentSize, draw)[i] <= maxSegmentSize
    ensures forall i :: 0 <= i < |Split(pathLength, position, k, minSegmentSize, draw)| - 1 ==>
      minSegmentSize <= Split(pathLength, position, k, minSegmentSize, draw)[i]
    decreases StepsLeft(pathLength, position, minSegmentSize)
  {
    if position < pathLength {
      var segs := Split(pathLength, position, k, minSegmentSize, draw);
      var s := ClipToPath(draw(k), pathLength - position);
      StepShrinksMeasure(pathLength, position, s, minSegmentSize);
      var rest := Split(pathLength, position + s, k + 1, minSegmentSize, draw);
      SplitSizes(pathLength, position + s, k + 1, minSegmentSize, maxSegmentSize, draw);
      assert segs == [s] + rest;
      if s < minSegmentSize {
        assert position + s == pathLength;
        SplitSum(pathLength, position + s, k + 1, minSegmentSize, draw);
        assert segs == [s];
      }
      forall i | 0 <= i < |segs|
        ensures 0.0 < segs[i] <= maxSegmentSize
        ensures i < |segs| - 1 ==> minSegmentSize <= segs[i]
      {
        if i > 0 {
          assert segs[i] == rest[i - 1];
        }
      }
    }
  }

  /** Segment `i` of the split is draw `k + i` clipped to what the segments
      before it leave of the path. */
  lemma {:induction false} SplitClips(pathLength: real, position: real, k: nat, minSegmentSize: real, draw: nat -> real)
    requires 0.0 < minSegmentSize
    requires forall j :: minSegmentSize <= draw(j)
    ensures forall i :: 0 <= i < |Split(pathLength, position, k, minSegmentSize, draw)| ==>
      Split(pathLength, position, k, minSegmentSize, draw)[i]
      == ClipToPath(draw(k + i), pathLength - position - Sum(Split(pathLength, position, k, minSegmentSize, draw)[..i]))
    decreases StepsLeft(pathLength, position, minSegmentSize)
  {
    if position < pathLength {
      var segs := Split(pathLength, position, k, minSegmentSize, draw);
      var s := ClipToPath(draw(k), pathLength - position);
      StepShrinksMeasure(pathLength, position, s, minSegmentSize);
      var rest := Split(pathLength, position + s, k + 1, minSegmentSize, draw);
      SplitClips(pathLength, position + s, k + 1, minSegmentSize, draw);
      assert segs == [s] + rest;
      forall i | 0 <= i < |segs|
        ensures segs[i] == ClipToPath(draw(k + i), pathLength - position - Sum(segs[..i]))
      {
        if i == 0 {
          assert segs[..i] == [];
        } else {
          assert segs[i] == rest[i - 1];
          PrefixSumCons(s, rest, i);
          assert k + 1 + (i - 1) == k + i;
        }
      }
    }
  }

  /** The first `i` lengths of `[x] + rest` add up to `x` plus the first
      `i - 1` of `rest`. */
  lemma PrefixSumCons(x: real, rest: seq<real>, i: nat)
    requires 0 < i <= |rest| + 1
    ensures Sum(([x] + rest)[..i]) == x + Sum(rest[..i - 1])
  {
    assert ([x] + rest)[..i][1..] == rest[..i - 1];
  }
}
