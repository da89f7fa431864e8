/** The `ObstacleFire` component: after each completed turn it splits the
    path ahead into random segments of 15 to 30 units and places, with
    probability 0.3 per segment, one obstacle at a random point of the
    segment, in a random lane, built from a random prefab. */
module FireObstacles {
  import opened Common
  import opened PathDetector

  const ObstacleSpawnChance := 0.3
  const ObstacleMinSegment := 15.0
  const ObstacleMaxSegment := 30.0

  /** A placed obstacle: its distance from the turn start along the path,
      its lane, and the index of the prefab it was built from. */
  datatype Obstacle = Obstacle(offset: real, lane: int, prefab: int)

  /** What a run of the segment loop leaves behind: the obstacles placed,
      and whether the loop ran to its end (`false` when indexing an empty
      prefab array threw and ended the call). */
  datatype Outcome = Outcome(spawned: seq<Obstacle>, completed: bool)

  /** The segment loop from segment `k` on, that segment starting at
      `segStart`. For segment `k`, `value(k)` is its `Random.value` draw,
      `lane(k)` its `Random.Range(-1, 2)` draw, `pos(k, len)` its
      `Random.Range(0, len)` draw and `prefab(k)` its
      `Random.Range(0, prefabCount)` draw. With no prefabs the array access
      of a chosen segment throws, and nothing more is placed. */
  function ObstaclePlan(segments: seq<real>, k: nat, segStart: real, prefabCount: nat,
                        value: nat -> real, lane: nat -> int, pos: (nat, real) -> real, prefab: nat -> int): Outcome
    decreases |segments| - k
  {
    if k >= |segments| then Outcome([], true)
    else if value(k) < ObstacleSpawnChance then
      if prefabCount == 0 then Outcome([], false)
      else
        var here := Obstacle(segStart + pos(k, segments[k]), lane(k), prefab(k));
        var rest := ObstaclePlan(segments, k + 1, segStart + segments[k], prefabCount, value, lane, pos, prefab);
        Outcome([here] + rest.spawned, rest.completed)
    else ObstaclePlan(segments, k + 1, segStart + segments[k], prefabCount, value, lane, pos, prefab)
  }

  /** Some segment from `k` on is chosen for an obstacle. */
  predicate AnyChosen(segments: seq<real>, k: nat, value: nat -> real)
  {
    exists j :: k <= j < |segments| && value(j) < ObstacleSpawnChance
  }

  /** Every obstacle lies in [lo, hi], in one of the three lanes, built from
      an existing prefab. */
  predicate Placed(obstacles: seq<Obstacle>, lo: real, hi: real, prefabCount: nat)
  {
    forall o :: o in obstacles ==> lo <= o.offset <= hi && -1 <= o.lane <= 1 && 0 <= o.prefab < prefabCount
  }

  /** Obstacles in non-decreasing order along the path. */
  predicate Ordered(obstacles: seq<Obstacle>)
  {
    forall i, j :: 0 <= i < j < |obstacles| ==> obstacles[i].offset <= obstacles[j].offset
  }

  /** The whole shape of the loop's outcome from segment `k` on: at most one
      obstacle per segment; each inside the stretch of path the segments
      cover, in a lane, from an existing prefab, in path order; and the loop
      completes exactly when there are prefabs or no segment is chosen, and
      places nothing at all without prefabs. */
  lemma {:induction false} ObstaclePlanShape(segments: seq<real>, k: nat, segStart: real, prefabCount: nat,
                                            value: nat -> real, lane: nat -> int, pos: (nat, real) -> real, prefab: nat -> int)
    requires k <= |segments|
    requires forall i :: 0 <= i < |segments| ==> segments[i] > 0.0
    requires forall j :: -1 <= lane(j) <= 1
    requires forall j: nat, len: real :: 0.0 <= len ==> 0.0 <= pos(j, len) <= len
    requires forall j :: prefabCount > 0 ==> 0 <= prefab(j) < prefabCount
    ensures var o := ObstaclePlan(segments, k, segStart, prefabCount, value, lane, pos, prefab);
      && |o.spawned| <= |segments| - k
      && Placed(o.spawned, segStart, segStart + Sum(segments[k..]), prefabCount)
      && Ordered(o.spawned)
      && (o.completed <==> prefabCount > 0 || !AnyChosen(segments, k, value))
      && (prefabCount == 0 ==> o.spawned == [])
    decreases |segments| - k
  {
    if k < |segments| {
      var next := segStart + segments[k];
      var rest := ObstaclePlan(segments, k + 1, next, prefabCount, value, lane, pos, prefab);
      ObstaclePlanShape(segments, k + 1, next, prefabCount, value, lane, pos, prefab);
      assert segments[k..][1..] == segments[k + 1..];
      SumPositive(segments[k + 1..]);
      assert Sum(segments[k..]) == segments[k] + Sum(segments[k + 1..]);
      if AnyChosen(segments, k + 1, value) {
        var j :| k + 1 <= j < |segments| && value(j) < ObstacleSpawnChance;
        assert AnyChosen(segments, k, value);
      }
      if value(k) < ObstacleSpawnChance {
        assert AnyChosen(segments, k, value);
        if prefabCount > 0 {
          var here := Obstacle(segStart + pos(k, segments[k]), lane(k), prefab(k));
          var all := [here] + rest.spawned;
          forall i, j | 0 <= i < j < |all|
            ensures all[i].offset <= all[j].offset
          {
            if i == 0 {
              assert all[j] in rest.spawned;
            } else {
              assert all[i] == rest.spawned[i - 1] && all[j] == rest.spawned[j - 1];
            }
          }
        }
      } else {
        if AnyChosen(segments, k, value) {
          var j :| k <= j < |segments| && value(j) < ObstacleSpawnChance;
          assert j != k;
        }
      }
    } else {
      assert !AnyChosen(segments, k, value);
    }
  }

  /** The segments from `k` on that the loop chooses for an obstacle, in
      path order: those whose `Random.value` draw is below the spawn chance. */
  function Chosen(segments: seq<real>, k: nat, value: nat -> real): seq<nat>
    decreases |segments| - k
  {
    if k >= |segments| then []
    else (if value(k) < ObstacleSpawnChance then [k] else []) + Chosen(segments, k + 1, value)
  }

  /** A segment is chosen exactly when its draw is below 0.3, and the chosen
      segments are listed once each, in path order. */
  lemma {:induction false} ChosenSpec(segments: seq<real>, k: nat, value: nat -> real)
    ensures forall j: nat :: j in Chosen(segments, k, value) <==> k <= j < |segments| && value(j) < ObstacleSpawnChance
    ensures forall a, b :: 0 <= a < b < |Chosen(segments, k, value)| ==>
      Chosen(segments, k, value)[a] < Chosen(segments, k, value)[b]
    decreases |segments| - k
  {
    if k < |segments| {
      ChosenSpec(segments, k + 1, value);
      var c := Chosen(segments, k, value);
      var rest := Chosen(segments, k + 1, value);
      if value(k) < ObstacleSpawnChance {
        assert c == [k] + rest;
        forall a, b | 0 <= a < b < |c|
          ensures c[a] < c[b]
        {
          assert c[b] == rest[b - 1] && rest[b - 1] in rest;
          if a > 0 {
            assert c[a] == rest[a - 1];
          }
        }
      } else {
        assert c == rest;
      }
    }
  }

  /** The stretch before segment `j` splits off its first segment `k`. */
  lemma SumFrom(segments: seq<real>, k: nat, j: nat)
    requires k < j <= |segments|
    ensures Sum(segments[k..j]) == segments[k] + Sum(segments[k + 1..j])
  {
    assert segments[k..j][1..] == segments[k + 1..j];
  }

  /** With prefabs the loop completes and places exactly one obstacle per
      chosen segment, in path order: the i-th obstacle belongs to the i-th
      chosen segment `j`, stands at that segment's start plus the segment's
      position draw, and so inside the segment, and uses the segment's lane
      and prefab draws. */
  lemma {:induction false} ObstaclePlanPerSegment(segments: seq<real>, k: nat, segStart: real, prefabCount: nat,
                                                 value: nat -> real, lane: nat -> int, pos: (nat, real) -> real, prefab: nat -> int)
    requires k <= |segments| && prefabCount > 0
    requires forall i :: 0 <= i < |segments| ==> segments[i] > 0.0
    requires forall j: nat, len: real :: 0.0 <= len ==> 0.0 <= pos(j, len) <= len
    ensures var o := ObstaclePlan(segments, k, segStart, prefabCount, value, lane, pos, prefab);
      var c := Chosen(segments, k, value);
      && o.completed && |o.spawned| == |c|
      && (forall i :: 0 <= i < |c| ==>
            && k <= c[i] < |segments|
            && o.spawned[i] == Obstacle(segStart + Sum(segments[k..c[i]]) + pos(c[i], segments[c[i]]), lane(c[i]), prefab(c[i])))
      && (forall i :: 0 <= i < |c| ==>
            segStart + Sum(segments[k..c[i]]) <= o.spawned[i].offset <= segStart + Sum(segments[k..c[i]]) + segments[c[i]])
    decreases |segments| - k
  {
    var o := ObstaclePlan(segments, k, segStart, prefabCount, value, lane, pos, prefab);
    var c := Chosen(segments, k, value);
    if k < |segments| {
      var next := segStart + segments[k];
      var rest := ObstaclePlan(segments, k + 1, next, prefabCount, value, lane, pos, prefab);
      var cs := Chosen(segments, k + 1, value);
      ObstaclePlanPerSegment(segments, k + 1, next, prefabCount, value, lane, pos, prefab);
      var shift := if value(k) < ObstacleSpawnChance then 1 else 0;
      if value(k) < ObstacleSpawnChance {
        assert o.spawned == [Obstacle(segStart + pos(k, segments[k]), lane(k), prefab(k))] + rest.spawned;
        assert c == [k] + cs;
        assert segments[k..k] == [];
      } else {
        assert o == rest && c == cs;
      }
      forall i | 0 <= i < |c|
        ensures k <= c[i] < |segments|
        ensures o.spawned[i] == Obstacle(segStart + Sum(segments[k..c[i]]) + pos(c[i], segments[c[i]]), lane(c[i]), prefab(c[i]))
        ensures segStart + Sum(segments[k..c[i]]) <= o.spawned[i].offset <= segStart + Sum(segments[k..c[i]]) + segments[c[i]]
      {
        if i >= shift {
          assert c[i] == cs[i - shift] && o.spawned[i] == rest.spawned[i - shift];
          SumFrom(segments, k, c[i]);
        }
        var j := c[i];
        assert 0.0 <= pos(j, segments[j]) <= segments[j];
      }
    }
  }

  /** What one turn yields over a path of `pathLength`: the segments of the
      shared segmentation rule with bounds 15 and 30, filled from the turn start. */
  function ObstaclesFor(pathLength: real, prefabCount: nat, segmentDraw: nat -> real,
                        value: nat -> real, lane: nat -> int, pos: (nat, real) -> real, prefab: nat -> int): Outcome
    requires forall j :: ObstacleMinSegment <= segmentDraw(j) <= ObstacleMaxSegment
  {
    var segments := Split(pathLength, 0.0, 0, ObstacleMinSegment, segmentDraw);
    ObstaclePlan(segments, 0, 0.0, prefabCount, value, lane, pos, prefab)
  }

  /** The obstacles of one turn lie on the measured path, in order, at most
      one per segment of the 15-to-30 split. */
  lemma ObstaclesForShape(pathLength: real, prefabCount: nat, segmentDraw: nat -> real,
                          value: nat -> real, lane: nat -> int, pos: (nat, real) -> real, prefab: nat -> int)
    requires forall j :: ObstacleMinSegment <= segmentDraw(j) <= ObstacleMaxSegment
    requires forall j :: -1 <= lane(j) <= 1
    requires forall j: nat, len: real :: 0.0 <= len ==> 0.0 <= pos(j, len) <= len
    requires forall j :: prefabCount > 0 ==> 0 <= prefab(j) < prefabCount
    ensures var o := ObstaclesFor(pathLength, prefabCount, segmentDraw, value, lane, pos, prefab);
      && Placed(o.spawned, 0.0, if pathLength > 0.0 then pathLength else 0.0, prefabCount)
      && Ordered(o.spawned)
      && |o.spawned| <= |Split(pathLength, 0.0, 0, ObstacleMinSegment, segmentDraw)|
      && (pathLength <= 0.0 ==> o == Outcome([], true))
  {
    var segments := Split(pathLength, 0.0, 0, ObstacleMinSegment, segmentDraw);
    SplitSizes(pathLength, 0.0, 0, ObstacleMinSegment, ObstacleMaxSegment, segmentDraw);
    SplitSum(pathLength, 0.0, 0, ObstacleMinSegment, segmentDraw);
    ObstaclePlanShape(segments, 0, 0.0, prefabCount, value, lane, pos, prefab);
    assert segments[0..] == segments;
  }

  /** With prefabs, one turn places exactly one obstacle per chosen segment
      of the 15-to-30 split, in order, each inside its own segment, with the
      segment's lane and prefab draws. */
  lemma ObstaclesForPerSegment(pathLength: real, prefabCount: nat, segmentDraw: nat -> real,
                               value: nat -> real, lane: nat -> int, pos: (nat, real) -> real, prefab: nat -> int)
    requires forall j :: ObstacleMinSegment <= segmentDraw(j) <= ObstacleMaxSegment
    requires forall j: nat, len: real :: 0.0 <= len ==> 0.0 <= pos(j, len) <= len
    requires prefabCount > 0
    ensures var segments := Split(pathLength, 0.0, 0, ObstacleMinSegment, segmentDraw);
      var o := ObstaclesFor(pathLength, prefabCount, segmentDraw, value, lane, pos, prefab);
      var c := Chosen(segments, 0, value);
      && o.completed && |o.spawned| == |c|
      && (forall i :: 0 <= i < |c| ==>
            && c[i] < |segments|
            && Sum(segments[0..c[i]]) <= o.spawned[i].offset <= Sum(segments[0..c[i]]) + segments[c[i]]
            && o.spawned[i].lane == lane(c[i]) && o.spawned[i].prefab == prefab(c[i]))
  {
    var segments := Split(pathLength, 0.0, 0, ObstacleMinSegment, segmentDraw);
    SplitSizes(pathLength, 0.0, 0, ObstacleMinSegment, ObstacleMaxSegment, segmentDraw);
    ObstaclePlanPerSegment(segments, 0, 0.0, prefabCount, value, lane, pos, prefab);
  }

  class ObstacleFire {
    /** `obstaclePrefabs.Length`. */
    var prefabCount: nat
    var laneWidth: real
    /** `maxRaycastDistance` of the attached path detector. */
    var maxRaycastDistance: real
    var turnStartPos: Vec3
    var listeningForTurns: bool
    /** How many times `onPlayerTurned` has been added to the turn-complete event. */
    var subscriptions: nat
    /** Obstacles spawned and not yet cleared, in spawn order. */
    var spawnedObstacles: seq<Obstacle>
    /** Obstacles handed to `Destroy`. */
    var destroyed: seq<Obstacle>

    /** The handler is on the event exactly when the flag says so, and so at most once. */
    predicate Valid()
      reads this
    {
      subscriptions == if listeningForTurns then 1 else 0
    }

    constructor (prefabCount: nat, maxRaycastDistance: real)
      ensures Valid() && !listeningForTurns
      ensures this.prefabCount == prefabCount && this.maxRaycastDistance == maxRaycastDistance
      ensures laneWidth == 3.0
      ensures spawnedObstacles == [] && destroyed == []
    {
      this.prefabCount := prefabCount;
      this.maxRaycastDistance := maxRaycastDistance;
      laneWidth := 3.0;
      turnStartPos := Zero;
      listeningForTurns := false;
      subscriptions := 0;
      spawnedObstacles := [];
      destroyed := [];
    }

    /** `Update`: subscribes to the turn-complete event on the first frame only. */
    method Update()
      requires Valid()
      modifies this`listeningForTurns, this`subscriptions
      ensures Valid() && listeningForTurns
      ensures subscriptions == 1
      ensures old(listeningForTurns) ==> subscriptions == old(subscriptions)
    {
      if !listeningForTurns {
        subscriptions := subscriptions + 1;
        listeningForTurns := true;
      }
    }

    /** `SpawnObstacles`: measures the path from the turn start (`hit` is the
        detector's ray cast), splits it with `segmentDraw` and places the
        obstacles; `completed` is false when the call ended by the exception. */
    method SpawnObstacles(forward: Vec3, hit: Option<RayHit>, segmentDraw: nat -> real,
                          value: nat -> real, lane: nat -> int, pos: (nat, real) -> real, prefab: nat -> int)
      returns (completed: bool)
      requires forall j :: ObstacleMinSegment <= segmentDraw(j) <= ObstacleMaxSegment
      modifies this`spawnedObstacles
      ensures var o := ObstaclesFor(DetectPath(turnStartPos, forward, maxRaycastDistance, hit).pathLength,
                                    prefabCount, segmentDraw, value, lane, pos, prefab);
        spawnedObstacles == old(spawnedObstacles) + o.spawned && completed == o.completed
    {
      var pathInfo := DetectPath(turnStartPos, forward, maxRaycastDistance, hit);
      var segments := DividePathIntoSegments(pathInfo.pathLength, ObstacleMinSegment, ObstacleMaxSegment, segmentDraw);
      completed := PlaceInSegments(segments, value, lane, pos, prefab);
    }

    /** The `foreach` over the segments in `SpawnObstacles`. */
    method PlaceInSegments(segments: seq<real>, value: nat -> real, lane: nat -> int,
                           pos: (nat, real) -> real, prefab: nat -> int)
      returns (completed: bool)
      modifies this`spawnedObstacles
      ensures var o := ObstaclePlan(segments, 0, 0.0, prefabCount, value, lane, pos, prefab);
        spawnedObstacles == old(spawnedObstacles) + o.spawned && completed == o.completed
    {
      var currentPosition := 0.0;
      var k := 0;
      while k < |segments|
        invariant 0 <= k <= |segments|
        invariant var rest := ObstaclePlan(segments, k, currentPosition, prefabCount, value, lane, pos, prefab);
          var whole := ObstaclePlan(segments, 0, 0.0, prefabCount, value, lane, pos, prefab);
          spawnedObstacles + rest.spawned == old(spawnedObstacles) + whole.spawned && rest.completed == whole.completed
      {
        var segmentLength := segments[k];
        if value(k) < ObstacleSpawnChance {
          var obstacleLane := lane(k);
          var posInSegment := pos(k, segmentLength);
          if prefabCount == 0 {
            // `obstaclePrefabs[Random.Range(0, 0)]` is out of range: the call ends here.
            return false;
          }
          var prefabIndex := prefab(k);
          ghost var rest := ObstaclePlan(segments, k + 1, currentPosition + segmentLength, prefabCount, value, lane, pos, prefab);
          var obstacle := Obstacle(currentPosition + posInSegment, obstacleLane, prefabIndex);
          assert spawnedObstacles + [obstacle] + rest.spawned == spawnedObstacles + ([obstacle] + rest.spawned);
          spawnedObstacles := spawnedObstacles + [obstacle];
        }
        currentPosition := currentPosition + segmentLength;
        k := k + 1;
      }
      completed := true;
    }

    /** `onPlayerTurned`: records the turn start and spawns the obstacles ahead. */
    method OnPlayerTurned(position: Vec3, forward: Vec3, hit: Option<RayHit>, segmentDraw: nat -> real,
                          value: nat -> real, lane: nat -> int, pos: (nat, real) -> real, prefab: nat -> int)
      returns (completed: bool)
      requires forall j :: ObstacleMinSegment <= segmentDraw(j) <= ObstacleMaxSegment
      modifies this`turnStartPos, this`spawnedObstacles
      ensures turnStartPos == position
      ensures var o := ObstaclesFor(DetectPath(position, forward, maxRaycastDistance, hit).pathLength,
                                    prefabCount, segmentDraw, value, lane, pos, prefab);
        spawnedObstacles == old(spawnedObstacles) + o.spawned && completed == o.completed
    {
      turnStartPos := position;
      completed := SpawnObstacles(forward, hit, segmentDraw, value, lane, pos, prefab);
    }

    /** `ClearObstacles`: every tracked obstacle is destroyed and the list emptied.
        The source skips entries that are already null, destroyed elsewhere;
        nothing in this model destroys a tracked object behind the list's
        back, so every entry is logged as destroyed. */
    method ClearObstacles()
      modifies this`spawnedObstacles, this`destroyed
      ensures spawnedObstacles == []
      ensures destroyed == old(destroyed) + old(spawnedObstacles)
    {
      destroyed := destroyed + spawnedObstacles;
      spawnedObstacles := [];
    }
  }
}
