/** The `ObstacleSpawner` component: after each completed turn it measures the
    path ahead and places trap walls, biased toward the end of the path, and
    fires spread evenly over the three lanes, keeping a safe zone free at both
    ends of the path. Placements are recorded by their distance from the turn
    start (the world position is `turnStartPos + forward * distance`). */
module ObstacleSpawning {
  import opened Common
  import opened PathDetector

  /** A spawned obstacle: a trap wall, or a fire shifted sideways by
      `laneMultiplier * laneWidth` along the right vector. */
  datatype Trap = Wall(distance: real) | Fire(distance: real, laneMultiplier: int)

  /** Length of the path left once both safe zones are taken off. */
  function UsableLength(pathLength: real, safeZoneDistance: real): real
  {
    pathLength - 2.0 * safeZoneDistance
  }

  /** Distance of wall `i` of `maxTraps`: the fraction (i+1)/(maxTraps+1)
      squared, so that the walls crowd toward the end of the usable range. */
  function WallDistance(i: int, maxTraps: int, safeZoneDistance: real, usable: real): real
    requires 0 <= i < maxTraps
  {
    var t := (i as real + 1.0) / (maxTraps as real + 1.0);
    safeZoneDistance + t * t * usable
  }

  /** A fraction of a positive whole below its denominator lies in (0,1). */
  lemma ProperFraction(a: real, n: real)
    requires 0.0 < a < n
    ensures 0.0 < a / n < 1.0
  {
    var t := a / n;
    var u := 1.0 - t;
    assert u * n == n - a;
    assert t * n == a;
  }

  /** Every wall lies strictly inside the usable range. */
  lemma WallInsideUsableRange(i: int, maxTraps: int, safeZoneDistance: real, usable: real)
    requires 0 <= i < maxTraps && usable > 0.0
    ensures safeZoneDistance < WallDistance(i, maxTraps, safeZoneDistance, usable) < safeZoneDistance + usable
  {
    var t := (i as real + 1.0) / (maxTraps as real + 1.0);
    ProperFraction(i as real + 1.0, maxTraps as real + 1.0);
    assert t * t < t by { assert t * t < t * 1.0; }
    assert 0.0 < t * t * usable < usable by {
      assert t * t * usable < 1.0 * usable;
    }
  }

  /** Walls are placed in strictly increasing distance. */
  lemma WallsIncrease(i: int, j: int, maxTraps: int, safeZoneDistance: real, usable: real)
    requires 0 <= i < j < maxTraps && usable > 0.0
    ensures WallDistance(i, maxTraps, safeZoneDistance, usable) < WallDistance(j, maxTraps, safeZoneDistance, usable)
  {
    var n := maxTraps as real + 1.0;
    var ti := (i as real + 1.0) / n;
    var tj := (j as real + 1.0) / n;
    assert ti * n == i as real + 1.0 && tj * n == j as real + 1.0;
    assert 0.0 < ti < tj;
    assert ti * ti < tj * tj by {
      assert ti * ti < ti * tj;
      assert ti * tj < tj * tj;
    }
    assert ti * ti * usable < tj * tj * usable;
  }

  /** Distance of fire `i` of `maxFires`: the middle of the i-th of
      `maxFires` equal slices of the usable range. */
  function FireDistance(i: int, maxFires: int, safeZoneDistance: real, usable: real): real
    requires 0 <= i < maxFires
  {
    safeZoneDistance + ((i as real + 0.5) / maxFires as real) * usable
  }

  /** Every fire lies strictly inside the usable range. */
  lemma FireInsideUsableRange(i: int, maxFires: int, safeZoneDistance: real, usable: real)
    requires 0 <= i < maxFires && usable > 0.0
    ensures safeZoneDistance < FireDistance(i, maxFires, safeZoneDistance, usable) < safeZoneDistance + usable
  {
    var t := (i as real + 0.5) / maxFires as real;
    ProperFraction(i as real + 0.5, maxFires as real);
    assert t * usable < 1.0 * usable;
  }

  /** Fires are placed in strictly increasing distance. */
  lemma FiresIncrease(i: int, j: int, maxFires: int, safeZoneDistance: real, usable: real)
    requires 0 <= i < j < maxFires && usable > 0.0
    ensures FireDistance(i, maxFires, safeZoneDistance, usable) < FireDistance(j, maxFires, safeZoneDistance, usable)
  {
    var ti := (i as real + 0.5) / maxFires as real;
    var tj := (j as real + 0.5) / maxFires as real;
    assert ti * maxFires as real == i as real + 0.5 && tj * maxFires as real == j as real + 0.5;
    assert ti < tj;
    assert ti * usable < tj * usable;
  }

  /** The lane of a fire from `Random.Range(0, 3)`: choices 0, 1 and 2 are
      the left, middle and right lane, anything else the middle one. */
  function LaneMultiplier(laneChoice: int): (m: int)
    ensures -1 <= m <= 1
    ensures 0 <= laneChoice <= 2 ==> m == laneChoice - 1
    ensures !(0 <= laneChoice <= 2) ==> m == 0
  {
    match laneChoice
    case 0 => -1
    case 1 => 0
    case 2 => 1
    case _ => 0
  }

  /** The walls one call places: none when the path or its usable part is
      empty, otherwise one per index below `maxTraps`. */
  function WallPlan(pathLength: real, maxTraps: int, safeZoneDistance: real): seq<Trap>
  {
    var usable := UsableLength(pathLength, safeZoneDistance);
    if pathLength <= 0.0 || usable <= 0.0 then []
    else seq(Count(maxTraps), i requires 0 <= i < Count(maxTraps) => Wall(WallDistance(i, maxTraps, safeZoneDistance, usable)))
  }

  /** The fires one call places; `laneChoice(i)` is the i-th `Random.Range(0, 3)` draw. */
  function FirePlan(pathLength: real, maxFires: int, safeZoneDistance: real, laneChoice: nat -> int): seq<Trap>
  {
    var usable := UsableLength(pathLength, safeZoneDistance);
    if pathLength <= 0.0 || usable <= 0.0 then
      []
    else
      seq(Count(maxFires), i requires 0 <= i < Count(maxFires) =>
        Fire(FireDistance(i, maxFires, safeZoneDistance, usable), LaneMultiplier(laneChoice(i))))
  }

  /** The walls one call places, stated outright: none on a path without
      usable length, otherwise exactly `maxTraps` walls, strictly inside the
      usable range and in strictly increasing order. */
  lemma WallPlanShape(pathLength: real, maxTraps: int, safeZoneDistance: real)
    ensures var usable := UsableLength(pathLength, safeZoneDistance);
      pathLength <= 0.0 || usable <= 0.0 ==> WallPlan(pathLength, maxTraps, safeZoneDistance) == []
    ensures var usable := UsableLength(pathLength, safeZoneDistance);
      pathLength > 0.0 && usable > 0.0 ==> |WallPlan(pathLength, maxTraps, safeZoneDistance)| == Count(maxTraps)
    ensures var usable := UsableLength(pathLength, safeZoneDistance);
      var walls := WallPlan(pathLength, maxTraps, safeZoneDistance);
      forall i :: 0 <= i < |walls| ==> walls[i].Wall? && safeZoneDistance < walls[i].distance < safeZoneDistance + usable
    ensures var walls := WallPlan(pathLength, maxTraps, safeZoneDistance);
      forall i, j :: 0 <= i < j < |walls| ==> walls[i].distance < walls[j].distance
  {
    var usable := UsableLength(pathLength, safeZoneDistance);
    var walls := WallPlan(pathLength, maxTraps, safeZoneDistance);
    if pathLength > 0.0 && usable > 0.0 {
      assert |walls| == Count(maxTraps);
      forall i | 0 <= i < |walls|
        ensures walls[i].Wall? && safeZoneDistance < walls[i].distance < safeZoneDistance + usable
      {
        assert walls[i] == Wall(WallDistance(i, maxTraps, safeZoneDistance, usable));
        WallInsideUsableRange(i, maxTraps, safeZoneDistance, usable);
      }
      forall i, j | 0 <= i < j < |walls|
        ensures walls[i].distance < walls[j].distance
      {
        assert walls[i] == Wall(WallDistance(i, maxTraps, safeZoneDistance, usable));
        assert walls[j] == Wall(WallDistance(j, maxTraps, safeZoneDistance, usable));
        WallsIncrease(i, j, maxTraps, safeZoneDistance, usable);
      }
    }
  }

  /** The fires one call places, stated outright: none on a path without
      usable length, otherwise exactly `maxFires` fires, strictly inside the
      usable range, in strictly increasing order, each in the lane its draw picks. */
  lemma FirePlanShape(pathLength: real, maxFires: int, safeZoneDistance: real, laneChoice: nat -> int)
    ensures var usable := UsableLength(pathLength, safeZoneDistance);
      pathLength <= 0.0 || usable <= 0.0 ==> FirePlan(pathLength, maxFires, safeZoneDistance, laneChoice) == []
    ensures var usable := UsableLength(pathLength, safeZoneDistance);
      pathLength > 0.0 && usable > 0.0 ==> |FirePlan(pathLength, maxFires, safeZoneDistance, laneChoice)| == Count(maxFires)
    ensures var usable := UsableLength(pathLength, safeZoneDistance);
      var fires := FirePlan(pathLength, maxFires, safeZoneDistance, laneChoice);
      forall i :: 0 <= i < |fires| ==> fires[i].Fire? && safeZoneDistance < fires[i].distance < safeZoneDistance + usable
    ensures var fires := FirePlan(pathLength, maxFires, safeZoneDistance, laneChoice);
      forall i :: 0 <= i < |fires| ==> fires[i].Fire? && fires[i].laneMultiplier == LaneMultiplier(laneChoice(i))
    ensures var fires := FirePlan(pathLength, maxFires, safeZoneDistance, laneChoice);
      forall i, j :: 0 <= i < j < |fires| ==> fires[i].distance < fires[j].distance
  {
    var usable := UsableLength(pathLength, safeZoneDistance);
    var fires := FirePlan(pathLength, maxFires, safeZoneDistance, laneChoice);
    if pathLength > 0.0 && usable > 0.0 {
      assert |fires| == Count(maxFires);
      forall i | 0 <= i < |fires|
        ensures fires[i].Fire? && safeZoneDistance < fires[i].distance < safeZoneDistance + usable
      {
        assert fires[i] == Fire(FireDistance(i, maxFires, safeZoneDistance, usable), LaneMultiplier(laneChoice(i)));
        FireInsideUsableRange(i, maxFires, safeZoneDistance, usable);
      }
      forall i, j | 0 <= i < j < |fires|
        ensures fires[i].distance < fires[j].distance
      {
        assert fires[i] == Fire(FireDistance(i, maxFires, safeZoneDistance, usable), LaneMultiplier(laneChoice(i)));
        assert fires[j] == Fire(FireDistance(j, maxFires, safeZoneDistance, usable), LaneMultiplier(laneChoice(j)));
        FiresIncrease(i, j, maxFires, safeZoneDistance, usable);
      }
    }
  }

  class ObstacleSpawner {
    var maxTraps: int
    var maxFires: int
    var laneWidth: real
    var safeZoneDistance: real
    var frameDelay: int
    /** `maxRaycastDistance` of the attached path detector. */
    var maxRaycastDistance: real
    var turnStartPos: Vec3
    /** Every wall and fire spawned and not yet cleared, in spawn order. */
    var spawnedTraps: seq<Trap>
    /** Path queries of `DelayedObstacleSpawn` coroutines still waiting for their frames. */
    var pending: seq<PathInfo>
    /** Obstacles handed to `Destroy`. */
    var destroyed: seq<Trap>

    /** The component with its serialized settings (defaults 5, 8, 3, 10, 3 and 500). */
    constructor (maxTraps: int, maxFires: int, laneWidth: real, safeZoneDistance: real, frameDelay: int, maxRaycastDistance: real)
      ensures this.maxTraps == maxTraps && this.maxFires == maxFires && this.laneWidth == laneWidth
      ensures this.safeZoneDistance == safeZoneDistance && this.frameDelay == frameDelay
      ensures this.maxRaycastDistance == maxRaycastDistance
      ensures spawnedTraps == [] && pending == [] && destroyed == []
    {
      this.maxTraps := maxTraps;
      this.maxFires := maxFires;
      this.laneWidth := laneWidth;
      this.safeZoneDistance := safeZoneDistance;
      this.frameDelay := frameDelay;
      this.maxRaycastDistance := maxRaycastDistance;
      turnStartPos := Zero;
      spawnedTraps := [];
      pending := [];
      destroyed := [];
    }

    /** `SpawnObsWalls`: appends the walls of `WallPlan` to the tracked obstacles. */
    method SpawnObsWalls(pathInfo: PathInfo)
      modifies this`spawnedTraps
      ensures spawnedTraps == old(spawnedTraps) + WallPlan(pathInfo.pathLength, maxTraps, safeZoneDistance)
    {
      if pathInfo.pathLength <= 0.0 {
        return;
      }
      var usablePathLength := pathInfo.pathLength - 2.0 * safeZoneDistance;
      if usablePathLength <= 0.0 {
        return;
      }
      ghost var plan := WallPlan(pathInfo.pathLength, maxTraps, safeZoneDistance);
      var i := 0;
      while i < maxTraps
        invariant 0 <= i <= Count(maxTraps)
        invariant spawnedTraps == old(spawnedTraps) + plan[..i]
      {
        var t := (i as real + 1.0) / (maxTraps as real + 1.0);
        var biasedT := t * t;
        var distanceFromStart := safeZoneDistance + biasedT * usablePathLength;
        assert plan[i] == Wall(distanceFromStart);
        assert plan[..i + 1] == plan[..i] + [plan[i]];
        spawnedTraps := spawnedTraps + [Wall(distanceFromStart)];
        i := i + 1;
      }
      assert plan[..i] == plan;
    }

    /** `SpawnFires`: appends the fires of `FirePlan` to the tracked obstacles;
        `laneChoice(i)` is the lane draw of the i-th fire. */
    method SpawnFires(pathInfo: PathInfo, laneChoice: nat -> int)
      modifies this`spawnedTraps
      ensures spawnedTraps == old(spawnedTraps) + FirePlan(pathInfo.pathLength, maxFires, safeZoneDistance, laneChoice)
    {
      if pathInfo.pathLength <= 0.0 {
        return;
      }
      var usablePathLength := pathInfo.pathLength - 2.0 * safeZoneDistance;
      if usablePathLength <= 0.0 {
        return;
      }
      ghost var plan := FirePlan(pathInfo.pathLength, maxFires, safeZoneDistance, laneChoice);
      var i := 0;
      while i < maxFires
        invariant 0 <= i <= Count(maxFires)
        invariant spawnedTraps == old(spawnedTraps) + plan[..i]
      {
        var t := (i as real + 0.5) / maxFires as real;
        var distanceFromStart := safeZoneDistance + t * usablePathLength;
        var laneMultiplier := LaneMultiplier(laneChoice(i));
        assert plan[i] == Fire(distanceFromStart, laneMultiplier);
        assert plan[..i + 1] == plan[..i] + [plan[i]];
        spawnedTraps := spawnedTraps + [Fire(distanceFromStart, laneMultiplier)];
        i := i + 1;
      }
      assert plan[..i] == plan;
    }

    /** `OnPlayerTurned` with the first, synchronous part of
        `DelayedObstacleSpawn`: the turn start is recorded and the path ahead
        measured at once (`hit` is the detector's ray cast). With a positive
        frame delay the spawn waits in `pending`; otherwise the coroutine runs
        through and spawns fires, then walls, immediately. */
    method OnPlayerTurned(position: Vec3, forward: Vec3, hit: Option<RayHit>, laneChoice: nat -> int)
      modifies this`turnStartPos, this`pending, this`spawnedTraps
      ensures turnStartPos == position
      ensures var info := DetectPath(position, forward, maxRaycastDistance, hit);
        if frameDelay > 0 then
          pending == old(pending) + [info] && spawnedTraps == old(spawnedTraps)
        else
          pending == old(pending) &&
          spawnedTraps == old(spawnedTraps)
                          + FirePlan(info.pathLength, maxFires, safeZoneDistance, laneChoice)
                          + WallPlan(info.pathLength, maxTraps, safeZoneDistance)
    {
      turnStartPos := position;
      var pathInfo := DetectPath(turnStartPos, forward, maxRaycastDistance, hit);
      if frameDelay > 0 {
        pending := pending + [pathInfo];
      } else {
        SpawnFires(pathInfo, laneChoice);
        SpawnObsWalls(pathInfo);
      }
    }

    /** The resumption of the oldest waiting `DelayedObstacleSpawn` after its
        `frameDelay` frames: fires are spawned first, then walls, both from the
        path measured when the turn completed. Nothing happens when no spawn waits. */
    method ResumeDelayedSpawn(laneChoice: nat -> int)
      modifies this`pending, this`spawnedTraps
      ensures old(pending) == [] ==> pending == [] && spawnedTraps == old(spawnedTraps)
      ensures old(pending) != [] ==>
        pending == old(pending)[1..] &&
        spawnedTraps == old(spawnedTraps)
                        + FirePlan(old(pending)[0].pathLength, maxFires, safeZoneDistance, laneChoice)
                        + WallPlan(old(pending)[0].pathLength, maxTraps, safeZoneDistance)
    {
      if pending != [] {
        var pathInfo := pending[0];
        pending := pending[1..];
        SpawnFires(pathInfo, laneChoice);
        SpawnObsWalls(pathInfo);
      }
    }

    /** `ClearTraps`: every tracked obstacle is destroyed and the list emptied.
        The source skips entries that are already null, destroyed elsewhere;
        nothing in this model destroys a tracked object behind the list's
        back, so every entry is logged as destroyed. */
    method ClearTraps()
      modifies this`spawnedTraps, this`destroyed
      ensures spawnedTraps == []
      ensures destroyed == old(destroyed) + old(spawnedTraps)
    {
      destroyed := destroyed + spawnedTraps;
      spawnedTraps := [];
    }
  }
}
