/** The `TrapWallSpawner` component: after each completed turn it walks the
    path ahead from the near safe zone in random steps of 8 to 12 units,
    placing a trap wall in a random lane at each step, at most `maxTraps`
    walls, and stops at the first step that would leave the usable range. */
module TrapWalls {
  import opened Common
  import opened PathDetector

  /** A trap wall: its distance from the turn start along the path and its
      lane; the world position is `turnStartPos + forward * offset +
      right * (lane * laneWidth) + up`. */
  datatype TrapWall = TrapWall(offset: real, lane: int)

  /** Total of the `n` step draws from index `i` on. */
  function Advance(step: nat -> real, i: nat, n: nat): real
    decreases n
  {
    if n == 0 then 0.0 else step(i) + Advance(step, i + 1, n - 1)
  }

  /** The walls the placement loop yields from iteration `i` on, standing at
      `position`: a wall at the current position as long as the step drawn in
      this iteration still fits before `limit`, then the next iteration one
      step further on. `step(i)` is the i-th `Random.Range(8f, 12f)` draw and
      `lane(i)` the i-th `Random.Range(-1, 2)` draw. */
  function TrapWallPlan(i: nat, maxTraps: int, position: real, limit: real,
                        step: nat -> real, lane: nat -> int): seq<TrapWall>
    decreases maxTraps - i
  {
    if i >= maxTraps || position + step(i) > limit then []
    else [TrapWall(position, lane(i))] + TrapWallPlan(i + 1, maxTraps, position + step(i), limit, step, lane)
  }

  /** The walls of one `SpawnTrapWalls` call over a path of `pathLength`:
      none when the path or its usable part is empty, otherwise the loop
      from the near safe zone to the far one. */
  function TrapWallsFor(pathLength: real, maxTraps: int, safeZoneDistance: real,
                        step: nat -> real, lane: nat -> int): seq<TrapWall>
  {
    var usable := pathLength - 2.0 * safeZoneDistance;
    if pathLength <= 0.0 || usable <= 0.0 then []
    else TrapWallPlan(0, maxTraps, safeZoneDistance, safeZoneDistance + usable, step, lane)
  }

  /** The whole shape of the walls placed from iteration `i`: no more than
      the iterations left; wall `j` stands at the start plus the steps drawn
      before it and uses lane draw `i + j`; the step drawn at each wall still
      fits before the limit; and when the loop ends before `maxTraps`
      iterations, it is because the next step would overflow. */
  lemma {:induction false} TrapWallPlanShape(i: nat, maxTraps: int, position: real, limit: real,
                                            step: nat -> real, lane: nat -> int)
    ensures var plan := TrapWallPlan(i, maxTraps, position, limit, step, lane);
      && |plan| <= Count(maxTraps - i)
      && (forall j :: 0 <= j < |plan| ==> plan[j].offset == position + Advance(step, i, j))
      && (forall j :: 0 <= j < |plan| ==> plan[j].lane == lane(i + j))
      && (forall j :: 0 <= j < |plan| ==> plan[j].offset + step(i + j) <= limit)
      && (i + |plan| < maxTraps ==> position + Advance(step, i, |plan|) + step(i + |plan|) > limit)
    decreases maxTraps - i
  {
    var plan := TrapWallPlan(i, maxTraps, position, limit, step, lane);
    if !(i >= maxTraps || position + step(i) > limit) {
      var rest := TrapWallPlan(i + 1, maxTraps, position + step(i), limit, step, lane);
      TrapWallPlanShape(i + 1, maxTraps, position + step(i), limit, step, lane);
      assert plan == [TrapWall(position, lane(i))] + rest;
      forall j | 1 <= j < |plan|
        ensures plan[j].offset == position + Advance(step, i, j)
        ensures plan[j].lane == lane(i + j)
        ensures plan[j].offset + step(i + j) <= limit
      {
        assert plan[j] == rest[j - 1];
      }
      assert Advance(step, i, |plan|) == step(i) + Advance(step, i + 1, |rest|);
    }
  }

  /** Consecutive walls are exactly one drawn step apart, so with steps of
      at least 8 units the walls advance strictly along the path. */
  lemma {:induction false} TrapWallsStepApart(i: nat, maxTraps: int, position: real, limit: real,
                                             step: nat -> real, lane: nat -> int)
    ensures var plan := TrapWallPlan(i, maxTraps, position, limit, step, lane);
      && (|plan| > 0 ==> plan[0].offset == position)
      && (forall j :: 0 <= j < |plan| - 1 ==> plan[j + 1].offset == plan[j].offset + step(i + j))
    decreases maxTraps - i
  {
    var plan := TrapWallPlan(i, maxTraps, position, limit, step, lane);
    if !(i >= maxTraps || position + step(i) > limit) {
      var rest := TrapWallPlan(i + 1, maxTraps, position + step(i), limit, step, lane);
      TrapWallsStepApart(i + 1, maxTraps, position + step(i), limit, step, lane);
      assert plan == [TrapWall(position, lane(i))] + rest;
      forall j | 0 <= j < |plan| - 1
        ensures plan[j + 1].offset == plan[j].offset + step(i + j)
      {
        if j > 0 {
          assert plan[j] == rest[j - 1] && plan[j + 1] == rest[j];
        }
      }
    }
  }

  /** With every step drawn in 8..12, the walls placed from iteration `i`
      all stand between `position` and 8 units short of `limit`, each later
      wall at least 8 units beyond every earlier one, and consecutive walls
      at most 12 units apart. */
  lemma {:induction false} TrapWallPlanBounds(i: nat, maxTraps: int, position: real, limit: real,
                                             step: nat -> real, lane: nat -> int)
    requires forall k :: 8.0 <= step(k) <= 12.0
    ensures var plan := TrapWallPlan(i, maxTraps, position, limit, step, lane);
      && (|plan| > 0 ==> plan[0].offset == position)
      && (forall j :: 0 <= j < |plan| ==> position <= plan[j].offset <= limit - 8.0)
      && (forall a, b :: 0 <= a < b < |plan| ==> plan[a].offset + 8.0 <= plan[b].offset)
      && (forall j :: 0 <= j < |plan| - 1 ==> plan[j + 1].offset <= plan[j].offset + 12.0)
    decreases maxTraps - i
  {
    var plan := TrapWallPlan(i, maxTraps, position, limit, step, lane);
    if !(i >= maxTraps || position + step(i) > limit) {
      var rest := TrapWallPlan(i + 1, maxTraps, position + step(i), limit, step, lane);
      TrapWallPlanBounds(i + 1, maxTraps, position + step(i), limit, step, lane);
      assert plan == [TrapWall(position, lane(i))] + rest;
      forall j | 1 <= j < |plan|
        ensures position + 8.0 <= plan[j].offset <= limit - 8.0
      {
        assert plan[j] == rest[j - 1];
      }
      forall a, b | 0 <= a < b < |plan|
        ensures plan[a].offset + 8.0 <= plan[b].offset
      {
        if a > 0 {
          assert plan[a] == rest[a - 1] && plan[b] == rest[b - 1];
        }
      }
      forall j | 0 <= j < |plan| - 1
        ensures plan[j + 1].offset <= plan[j].offset + 12.0
      {
        if j > 0 {
          assert plan[j] == rest[j - 1] && plan[j + 1] == rest[j];
        } else {
          assert plan[1] == rest[0];
        }
      }
    }
  }

  /** What one call places, stated for the component's settings, with each
      step draw in the 8..12 range `Random.Range(8f, 12f)` guarantees and
      each lane draw in -1..1: nothing on a path without usable length;
      otherwise at most `maxTraps` walls, the first at the safe-zone
      distance, every wall inside the usable range with room for a whole
      step before its far end, later walls at least 8 and consecutive ones
      at most 12 units further on, every lane one of -1, 0 and 1. */
  lemma TrapWallsForShape(pathLength: real, maxTraps: int, safeZoneDistance: real,
                          step: nat -> real, lane: nat -> int)
    requires forall k :: 8.0 <= step(k) <= 12.0
    requires forall k :: -1 <= lane(k) <= 1
    ensures var usable := pathLength - 2.0 * safeZoneDistance;
      var walls := TrapWallsFor(pathLength, maxTraps, safeZoneDistance, step, lane);
      && (pathLength <= 0.0 || usable <= 0.0 ==> walls == [])
      && |walls| <= Count(maxTraps)
      && (|walls| > 0 ==> walls[0].offset == safeZoneDistance)
      && (forall j :: 0 <= j < |walls| ==>
            safeZoneDistance <= walls[j].offset <= safeZoneDistance + usable - 8.0)
      && (forall j :: 0 <= j < |walls| ==> walls[j].offset + step(j) <= safeZoneDistance + usable)
      && (forall i, j :: 0 <= i < j < |walls| ==> walls[i].offset + 8.0 <= walls[j].offset)
      && (forall j :: 0 <= j < |walls| - 1 ==> walls[j + 1].offset <= walls[j].offset + 12.0)
      && (forall j :: 0 <= j < |walls| ==> -1 <= walls[j].lane <= 1)
  {
    var usable := pathLength - 2.0 * safeZoneDistance;
    var walls := TrapWallsFor(pathLength, maxTraps, safeZoneDistance, step, lane);
    if pathLength > 0.0 && usable > 0.0 {
      var limit := safeZoneDistance + usable;
      assert walls == TrapWallPlan(0, maxTraps, safeZoneDistance, limit, step, lane);
      TrapWallPlanShape(0, maxTraps, safeZoneDistance, limit, step, lane);
      TrapWallPlanBounds(0, maxTraps, safeZoneDistance, limit, step, lane);
      forall j | 0 <= j < |walls|
        ensures walls[j].offset + step(j) <= limit && -1 <= walls[j].lane <= 1
      {
        assert walls[j].offset + step(0 + j) <= limit && walls[j].lane == lane(0 + j);
      }
    }
  }

  class TrapWallSpawner {
    var maxTraps: int
    var safeZoneDistance: real
    var laneWidth: real
    /** `maxRaycastDistance` of the attached path detector. */
    var maxRaycastDistance: real
    var turnStartPos: Vec3
    var listeningForTurns: bool
    /** How many times `OnPlayerTurned` has been added to the turn-complete event. */
    var subscriptions: nat
    /** Walls spawned and not yet cleared, in spawn order. */
    var spawnedTraps: seq<TrapWall>
    /** Walls handed to `Destroy`. */
    var destroyed: seq<TrapWall>

    /** The handler is on the event exactly when the flag says so, and so at most once. */
    predicate Valid()
      reads this
    {
      subscriptions == if listeningForTurns then 1 else 0
    }

    /** The component with its serialized settings (defaults 5, 10 and 3). */
    constructor (maxTraps: int, safeZoneDistance: real, laneWidth: real, maxRaycastDistance: real)
      ensures Valid() && !listeningForTurns
      ensures this.maxTraps == maxTraps && this.safeZoneDistance == safeZoneDistance
      ensures this.laneWidth == laneWidth && this.maxRaycastDistance == maxRaycastDistance
      ensures spawnedTraps == [] && destroyed == []
    {
      this.maxTraps := maxTraps;
      this.safeZoneDistance := safeZoneDistance;
      this.laneWidth := laneWidth;
      this.maxRaycastDistance := maxRaycastDistance;
      turnStartPos := Zero;
      listeningForTurns := false;
      subscriptions := 0;
      spawnedTraps := [];
      destroyed := [];
    }

    /** `Update`: subscribes to the turn-complete event on the first frame only. */
    method Update()
      requires Valid()
      modifies this`listeningForTurns, this`subscriptions
      ensures Valid() && listeningForTurns
      ensures subscriptions == 1
      ensures old(listeningForTurns) ==> subscriptions == old(subscriptions)
    {
      if !listeningForTurns {
        subscriptions := subscriptions + 1;
        listeningForTurns := true;
      }
    }

    /** `SpawnTrapWalls`: measures the path from the turn start (`hit` is the
        detector's ray cast) and appends the walls of `TrapWallsFor`. */
    method SpawnTrapWalls(forward: Vec3, hit: Option<RayHit>, step: nat -> real, lane: nat -> int)
      modifies this`spawnedTraps
      ensures var pathInfo := DetectPath(turnStartPos, forward, maxRaycastDistance, hit);
        spawnedTraps == old(spawnedTraps) + TrapWallsFor(pathInfo.pathLength, maxTraps, safeZoneDistance, step, lane)
    {
      var pathInfo := DetectPath(turnStartPos, forward, maxRaycastDistance, hit);
      if pathInfo.pathLength > 0.0 {
        var currentPosition := safeZoneDistance;
        var usablePathLength := pathInfo.pathLength - 2.0 * safeZoneDistance;
        if usablePathLength <= 0.0 {
          return;
        }
        ghost var limit := safeZoneDistance + usablePathLength;
        var i := 0;
        while i < maxTraps
          invariant 0 <= i
          invariant spawnedTraps + TrapWallPlan(i, maxTraps, currentPosition, limit, step, lane)
                    == old(spawnedTraps) + TrapWallPlan(0, maxTraps, safeZoneDistance, limit, step, lane)
          decreases maxTraps - i
        {
          var segmentLength := step(i);
          if currentPosition + segmentLength > safeZoneDistance + usablePathLength {
            break;
          }
          var wallLane := lane(i);
          spawnedTraps := spawnedTraps + [TrapWall(currentPosition, wallLane)];
          currentPosition := currentPosition + segmentLength;
          i := i + 1;
        }
      }
    }

    /** `OnPlayerTurned`: records the turn start and spawns the walls ahead. */
    method OnPlayerTurned(position: Vec3, forward: Vec3, hit: Option<RayHit>, step: nat -> real, lane: nat -> int)
      modifies this`turnStartPos, this`spawnedTraps
      ensures turnStartPos == position
      ensures var pathInfo := DetectPath(position, forward, maxRaycastDistance, hit);
        spawnedTraps == old(spawnedTraps) + TrapWallsFor(pathInfo.pathLength, maxTraps, safeZoneDistance, step, lane)
    {
      turnStartPos := position;
      SpawnTrapWalls(forward, hit, step, lane);
    }

    /** `ClearTraps`: every tracked wall is destroyed and the list emptied.
        The source skips entries that are already null, destroyed elsewhere;
        nothing in this model destroys a tracked object behind the list's
        back, so every entry is logged as destroyed. */
    method ClearTraps()
      modifies this`spawnedTraps, this`destroyed
      ensures spawnedTraps == []
      ensures destroyed == old(destroyed) + old(spawnedTraps)
    {
      destroyed := destroyed + spawnedTraps;
      spawnedTraps := [];
    }
  }
}
