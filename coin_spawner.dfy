/** The `CoinSpawner` component: after each completed turn it measures the
    path ahead with its own ray cast, splits it into random segments of 8 to
    12 units, and fills each segment, with probability one half, with a run
    of coins one unit apart in a single random lane. */
module Coins {
  import opened Common
  import opened PathDetector

  const SpawnChance := 0.5
  const CoinMaxRaycastDistance := 500.0
  const CoinMinSegment := 8.0
  const CoinMaxSegment := 12.0

  /** A coin: its distance from the turn start along the path and its lane. */
  datatype Coin = Coin(offset: real, lane: int)

  /** The length of path to fill: the hit distance when the ray (limited to
      `maxRaycastDistance`) hits anything, turn point or not, otherwise the
      full ray length; never more than the ray length. */
  function CoinPathLength(hit: Option<RayHit>, maxRaycastDistance: real): (r: real)
    ensures r <= maxRaycastDistance
    ensures hit.None? ==> r == maxRaycastDistance
    ensures hit.Some? && hit.value.distance <= maxRaycastDistance ==> r == hit.value.distance
  {
    var pathLength := if hit.Some? then hit.value.distance else maxRaycastDistance;
    Min(pathLength, maxRaycastDistance)
  }

  /** How many times `for (var i = 0; i < segmentLength; i++)` runs: the
      number of whole numbers below the segment length. */
  function CoinCount(segmentLength: real): (r: nat)
    ensures segmentLength <= 0.0 ==> r == 0
    ensures segmentLength > 0.0 ==> (r - 1) as real < segmentLength <= r as real
  {
    if segmentLength <= 0.0 then 0 else -((-segmentLength).Floor)
  }

  /** The coins of one filled segment: one per whole unit from its start. */
  function CoinRun(segStart: real, segmentLength: real, lane: int): seq<Coin>
  {
    seq(CoinCount(segmentLength), i requires 0 <= i < CoinCount(segmentLength) => Coin(segStart + i as real, lane))
  }

  /** A run holds one coin per unit of the segment, in its lane, starting at
      the segment start and staying strictly before its end. */
  lemma CoinRunShape(segStart: real, segmentLength: real, lane: int)
    ensures var run := CoinRun(segStart, segmentLength, lane);
      && (|run| > 0 <==> segmentLength > 0.0)
      && (forall i :: 0 <= i < |run| ==> run[i] == Coin(segStart + i as real, lane))
      && (forall i :: 0 <= i < |run| ==> segStart <= run[i].offset < segStart + segmentLength)
  {
    var run := CoinRun(segStart, segmentLength, lane);
    if segmentLength > 0.0 {
      assert 0 < CoinCount(segmentLength);
    }
    forall i | 0 <= i < |run|
      ensures segStart <= run[i].offset < segStart + segmentLength
    {
      assert (i as real) < segmentLength;
    }
  }

  /** The coins of one segment: a run when its draw is below the spawn
      chance, none otherwise. */
  function SegmentCoins(segStart: real, segmentLength: real, value: real, lane: int): (r: seq<Coin>)
    ensures |r| > 0 <==> value < SpawnChance && segmentLength > 0.0
  {
    CoinRunShape(segStart, segmentLength, lane);
    if value < SpawnChance then CoinRun(segStart, segmentLength, lane) else []
  }

  /** The coins the segment loop places from segment number `k` on, that
      segment starting at `segStart`: `value(k)` is the segment's
      `Random.value` draw and `lane(k)` its `Random.Range(-1, 2)` draw. Every
      segment moves the start on by its length, filled or not. */
  function CoinPlan(segments: seq<real>, k: nat, segStart: real, value: nat -> real, lane: nat -> int): seq<Coin>
    decreases |segments| - k
  {
    if k >= |segments| then []
    else SegmentCoins(segStart, segments[k], value(k), lane(k))
         + CoinPlan(segments, k + 1, segStart + segments[k], value, lane)
  }

  /** Coins in strictly increasing order along the path, so no two coincide. */
  predicate Increasing(coins: seq<Coin>)
  {
    forall i, j :: 0 <= i < j < |coins| ==> coins[i].offset < coins[j].offset
  }

  /** Every coin lies in [lo, hi) and in one of the three lanes. */
  predicate Within(coins: seq<Coin>, lo: real, hi: real)
  {
    forall c :: c in coins ==> lo <= c.offset < hi && -1 <= c.lane <= 1
  }

  /** The coins of one segment, filled or not, are in the segment's lane,
      inside the segment, in increasing order. */
  lemma SegmentCoinsShape(segStart: real, segmentLength: real, value: real, lane: int)
    requires -1 <= lane <= 1
    ensures Within(SegmentCoins(segStart, segmentLength, value, lane), segStart, segStart + segmentLength)
    ensures Increasing(SegmentCoins(segStart, segmentLength, value, lane))
  {
    CoinRunShape(segStart, segmentLength, lane);
  }

  /** Over positive segments, every coin placed from segment `k` on lies
      between that segment's start and the end of the last segment, in one
      of the three lanes, and the coins are in strictly increasing order, so
      no two coincide. */
  lemma {:induction false} CoinPlanShape(segments: seq<real>, k: nat, segStart: real, value: nat -> real, lane: nat -> int)
    requires forall i :: 0 <= i < |segments| ==> segments[i] > 0.0
    requires forall j :: -1 <= lane(j) <= 1
    requires k <= |segments|
    ensures Within(CoinPlan(segments, k, segStart, value, lane), segStart, segStart + Sum(segments[k..]))
    ensures Increasing(CoinPlan(segments, k, segStart, value, lane))
    decreases |segments| - k
  {
    if k < |segments| {
      var here := SegmentCoins(segStart, segments[k], value(k), lane(k));
      var rest := CoinPlan(segments, k + 1, segStart + segments[k], value, lane);
      CoinPlanShape(segments, k + 1, segStart + segments[k], value, lane);
      SegmentCoinsShape(segStart, segments[k], value(k), lane(k));
      assert segments[k..][1..] == segments[k + 1..];
      SumPositive(segments[k + 1..]);
      ConcatShape(here, rest, segStart, segStart + segments[k], segStart + Sum(segments[k..]));
    }
  }

  /** Two ordered runs, one before a point and one after it, join into one. */
  lemma ConcatShape(front: seq<Coin>, back: seq<Coin>, lo: real, mid: real, hi: real)
    requires Within(front, lo, mid) && Increasing(front)
    requires Within(back, mid, hi) && Increasing(back)
    requires lo <= mid <= hi
    ensures Within(front + back, lo, hi) && Increasing(front + back)
  {
    var coins := front + back;
    forall i, j | 0 <= i < j < |coins|
      ensures coins[i].offset < coins[j].offset
    {
      if j < |front| {
        assert coins[i] == front[i] && coins[j] == front[j];
      } else if i < |front| {
        assert coins[i] in front && coins[j] in back;
      } else {
        assert coins[i] == back[i - |front|] && coins[j] == back[j - |front|];
      }
    }
    forall c | c in coins
      ensures lo <= c.offset < hi && -1 <= c.lane <= 1
    {
      if c in front {
        assert c.offset < mid;
      }
    }
  }

  /** What one turn yields: the path is split as the shared segmentation
      rule does with bounds 8 and 12, and the segments are filled from the
      turn start on. */
  function CoinsFor(hit: Option<RayHit>, maxRaycastDistance: real, segmentDraw: nat -> real,
                    value: nat -> real, lane: nat -> int): seq<Coin>
    requires forall j :: CoinMinSegment <= segmentDraw(j) <= CoinMaxSegment
  {
    var pathLength := CoinPathLength(hit, maxRaycastDistance);
    CoinPlan(Split(pathLength, 0.0, 0, CoinMinSegment, segmentDraw), 0, 0.0, value, lane)
  }

  /** The coins of one turn lie on the measured path, never past the ray
      length, in the three lanes, strictly increasing and so never stacked. */
  lemma CoinsForShape(hit: Option<RayHit>, maxRaycastDistance: real, segmentDraw: nat -> real,
                      value: nat -> real, lane: nat -> int)
    requires forall j :: CoinMinSegment <= segmentDraw(j) <= CoinMaxSegment
    requires forall j :: -1 <= lane(j) <= 1
    ensures Within(CoinsFor(hit, maxRaycastDistance, segmentDraw, value, lane), 0.0, CoinPathLength(hit, maxRaycastDistance))
    ensures Within(CoinsFor(hit, maxRaycastDistance, segmentDraw, value, lane), 0.0, maxRaycastDistance)
    ensures Increasing(CoinsFor(hit, maxRaycastDistance, segmentDraw, value, lane))
  {
    var pathLength := CoinPathLength(hit, maxRaycastDistance);
    var segs := Split(pathLength, 0.0, 0, CoinMinSegment, segmentDraw);
    SplitSizes(pathLength, 0.0, 0, CoinMinSegment, CoinMaxSegment, segmentDraw);
    SplitSum(pathLength, 0.0, 0, CoinMinSegment, segmentDraw);
    CoinPlanShape(segs, 0, 0.0, value, lane);
    assert segs[0..] == segs;
    if segs == [] {
      assert CoinPlan(segs, 0, 0.0, value, lane) == [];
    } else {
      assert pathLength > 0.0 && Sum(segs) == pathLength;
    }
  }

  /** One pass of the segment loop: having placed segment `k`'s coins after
      `before`, what remains to place is the plan from segment `k + 1`. */
  lemma CoinPlanStep(segments: seq<real>, k: nat, segStart: real, value: nat -> real, lane: nat -> int,
                     before: seq<Coin>, after: seq<Coin>)
    requires k < |segments|
    requires after == before + SegmentCoins(segStart, segments[k], value(k), lane(k))
    ensures after + CoinPlan(segments, k + 1, segStart + segments[k], value, lane)
            == before + CoinPlan(segments, k, segStart, value, lane)
  {
    var here := SegmentCoins(segStart, segments[k], value(k), lane(k));
    var rest := CoinPlan(segments, k + 1, segStart + segments[k], value, lane);
    assert (before + here) + rest == before + (here + rest);
  }

  class CoinSpawner {
    var laneWidth: real
    var maxRaycastDistance: real
    var turnStartPos: Vec3
    var listeningForTurns: bool
    /** How many times `onPlayerTurned` has been added to the turn-complete event. */
    var subscriptions: nat
    /** Coins spawned and not yet cleared, in spawn order. */
    var spawnedCoins: seq<Coin>
    /** Coins handed to `Destroy`. */
    var destroyed: seq<Coin>

    /** The handler is on the event exactly when the flag says so, and so at most once. */
    predicate Valid()
      reads this
    {
      subscriptions == if listeningForTurns then 1 else 0
    }

    /** The component with its fixed settings: lanes 3 apart, a 500-unit ray. */
    constructor ()
      ensures Valid() && !listeningForTurns
      ensures laneWidth == 3.0 && maxRaycastDistance == CoinMaxRaycastDistance
      ensures spawnedCoins == [] && destroyed == []
    {
      laneWidth := 3.0;
      maxRaycastDistance := CoinMaxRaycastDistance;
      turnStartPos := Zero;
      listeningForTurns := false;
      subscriptions := 0;
      spawnedCoins := [];
      destroyed := [];
    }

    /** `Update`: subscribes to the turn-complete event on the first frame only. */
    method Update()
      requires Valid()
      modifies this`listeningForTurns, this`subscriptions
      ensures Valid() && listeningForTurns
      ensures subscriptions == 1
      ensures old(listeningForTurns) ==> subscriptions == old(subscriptions)
    {
      if !listeningForTurns {
        subscriptions := subscriptions + 1;
        listeningForTurns := true;
      }
    }

    /** `SpawnCoin`: `hit` is the ray cast from the turn start,
        `segmentDraw(k)` the k-th `Random.Range(8f, 12f)` draw, and
        `value(k)`/`lane(k)` the draws made for segment `k`. The segment loop
        of the component is the shared segmentation loop with bounds 8 and 12
        written out again, so it is the same method here. */
    method SpawnCoin(hit: Option<RayHit>, segmentDraw: nat -> real, value: nat -> real, lane: nat -> int)
      requires forall j :: CoinMinSegment <= segmentDraw(j) <= CoinMaxSegment
      modifies this`spawnedCoins
      ensures spawnedCoins == old(spawnedCoins) + CoinsFor(hit, maxRaycastDistance, segmentDraw, value, lane)
    {
      var pathLength := if hit.Some? then hit.value.distance else maxRaycastDistance;
      pathLength := Min(pathLength, maxRaycastDistance);
      var segments := DividePathIntoSegments(pathLength, CoinMinSegment, CoinMaxSegment, segmentDraw);
      FillSegments(segments, value, lane);
    }

    /** The `foreach` over the segments in `SpawnCoin`: each segment gets its
        coins or none, and the start moves on by the segment's length. */
    method FillSegments(segments: seq<real>, value: nat -> real, lane: nat -> int)
      modifies this`spawnedCoins
      ensures spawnedCoins == old(spawnedCoins) + CoinPlan(segments, 0, 0.0, value, lane)
    {
      var currentPosition := 0.0;
      var k := 0;
      while k < |segments|
        invariant 0 <= k <= |segments|
        invariant spawnedCoins + CoinPlan(segments, k, currentPosition, value, lane)
                  == old(spawnedCoins) + CoinPlan(segments, 0, 0.0, value, lane)
      {
        var segmentLength := segments[k];
        ghost var before := spawnedCoins;
        if value(k) < SpawnChance {
          var coinLane := lane(k);
          PlaceRun(currentPosition, segmentLength, coinLane);
        } else {
          assert before + SegmentCoins(currentPosition, segmentLength, value(k), lane(k)) == before;
        }
        CoinPlanStep(segments, k, currentPosition, value, lane, before, spawnedCoins);
        currentPosition := currentPosition + segmentLength;
        k := k + 1;
      }
    }

    /** The inner `for` loop of `SpawnCoin`: one coin per whole unit of the
        segment, all in the segment's lane. */
    method PlaceRun(segStart: real, segmentLength: real, coinLane: int)
      modifies this`spawnedCoins
      ensures spawnedCoins == old(spawnedCoins) + CoinRun(segStart, segmentLength, coinLane)
    {
      ghost var run := CoinRun(segStart, segmentLength, coinLane);
      var i := 0;
      while (i as real) < segmentLength
        invariant 0 <= i <= CoinCount(segmentLength)
        invariant spawnedCoins == old(spawnedCoins) + run[..i]
      {
        assert run[i] == Coin(segStart + i as real, coinLane);
        assert run[..i + 1] == run[..i] + [run[i]];
        spawnedCoins := spawnedCoins + [Coin(segStart + i as real, coinLane)];
        i := i + 1;
      }
      assert run[..i] == run;
    }

    /** `onPlayerTurned`: records the turn start and spawns the coins ahead. */
    method OnPlayerTurned(position: Vec3, hit: Option<RayHit>, segmentDraw: nat -> real, value: nat -> real, lane: nat -> int)
      requires forall j :: CoinMinSegment <= segmentDraw(j) <= CoinMaxSegment
      modifies this`turnStartPos, this`spawnedCoins
      ensures turnStartPos == position
      ensures spawnedCoins == old(spawnedCoins) + CoinsFor(hit, maxRaycastDistance, segmentDraw, value, lane)
    {
      turnStartPos := position;
      SpawnCoin(hit, segmentDraw, value, lane);
    }

    /** `ClearCoins`: every tracked coin is destroyed and the list emptied.
        The source skips entries that are already null, destroyed elsewhere;
        nothing in this model destroys a tracked object behind the list's
        back, so every entry is logged as destroyed. */
    method ClearCoins()
      modifies this`spawnedCoins, this`destroyed
      ensures spawnedCoins == []
      ensures destroyed == old(destroyed) + old(spawnedCoins)
    {
      destroyed := destroyed + spawnedCoins;
      spawnedCoins := [];
    }
  }
}
