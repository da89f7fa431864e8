/** The `PlayerTurnHandler` component: each frame it looks for a turn point
    just ahead of the player; on the first one found, once its cooldown has
    run out, it starts a smooth turn by the point's angle, puts the lane
    handler back in the middle lane and announces the turn. When the smooth
    turn ends the player faces exactly the start yaw plus the turn angle and
    the turn-complete event fires. */
module Turning {
  import opened Common
  import LaneHandling

  datatype TurnDirection = Left | Right

  /** The `PlayerTurnPoint` data a turn uses: its direction and angle. */
  datatype TurnPoint = TurnPoint(direction: TurnDirection, turnAngle: real)

  /** Length of the smooth turn, in seconds. */
  const TurnDuration: real := 0.3

  /** The yaw change a turn point asks for: its angle, counter-clockwise for a left turn. */
  function TurnRotation(p: TurnPoint): (r: real)
    ensures p.direction == Left ==> r == -p.turnAngle
    ensures p.direction == Right ==> r == p.turnAngle
  {
    if p.direction == Left then -p.turnAngle else p.turnAngle
  }

  /** The turn point of the first hit, in cast order, whose collider carries
      one; `hits[k]` is `None` for a collider without a turn point. */
  function FirstTurnPoint(hits: seq<Option<TurnPoint>>): Option<TurnPoint>
  {
    if hits == [] then None
    else if hits[0].Some? then hits[0]
    else FirstTurnPoint(hits[1..])
  }

  /** `FirstTurnPoint` finds a turn point iff some hit has one, and the one
      it finds comes before every other hit that has one. */
  lemma {:induction false} FirstTurnPointSpec(hits: seq<Option<TurnPoint>>)
    ensures FirstTurnPoint(hits).None? <==> forall k :: 0 <= k < |hits| ==> hits[k].None?
    ensures FirstTurnPoint(hits).Some? ==>
      exists k :: 0 <= k < |hits| && hits[k] == FirstTurnPoint(hits) && forall j :: 0 <= j < k ==> hits[j].None?
  {
    if hits != [] && hits[0].None? {
      FirstTurnPointSpec(hits[1..]);
      if FirstTurnPoint(hits).Some? {
        var k :| 0 <= k < |hits[1..]| && hits[1..][k] == FirstTurnPoint(hits[1..])
                 && forall j :: 0 <= j < k ==> hits[1..][j].None?;
        assert hits[k + 1] == FirstTurnPoint(hits);
        assert forall j :: 0 <= j < k + 1 ==> hits[j].None? by {
          forall j | 0 <= j < k + 1 ensures hits[j].None? {
            if j > 0 { assert hits[j] == hits[1..][j - 1]; }
          }
        }
      } else {
        forall k | 0 <= k < |hits| ensures hits[k].None? {
          if k > 0 { assert hits[k] == hits[1..][k - 1]; }
        }
      }
    }
  }

  /** What the listeners of the handler's two events see, oldest first. */
  datatype TurnEvent =
    | Turned(yRotation: real)
    /** `OnPlayerTurnComplete`, with the `IsTurning` a listener reads while handling it. */
    | TurnComplete(listenerSeesTurning: bool)

  /** The static `Instance` slot of the singleton. */
  class TurnHandlerSlot {
    var instance: PlayerTurnHandler?

    constructor ()
      ensures instance == null
    {
      instance := null;
    }
  }

  class PlayerTurnHandler {
    var turnDetectionRadius: real
    var turnCooldown: real
    var isTurning: bool
    var cooldownTimer: real
    var laneHandler: LaneHandling.PlayerLaneHandler
    /** The player's yaw in degrees. */
    var yaw: real
    /** State of the running `SmoothTurn` coroutine: the yaw it started
        from, the turn it performs and the time it has counted. */
    var turnStartYaw: real
    var turnYRotation: real
    var elapsedTime: real
    var events: seq<TurnEvent>

    /** A turn-complete listener never sees the turn still in progress. */
    predicate Valid()
      reads this, laneHandler
    {
      && laneHandler.Valid()
      && (forall k :: 0 <= k < |events| && events[k].TurnComplete? ==> !events[k].listenerSeesTurning)
    }

    /** The component created and `Start` run: it becomes the singleton
        instance only if there is none yet, and it uses the lane handler
        found on the object, or a new one when there is none. */
    constructor (slot: TurnHandlerSlot, found: LaneHandling.PlayerLaneHandler?, yaw: real)
      requires found != null ==> found.Valid()
      modifies slot
      ensures Valid() && !isTurning && cooldownTimer == 0.0 && events == []
      ensures turnDetectionRadius == 1.0 && turnCooldown == 0.5 && this.yaw == yaw
      ensures found != null ==> laneHandler == found
      ensures found == null ==> fresh(laneHandler)
      ensures slot.instance == if old(slot.instance) == null then this else old(slot.instance)
    {
      turnDetectionRadius := 1.0;
      turnCooldown := 0.5;
      isTurning := false;
      cooldownTimer := 0.0;
      this.yaw := yaw;
      turnStartYaw := yaw;
      turnYRotation := 0.0;
      elapsedTime := 0.0;
      events := [];
      if found == null {
        laneHandler := new LaneHandling.PlayerLaneHandler();
      } else {
        laneHandler := found;
      }
      new;
      if slot.instance == null {
        slot.instance := this;
      }
    }

    /** The cooldown step of `Update`: the timer runs down only while positive. */
    method TickCooldown(deltaTime: real)
      modifies this`cooldownTimer
      ensures cooldownTimer == if old(cooldownTimer) > 0.0 then old(cooldownTimer) - deltaTime else old(cooldownTimer)
    {
      if cooldownTimer > 0.0 {
        cooldownTimer := cooldownTimer - deltaTime;
      }
    }

    /** `Update`: the cooldown runs down, then the turn points are checked;
        a turn starts only when the cooldown has run out by this frame. */
    method Update(deltaTime: real, hits: seq<Option<TurnPoint>>, position: Vec3, right: Vec3)
      requires Valid()
      modifies this, laneHandler
      ensures Valid()
      ensures var ticked := if old(cooldownTimer) > 0.0 then old(cooldownTimer) - deltaTime else old(cooldownTimer);
        var p := FirstTurnPoint(hits);
        if !old(isTurning) && ticked <= 0.0 && p.Some? then
          TurnStarted(p.value, position, right, deltaTime)
        else
          && cooldownTimer == ticked && isTurning == old(isTurning) && yaw == old(yaw)
          && turnStartYaw == old(turnStartYaw) && turnYRotation == old(turnYRotation)
          && elapsedTime == old(elapsedTime)
          && turnCooldown == old(turnCooldown) && turnDetectionRadius == old(turnDetectionRadius)
          && events == old(events) && laneHandler == old(laneHandler) && unchanged(laneHandler)
    {
      TickCooldown(deltaTime);
      CheckForTurnPoints(hits, position, right, deltaTime);
    }

    /** `CheckForTurnPoints` over the sphere cast's `hits`: nothing happens
        during a turn or while the cooldown runs; otherwise the first hit
        with a turn point, if any, starts a turn (`position` and `right` are
        the player's, `deltaTime` the frame time). */
    method CheckForTurnPoints(hits: seq<Option<TurnPoint>>, position: Vec3, right: Vec3, deltaTime: real)
      requires Valid()
      modifies this, laneHandler
      ensures Valid()
      ensures var p := FirstTurnPoint(hits);
        if !old(isTurning) && old(cooldownTimer) <= 0.0 && p.Some? then
          TurnStarted(p.value, position, right, deltaTime)
        else
          unchanged(this) && unchanged(laneHandler)
    {
      if isTurning {
        return;
      }
      var i := 0;
      while i < |hits|
        invariant 0 <= i <= |hits|
        invariant cooldownTimer <= 0.0 ==> FirstTurnPoint(hits) == FirstTurnPoint(hits[i..])
        invariant unchanged(this) && unchanged(laneHandler)
      {
        assert hits[i..] == [hits[i]] + hits[i + 1..];
        var turnPoint := hits[i];
        if turnPoint.Some? && cooldownTimer <= 0.0 {
          PerformTurn(turnPoint.value, position, right, deltaTime);
          break;
        }
        i := i + 1;
      }
    }

    /** The state right after `PerformTurn(p)`, compared with the state before. */
    twostate predicate TurnStarted(p: TurnPoint, position: Vec3, right: Vec3, deltaTime: real)
      reads this, laneHandler
    {
      && isTurning && turnStartYaw == old(yaw) && turnYRotation == TurnRotation(p)
      && yaw == old(yaw) && elapsedTime == deltaTime
      && cooldownTimer == turnCooldown
      && events == old(events) + [Turned(TurnRotation(p))]
      && turnCooldown == old(turnCooldown) && turnDetectionRadius == old(turnDetectionRadius)
      && laneHandler == old(laneHandler)
      && laneHandler.lastLane == old(laneHandler.currentLane) && laneHandler.currentLane == 0
      && !laneHandler.isChangingLane
      && laneHandler.laneWidth == old(laneHandler.laneWidth)
      && laneHandler.laneChangeSpeed == old(laneHandler.laneChangeSpeed)
      && laneHandler.leanAngle == old(laneHandler.leanAngle)
      && laneHandler.laneChangeProgress == old(laneHandler.laneChangeProgress)
      && laneHandler.startPosition == old(laneHandler.startPosition)
      && laneHandler.leanZ == old(laneHandler.leanZ)
      && laneHandler.movements == old(laneHandler.movements)
      && laneHandler.targetLanePosition
         == position.Plus(right.Scale((0 - laneHandler.lastLane) as real * laneHandler.laneWidth))
    }

    /** `PerformTurn`: the smooth turn starts (up to its first frame), the
        lane handler returns to the middle lane, the cooldown restarts and
        the turn is announced with its yaw change. */
    method PerformTurn(p: TurnPoint, position: Vec3, right: Vec3, deltaTime: real)
      requires Valid()
      modifies this, laneHandler
      ensures Valid()
      ensures TurnStarted(p, position, right, deltaTime)
    {
      var yRotation := TurnRotation(p);
      BeginSmoothTurn(yRotation, deltaTime);
      laneHandler.ResetLaneOnTurn(position, right);
      cooldownTimer := turnCooldown;
      events := events + [Turned(yRotation)];
    }

    /** `SmoothTurn` up to its first `yield`: the turn is marked in progress,
        the start yaw recorded, the rotation set to the start (interpolation
        parameter 0) and the frame time counted. */
    method BeginSmoothTurn(yRotation: real, deltaTime: real)
      modifies this`isTurning, this`turnStartYaw, this`turnYRotation, this`elapsedTime
      ensures isTurning && turnStartYaw == yaw && turnYRotation == yRotation && elapsedTime == deltaTime
    {
      isTurning := true;
      turnStartYaw := yaw;
      turnYRotation := yRotation;
      elapsedTime := 0.0;
      elapsedTime := elapsedTime + deltaTime;
    }

    /** One later frame of `SmoothTurn`. While the counted time is below the
        duration the player is turned to `interpolatedYaw` (the
        quaternion interpolation at `elapsedTime / 0.3`) and the turn goes
        on; once it reaches the duration the player faces exactly the start
        yaw plus the turn, the turn ends, and only then the completion is
        announced. */
    method ResumeSmoothTurn(deltaTime: real, interpolatedYaw: real)
      requires Valid() && isTurning
      modifies this`yaw, this`elapsedTime, this`isTurning, this`events
      ensures Valid()
      ensures old(elapsedTime) < TurnDuration ==>
        isTurning && yaw == interpolatedYaw && elapsedTime == old(elapsedTime) + deltaTime && events == old(events)
      ensures old(elapsedTime) >= TurnDuration ==>
        !isTurning && yaw == turnStartYaw + turnYRotation && elapsedTime == old(elapsedTime)
        && events == old(events) + [TurnComplete(false)]
    {
      if elapsedTime < TurnDuration {
        yaw := interpolatedYaw;
        elapsedTime := elapsedTime + deltaTime;
      } else {
        yaw := turnStartYaw + turnYRotation;
        isTurning := false;
        events := events + [TurnComplete(isTurning)];
      }
    }
  }
}
