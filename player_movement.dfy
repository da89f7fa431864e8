/** The lane state machine of the `PlayerMovement` component: lanes -1, 0
    and 1 sit at fixed world x positions 289, 291 and 293; a key press starts
    a change toward the neighbouring lane's x, which advances every frame
    inside `MovePlayer`. In this component the D/right-arrow key RAISES the
    lane number, the opposite of `PlayerLaneHandler`. */
module LaneMovement {
  import opened Common
  import LaneHandling

  /** The `lanes` dictionary `Start` fills. */
  const LaneTable: map<int, int> := map[-1 := 289, 0 := 291, 1 := 293]

  /** The world x of a lane: 291 for the middle lane, two units per lane
      either side, so the lanes are two units apart and ordered by number. */
  function LaneX(lane: int): (x: int)
    requires -1 <= lane <= 1
    ensures lane in LaneTable && x == LaneTable[lane]
    ensures x == 291 + 2 * lane
  {
    LaneTable[lane]
  }

  /** The lane a key press leads to: the right key moves one lane up unless
      already at 1, otherwise the left key moves one lane down unless already
      at -1; the right key wins when both are pressed. */
  function MovementNextLane(lane: int, rightPressed: bool, leftPressed: bool): (r: int)
    ensures -1 <= lane <= 1 ==> -1 <= r <= 1
    ensures r == lane || r == lane - 1 || r == lane + 1
    ensures r > lane <==> rightPressed && lane < 1
    ensures r < lane <==> !rightPressed && leftPressed && lane > -1
  {
    if rightPressed then
      if lane < 1 then lane + 1 else lane
    else if leftPressed then
      if lane > -1 then lane - 1 else lane
    else lane
  }

  /** The two lane components number the lanes in mirror image: the same
      keys move `PlayerMovement` from lane `l` exactly where they move
      `PlayerLaneHandler` from lane `-l`, negated. */
  lemma {:induction false} LaneConventionsMirror(lane: int, rightPressed: bool, leftPressed: bool)
    ensures MovementNextLane(lane, rightPressed, leftPressed)
            == -LaneHandling.HandlerNextLane(-lane, rightPressed, leftPressed)
  {
    if rightPressed {
      assert -lane > -1 <==> lane < 1;
    } else if leftPressed {
      assert -lane < 1 <==> lane > -1;
    }
  }

  class PlayerMovement {
    var lanes: map<int, int>
    var currentLane: int
    var lastLane: int
    var laneChangeSpeed: real
    var leanAngle: real
    var movementSpeed: real
    var isChangingLane: bool
    var laneChangeProgress: real
    var startLaneX: real
    var targetLaneX: real
    var cooldownTimer: real
    var rotation: Rotation
    var startRotation: Rotation
    /** Roll of the lean rotation the current change tilts toward. */
    var leanZ: real
    /** `velocity.y`, set by the jump and gravity code. */
    var verticalVelocity: real

    /** The lane table is the one `Start` builds and both lane numbers are in range. */
    predicate Valid()
      reads this
    {
      lanes == LaneTable && -1 <= currentLane <= 1 && -1 <= lastLane <= 1
    }

    /** The component after `Start`, with its inspector defaults, turned as `rotation`. */
    constructor (rotation: Rotation)
      ensures Valid() && currentLane == 0 && lastLane == 0 && !isChangingLane
      ensures cooldownTimer == 0.0 && movementSpeed == 5.0 && laneChangeSpeed == 3.0 && leanAngle == 15.0
      ensures this.rotation == rotation
    {
      lanes := map[-1 := 289, 0 := 291, 1 := 293];
      currentLane := 0;
      lastLane := 0;
      laneChangeSpeed := 3.0;
      leanAngle := 15.0;
      movementSpeed := 5.0;
      isChangingLane := false;
      laneChangeProgress := 0.0;
      startLaneX := 0.0;
      targetLaneX := 0.0;
      cooldownTimer := 0.0;
      this.rotation := rotation;
      startRotation := rotation;
      leanZ := 0.0;
      verticalVelocity := 0.0;
    }

    /** The cooldown step at the top of `Update`: the timer runs down only
        while positive. (Nothing in the component ever sets it.) */
    method TickCooldown(deltaTime: real)
      modifies this`cooldownTimer
      ensures cooldownTimer == if old(cooldownTimer) > 0.0 then old(cooldownTimer) - deltaTime else old(cooldownTimer)
    {
      if cooldownTimer > 0.0 {
        cooldownTimer := cooldownTimer - deltaTime;
      }
    }

    /** `HandleLaneChange`: when no change is in progress and the pressed key
        leads to another lane, that change starts from world x `positionX`
        and rotation `rotationNow`; otherwise nothing changes. */
    method HandleLaneChange(rightPressed: bool, leftPressed: bool, positionX: real, rotationNow: Rotation)
      requires Valid()
      modifies this
      ensures Valid()
      ensures var next := MovementNextLane(old(currentLane), rightPressed, leftPressed);
        if !old(isChangingLane) && next != old(currentLane) then
          && lastLane == old(currentLane) && currentLane == next
          && isChangingLane && laneChangeProgress == 0.0
          && startLaneX == positionX && targetLaneX == LaneX(currentLane) as real
          && startRotation == rotationNow
          && leanZ == (if currentLane > lastLane then -leanAngle else leanAngle)
          && rotation == old(rotation) && cooldownTimer == old(cooldownTimer)
          && movementSpeed == old(movementSpeed) && verticalVelocity == old(verticalVelocity)
          && laneChangeSpeed == old(laneChangeSpeed) && leanAngle == old(leanAngle) && lanes == old(lanes)
        else
          unchanged(this)
    {
      if !isChangingLane {
        if rightPressed {
          if currentLane < 1 {
            lastLane := currentLane;
            currentLane := currentLane + 1;
            StartLaneChange(positionX, rotationNow);
          }
        } else if leftPressed {
          if currentLane > -1 {
            lastLane := currentLane;
            currentLane := currentLane - 1;
            StartLaneChange(positionX, rotationNow);
          }
        }
      }
    }

    /** `StartLaneChange`: the change starts at `positionX` with no progress,
        aims at the table x of the new lane and leans away from it. */
    method StartLaneChange(positionX: real, rotationNow: Rotation)
      requires Valid()
      modifies this`isChangingLane, this`laneChangeProgress, this`startLaneX, this`targetLaneX,
               this`startRotation, this`leanZ
      ensures isChangingLane && laneChangeProgress == 0.0
      ensures startLaneX == positionX && targetLaneX == LaneX(currentLane) as real
      ensures startRotation == rotationNow
      ensures leanZ == (if currentLane > lastLane then -leanAngle else leanAngle)
    {
      isChangingLane := true;
      laneChangeProgress := 0.0;
      startLaneX := positionX;
      targetLaneX := lanes[currentLane] as real;
      startRotation := rotationNow;
      leanZ := if currentLane > lastLane then -leanAngle else leanAngle;
    }

    /** `MovePlayer` for one frame of `deltaTime`, the player at world x
        `positionX` facing `forward`: `eased` is `EaseInOutSine` of the new
        progress and `leaned` the `Slerp` toward the lean. The frame moves
        the player forward; during a change the x of the movement is replaced
        by the step to the eased point between the start and target x; when
        the progress reaches 1 the change ends and the rotation returns to
        the one the change started from. */
    method MovePlayer(deltaTime: real, forward: Vec3, positionX: real, eased: real, leaned: Rotation)
      returns (movement: Vec3)
      modifies this`laneChangeProgress, this`isChangingLane, this`rotation
      ensures movement.z == forward.z * movementSpeed * deltaTime
      ensures movement.y == verticalVelocity * deltaTime
      ensures !old(isChangingLane) ==>
        laneChangeProgress == old(laneChangeProgress) && !isChangingLane && rotation == old(rotation)
        && movement.x == forward.x * movementSpeed * deltaTime
      ensures old(isChangingLane) ==> laneChangeProgress == old(laneChangeProgress) + deltaTime * laneChangeSpeed
      ensures old(isChangingLane) && laneChangeProgress >= 1.0 ==>
        !isChangingLane && rotation == startRotation && movement.x == forward.x * movementSpeed * deltaTime
      ensures old(isChangingLane) && laneChangeProgress < 1.0 ==>
        isChangingLane && rotation == leaned && positionX + movement.x == Lerp(startLaneX, targetLaneX, eased)
    {
      movement := Zero.Plus(forward.Scale(movementSpeed * deltaTime));
      if isChangingLane {
        laneChangeProgress := laneChangeProgress + deltaTime * laneChangeSpeed;
        if laneChangeProgress >= 1.0 {
          isChangingLane := false;
          rotation := startRotation;
        } else {
          var currentX := Lerp(startLaneX, targetLaneX, eased);
          var horizontalMovement := currentX - positionX;
          movement := movement.(x := horizontalMovement);
          rotation := leaned;
        }
      }
      movement := movement.(y := verticalVelocity * deltaTime);
    }
  }
}
