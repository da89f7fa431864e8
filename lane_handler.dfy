/** The `PlayerLaneHandler` component: the three-lane state machine of the
    player. A key press starts a change to the neighbouring lane, the change
    advances with the frame time, and each frame's sideways movement is
    handed to the player through the `OnLaneMovement` event. Lanes are
    numbered -1, 0 and 1; in this component the D/right-arrow key LOWERS the
    lane number and A/left-arrow raises it. */
module LaneHandling {
  import opened Common

  /** The lane a key press leads to: the right key moves one lane down unless
      already at -1, otherwise the left key moves one lane up unless already
      at 1; the right key wins when both are pressed. */
  function HandlerNextLane(lane: int, rightPressed: bool, leftPressed: bool): (r: int)
    ensures -1 <= lane <= 1 ==> -1 <= r <= 1
    ensures r == lane || r == lane - 1 || r == lane + 1
    ensures r < lane <==> rightPressed && lane > -1
    ensures r > lane <==> !rightPressed && leftPressed && lane < 1
  {
    if rightPressed then
      if lane > -1 then lane - 1 else lane
    else if leftPressed then
      if lane < 1 then lane + 1 else lane
    else lane
  }

  /** `CalculateTargetLanePosition`: from the current position, undo the
      offset of the lane being left and apply the offset of the lane being
      entered, along the vector `right`. The caller passes
      `Vector3.Cross(forward, up)`, which in Unity's left-handed axes points
      to the player's left, so lane 1 (the left arrow's lane) lies on the
      player's left, as its key says. */
  function CalculateTargetLanePosition(position: Vec3, right: Vec3, laneWidth: real, lastLane: int, currentLane: int): (r: Vec3)
    ensures lastLane == currentLane && -1 <= currentLane <= 1 ==> r == position
  {
    var basePosition :=
      if lastLane == -1 then position.Plus(right.Scale(laneWidth))
      else if lastLane == 1 then position.Minus(right.Scale(laneWidth))
      else position;
    if currentLane == -1 then basePosition.Minus(right.Scale(laneWidth))
    else if currentLane == 1 then basePosition.Plus(right.Scale(laneWidth))
    else basePosition
  }

  /** For lanes in range the target is the current position displaced by
      the lane difference times the lane width along `right`. */
  lemma TargetDisplacement(position: Vec3, right: Vec3, laneWidth: real, lastLane: int, currentLane: int)
    requires -1 <= lastLane <= 1 && -1 <= currentLane <= 1
    ensures CalculateTargetLanePosition(position, right, laneWidth, lastLane, currentLane)
            == position.Plus(right.Scale((currentLane - lastLane) as real * laneWidth))
  {
    // One case per pair of lanes, so that each lane difference is a constant.
    if lastLane == -1 {
      if currentLane == -1 { } else if currentLane == 0 { } else { }
    } else if lastLane == 0 {
      if currentLane == -1 { } else if currentLane == 0 { } else { }
    } else {
      if currentLane == -1 { } else if currentLane == 0 { } else { }
    }
  }

  class PlayerLaneHandler {
    var currentLane: int
    var lastLane: int
    var laneWidth: real
    var laneChangeSpeed: real
    var leanAngle: real
    var isChangingLane: bool
    var laneChangeProgress: real
    var targetLanePosition: Vec3
    var startPosition: Vec3
    /** Roll of the lean rotation the current change tilts toward. */
    var leanZ: real
    /** Every movement sent through `OnLaneMovement`, oldest first. */
    var movements: seq<Vec3>

    /** Both lane numbers stay in -1..1. */
    predicate Valid()
      reads this
    {
      -1 <= currentLane <= 1 && -1 <= lastLane <= 1
    }

    /** The component with its inspector defaults: middle lane, width 3, speed 3, lean 15. */
    constructor ()
      ensures Valid() && currentLane == 0 && lastLane == 0 && !isChangingLane
      ensures laneWidth == 3.0 && laneChangeSpeed == 3.0 && leanAngle == 15.0
      ensures movements == []
    {
      currentLane := 0;
      lastLane := 0;
      laneWidth := 3.0;
      laneChangeSpeed := 3.0;
      leanAngle := 15.0;
      isChangingLane := false;
      laneChangeProgress := 0.0;
      targetLanePosition := Zero;
      startPosition := Zero;
      leanZ := 0.0;
      movements := [];
    }

    /** `canChangeLane`: no change, turn, slide or jump in progress. The
        turn, slide and jump flags belong to other components and are passed in. */
    predicate CanChangeLane(turning: bool, sliding: bool, jumping: bool)
      reads this
      ensures CanChangeLane(turning, sliding, jumping) ==> !isChangingLane
      ensures turning || sliding || jumping ==> !CanChangeLane(turning, sliding, jumping)
    {
      !isChangingLane && !turning && !sliding && !jumping
    }

    /** `HandleLaneInput`: when a change may start and the pressed key leads
        to another lane, that change starts from `position`; otherwise
        nothing changes. */
    method HandleLaneInput(rightPressed: bool, leftPressed: bool, turning: bool, sliding: bool, jumping: bool,
                           position: Vec3, right: Vec3)
      requires Valid()
      modifies this
      ensures Valid()
      ensures var next := HandlerNextLane(old(currentLane), rightPressed, leftPressed);
        if old(CanChangeLane(turning, sliding, jumping)) && next != old(currentLane) then
          && lastLane == old(currentLane) && currentLane == next
          && isChangingLane && laneChangeProgress == 0.0 && startPosition == position
          && leanZ == (if currentLane > lastLane then leanAngle else -leanAngle)
          && targetLanePosition == CalculateTargetLanePosition(position, right, laneWidth, lastLane, currentLane)
          && laneWidth == old(laneWidth) && laneChangeSpeed == old(laneChangeSpeed)
          && leanAngle == old(leanAngle) && movements == old(movements)
        else
          unchanged(this)
    {
      if !CanChangeLane(turning, sliding, jumping) {
        return;
      }
      if rightPressed {
        if currentLane > -1 {
          lastLane := currentLane;
          currentLane := currentLane - 1;
          StartLaneChange(position, right);
        }
      } else if leftPressed {
        if currentLane < 1 {
          lastLane := currentLane;
          currentLane := currentLane + 1;
          StartLaneChange(position, right);
        }
      }
    }

    /** `StartLaneChange`: the change starts at `position` with no progress,
        leaning toward the new lane, aiming at the new lane's position. */
    method StartLaneChange(position: Vec3, right: Vec3)
      modifies this`isChangingLane, this`laneChangeProgress, this`startPosition, this`leanZ, this`targetLanePosition
      ensures isChangingLane && laneChangeProgress == 0.0 && startPosition == position
      ensures leanZ == (if currentLane > lastLane then leanAngle else -leanAngle)
      ensures targetLanePosition == CalculateTargetLanePosition(position, right, laneWidth, lastLane, currentLane)
    {
      isChangingLane := true;
      laneChangeProgress := 0.0;
      startPosition := position;
      leanZ := if currentLane > lastLane then leanAngle else -leanAngle;
      targetLanePosition := CalculateTargetLanePosition(position, right, laneWidth, lastLane, currentLane);
    }

    /** `ProcessLaneChange` for one frame of `deltaTime`, the player standing
        at `position`; `eased` is `EaseInOutSine` of the new progress. Once
        the progress reaches 1 the change ends and the movement sent lands
        the player exactly on the target; before that it brings the player
        to the eased point between the start and the target. */
    method ProcessLaneChange(deltaTime: real, position: Vec3, eased: real) returns (movement: Vec3)
      modifies this`laneChangeProgress, this`isChangingLane, this`movements
      ensures laneChangeProgress == old(laneChangeProgress) + deltaTime * laneChangeSpeed
      ensures movements == old(movements) + [movement]
      ensures laneChangeProgress >= 1.0 ==> !isChangingLane && position.Plus(movement) == targetLanePosition
      ensures laneChangeProgress < 1.0 ==>
        isChangingLane == old(isChangingLane) && position.Plus(movement) == LerpVec(startPosition, targetLanePosition, eased)
    {
      laneChangeProgress := laneChangeProgress + deltaTime * laneChangeSpeed;
      if laneChangeProgress >= 1.0 {
        isChangingLane := false;
        movement := targetLanePosition.Minus(position);
      } else {
        var newPosition := LerpVec(startPosition, targetLanePosition, eased);
        movement := newPosition.Minus(position);
      }
      movements := movements + [movement];
    }

    /** `ResetLaneOnTurn`: after a turn the player is put back in the middle
        lane, any change in progress is dropped, and the target is
        recomputed from the new position and orientation. */
    method ResetLaneOnTurn(position: Vec3, right: Vec3)
      requires Valid()
      modifies this`lastLane, this`currentLane, this`isChangingLane, this`targetLanePosition
      ensures Valid()
      ensures lastLane == old(currentLane) && currentLane == 0 && !isChangingLane
      ensures targetLanePosition == position.Plus(right.Scale((0 - lastLane) as real * laneWidth))
    {
      lastLane := currentLane;
      currentLane := 0;
      isChangingLane := false;
      targetLanePosition := CalculateTargetLanePosition(position, right, laneWidth, lastLane, currentLane);
      TargetDisplacement(position, right, laneWidth, lastLane, currentLane);
    }
  }
}
