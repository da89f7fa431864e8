/** The `Player` component and the `PlayerLifeManager` beside it on the
    player object. The player runs forward, jumps, slides and dies on fire
    or an intact wall; the life manager counts the deaths against the lives,
    respawns the player at the point saved after the last completed turn,
    or ends the game when the lives are used up. The two refer to each
    other, so they share a module. */
module PlayerLife {
  import opened Common
  import opened Scoring

  /** The `PlayerPrefs` key of the score a finished game reached. */
  const FinalScoreKey: string := "FinalScore"

  /** The y velocity `Update` leaves on a dead player once the death has
      been reported, so that it is reported only once. */
  const DeathReportedVelocity: real := -0.1

  /** Tags of the colliders the player reacts to. */
  const FireTag: string := "Fire"
  const CoinTag: string := "coin"
  const WallTag: string := "Wall"

  /** The guard `HandleSlide` uses, as written: the S key starts a slide only
      when none is running, but the down arrow starts one at any time. */
  predicate SlideGuardAsWritten(isSliding: bool, sPressed: bool, downPressed: bool, turning: bool)
  {
    ((!isSliding && sPressed) || downPressed) && !turning
  }

  /** The guard both keys were evidently meant to share: no slide while one runs. */
  predicate SlideGuard(isSliding: bool, sPressed: bool, downPressed: bool, turning: bool)
  {
    !isSliding && (sPressed || downPressed) && !turning
  }

  /** The two guards agree except for the down arrow during a slide. */
  lemma SlideGuardsDiffer(isSliding: bool, sPressed: bool, downPressed: bool, turning: bool)
    ensures SlideGuardAsWritten(isSliding, sPressed, downPressed, turning) != SlideGuard(isSliding, sPressed, downPressed, turning)
            <==> isSliding && downPressed && !turning
  {
  }

  /** The movement `MovePlayer` makes in one frame of `deltaTime` with speed
      `speed`, facing `forward`, with the pending sideways step `lateral` and
      vertical velocity `vy`: along the dominant horizontal axis of the
      facing, by the speed; on the other horizontal axis only the sideways
      step; and the vertical velocity over the frame. */
  function FrameMovement(forward: Vec3, speed: real, deltaTime: real, lateral: Vec3, vy: real): (m: Vec3)
    ensures m.y == vy * deltaTime
    ensures Abs(forward.z) > Abs(forward.x) ==>
      && Abs(m.z) == Abs(speed * deltaTime)
      && (speed * deltaTime > 0.0 ==> (m.z > 0.0 <==> forward.z >= 0.0))
      && m.x == (if lateral != Zero then lateral.x else 0.0)
    ensures Abs(forward.z) <= Abs(forward.x) ==>
      && Abs(m.x) == Abs(speed * deltaTime)
      && (speed * deltaTime > 0.0 ==> (m.x > 0.0 <==> forward.x >= 0.0))
      && m.z == (if lateral != Zero then lateral.z else 0.0)
  {
    var forwardStep := speed * deltaTime;
    var withLateral :=
      if Abs(forward.z) > Abs(forward.x) then
        var base := Vec3(0.0, 0.0, Sign(forward.z) * forwardStep);
        if lateral != Zero then base.(x := lateral.x) else base
      else
        var base := Vec3(Sign(forward.x) * forwardStep, 0.0, 0.0);
        if lateral != Zero then base.(z := lateral.z) else base;
    withLateral.(y := vy * deltaTime)
  }

  datatype LifeEvent = LifeLost | GameOver | Respawned

  class Player {
    var movementSpeed: real
    var jumpHeight: real
    var gravity: real
    var defaultMovementSpeed: real
    var velocity: Vec3
    var isJumping: bool
    var isSliding: bool
    var slideDuration: real
    var slideSpeedMultiplier: real
    /** The last movement the lane handler sent, not yet applied. */
    var lateralMovement: Vec3
    var isDead: bool
    var position: Vec3
    var rotation: Rotation
    var lifeManager: PlayerLifeManager?
    /** The running `Slide` coroutines, oldest first, each with the speed it
        saved and will restore when its duration is over. */
    var slides: seq<real>
    /** Every movement handed to the character controller. */
    var moves: seq<Vec3>

    /** The slide bookkeeping as it is meant to be: sliding exactly while
        one slide runs, at the speed it saved times the multiplier. */
    predicate SlideSound()
      reads this
    {
      && |slides| <= 1
      && (isSliding <==> |slides| == 1)
      && (isSliding ==> movementSpeed == slides[0] * slideSpeedMultiplier)
    }

    /** The component with its inspector defaults, standing at `position`. */
    constructor (position: Vec3, rotation: Rotation)
      ensures movementSpeed == 5.0 && defaultMovementSpeed == 5.0 && jumpHeight == 2.0 && gravity == 9.81
      ensures slideDuration == 1.0 && slideSpeedMultiplier == 1.5
      ensures !isDead && !isJumping && !isSliding && slides == [] && velocity == Zero && lateralMovement == Zero
      ensures this.position == position && this.rotation == rotation && lifeManager == null && moves == []
      ensures SlideSound()
    {
      movementSpeed := 5.0;
      jumpHeight := 2.0;
      gravity := 9.81;
      defaultMovementSpeed := 5.0;
      velocity := Zero;
      isJumping := false;
      isSliding := false;
      slideDuration := 1.0;
      slideSpeedMultiplier := 1.5;
      lateralMovement := Zero;
      isDead := false;
      this.position := position;
      this.rotation := rotation;
      lifeManager := null;
      slides := [];
      moves := [];
    }

    /** `Start`: finds the life manager, remembers the configured speed as
        the default and starts alive. */
    method Start(lifeManager: PlayerLifeManager?)
      modifies this`lifeManager, this`defaultMovementSpeed, this`isDead
      ensures this.lifeManager == lifeManager && defaultMovementSpeed == movementSpeed && !isDead
    {
      this.lifeManager := lifeManager;
      defaultMovementSpeed := movementSpeed;
      isDead := false;
    }

    /** `ApplyLateralMovement`, the lane handler's `OnLaneMovement` listener. */
    method ApplyLateralMovement(movement: Vec3)
      modifies this`lateralMovement
      ensures lateralMovement == movement
    {
      lateralMovement := movement;
    }

    /** `Update` for one frame: a dead player only reports the death
        (`UpdateDead`) and neither jumps, slides nor moves; a living one
        handles the jump, then the slide (under the guard as written), then
        moves by `FrameMovement` with the speed and vertical velocity those
        two left. */
    method Update(grounded: bool, turning: bool, spacePressed: bool, sPressed: bool, downPressed: bool,
                  jumpVelocity: real, deltaTime: real, forward: Vec3, scores: ScoreManager?, prefs: Prefs)
      requires lifeManager != null ==> lifeManager.player == this
      modifies this, lifeManager, prefs
      ensures lifeManager == old(lifeManager)
      ensures gravity == old(gravity) && slideSpeedMultiplier == old(slideSpeedMultiplier) && isDead == old(isDead)
      ensures defaultMovementSpeed == old(defaultMovementSpeed) && jumpHeight == old(jumpHeight)
      ensures slideDuration == old(slideDuration) && position == old(position) && rotation == old(rotation)
      ensures old(isDead) ==>
        && moves == old(moves) && isJumping == old(isJumping) && isSliding == old(isSliding)
        && movementSpeed == old(movementSpeed) && slides == old(slides) && lateralMovement == old(lateralMovement)
      ensures old(isDead) ==>
        if lifeManager != null && old(velocity.y) > DeathReportedVelocity then
          velocity == old(velocity).(y := DeathReportedVelocity) && lifeManager.DeathHandled(scores, prefs)
        else
          velocity == old(velocity) && (lifeManager != null ==> unchanged(lifeManager)) && unchanged(prefs)
      ensures !old(isDead) ==>
        && (lifeManager != null ==> unchanged(lifeManager)) && unchanged(prefs)
        && isJumping == (if grounded && !turning then spacePressed && !old(isSliding) else old(isJumping))
        && velocity == (if !(grounded && !turning) then old(velocity).(y := old(velocity.y) - gravity * deltaTime)
                        else if spacePressed && !old(isSliding) then old(velocity).(y := jumpVelocity)
                        else old(velocity))
        && lateralMovement == Zero
        && moves == old(moves) + [FrameMovement(forward, movementSpeed, deltaTime, old(lateralMovement), velocity.y)]
      ensures !old(isDead) && SlideGuardAsWritten(old(isSliding), sPressed, downPressed, turning) ==>
        isSliding && movementSpeed == old(movementSpeed) * slideSpeedMultiplier && slides == old(slides) + [old(movementSpeed)]
      ensures !old(isDead) && !SlideGuardAsWritten(old(isSliding), sPressed, downPressed, turning) ==>
        isSliding == old(isSliding) && movementSpeed == old(movementSpeed) && slides == old(slides)
    {
      if isDead {
        UpdateDead(scores, prefs);
        return;
      }
      HandleJump(grounded, turning, spacePressed, jumpVelocity, deltaTime);
      HandleSlide(sPressed, downPressed, turning);
      var movement := MovePlayer(forward, deltaTime);
    }

    /** `Update` while dead: the death is reported to the life manager on
        the first dead frame only, because the report leaves the y velocity
        at the sentinel -0.1 that later frames test for. */
    method UpdateDead(scores: ScoreManager?, prefs: Prefs)
      requires isDead
      requires lifeManager != null ==> lifeManager.player == this
      modifies this`velocity, lifeManager, prefs
      ensures lifeManager == old(lifeManager)
      ensures if lifeManager != null && old(velocity.y) > DeathReportedVelocity then
          velocity == old(velocity).(y := DeathReportedVelocity) && lifeManager.DeathHandled(scores, prefs)
        else
          velocity == old(velocity) && (lifeManager != null ==> unchanged(lifeManager)) && unchanged(prefs)
    {
      if lifeManager != null && velocity.y > DeathReportedVelocity {
        lifeManager.HandlePlayerDeath(scores, prefs);
        velocity := velocity.(y := DeathReportedVelocity);
      }
    }

    /** `HandleJump`, given whether the controller is grounded, whether a
        turn is running, whether space went down this frame, and
        `jumpVelocity`, the engine's `Mathf.Sqrt(jumpHeight * 2 * gravity)`.
        On the ground and not turning, landing ends a jump and space starts
        one unless sliding; otherwise gravity pulls the player down. */
    method HandleJump(grounded: bool, turning: bool, spacePressed: bool, jumpVelocity: real, deltaTime: real)
      modifies this`isJumping, this`velocity
      ensures grounded && !turning ==>
        isJumping == (spacePressed && !isSliding)
        && velocity == if spacePressed && !isSliding then old(velocity).(y := jumpVelocity) else old(velocity)
      ensures !(grounded && !turning) ==>
        isJumping == old(isJumping) && velocity == old(velocity).(y := old(velocity.y) - gravity * deltaTime)
    {
      if grounded && !turning {
        if isJumping {
          isJumping := false;
        }
        if spacePressed && !isSliding {
          velocity := velocity.(y := jumpVelocity);
          isJumping := true;
        }
      } else {
        velocity := velocity.(y := velocity.y - gravity * deltaTime);
      }
    }

    /** `HandleSlide` as written: a slide starts under `SlideGuardAsWritten`. */
    method HandleSlide(sPressed: bool, downPressed: bool, turning: bool)
      modifies this`isSliding, this`movementSpeed, this`slides
      ensures SlideGuardAsWritten(old(isSliding), sPressed, downPressed, turning) ==>
        isSliding && movementSpeed == old(movementSpeed) * slideSpeedMultiplier && slides == old(slides) + [old(movementSpeed)]
      ensures !SlideGuardAsWritten(old(isSliding), sPressed, downPressed, turning) ==>
        isSliding == old(isSliding) && movementSpeed == old(movementSpeed) && slides == old(slides)
    {
      if ((!isSliding && sPressed) || downPressed) && !turning {
        StartSlide();
      }
    }

    /** `HandleSlide` with the guard corrected: a slide never starts while
        one runs, so the slide bookkeeping stays sound. */
    method HandleSlideCorrected(sPressed: bool, downPressed: bool, turning: bool)
      requires SlideSound()
      modifies this`isSliding, this`movementSpeed, this`slides
      ensures SlideSound()
      ensures SlideGuard(old(isSliding), sPressed, downPressed, turning) ==>
        isSliding && movementSpeed == old(movementSpeed) * slideSpeedMultiplier && slides == [old(movementSpeed)]
      ensures !SlideGuard(old(isSliding), sPressed, downPressed, turning) ==>
        isSliding == old(isSliding) && movementSpeed == old(movementSpeed) && slides == old(slides)
    {
      if !isSliding && (sPressed || downPressed) && !turning {
        StartSlide();
      }
    }

    /** `Slide` up to its wait: sliding, at the speed times the multiplier,
        with the speed before the slide saved for its end. */
    method StartSlide()
      modifies this`isSliding, this`movementSpeed, this`slides
      ensures isSliding && movementSpeed == old(movementSpeed) * slideSpeedMultiplier
      ensures slides == old(slides) + [old(movementSpeed)]
    {
      isSliding := true;
      var originalSpeed := movementSpeed;
      movementSpeed := movementSpeed * slideSpeedMultiplier;
      slides := slides + [originalSpeed];
    }

    /** `Slide` after its wait, for the oldest running slide (all last the
        same `slideDuration`): sliding stops and the speed saved at its start
        is restored. */
    method EndSlide()
      requires slides != []
      modifies this`isSliding, this`movementSpeed, this`slides
      ensures !isSliding && movementSpeed == old(slides[0]) && slides == old(slides[1..])
    {
      isSliding := false;
      movementSpeed := slides[0];
      slides := slides[1..];
    }

    /** With the corrected guard a slide that ends leaves the player at the
        speed it had before the slide. */
    method EndSoundSlide()
      requires SlideSound() && isSliding
      modifies this`isSliding, this`movementSpeed, this`slides
      ensures SlideSound() && !isSliding
      ensures movementSpeed * slideSpeedMultiplier == old(movementSpeed)
    {
      EndSlide();
    }

    /** `MovePlayer`: the frame's movement (`FrameMovement`) goes to the
        controller, and the pending sideways step is used up. */
    method MovePlayer(forward: Vec3, deltaTime: real) returns (movement: Vec3)
      modifies this`lateralMovement, this`moves
      ensures movement == FrameMovement(forward, movementSpeed, deltaTime, old(lateralMovement), velocity.y)
      ensures lateralMovement == Zero && moves == old(moves) + [movement]
    {
      var m := Zero;
      if Abs(forward.z) > Abs(forward.x) {
        m := m.(z := Sign(forward.z) * movementSpeed * deltaTime);
        if lateralMovement != Zero {
          m := m.(x := lateralMovement.x);
        }
      } else {
        m := m.(x := Sign(forward.x) * movementSpeed * deltaTime);
        if lateralMovement != Zero {
          m := m.(z := lateralMovement.z);
        }
      }
      lateralMovement := Zero;
      m := m.(y := velocity.y * deltaTime);
      moves := moves + [m];
      movement := m;
    }

    /** `OnTriggerEnter` with a collider tagged `tag`: fire kills a living
        player; a coin is worth one point. */
    method OnTriggerEnter(tag: string, scores: ScoreManager)
      requires scores.Synced()
      modifies this`isDead, this`movementSpeed, this`velocity, scores, scores.prefs
      ensures scores.prefs == old(scores.prefs) && scores.Synced()
      ensures isDead == (old(isDead) || tag == FireTag)
      ensures tag == FireTag && !old(isDead) ==> movementSpeed == 0.0 && velocity == Zero
      ensures !(tag == FireTag && !old(isDead)) ==> movementSpeed == old(movementSpeed) && velocity == old(velocity)
      ensures scores.currentScore == old(scores.currentScore) + (if tag == CoinTag then 1 else 0)
    {
      if tag == FireTag && !isDead {
        Die();
      }
      if tag == CoinTag {
        scores.AddScore(1);
      }
    }

    /** `OnControllerColliderHit` with an object tagged `tag`; `wallIntact`
        is that object's `ObstacleWall.IsIntact()`, `None` when it has no
        `ObstacleWall`. Only an intact wall kills, and only a living player. */
    method OnControllerColliderHit(tag: string, wallIntact: Option<bool>)
      modifies this`isDead, this`movementSpeed, this`velocity
      ensures var kills := tag == WallTag && !old(isDead) && wallIntact == Some(true);
        if kills then isDead && movementSpeed == 0.0 && velocity == Zero
        else isDead == old(isDead) && movementSpeed == old(movementSpeed) && velocity == old(velocity)
    {
      if tag == WallTag && !isDead {
        if wallIntact.Some? && wallIntact.value {
          Die();
        }
      }
    }

    /** `Die`: dead, stopped, with no velocity. */
    method Die()
      modifies this`isDead, this`movementSpeed, this`velocity
      ensures isDead && movementSpeed == 0.0 && velocity == Zero
    {
      isDead := true;
      movementSpeed := 0.0;
      velocity := Zero;
    }

    /** `ResetPlayerState()`: alive, neither jumping nor sliding, at the
        default speed, with no velocity. */
    method ResetPlayerState()
      modifies this`isDead, this`isJumping, this`isSliding, this`movementSpeed, this`velocity
      ensures !isDead && !isJumping && !isSliding && movementSpeed == defaultMovementSpeed && velocity == Zero
    {
      isDead := false;
      isJumping := false;
      isSliding := false;
      movementSpeed := defaultMovementSpeed;
      velocity := Zero;
    }

    /** `ResetPlayerState(respawnPos, respawnRot)`: the same reset, then the
        player is moved to the respawn position and rotation. */
    method ResetPlayerStateAt(respawnPos: Vec3, respawnRot: Rotation)
      modifies this`isDead, this`isJumping, this`isSliding, this`movementSpeed, this`velocity,
               this`position, this`rotation
      ensures !isDead && !isJumping && !isSliding && movementSpeed == defaultMovementSpeed && velocity == Zero
      ensures position == respawnPos && rotation == respawnRot
    {
      ResetPlayerState();
      position := respawnPos;
      rotation := respawnRot;
    }
  }

  /** Pressing S, then the down arrow during that slide, then letting both
      slides end, leaves a player of speed 5 running at 7.5 and not sliding:
      the second slide saved the boosted speed and restores it last. */
  method OverlappingSlideKeepsBoost() returns (p: Player)
    ensures !p.isSliding && p.slides == []
    ensures p.movementSpeed == 7.5 && p.movementSpeed != p.defaultMovementSpeed
  {
    p := new Player(Zero, Rotation(0.0, 0.0, 0.0, 1.0));
    p.HandleSlide(true, false, false);
    p.HandleSlide(false, true, false);
    p.EndSlide();
    p.EndSlide();
  }

  /** The same key presses with the corrected guard: the down arrow is
      ignored during the slide, and the slide's end restores speed 5. */
  method CorrectedSlideRestoresSpeed() returns (p: Player)
    ensures !p.isSliding && p.slides == []
    ensures p.movementSpeed == 5.0 && p.movementSpeed == p.defaultMovementSpeed
  {
    p := new Player(Zero, Rotation(0.0, 0.0, 0.0, 1.0));
    p.HandleSlideCorrected(true, false, false);
    p.HandleSlideCorrected(false, true, false);
    p.EndSoundSlide();
  }

  class PlayerLifeManager {
    var maxLives: int
    var respawnDelay: real
    var gameOverDelay: real
    var currentLives: int
    var respawnPosition: Vec3
    var respawnRotation: Rotation
    var player: Player
    /** Whether `OnPlayerTurnComplete` listens to the turn handler. */
    var listeningForTurns: bool
    /** `RespawnAfterDelay` coroutines waiting out their delay. */
    var pendingRespawns: nat
    /** Whether a game-over transition is waiting to load its scene. */
    var gameOverPending: bool
    var events: seq<LifeEvent>

    /** The component after `Start` on `player`'s object, with `maxLives`
        (3 by default); `turnHandlerPresent` says whether the object has a
        turn handler to listen to. */
    constructor (player: Player, maxLives: int, turnHandlerPresent: bool)
      ensures this.player == player && this.maxLives == maxLives && currentLives == maxLives
      ensures respawnPosition == player.position && respawnRotation == player.rotation
      ensures listeningForTurns == turnHandlerPresent
      ensures pendingRespawns == 0 && !gameOverPending && events == []
    {
      this.player := player;
      this.maxLives := maxLives;
      respawnDelay := 2.0;
      gameOverDelay := 3.0;
      currentLives := maxLives;
      respawnPosition := player.position;
      respawnRotation := player.rotation;
      listeningForTurns := turnHandlerPresent;
      pendingRespawns := 0;
      gameOverPending := false;
      events := [];
    }

    /** `SaveRespawnPoint`: the player's current position and rotation. */
    method SaveRespawnPoint()
      modifies this`respawnPosition, this`respawnRotation
      ensures respawnPosition == player.position && respawnRotation == player.rotation
    {
      respawnPosition := player.position;
      respawnRotation := player.rotation;
    }

    /** `OnPlayerTurnComplete`: every completed turn becomes the respawn point. */
    method OnPlayerTurnComplete()
      modifies this`respawnPosition, this`respawnRotation
      ensures respawnPosition == player.position && respawnRotation == player.rotation
    {
      SaveRespawnPoint();
    }

    /** What `HandlePlayerDeath` leaves for a dead player: one life fewer,
        the loss announced, and then a respawn scheduled while lives remain
        (the store untouched), the game-over transition started with the
        final score stored otherwise. The respawn point, the settings and
        the turn subscription stay as they were. */
    twostate predicate DeathHandled(scores: ScoreManager?, prefs: Prefs)
      reads this, player, player.lifeManager, scores, prefs
    {
      && currentLives == old(currentLives) - 1
      && player == old(player) && maxLives == old(maxLives)
      && respawnPosition == old(respawnPosition) && respawnRotation == old(respawnRotation)
      && respawnDelay == old(respawnDelay) && gameOverDelay == old(gameOverDelay)
      && listeningForTurns == old(listeningForTurns)
      && (currentLives > 0 ==>
            pendingRespawns == old(pendingRespawns) + 1 && gameOverPending == old(gameOverPending)
            && events == old(events) + [LifeLost]
            && prefs.ints == old(prefs.ints))
      && (currentLives <= 0 ==>
            pendingRespawns == old(pendingRespawns) && gameOverPending
            && events == old(events) + [LifeLost, GameOver]
            && prefs.ints == old(prefs.ints)[FinalScoreKey := if scores == null then 0 else scores.currentScore])
    }

    /** `HandlePlayerDeath`: nothing unless the player is dead; otherwise
        `DeathHandled`. */
    method HandlePlayerDeath(scores: ScoreManager?, prefs: Prefs)
      modifies this, prefs
      ensures player == old(player) && maxLives == old(maxLives)
      ensures !player.isDead ==> unchanged(this) && unchanged(prefs)
      ensures player.isDead ==> DeathHandled(scores, prefs)
    {
      if player.isDead {
        currentLives := currentLives - 1;
        events := events + [LifeLost];
        if currentLives > 0 {
          pendingRespawns := pendingRespawns + 1;
        } else {
          TransitionToGameOver(scores, prefs);
        }
      }
    }

    /** `RespawnAfterDelay` once its delay is over: the player is reset at
        the saved respawn point, then the respawn is announced. */
    method RespawnAfterDelay()
      requires pendingRespawns > 0
      modifies this`pendingRespawns, this`events, player
      ensures pendingRespawns == old(pendingRespawns) - 1 && events == old(events) + [Respawned]
      ensures !player.isDead && !player.isJumping && !player.isSliding
      ensures player.movementSpeed == player.defaultMovementSpeed && player.velocity == Zero
      ensures player.position == respawnPosition && player.rotation == respawnRotation
    {
      pendingRespawns := pendingRespawns - 1;
      player.ResetPlayerStateAt(respawnPosition, respawnRotation);
      events := events + [Respawned];
    }

    /** `TransitionToGameOver` up to its wait: the current score, or 0
        without a score manager, is stored as the final score and the game
        over is announced; the scene load is left pending. */
    method TransitionToGameOver(scores: ScoreManager?, prefs: Prefs)
      modifies prefs, this`events, this`gameOverPending
      ensures prefs.ints == old(prefs.ints)[FinalScoreKey := if scores == null then 0 else scores.currentScore]
      ensures events == old(events) + [GameOver] && gameOverPending
    {
      var currentScore := if scores != null then scores.currentScore else 0;
      prefs.ints := prefs.ints[FinalScoreKey := currentScore];
      events := events + [GameOver];
      gameOverPending := true;
    }
  }

  /** Storing the final score never disturbs the stored high score, as long
      as the high score is kept under another key. */
  lemma FinalScoreKeepsHighScore(ints: map<string, int>, highScoreKey: string, finalScore: int)
    requires highScoreKey != FinalScoreKey
    ensures GetInt(ints[FinalScoreKey := finalScore], highScoreKey, 0) == GetInt(ints, highScoreKey, 0)
  {
  }
}
