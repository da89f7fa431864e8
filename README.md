# city-runner core, modelled in Dafny

This project models the gameplay core of *city-runner*, a Unity endless runner written in C#.
The player runs along a road of three lanes. They switch lanes, jump, slide, turn at
corners and cast a spell that breaks brick walls. After every turn the game lays out
obstacles, trap walls, fires and coins on the path ahead. The core also covers lives
and respawning, health, scoring with a persisted high score, and the camera's
see-through obstacles.

Each C# component becomes one Dafny module, in one file:

| file | module | C# source |
|---|---|---|
| common.dfy | Common | shared vectors, sums, clamps and truncation used by the components |
| path_detector.dfy | PathDetector | Assets/Scripts/world/PathDetector.cs |
| obstacle_spawner.dfy | ObstacleSpawning | Assets/Scripts/obstacle/ObstacleSpawner.cs |
| trap_wall_spawner.dfy | TrapWalls | Assets/Scripts/obstacle/type/TrapWallSpawner.cs |
| coin_spawner.dfy | Coins | Assets/Scripts/coin/CoinSpawner.cs |
| obstacle_fire.dfy | FireObstacles | Assets/Scripts/obstacle/type/ObstacleFire.cs |
| lane_handler.dfy | LaneHandling | Assets/Scripts/player/PlayerLaneHandler.cs |
| player_movement.dfy | LaneMovement | Assets/Scripts/player/PlayerMovement.cs |
| turn_handler.dfy | Turning | Assets/Scripts/player/PlayerTurnHandler.cs |
| player.dfy | PlayerLife | Assets/Scripts/player/Player.cs and Assets/Scripts/player/PlayerLifeManager.cs |
| score_manager.dfy | Scoring | Assets/Scripts/ScoreManager.cs |
| player_controller.dfy | Spells | Assets/Scripts/player/PlayerController.cs |
| player_health.dfy | Health | Assets/Scripts/player/PlayerHealth.cs |
| obstacle_wall.dfy | Walls | Assets/Scripts/obstacle/type/ObstacleWall.cs |
| obstacles_transparency.dfy | Transparency | Assets/Scripts/ObstaclesTransparency.cs |

`Player` and `PlayerLifeManager` call each other, and Dafny modules cannot import
each other cyclically, so both classes share one module.

How the engine is represented:

- A `MonoBehaviour` whose fields change from frame to frame becomes a Dafny `class`.
  Its methods carry `modifies` clauses and state the new value of every modelled field they
  may change and that the other fields are kept. Engine state outside the model, such as the
  position `controller.Move` produces, is listed under "## Left out".
- Engine queries are parameters of the method that uses them. These are ray casts,
  ground checks, key presses, `Time.deltaTime` and `Time.time`.
- Each `Random.Range` call site becomes an oracle function indexed by the draw's
  position (`draw: nat -> real`). Where a proof needs the range Unity guarantees for
  the draw, a `requires` states it.
- A coroutine or `Invoke` becomes a pending entry (a counter or a queue) plus a
  method for the part that runs after the wait.
- Events (`OnPlayerTurnComplete`, `OnLifeLost`, ...) become logs of what was raised.
- `Vector3` becomes `Vec3` over `real`.
- Game objects, renderers and materials are identified by numbers or by what the
  logic reads from them (a tag, a position).
- Integers are unbounded; the two places where the source's 32-bit `int` could
  matter are listed under "## Left out".

## Model

| member | source | states |
|---|---|---|
| PathDetector.DetectPath | Assets/Scripts/world/PathDetector.cs:11-36 | The result keeps the query's start and direction. Without a hit the path runs the full ray distance and ends at start + direction * distance, with no object and no turn point. With a hit the path ends at the hit point with the hit distance and object. It is flagged a turn point exactly when a hit's tag is "TurnPoint". |
| PathDetector.ClipToPath | Assets/Scripts/world/PathDetector.cs:47-53 | A segment is at most its draw and at most the rest of the path, and it equals one of the two. |
| PathDetector.DividePathIntoSegments | Assets/Scripts/world/PathDetector.cs:39-60 | The loop returns exactly `Split` of the path by the draws, whose properties are the two lemmas below. |
| PathDetector.StepShrinksMeasure | Assets/Scripts/world/PathDetector.cs:45-57 | Every loop pass either finishes the path or advances by at least the minimum segment size, so the loop terminates. |
| PathDetector.SplitSum | Assets/Scripts/world/PathDetector.cs:39-60 | The segments add up exactly to the path length. An empty or negative path yields no segments. |
| PathDetector.SplitSizes | Assets/Scripts/world/PathDetector.cs:45-57 | Every segment is positive and at most the maximum size. Every segment but the last is at least the minimum size. |
| PathDetector.SplitClips | Assets/Scripts/world/PathDetector.cs:45-57 | Segment i is draw i clipped to what the segments before it leave of the path. |
| ObstacleSpawning.ProperFraction | Assets/Scripts/obstacle/ObstacleSpawner.cs:66 | A fraction (i+1)/(n+1) with i < n lies strictly between 0 and 1. |
| ObstacleSpawning.WallInsideUsableRange | Assets/Scripts/obstacle/ObstacleSpawner.cs:63-71 | Every trap wall lies strictly between the two safe zones. |
| ObstacleSpawning.WallsIncrease | Assets/Scripts/obstacle/ObstacleSpawner.cs:63-71 | With the quadratic bias, the walls are still placed at strictly increasing distances. |
| ObstacleSpawning.FireInsideUsableRange | Assets/Scripts/obstacle/ObstacleSpawner.cs:106-110 | Every fire lies strictly between the two safe zones. |
| ObstacleSpawning.FiresIncrease | Assets/Scripts/obstacle/ObstacleSpawner.cs:106-110 | Fires are placed at strictly increasing distances. |
| ObstacleSpawning.LaneMultiplier | Assets/Scripts/obstacle/ObstacleSpawner.cs:114-131 | Draws 0, 1 and 2 give the left, middle and right lanes (-1, 0, 1). Any other value gives the middle lane. |
| ObstacleSpawning.WallPlanShape | Assets/Scripts/obstacle/ObstacleSpawner.cs:44-80 | No walls when the path or its usable part is not positive. Otherwise exactly `maxTraps` walls, strictly inside the usable range, in increasing order. |
| ObstacleSpawning.FirePlanShape | Assets/Scripts/obstacle/ObstacleSpawner.cs:82-142 | No fires when the path or its usable part is not positive. Otherwise exactly `maxFires` fires, strictly inside the usable range, in increasing order, each in the lane its draw picks. |
| ObstacleSpawning.ObstacleSpawner.constructor | Assets/Scripts/obstacle/ObstacleSpawner.cs:15-30 | The serialized settings are kept, and no obstacle is tracked or pending. |
| ObstacleSpawning.ObstacleSpawner.SpawnObsWalls | Assets/Scripts/obstacle/ObstacleSpawner.cs:44-80 | The loop appends exactly the walls of the plan to the tracked obstacles. |
| ObstacleSpawning.ObstacleSpawner.SpawnFires | Assets/Scripts/obstacle/ObstacleSpawner.cs:82-142 | The loop appends exactly the fires of the plan, in their drawn lanes, to the tracked obstacles. |
| ObstacleSpawning.ObstacleSpawner.OnPlayerTurned | Assets/Scripts/obstacle/ObstacleSpawner.cs:145-166 | The turn start is recorded and the path ahead is measured at once. With a positive frame delay the spawn waits. With no delay, fires and then walls are spawned for that path. |
| ObstacleSpawning.ObstacleSpawner.ResumeDelayedSpawn | Assets/Scripts/obstacle/ObstacleSpawner.cs:160-166 | After the wait, the oldest waiting spawn places fires, then walls, for the path measured at the turn. With nothing waiting, nothing changes. |
| ObstacleSpawning.ObstacleSpawner.ClearTraps | Assets/Scripts/obstacle/ObstacleSpawner.cs:169-176 | Every tracked obstacle is destroyed and the list is emptied. The source skips null entries; no entry is null in this model, since nothing else destroys a tracked object. |
| TrapWalls.TrapWallPlanShape | Assets/Scripts/obstacle/type/TrapWallSpawner.cs:61-81 | The loop places at most the remaining iterations' walls. Wall j stands at the start plus the steps drawn before it, uses lane draw j, and fits before the far safe zone together with its own step. When fewer than `maxTraps` walls are placed, it is because the next step would run past the usable range. |
| TrapWalls.TrapWallsStepApart | Assets/Scripts/obstacle/type/TrapWallSpawner.cs:64-80 | The first wall stands at the loop's start. Consecutive walls are exactly the drawn step apart. |
| TrapWalls.TrapWallPlanBounds | Assets/Scripts/obstacle/type/TrapWallSpawner.cs:61-81 | With every step drawn in 8..12, the walls stand from the loop's start up to 8 units short of the limit. Each later wall is at least 8 units beyond every earlier one, and consecutive walls are at most 12 apart. |
| TrapWalls.TrapWallsForShape | Assets/Scripts/obstacle/type/TrapWallSpawner.cs:43-83 | The step draws are in 8..12 and the lane draws in -1..1, as `Random.Range` guarantees. There are no walls when the path or its usable part is not positive. Otherwise there are at most `maxTraps` walls, the first at the safe-zone distance, and each wall with its own step lies inside the usable range. Every wall is at least 8 units short of the far safe zone. The walls strictly increase, each at least 8 beyond the earlier ones and at most 12 beyond its predecessor, and each stands in lane -1, 0 or 1. |
| TrapWalls.TrapWallSpawner.constructor | Assets/Scripts/obstacle/type/TrapWallSpawner.cs:10-31 | The settings are kept. The spawner is not yet subscribed and tracks no walls. |
| TrapWalls.TrapWallSpawner.Update | Assets/Scripts/obstacle/type/TrapWallSpawner.cs:33-41 | After any number of frames the handler is subscribed exactly once. A later frame adds no subscription. |
| TrapWalls.TrapWallSpawner.SpawnTrapWalls | Assets/Scripts/obstacle/type/TrapWallSpawner.cs:43-83 | The loop appends exactly the planned walls for the path measured from the turn start, breaking at the first step that does not fit. |
| TrapWalls.TrapWallSpawner.OnPlayerTurned | Assets/Scripts/obstacle/type/TrapWallSpawner.cs:85-90 | The turn start becomes the current position, and the walls for the path ahead of it are appended. |
| TrapWalls.TrapWallSpawner.ClearTraps | Assets/Scripts/obstacle/type/TrapWallSpawner.cs:93-103 | Every tracked wall is destroyed and the list is emptied. The source skips null entries; no entry is null in this model, since nothing else destroys a tracked object. |
| Coins.CoinPathLength | Assets/Scripts/coin/CoinSpawner.cs:36-64 | The path to fill never exceeds the ray length. Without a hit it is the full ray length. With a hit within the ray, turn point or not, it is the hit distance. |
| Coins.CoinCount | Assets/Scripts/coin/CoinSpawner.cs:92 | `for (i = 0; i < segmentLength; i++)` runs the smallest whole number of times that is at least the segment length, and never for a non-positive length. |
| Coins.CoinRunShape | Assets/Scripts/coin/CoinSpawner.cs:92-106 | A filled segment holds coins exactly when its length is positive. Coin i stands i units after the segment start, in the segment's lane, strictly before the segment's end. |
| Coins.SegmentCoins | Assets/Scripts/coin/CoinSpawner.cs:87-107 | A segment gets coins exactly when its `Random.value` draw is below the 0.5 spawn chance and its length is positive. |
| Coins.SegmentCoinsShape | Assets/Scripts/coin/CoinSpawner.cs:84-111 | The coins of one segment lie inside it, in one of the three lanes, in increasing order. |
| Coins.CoinPlanShape | Assets/Scripts/coin/CoinSpawner.cs:84-115 | Over positive segments, every coin lies between the first segment's start and the last segment's end, in one of the three lanes, and no two coins coincide. |
| Coins.ConcatShape | Assets/Scripts/coin/CoinSpawner.cs:109-110 | Runs before and after a segment boundary join into one ordered, in-range run. |
| Coins.CoinsForShape | Assets/Scripts/coin/CoinSpawner.cs:33-116 | The coins of one turn lie on the measured path, never beyond the ray length, in the three lanes, strictly increasing along the path, so none are stacked. |
| Coins.CoinSpawner.constructor | Assets/Scripts/coin/CoinSpawner.cs:11-18 | Lanes are 3 apart and the ray is 500 long. The spawner is not subscribed and tracks no coins. |
| Coins.CoinSpawner.Update | Assets/Scripts/coin/CoinSpawner.cs:24-31 | After any number of frames the handler is subscribed exactly once. |
| Coins.CoinSpawner.SpawnCoin | Assets/Scripts/coin/CoinSpawner.cs:33-116 | Appends exactly the coins of the turn: the path is split by the shared segmentation loop (bounds 8 and 12), then filled segment by segment. |
| Coins.CoinSpawner.FillSegments | Assets/Scripts/coin/CoinSpawner.cs:82-115 | The segment loop appends exactly the planned coins. The start advances by every segment, whether it was filled or not. |
| Coins.CoinSpawner.PlaceRun | Assets/Scripts/coin/CoinSpawner.cs:92-106 | The inner loop appends exactly the run for the segment: one coin per unit, in the chosen lane. |
| Coins.CoinSpawner.OnPlayerTurned | Assets/Scripts/coin/CoinSpawner.cs:123-127 | The turn start is recorded and the turn's coins are appended. |
| Coins.CoinSpawner.ClearCoins | Assets/Scripts/coin/CoinSpawner.cs:130-137 | Every tracked coin is destroyed and the list is emptied. The source skips null entries; no entry is null in this model, since nothing else destroys a tracked object. |
| FireObstacles.ObstaclePlanShape | Assets/Scripts/obstacle/type/ObstacleFire.cs:50-80 | The loop places no more obstacles than there are segments. Each lies inside the stretch of path the segments cover, in one of the three lanes, from an existing prefab, in path order. The loop runs to its end exactly when there are prefabs or no segment is chosen. With no prefabs it places nothing. |
| FireObstacles.ChosenSpec | Assets/Scripts/obstacle/type/ObstacleFire.cs:52-55 | A segment is chosen exactly when its `Random.value` draw is below 0.3. The chosen segments are listed once each, in path order. |
| FireObstacles.ObstaclePlanPerSegment | Assets/Scripts/obstacle/type/ObstacleFire.cs:50-80 | With prefabs the loop completes and places exactly one obstacle per chosen segment, in path order. The i-th obstacle stands at its segment's start plus that segment's position draw, so inside its own segment, and carries that segment's lane and prefab draws. |
| FireObstacles.ObstaclesForShape | Assets/Scripts/obstacle/type/ObstacleFire.cs:41-81 | The obstacles of one turn lie on the measured path, in order, no more of them than segments of the 15-to-30 split. A non-positive path places nothing and completes. |
| FireObstacles.ObstaclesForPerSegment | Assets/Scripts/obstacle/type/ObstacleFire.cs:41-81 | With prefabs, one turn places exactly one obstacle per chosen segment of the 15-to-30 split, in order. Each lies between its segment's start and end, with that segment's lane and prefab draws. |
| FireObstacles.ObstacleFire.constructor | Assets/Scripts/obstacle/type/ObstacleFire.cs:10-30 | The prefab count and ray length are kept, and lanes are 3 apart. The component is not subscribed and tracks nothing. |
| FireObstacles.ObstacleFire.Update | Assets/Scripts/obstacle/type/ObstacleFire.cs:32-39 | After any number of frames the handler is subscribed exactly once. |
| FireObstacles.ObstacleFire.SpawnObstacles | Assets/Scripts/obstacle/type/ObstacleFire.cs:41-81 | Appends exactly the planned obstacles for the path measured from the turn start, split with bounds 15 and 30. Reports whether the call ran to its end. |
| FireObstacles.ObstacleFire.PlaceInSegments | Assets/Scripts/obstacle/type/ObstacleFire.cs:50-80 | The segment loop appends exactly the planned obstacles. It stops early, after the obstacles already placed, at the first chosen segment when the prefab array is empty. |
| FireObstacles.ObstacleFire.OnPlayerTurned | Assets/Scripts/obstacle/type/ObstacleFire.cs:83-87 | The turn start is recorded and the turn's obstacles are appended. |
| FireObstacles.ObstacleFire.ClearObstacles | Assets/Scripts/obstacle/type/ObstacleFire.cs:89-100 | Every tracked obstacle is destroyed and the list is emptied. The source skips null entries; no entry is null in this model, since nothing else destroys a tracked object. |
| LaneHandling.HandlerNextLane | Assets/Scripts/player/PlayerLaneHandler.cs:35-52 | The lane stays in -1..1 and moves by at most one. It goes down exactly when the right key is pressed and the lane is above -1. It goes up exactly when the right key is not pressed, the left key is, and the lane is below 1. The right key wins. |
| LaneHandling.CalculateTargetLanePosition | Assets/Scripts/player/PlayerLaneHandler.cs:75-96 | From the current position, the old lane's offset is undone and the new lane's offset applied, one lane width along `right` each, so staying in a lane keeps the position. `TargetDisplacement` proves the net effect. |
| LaneHandling.TargetDisplacement | Assets/Scripts/player/PlayerLaneHandler.cs:75-96 | For lanes in range, the target is the current position moved by (new lane - old lane) * laneWidth along the right vector. |
| LaneHandling.PlayerLaneHandler.constructor | Assets/Scripts/player/PlayerLaneHandler.cs:8-22 | The handler starts in the middle lane, not changing lanes, with width 3, speed 3 and lean 15, and has sent no movement. |
| LaneHandling.PlayerLaneHandler.CanChangeLane | Assets/Scripts/player/PlayerLaneHandler.cs:144-149 | A lane change may start only when none is in progress and the player is neither turning, sliding nor jumping: any one of them blocks it. The last three flags belong to other components and are inputs. |
| LaneHandling.PlayerLaneHandler.HandleLaneInput | Assets/Scripts/player/PlayerLaneHandler.cs:31-53 | A change starts only when no change, turn, slide or jump is in progress (`canChangeLane`) and the key leads to another lane. Then the old lane is remembered, progress is 0, the start is the current position, the lean is +leanAngle toward a higher lane number and -leanAngle otherwise, and the target is recomputed. Otherwise nothing changes. Lanes stay in range. |
| LaneHandling.PlayerLaneHandler.StartLaneChange | Assets/Scripts/player/PlayerLaneHandler.cs:55-73 | The change starts at the current position with no progress, leaning toward the new lane and aiming at its position. |
| LaneHandling.PlayerLaneHandler.ProcessLaneChange | Assets/Scripts/player/PlayerLaneHandler.cs:98-131 | Progress grows by deltaTime * laneChangeSpeed, and the frame's movement is sent. Once progress reaches 1, the change ends and the movement lands exactly on the target. Before that, it brings the player to the eased point between the start and the target. |
| LaneHandling.PlayerLaneHandler.ResetLaneOnTurn | Assets/Scripts/player/PlayerLaneHandler.cs:133-142 | The old lane is remembered and the lane becomes the middle one, dropping any change. The target is the position moved back by the old lane's offset. |
| LaneMovement.LaneX | Assets/Scripts/player/PlayerMovement.cs:20-23 | The table maps lanes -1, 0 and 1 to x = 291 + 2 * lane, that is 289, 291 and 293. |
| LaneMovement.MovementNextLane | Assets/Scripts/player/PlayerMovement.cs:66-91 | The lane stays in -1..1 and moves by at most one. It goes up exactly when the right key is pressed and the lane is below 1. It goes down exactly when only the left key is pressed and the lane is above -1. |
| LaneMovement.LaneConventionsMirror | Assets/Scripts/player/PlayerMovement.cs:71-89 | The two lane components number lanes in mirror image. The same keys move this component from lane l exactly where they move `PlayerLaneHandler` from lane -l, negated. |
| LaneMovement.PlayerMovement.constructor | Assets/Scripts/player/PlayerMovement.cs:43-50 | After `Start` the lane table is filled. The player is in the middle lane, with no change and no cooldown, at the inspector speeds. |
| LaneMovement.PlayerMovement.TickCooldown | Assets/Scripts/player/PlayerMovement.cs:54-58 | The cooldown timer runs down by the frame time only while it is positive. |
| LaneMovement.PlayerMovement.HandleLaneChange | Assets/Scripts/player/PlayerMovement.cs:66-91 | A change starts only when none is in progress and the key leads to another lane. It aims at the table x of the new lane, with progress 0 and the lean -leanAngle toward a higher lane number. Otherwise nothing changes. Lanes stay in range. |
| LaneMovement.PlayerMovement.StartLaneChange | Assets/Scripts/player/PlayerMovement.cs:157-180 | The change starts at the current x with no progress. It aims at `lanes[currentLane]` and leans away from the new lane. |
| LaneMovement.PlayerMovement.MovePlayer | Assets/Scripts/player/PlayerMovement.cs:182-231 | Without a change, the frame moves the player forward at the current speed and vertically by velocity.y. During a change, progress grows by deltaTime * laneChangeSpeed. Once progress reaches 1, the change ends and the rotation returns to the starting one. Before that, the x step brings the player to the eased point between the start and target x. |
| Turning.TurnRotation | Assets/Scripts/player/PlayerTurnHandler.cs:80-81 | A left turn point turns by minus its angle, a right one by its angle. |
| Turning.FirstTurnPointSpec | Assets/Scripts/player/PlayerTurnHandler.cs:67-75 | The search finds a turn point exactly when some hit carries one. The one it finds comes before every other hit that carries one. |
| Turning.PlayerTurnHandler.constructor | Assets/Scripts/player/PlayerTurnHandler.cs:25-41 | The component becomes the singleton instance only if there is none yet. It uses the lane handler found on the object, or adds a new one when there is none. It starts not turning, with no cooldown. |
| Turning.PlayerTurnHandler.TickCooldown | Assets/Scripts/player/PlayerTurnHandler.cs:45-49 | The cooldown timer runs down by the frame time only while it is positive. |
| Turning.PlayerTurnHandler.Update | Assets/Scripts/player/PlayerTurnHandler.cs:43-52 | A turn starts in a frame exactly when no turn is in progress, the cooldown has run out after this frame's tick, and some hit carries a turn point. The turn is the first such point's. Otherwise only the cooldown changes: the yaw, the running turn's start yaw, rotation and counted time, the settings, the events and the whole lane handler stay as they were. |
| Turning.PlayerTurnHandler.CheckForTurnPoints | Assets/Scripts/player/PlayerTurnHandler.cs:54-76 | Nothing is checked during a turn or while the cooldown runs. Otherwise the loop starts exactly one turn, for the first hit with a turn point, and then breaks. Without such a hit nothing changes. |
| Turning.PlayerTurnHandler.PerformTurn | Assets/Scripts/player/PlayerTurnHandler.cs:78-96 | The smooth turn starts from the current yaw with the point's rotation. The lane handler goes back to the middle lane. The cooldown restarts at `turnCooldown`. The turn is announced with its yaw change. The lane handler's width, speed, lean, progress, start position and movement log stay as they were. |
| Turning.PlayerTurnHandler.BeginSmoothTurn | Assets/Scripts/player/PlayerTurnHandler.cs:98-112 | Up to its first yield, the smooth turn marks the player as turning and records the start yaw and the turn, and the first frame's time is counted. |
| Turning.PlayerTurnHandler.ResumeSmoothTurn | Assets/Scripts/player/PlayerTurnHandler.cs:108-122 | While under 0.3 seconds, the player stays turning at the interpolated yaw. After that the yaw is exactly the start yaw plus the turn, turning ends, and only then the completion event fires. A listener never sees the turn in progress. |
| PlayerLife.SlideGuardsDiffer | Assets/Scripts/player/Player.cs:107-111 | The slide guard as written and the intended guard disagree exactly when the down arrow is pressed during a slide, outside a turn. |
| PlayerLife.FrameMovement | Assets/Scripts/player/Player.cs:136-171 | The player moves by speed * deltaTime along the dominant horizontal axis of its facing, with the facing's sign (`Mathf.Sign(0)` is 1). The other horizontal axis gets only the pending sideways step, if any. The vertical step is velocity.y * deltaTime. |
| PlayerLife.Player.constructor | Assets/Scripts/player/Player.cs:12-31 | The player starts at the inspector defaults: speed 5, slide 1.5 times for 1 second. It is alive, neither jumping nor sliding, and still. |
| PlayerLife.Player.Start | Assets/Scripts/player/Player.cs:33-46 | The life manager is found, the configured speed becomes the default speed, and the player is alive. |
| PlayerLife.Player.ApplyLateralMovement | Assets/Scripts/player/Player.cs:48-51 | The lane handler's movement is kept for the next frame. |
| PlayerLife.Player.Update | Assets/Scripts/player/Player.cs:61-77 | A dead player neither moves, jumps nor slides; the death is reported as `UpdateDead` states. A living one jumps as `HandleJump` states and slides under the as-written guard. It then makes exactly the move `FrameMovement` gives for the resulting speed and vertical velocity, and uses up the sideways step, without touching the life manager or the store. The settings, the default speed, the position and the rotation stay as they were. |
| PlayerLife.Player.UpdateDead | Assets/Scripts/player/Player.cs:63-72 | A dead player's death is reported to the life manager only while velocity.y is above -0.1, and velocity.y is then set to -0.1. So each death is reported once. A report leaves the manager as `HandlePlayerDeath` states: the store holds the final score on game over and is untouched otherwise, and the respawn point is kept. Without a report nothing changes. |
| PlayerLife.Player.HandleJump | Assets/Scripts/player/Player.cs:79-105 | On the ground and not turning, landing ends a jump, and space starts one unless sliding, with the jump velocity. Otherwise gravity lowers velocity.y by gravity * deltaTime. |
| PlayerLife.Player.HandleSlide | Assets/Scripts/player/Player.cs:107-111 | As written: S starts a slide only when none runs, but the down arrow starts one at any time outside a turn. Each start multiplies the speed and saves the speed it found. |
| PlayerLife.Player.HandleSlideCorrected | Assets/Scripts/player/Player.cs:107-111 | With the guard corrected, a slide never starts while one runs. Sliding holds exactly while one slide runs, at its saved speed times the multiplier. |
| PlayerLife.Player.StartSlide | Assets/Scripts/player/Player.cs:113-124 | Sliding starts at the speed times the multiplier, and the speed before it is saved. |
| PlayerLife.Player.EndSlide | Assets/Scripts/player/Player.cs:127-133 | When the oldest slide ends, sliding stops and the speed that slide saved is restored. |
| PlayerLife.Player.EndSoundSlide | Assets/Scripts/player/Player.cs:113-134 | Under the corrected guard, the end of a slide restores the speed before the slide, the boosted speed divided by the multiplier. |
| PlayerLife.Player.MovePlayer | Assets/Scripts/player/Player.cs:136-171 | The frame's movement is `FrameMovement` and goes to the controller. The pending sideways step is reset to zero. |
| PlayerLife.Player.OnTriggerEnter | Assets/Scripts/player/Player.cs:173-183 | Fire kills a living player and leaves a dead one unchanged. A "coin" adds exactly 1 to the score, and the stored high score stays in sync. |
| PlayerLife.Player.OnControllerColliderHit | Assets/Scripts/player/Player.cs:185-198 | The player dies exactly when it is alive and the object is tagged "Wall" and carries an intact `ObstacleWall`. Otherwise nothing changes. |
| PlayerLife.Player.Die | Assets/Scripts/player/Player.cs:201-216 | The player is dead, with speed 0 and zero velocity. |
| PlayerLife.Player.ResetPlayerState | Assets/Scripts/player/Player.cs:219-235 | The player is alive, neither jumping nor sliding, at the default speed, with zero velocity. |
| PlayerLife.Player.ResetPlayerStateAt | Assets/Scripts/player/Player.cs:238-261 | The same reset, and the player stands at the given respawn position and rotation. |
| PlayerLife.OverlappingSlideKeepsBoost | Assets/Scripts/player/Player.cs:107-134 | Speed 5, then S, then the down arrow during that slide, then both slides end: the player no longer slides but runs at 7.5, not at the default 5. |
| PlayerLife.CorrectedSlideRestoresSpeed | Assets/Scripts/player/Player.cs:107-134 | The same presses under the corrected guard: the down arrow is ignored, and the slide's end restores speed 5. |
| PlayerLife.PlayerLifeManager.constructor | Assets/Scripts/player/PlayerLifeManager.cs:34-50 | `Start` sets the lives to `maxLives` and saves the player's position and rotation as the respawn point. It listens for turns exactly when a turn handler is present. |
| PlayerLife.PlayerLifeManager.SaveRespawnPoint | Assets/Scripts/player/PlayerLifeManager.cs:70-74 | The respawn point becomes the player's current position and rotation. |
| PlayerLife.PlayerLifeManager.OnPlayerTurnComplete | Assets/Scripts/player/PlayerLifeManager.cs:62-67 | Every completed turn becomes the respawn point. |
| PlayerLife.PlayerLifeManager.HandlePlayerDeath | Assets/Scripts/player/PlayerLifeManager.cs:76-96 | Nothing happens unless the player is dead. Otherwise a life is lost and announced. While lives remain, a respawn is scheduled and the store is untouched. Otherwise the game-over transition stores the final score. The saved respawn point, the delays, the lives maximum and the turn subscription stay as they were, so a later respawn uses the point saved before the death. |
| PlayerLife.PlayerLifeManager.RespawnAfterDelay | Assets/Scripts/player/PlayerLifeManager.cs:98-108 | After the delay the player is reset at the saved respawn point, then `OnRespawn` fires. |
| PlayerLife.PlayerLifeManager.TransitionToGameOver | Assets/Scripts/player/PlayerLifeManager.cs:110-125 | "FinalScore" becomes the current score, or 0 without a score manager. Game over is announced, and the scene load waits. |
| PlayerLife.FinalScoreKeepsHighScore | Assets/Scripts/player/PlayerLifeManager.cs:113-114 | Storing the final score leaves the stored high score as it was, since its key differs. |
| Scoring.GetInt | Assets/Scripts/ScoreManager.cs:70 | A stored key reads as its value, and a missing key as the default. |
| Scoring.GetAfterSet | Assets/Scripts/ScoreManager.cs:73-77 | A key reads back as what was last written to it, and writing one key leaves every other key as it was. |
| Scoring.ScoreManager.constructor | Assets/Scripts/ScoreManager.cs:13-18 | The manager starts with 10 points a coin, 1 a meter, the key "HighScore" and both scores at 0. |
| Scoring.ScoreManager.Awake | Assets/Scripts/ScoreManager.cs:25-35 | The first manager becomes the instance, and any other manager is destroyed. |
| Scoring.ScoreManager.Start | Assets/Scripts/ScoreManager.cs:37-47 | After `Start` the high score is the stored one, so memory and store agree. |
| Scoring.ScoreManager.LoadHighScore | Assets/Scripts/ScoreManager.cs:68-71 | The high score is read from the store, 0 when absent, and memory and store agree. |
| Scoring.ScoreManager.SaveHighScore | Assets/Scripts/ScoreManager.cs:73-77 | The high score is written under the key. Nothing else in the store changes. |
| Scoring.ScoreManager.AddScore | Assets/Scripts/ScoreManager.cs:54-66 | The current score grows by exactly the points. The high score becomes the larger of itself and the new score, so it is at least the current score and never drops. The store keeps holding it, and other keys are untouched. |
| Scoring.ScoreManager.AddCoinScore | Assets/Scripts/ScoreManager.cs:49-52 | A coin adds exactly `pointsPerCoin`, with the same high-score rule. |
| Scoring.ScoreManager.ResetCurrentScore | Assets/Scripts/ScoreManager.cs:79-83 | The current score is 0, and only it changes. |
| Scoring.ScoreManager.ResetHighScore | Assets/Scripts/ScoreManager.cs:98-103 | The high score is 0 and 0 is stored. The current score is untouched. |
| Scoring.ScoreManager.GameOver | Assets/Scripts/ScoreManager.cs:105-113 | Afterwards the high score is at least the current score and is stored. When it already was, nothing changes, so a second call is a no-op. |
| Spells.CastsApart | Assets/Scripts/player/PlayerController.cs:31-36 | Any two accepted casts, not only consecutive ones, are more than the 2-second cooldown apart. k casts later means more than 2k seconds later. |
| Spells.CastsAfterStart | Assets/Scripts/player/PlayerController.cs:9-10 | Because the stamp starts at 0, no cast is accepted before truncated time 3, and none is later than the stamp. |
| Spells.PlayerController.constructor | Assets/Scripts/player/PlayerController.cs:9-20 | The stamp starts at 0 with no casts, and the magic is inactive. |
| Spells.PlayerController.SetSpell | Assets/Scripts/player/PlayerController.cs:28-37 | The spell triggers exactly when stamp + 2 is below the truncated time. Then the stamp becomes that time and the cast is logged. Otherwise nothing changes. The cast log keeps its spacing invariant. |
| Spells.PlayerController.Update | Assets/Scripts/player/PlayerController.cs:22-26 | A spell triggers exactly when M or the left mouse button is pressed and the cooldown allows it. Then the stamp becomes the truncated time and the cast is logged; otherwise stamp and log are unchanged. |
| Spells.PlayerController.CastMagic | Assets/Scripts/player/PlayerController.cs:44-50 | The magic is active at the start position. A backup `destroyMagic` is scheduled only when the magic has a rigid body: without one, `AddForce` throws before `Invoke` runs. |
| Spells.PlayerController.DestroyMagic | Assets/Scripts/player/PlayerController.cs:53-66 | Every scheduled backup call is cancelled and the magic is inactive. A rigid body, if present, stops moving and spinning; without one the velocities are untouched. |
| Spells.PlayerController.BackupDestroyDue | Assets/Scripts/player/PlayerController.cs:49 | When the backup call comes due, it is `destroyMagic`: every backup is cancelled and the magic hidden. A rigid body stops moving and spinning; without one the velocities are untouched. |
| Health.PlayerHealth.constructor | Assets/Scripts/player/PlayerHealth.cs:19-23 | After `Start` the player is at full health, not invulnerable, with the controller enabled. |
| Health.PlayerHealth.Update | Assets/Scripts/player/PlayerHealth.cs:26-32 | The invulnerability counter runs down by the frame time only while it is positive. |
| Health.PlayerHealth.TakeDamage | Assets/Scripts/player/PlayerHealth.cs:35-61 | While invulnerable nothing changes. Otherwise health drops by exactly the damage. If the player survives and the counter has run out, the counter restarts at `invulnerabilityLength`, the player is stopped that long and becomes invulnerable. If the player survives while the counter still runs, nothing else changes. If health is used up, the player is stopped for 2 seconds and a respawn is scheduled. Invulnerability lasts exactly while its one coroutine runs. |
| Health.PlayerHealth.StartStopPlayer | Assets/Scripts/player/PlayerHealth.cs:73-76 | `StopPlayer` disables the controller and waits the given seconds. |
| Health.PlayerHealth.EndStopPlayer | Assets/Scripts/player/PlayerHealth.cs:77-78 | When any running `StopPlayer` ends, the controller is enabled again, even if another stop still runs, and only that stop leaves the list. |
| Health.PlayerHealth.EndInvulnerability | Assets/Scripts/player/PlayerHealth.cs:80-88 | When the invulnerability wait ends, the player can be hurt again. |
| Health.PlayerHealth.PlayerRespawn | Assets/Scripts/player/PlayerHealth.cs:64-70 | Two seconds after a fatal hit, health is full again and the respawn component is called once. |
| Walls.ExtentBounds | Assets/Scripts/obstacle/type/ObstacleWall.cs:182-189 | The folded minimum and maximum along an axis bound every brick, and each is some brick's coordinate. |
| Walls.MaxWallDimensionSpec | Assets/Scripts/obstacle/type/ObstacleWall.cs:177-193 | The wall dimension is never negative. Any two bricks lie within it of each other along every axis, and it is attained by two bricks along some axis. |
| Walls.CalculateMaxWallDimension | Assets/Scripts/obstacle/type/ObstacleWall.cs:177-193 | The loop returns exactly the longest side of the bricks' bounding box, or 1 without bricks. |
| Walls.SelectedSpec | Assets/Scripts/obstacle/type/ObstacleWall.cs:83-92 | A brick is selected exactly when its distance from the impact is within the radius. Each is selected once, in brick order. |
| Walls.DistanceFactor | Assets/Scripts/obstacle/type/ObstacleWall.cs:93 | The factor is clamped to [0,1]. It is 1 - distance/radius for a brick within a positive radius. With a zero radius the division yields no number. |
| Walls.DistanceFactorMonotone | Assets/Scripts/obstacle/type/ObstacleWall.cs:93 | Nearer bricks are pushed at least as hard as farther ones. |
| Walls.ObstacleWall.constructor | Assets/Scripts/obstacle/type/ObstacleWall.cs:34-48 | After `Start` the wall keeps its bricks and collider, with the inspector defaults 0.5, 3 and 2, and nothing fading. |
| Walls.ObstacleWall.IsIntact | Assets/Scripts/obstacle/type/ObstacleWall.cs:50-53 | The wall is intact exactly when it has a collider and that collider is enabled: a wall without a collider, or with a disabled one, is never intact. |
| Walls.ObstacleWall.OnControllerColliderHit | Assets/Scripts/obstacle/type/ObstacleWall.cs:55-69 | An intact wall hit by an object tagged "Player" marks a living player dead. A dead player, or a hit on a broken wall, leaves the flag as it was. |
| Walls.ObstacleWall.OnCollisionEnter | Assets/Scripts/obstacle/type/ObstacleWall.cs:71-121 | Anything but a spell changes nothing. A spell disables the collider, so the wall is never intact again. It releases and counts exactly the bricks within `MaxWallDimension * affectedRadius` of the impact, and starts their fade. It deactivates the spell through its caster and schedules the wall's removal after delay + duration + 1. A wall without a collider fails at the first step. |
| Walls.ObstacleWall.Shatter | Assets/Scripts/obstacle/type/ObstacleWall.cs:75-118 | The collider ends disabled; the bricks and the radius are kept; exactly the bricks within `MaxWallDimension * affectedRadius` are released, counted and put to fade in brick order, the others stay as they were; the caster loses its magic (velocities zeroed only with a rigid body, cooldown and casts kept); removal is scheduled at delay + duration + 1. |
| Walls.ObstacleWall.ReleaseBricks | Assets/Scripts/obstacle/type/ObstacleWall.cs:83-116 | The brick loop makes exactly the bricks within the radius non-kinematic. It counts them and starts a fade for each, in order, and leaves the other bricks alone. |
| Walls.ObstacleWall.DeactivateSpell | Assets/Scripts/obstacle/type/ObstacleWall.cs:195-211 | With a caster, its magic is destroyed: inactive, backup calls cancelled, rigid body stopped. Without one, the spell object is hidden. |
| Transparency.HitSetSpec | Assets/Scripts/ObstaclesTransparency.cs:23-35 | A renderer is in the frame's hit set exactly when some ray hit carries it. |
| Transparency.ObstaclesTransparency.constructor | Assets/Scripts/ObstaclesTransparency.cs:7-9 | The cache starts empty. |
| Transparency.ObstaclesTransparency.Update | Assets/Scripts/ObstaclesTransparency.cs:11-68 | Without a player nothing changes. Otherwise exactly the renderers hit this frame are cached. Each keeps the shader recorded on its first hit, and each has the standard shader and alpha 0.3. A renderer cached before and not hit now gets its original shader back and leaves the cache. Every other renderer is untouched. |
| Transparency.ObstaclesTransparency.MakeSeeThrough | Assets/Scripts/ObstaclesTransparency.cs:23-52 | The hit loop caches a renderer's shader only if it is not cached yet, and makes exactly the hit renderers see-through. |
| Transparency.ObstaclesTransparency.SeeThrough | Assets/Scripts/ObstaclesTransparency.cs:25-51 | One hit renderer: its shader is cached only if it is not cached yet, and it gets the standard shader and alpha 0.3. No other renderer changes. |
| Transparency.ObstaclesTransparency.RestoreOthers | Assets/Scripts/ObstaclesTransparency.cs:55-67 | The restore loop gives every cached renderer that was not hit its original shader back and removes it, and leaves the hit ones cached. |
| Transparency.ObstaclesTransparency.Restore | Assets/Scripts/ObstaclesTransparency.cs:59-65 | One cached renderer not hit: it gets its recorded shader back and leaves the cache. No other renderer changes. |

## Left out

- Floating point: distances, speeds and times are `real`. Rounding, NaN propagation and `Vector3.normalized` are not modelled.
- `EaseInOutSine`, `Lerp`, `Slerp` and lean rotations: the eased progress, the interpolated yaw and the leaned rotation are parameters of the methods that use them, because they are float trigonometry.
- The jump velocity `Mathf.Sqrt(jumpHeight * 2 * gravity)` (Assets/Scripts/player/Player.cs:94, with `gravity` 9.81) is a parameter of `PlayerLife.Player.HandleJump`, because it is a float square root.
- Rigidbody forces and torques on released bricks (Assets/Scripts/obstacle/type/ObstacleWall.cs:95-111) and the brick fade-out coroutine (Assets/Scripts/obstacle/type/ObstacleWall.cs:124-175): the model records which bricks start fading, not how they move or fade, because this is physics and rendering.
- Animator triggers, `HasParameter` lookups, `SoundManager` calls and scene loading are foreign engine calls. The model assumes that the animator and the sound manager exist wherever the source calls them without a null check. It does not model the exceptions the source throws when they are missing. The lines below name the places where such an exception stops a method before a state change the model makes. Other unguarded calls, such as the sound calls in Assets/Scripts/player/Player.cs:282-331 and `Die`'s `soundDeath()` at line 215, come after the modelled state change and leave that state as the model gives it.
- PlayerLife.Player.StartSlide: assumes the sound manager and the animator exist. Assets/Scripts/player/Player.cs:123-124 call them without a null check after the boost. If either is missing, the coroutine throws there and never reaches its end, so `IsSliding` stays true and the speed stays multiplied for good. The model always lets the slide reach `EndSlide`.
- Health.PlayerHealth.TakeDamage: assumes the animator exists. On a fatal hit Assets/Scripts/player/PlayerHealth.cs:56 calls `animator.SetTrigger("Dead")` first. If the animator is missing, that call throws, so neither the 2-second stop nor the respawn is scheduled. The model always schedules both.
- Spells.PlayerController.SetSpell: assumes the animator exists. Assets/Scripts/player/PlayerController.cs:34 calls `animator.SetTrigger("Spell")` on the public `animator` field without a null check, before line 35 moves the stamp. Without an animator every accepted press throws there: the stamp never moves, no cast is logged, and the animation event that calls `castMagic` never fires. The model always moves the stamp and logs the cast.
- Health.PlayerHealth.EndInvulnerability: assumes the animator exists. The `invulnerability` coroutine (Assets/Scripts/player/PlayerHealth.cs:80-88) sets `invulnerable = true` and then calls `animator.SetTrigger("Hitted")` without a null check. Without an animator it throws there, never reaches the wait's end, and the player stays invulnerable for good. The model always lets the wait end in `EndInvulnerability`.
- Scoring.ScoreManager.Start: assumes a `Player` exists. Assets/Scripts/ScoreManager.cs:40 reads `FindObjectOfType<Player.Player>().transform` without a null check, before line 43 loads the high score. Without a player it throws, the high score stays 0 in memory, and memory and store need not agree. The model always loads the high score, so `Synced` holds.
- `PlayerPrefs.Save` writes to disk. The store is a map, and saving it is not modelled.
- Coroutine and `Invoke` timing: `WaitForSeconds`, frame delays and `Destroy` delays become explicit later steps. The order in which concurrent coroutines finish is chosen by the caller of those steps, not by the clock.
- Physics queries (`Raycast`, `RaycastAll`, `SphereCastAll`, `isGrounded`) and key presses are inputs.
- `Random.Range` draws are oracle functions indexed by the segment or step they belong to. The model does not track a shared random stream.
- Euler angles wrap to [0, 360) in Unity. Yaws are plain reals here, and the wrap is not modelled.
- Scoring.ScoreManager.AddScore: does not model 32-bit wrap-around of `currentScore`, because scores are unbounded integers.
- PlayerLife.Player.MovePlayer: hands the movement to the character controller as a logged value. The position change `controller.Move` makes (with its collisions and grounding) is not modelled, so `Update` keeps `position` as it was; the position changes only when a respawn puts the player back.
- PlayerLife.PlayerLifeManager.HandlePlayerDeath: does not model 32-bit wrap-around of `currentLives`, because lives only ever count down from a small maximum.
- PlayerLife.Player.OnTriggerEnter: requires a score manager. The source dereferences `ScoreManager.instance` on a coin and throws when it is missing, and that failure is not modelled.
- `HandleJump`, `HandleSlide` and `Slide` of Assets/Scripts/player/PlayerMovement.cs are not part of this model. The player's jump and slide are the ones in Assets/Scripts/player/Player.cs. The copies in PlayerMovement.cs sit outside its lane state machine and follow the same pattern. Its slide guard (Assets/Scripts/player/PlayerMovement.cs:127) has the same precedence flaw as Player.cs, so the down arrow starts a slide while one runs. Unlike Player.cs it has no turn check.
- PathDetector.DividePathIntoSegments: requires a minimum segment length above 0. With a minimum of 0 or less the source loop (Assets/Scripts/world/PathDetector.cs:45-57) can draw lengths that never cover the path, so it need not end. The one caller, Assets/Scripts/obstacle/type/ObstacleFire.cs:47, passes 15 and 30, and the copy of the loop in Assets/Scripts/coin/CoinSpawner.cs:70-79 draws from 8 to 12.
- Transparency.ObstaclesTransparency.Update: models the material swap as the shader and the alpha per renderer. The other blend settings are not modelled, nor is replacing the renderer's material instance on restore, nor renderers destroyed while cached.
- Walls.DistanceFactor: with a zero effective radius the source divides by zero and clamps the resulting NaN or infinity. The model returns no value there instead of a float.
- Walls.ObstacleWall.OnControllerColliderHit: only sets the player's death flag, as the source does. The player's speed and velocity are left as they were, because the source does not call `Die`.
- Turning.PlayerTurnHandler.constructor: takes the `GetComponent` result for the lane handler as a parameter. The source logs a warning in the branch where a lane handler is found, and that log line is not modelled.
- UI, menus, camera following, cars, zombies, footstep audio and the UI-text score scripts belong to the rest of the game and are not part of this model.

## Findings

| source | as written | input that shows it | evidently intended | confidence | as-written member | corrected member |
|---|---|---|---|---|---|---|
| Assets/Scripts/player/Player.cs:107-111 | A slide starts when `((!IsSliding && S) \|\| DownArrow) && !isTurning()`, so the down arrow starts a second slide while one runs. | Speed 5: press S (speed 7.5, saves 5), then the down arrow during that slide (speed 11.25, saves 7.5). The first slide ends (speed 5), then the second (speed 7.5). The player ends at 7.5, not sliding. | `!IsSliding && (S \|\| DownArrow) && !isTurning()`: no slide while one runs, so every slide restores the speed it started from. | not executed | PlayerLife.OverlappingSlideKeepsBoost | PlayerLife.CorrectedSlideRestoresSpeed |
