/** The `PlayerHealth` component: damage lowers the health unless the player
    is invulnerable; a hit that leaves the player alive stops the player and
    makes them invulnerable for a while, and a hit that empties the health
    stops the player for two seconds and schedules a respawn at full health. */
module Health {

  /** How long the player stands still after a fatal hit, in seconds. */
  const DeathStopSeconds: real := 2.0

  class PlayerHealth {
    /** The serialized `Health`: full health. */
    var health: real
    var currentHealth: real
    var invulnerabilityLength: real
    var invulnerabilityCounter: real
    var invulnerable: bool
    /** Whether the movement script's character controller is enabled. */
    var controllerEnabled: bool
    /** The running `StopPlayer` coroutines, each with the seconds it waits. */
    var pendingStops: seq<real>
    /** Running `invulnerability` coroutines. */
    var pendingInvulnerabilityEnds: nat
    /** `playerRespawn` calls scheduled by `Invoke`. */
    var pendingRespawns: nat
    /** Calls of the respawn component's `respawn`. */
    var respawns: nat

    /** Invulnerability lasts exactly while its one coroutine runs: a new
        one starts only when the player is not invulnerable. */
    predicate Valid()
      reads this
    {
      pendingInvulnerabilityEnds <= 1 && (invulnerable <==> pendingInvulnerabilityEnds == 1)
    }

    /** The component after `Start`: at full health. */
    constructor (health: real, invulnerabilityLength: real)
      ensures Valid() && this.health == health && currentHealth == health
      ensures this.invulnerabilityLength == invulnerabilityLength
      ensures invulnerabilityCounter == 0.0 && !invulnerable && controllerEnabled
      ensures pendingStops == [] && pendingRespawns == 0 && respawns == 0
    {
      this.health := health;
      currentHealth := health;
      this.invulnerabilityLength := invulnerabilityLength;
      invulnerabilityCounter := 0.0;
      invulnerable := false;
      controllerEnabled := true;
      pendingStops := [];
      pendingInvulnerabilityEnds := 0;
      pendingRespawns := 0;
      respawns := 0;
    }

    /** `Update`: the invulnerability counter runs down only while positive. */
    method Update(deltaTime: real)
      modifies this`invulnerabilityCounter
      ensures invulnerabilityCounter ==
        if old(invulnerabilityCounter) > 0.0 then old(invulnerabilityCounter) - deltaTime else old(invulnerabilityCounter)
    {
      if invulnerabilityCounter > 0.0 {
        invulnerabilityCounter := invulnerabilityCounter - deltaTime;
      }
    }

    /** `TakeDamage(dmg)`: nothing while invulnerable. Otherwise the health
        drops by exactly `dmg`; if the player survives and the counter has
        run out, the counter restarts, the player is stopped for that long
        and becomes invulnerable; if the health is used up, the player is
        stopped for two seconds and a respawn is scheduled. */
    method TakeDamage(dmg: real)
      requires Valid()
      modifies this
      ensures Valid()
      ensures old(invulnerable) ==> unchanged(this)
      ensures !old(invulnerable) ==>
        && currentHealth == old(currentHealth) - dmg
        && health == old(health) && invulnerabilityLength == old(invulnerabilityLength) && respawns == old(respawns)
      ensures !old(invulnerable) && currentHealth > 0.0 && old(invulnerabilityCounter) <= 0.0 ==>
        && invulnerabilityCounter == invulnerabilityLength && invulnerable && !controllerEnabled
        && pendingStops == old(pendingStops) + [invulnerabilityLength]
        && pendingRespawns == old(pendingRespawns)
      ensures !old(invulnerable) && currentHealth > 0.0 && old(invulnerabilityCounter) > 0.0 ==>
        && invulnerabilityCounter == old(invulnerabilityCounter) && !invulnerable
        && controllerEnabled == old(controllerEnabled) && pendingStops == old(pendingStops)
        && pendingRespawns == old(pendingRespawns)
      ensures !old(invulnerable) && currentHealth <= 0.0 ==>
        && invulnerabilityCounter == old(invulnerabilityCounter) && !invulnerable && !controllerEnabled
        && pendingStops == old(pendingStops) + [DeathStopSeconds]
        && pendingRespawns == old(pendingRespawns) + 1
    {
      if invulnerable {
        return;
      }
      currentHealth := currentHealth - dmg;
      if currentHealth > 0.0 && invulnerabilityCounter <= 0.0 {
        invulnerabilityCounter := invulnerabilityLength;
        StartStopPlayer(invulnerabilityCounter);
        invulnerable := true;
        pendingInvulnerabilityEnds := pendingInvulnerabilityEnds + 1;
      } else if currentHealth <= 0.0 {
        StartStopPlayer(DeathStopSeconds);
        pendingRespawns := pendingRespawns + 1;
      }
    }

    /** `StopPlayer(seconds)` up to its wait: the controller is disabled. */
    method StartStopPlayer(seconds: real)
      modifies this`controllerEnabled, this`pendingStops
      ensures !controllerEnabled && pendingStops == old(pendingStops) + [seconds]
    {
      controllerEnabled := false;
      pendingStops := pendingStops + [seconds];
    }

    /** `StopPlayer` after its wait, for the running stop `k`: the
        controller is enabled again. The stops started at different times,
        so any of them may be the one that ends; the caller chooses it. */
    method EndStopPlayer(k: nat)
      requires k < |pendingStops|
      modifies this`controllerEnabled, this`pendingStops
      ensures controllerEnabled && pendingStops == old(pendingStops[..k] + pendingStops[k + 1..])
    {
      controllerEnabled := true;
      pendingStops := pendingStops[..k] + pendingStops[k + 1..];
    }

    /** `invulnerability` after its wait: the player can be hurt again. */
    method EndInvulnerability()
      requires Valid() && invulnerable
      modifies this`invulnerable, this`pendingInvulnerabilityEnds
      ensures Valid() && !invulnerable
    {
      invulnerable := false;
      pendingInvulnerabilityEnds := pendingInvulnerabilityEnds - 1;
    }

    /** `playerRespawn`, two seconds after a fatal hit: full health again,
        and the player is put back by the respawn component. */
    method PlayerRespawn()
      requires pendingRespawns > 0
      modifies this`currentHealth, this`pendingRespawns, this`respawns
      ensures currentHealth == health
      ensures pendingRespawns == old(pendingRespawns) - 1 && respawns == old(respawns) + 1
    {
      pendingRespawns := pendingRespawns - 1;
      currentHealth := health;
      respawns := respawns + 1;
    }
  }
}
