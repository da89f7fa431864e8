/** The `PlayerController` component: the spell key is honoured at most once
    every few whole seconds, by an integer time stamp, and the magic
    projectile is shown when cast and reset when destroyed. */
module Spells {
  import opened Common

  /** `SPELL_COOLDOWN`, in whole seconds. */
  const SpellCooldown: int := 2

  /** A log of accepted casts, by the truncated time of each, with the
      stamp the controller keeps: every cast comes more than the cooldown
      after the one before (the first one after the initial stamp 0), and
      the stamp is the time of the last cast. */
  predicate CastLog(casts: seq<int>, stamp: int)
  {
    && (forall i :: 0 < i < |casts| ==> casts[i] > casts[i - 1] + SpellCooldown)
    && (casts == [] ==> stamp == 0)
    && (casts != [] ==> casts[0] > SpellCooldown && stamp == casts[|casts| - 1])
  }

  /** Any two accepted casts, not only neighbours, are more than the
      cooldown apart: `k` casts later means more than `k` cooldowns later. */
  lemma {:induction false} CastsApart(casts: seq<int>, stamp: int, i: int, j: int)
    requires CastLog(casts, stamp)
    requires 0 <= i < j < |casts|
    ensures casts[j] - casts[i] > SpellCooldown * (j - i)
    decreases j - i
  {
    if j > i + 1 {
      CastsApart(casts, stamp, i, j - 1);
    }
  }

  /** No cast is accepted before truncated time 3, and none is later than
      the stamp the controller holds. */
  lemma {:induction false} CastsAfterStart(casts: seq<int>, stamp: int, k: int)
    requires CastLog(casts, stamp)
    requires 0 <= k < |casts|
    ensures casts[k] >= SpellCooldown + 1
    ensures casts[k] <= stamp
  {
    if k > 0 {
      CastsApart(casts, stamp, 0, k);
    }
    if k < |casts| - 1 {
      CastsApart(casts, stamp, k, |casts| - 1);
    }
  }

  class PlayerController {
    /** `currentSpellCooldown`: the truncated time of the last accepted cast. */
    var currentSpellCooldown: int
    /** Ghost record of every accepted cast, oldest first. */
    ghost var casts: seq<int>
    var magicActive: bool
    var magicPosition: Vec3
    /** Whether the magic has a rigid body to reset. */
    var hasRigidbody: bool
    var linearVelocity: Vec3
    var angularVelocity: Vec3
    /** Backup `destroyMagic` calls scheduled by `Invoke` and not cancelled. */
    var pendingDestroys: nat

    ghost predicate Valid()
      reads this
    {
      CastLog(casts, currentSpellCooldown)
    }

    constructor (hasRigidbody: bool)
      ensures Valid() && currentSpellCooldown == 0 && casts == []
      ensures !magicActive && pendingDestroys == 0 && this.hasRigidbody == hasRigidbody
    {
      currentSpellCooldown := 0;
      casts := [];
      magicActive := false;
      magicPosition := Zero;
      this.hasRigidbody := hasRigidbody;
      linearVelocity := Zero;
      angularVelocity := Zero;
      pendingDestroys := 0;
    }

    /** `setSpell` at engine time `time`: the spell triggers exactly when
        the stamp plus the cooldown is below the truncated time, and then
        the stamp becomes that time. Returns whether it triggered. */
    method SetSpell(time: real) returns (triggered: bool)
      requires Valid()
      modifies this`currentSpellCooldown, this`casts
      ensures Valid()
      ensures triggered <==> old(currentSpellCooldown) + SpellCooldown < Truncate(time)
      ensures triggered ==> currentSpellCooldown == Truncate(time) && casts == old(casts) + [Truncate(time)]
      ensures !triggered ==> currentSpellCooldown == old(currentSpellCooldown) && casts == old(casts)
    {
      var currentTime := Truncate(time);
      triggered := currentSpellCooldown + SpellCooldown < currentTime;
      if triggered {
        currentSpellCooldown := currentTime;
        casts := casts + [currentTime];
      }
    }

    /** `Update`: the M key or the left mouse button asks for a spell. */
    method Update(mPressed: bool, mousePressed: bool, time: real) returns (triggered: bool)
      requires Valid()
      modifies this`currentSpellCooldown, this`casts
      ensures Valid()
      ensures triggered <==> (mPressed || mousePressed) && old(currentSpellCooldown) + SpellCooldown < Truncate(time)
      ensures triggered ==> currentSpellCooldown == Truncate(time) && casts == old(casts) + [Truncate(time)]
      ensures !triggered ==> currentSpellCooldown == old(currentSpellCooldown) && casts == old(casts)
    {
      triggered := false;
      if mPressed || mousePressed {
        triggered := SetSpell(time);
      }
    }

    /** `castMagic`: the magic appears, active, at the start position, is
        pushed forward, and a backup `destroyMagic` is scheduled three
        seconds later. Without a rigid body the push throws, after the magic
        is shown and before the backup call is scheduled, so nothing is
        scheduled then. */
    method CastMagic(magicStartPos: Vec3)
      modifies this`magicPosition, this`magicActive, this`pendingDestroys
      ensures magicActive && magicPosition == magicStartPos
      ensures pendingDestroys == old(pendingDestroys) + (if hasRigidbody then 1 else 0)
    {
      magicPosition := magicStartPos;
      magicActive := true;
      if hasRigidbody {
        pendingDestroys := pendingDestroys + 1;
      }
    }

    /** `destroyMagic`: every scheduled backup call is cancelled, the rigid
        body (if any) stops moving and spinning, and the magic is hidden. */
    method DestroyMagic()
      modifies this`pendingDestroys, this`linearVelocity, this`angularVelocity, this`magicActive
      ensures pendingDestroys == 0 && !magicActive
      ensures hasRigidbody ==> linearVelocity == Zero && angularVelocity == Zero
      ensures !hasRigidbody ==> linearVelocity == old(linearVelocity) && angularVelocity == old(angularVelocity)
    {
      pendingDestroys := 0;
      if hasRigidbody {
        linearVelocity := Zero;
        angularVelocity := Zero;
      }
      magicActive := false;
    }

    /** A backup call scheduled by `castMagic` comes due: it is `destroyMagic`. */
    method BackupDestroyDue()
      requires pendingDestroys > 0
      modifies this`pendingDestroys, this`linearVelocity, this`angularVelocity, this`magicActive
      ensures pendingDestroys == 0 && !magicActive
      ensures hasRigidbody ==> linearVelocity == Zero && angularVelocity == Zero
      ensures !hasRigidbody ==> linearVelocity == old(linearVelocity) && angularVelocity == old(angularVelocity)
    {
      DestroyMagic();
    }
  }
}
