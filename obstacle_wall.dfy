/** The `ObstacleWall` component: a brick wall that kills a player running
    into it while intact, and that a spell breaks. A spell hit disables the
    wall's collider for good, releases the bricks within a radius of the
    impact (a fraction of the wall's largest extent), hands the spell back to
    its caster and schedules the wall's removal. */
module Walls {
  import opened Common
  import PlayerLife
  import Spells

  const PlayerTag: string := "Player"
  const SpellTag: string := "Spell"

  datatype Axis = X | Y | Z

  function Coord(v: Vec3, a: Axis): real
  {
    match a
    case X => v.x
    case Y => v.y
    case Z => v.z
  }

  /** The smallest coordinate along `a` of a non-empty list of positions,
      taken from the front as `Vector3.Min` folds it. */
  function Lowest(s: seq<Vec3>, a: Axis): real
    requires s != []
    decreases |s|
  {
    if |s| == 1 then Coord(s[0], a) else Min(Lowest(s[..|s| - 1], a), Coord(s[|s| - 1], a))
  }

  /** The largest coordinate along `a`, as `Vector3.Max` folds it. */
  function Highest(s: seq<Vec3>, a: Axis): real
    requires s != []
    decreases |s|
  {
    if |s| == 1 then Coord(s[0], a) else Max(Highest(s[..|s| - 1], a), Coord(s[|s| - 1], a))
  }

  /** `Lowest` and `Highest` bound every position of the list and are each
      the coordinate of one of them. */
  lemma {:induction false} ExtentBounds(s: seq<Vec3>, a: Axis)
    requires s != []
    ensures forall k :: 0 <= k < |s| ==> Lowest(s, a) <= Coord(s[k], a) <= Highest(s, a)
    ensures exists k :: 0 <= k < |s| && Lowest(s, a) == Coord(s[k], a)
    ensures exists k :: 0 <= k < |s| && Highest(s, a) == Coord(s[k], a)
    decreases |s|
  {
    if |s| > 1 {
      var front := s[..|s| - 1];
      ExtentBounds(front, a);
      forall k | 0 <= k < |s| - 1
        ensures Lowest(s, a) <= Coord(s[k], a) <= Highest(s, a)
      {
        assert s[k] == front[k];
      }
      var i :| 0 <= i < |front| && Lowest(front, a) == Coord(front[i], a);
      var j :| 0 <= j < |front| && Highest(front, a) == Coord(front[j], a);
      assert s[i] == front[i] && s[j] == front[j];
      if Lowest(s, a) != Coord(s[i], a) {
        assert Lowest(s, a) == Coord(s[|s| - 1], a);
      }
      if Highest(s, a) != Coord(s[j], a) {
        assert Highest(s, a) == Coord(s[|s| - 1], a);
      }
    }
  }

  /** The side of the bricks' bounding box along `a`. */
  function Extent(s: seq<Vec3>, a: Axis): real
    requires s != []
  {
    Highest(s, a) - Lowest(s, a)
  }

  /** `CalculateMaxWallDimension` as a value: 1 without bricks, otherwise
      the longest side of the bricks' bounding box. */
  function MaxWallDimension(bricks: seq<Vec3>): real
  {
    if bricks == [] then 1.0
    else Max(Max(Extent(bricks, X), Extent(bricks, Y)), Extent(bricks, Z))
  }

  /** The wall dimension is never negative, and any two bricks lie within it
      of each other along every axis; it is the distance along some axis of
      two of the bricks. */
  lemma MaxWallDimensionSpec(bricks: seq<Vec3>)
    ensures MaxWallDimension(bricks) >= 0.0
    ensures forall i, j, a :: 0 <= i < |bricks| && 0 <= j < |bricks| ==>
      Coord(bricks[i], a) - Coord(bricks[j], a) <= MaxWallDimension(bricks)
    ensures bricks != [] ==> exists i, j, a ::
      (0 <= i < |bricks| && 0 <= j < |bricks| && MaxWallDimension(bricks) == Coord(bricks[i], a) - Coord(bricks[j], a))
  {
    if bricks != [] {
      var d := MaxWallDimension(bricks);
      forall i, j, a | 0 <= i < |bricks| && 0 <= j < |bricks|
        ensures Coord(bricks[i], a) - Coord(bricks[j], a) <= d
      {
        ExtentBounds(bricks, a);
        assert Extent(bricks, a) <= d;
      }
      var a := if Extent(bricks, X) == d then X else if Extent(bricks, Y) == d then Y else Z;
      ExtentBounds(bricks, a);
      var i :| 0 <= i < |bricks| && Highest(bricks, a) == Coord(bricks[i], a);
      var j :| 0 <= j < |bricks| && Lowest(bricks, a) == Coord(bricks[j], a);
      assert d == Coord(bricks[i], a) - Coord(bricks[j], a);
    }
  }

  /** `CalculateMaxWallDimension`: folds the brick positions into the
      corners of their bounding box and returns its longest side. */
  method CalculateMaxWallDimension(bricks: seq<Vec3>) returns (r: real)
    ensures r == MaxWallDimension(bricks)
  {
    if |bricks| == 0 {
      return 1.0;
    }
    var min := bricks[0];
    var max := bricks[0];
    var i := 0;
    while i < |bricks|
      invariant 0 <= i <= |bricks|
      invariant var seen := bricks[..if i == 0 then 1 else i];
        min == Vec3(Lowest(seen, X), Lowest(seen, Y), Lowest(seen, Z))
        && max == Vec3(Highest(seen, X), Highest(seen, Y), Highest(seen, Z))
    {
      var brick := bricks[i];
      if i > 0 {
        assert bricks[..i + 1][..i] == bricks[..i];
      }
      min := Vec3(Min(min.x, brick.x), Min(min.y, brick.y), Min(min.z, brick.z));
      max := Vec3(Max(max.x, brick.x), Max(max.y, brick.y), Max(max.z, brick.z));
      i := i + 1;
    }
    assert bricks[..i] == bricks;
    var size := max.Minus(min);
    r := Max(Max(size.x, size.y), size.z);
  }

  /** The radius of a spell's impact on a wall: its largest dimension
      scaled by `affectedRadius`. */
  function EffectiveRadius(bricks: seq<Vec3>, affectedRadius: real): real
  {
    MaxWallDimension(bricks) * affectedRadius
  }

  /** The indices of the bricks within `radius` of the impact, in brick
      order; `distances[k]` is brick `k`'s distance from the impact. */
  function Selected(distances: seq<real>, radius: real): seq<nat>
    decreases |distances|
  {
    if distances == [] then []
    else
      var front := distances[..|distances| - 1];
      Selected(front, radius) + if distances[|distances| - 1] <= radius then [|distances| - 1] else []
  }

  /** Exactly the bricks within the radius are selected, each once, in order. */
  lemma {:induction false} SelectedSpec(distances: seq<real>, radius: real)
    ensures forall k: nat :: k in Selected(distances, radius) <==> k < |distances| && distances[k] <= radius
    ensures forall i, j :: 0 <= i < j < |Selected(distances, radius)| ==>
      Selected(distances, radius)[i] < Selected(distances, radius)[j]
    ensures forall i :: 0 <= i < |Selected(distances, radius)| ==> Selected(distances, radius)[i] < |distances|
    decreases |distances|
  {
    if distances != [] {
      var front := distances[..|distances| - 1];
      SelectedSpec(front, radius);
      forall k | 0 <= k < |front| ensures distances[k] == front[k] { }
    }
  }

  /** `distanceFactor`: how strongly a released brick is pushed, 1 at the
      impact falling to 0 at the radius. With a zero radius the float
      division yields no number, shown here as `None`. */
  function DistanceFactor(distance: real, radius: real): (f: Option<real>)
    ensures radius == 0.0 <==> f.None?
    ensures f.Some? ==> 0.0 <= f.value <= 1.0
    ensures radius > 0.0 && 0.0 <= distance <= radius ==> f == Some(1.0 - distance / radius)
  {
    if radius == 0.0 then None else Some(Clamp01(1.0 - distance / radius))
  }

  /** Nearer bricks are pushed at least as hard as farther ones. */
  lemma DistanceFactorMonotone(near: real, far: real, radius: real)
    requires radius > 0.0 && near <= far
    ensures DistanceFactor(near, radius).value >= DistanceFactor(far, radius).value
  {
    assert near / radius <= far / radius by {
      assert far / radius - near / radius == (far - near) / radius;
    }
  }

  class ObstacleWall {
    /** Positions of the `wallBricks`, whose rigid bodies are `wallBrickRb`. */
    var bricks: seq<Vec3>
    /** `isKinematic` of each brick's rigid body. */
    var kinematic: seq<bool>
    var colliderPresent: bool
    var colliderEnabled: bool
    var affectedRadius: real
    var fadeOutDelay: real
    var fadeOutDuration: real
    /** Bricks whose `HandleBrickAfterCollision` coroutine runs. */
    var fadingBricks: seq<nat>
    /** The delay of the wall's scheduled `Destroy`, if any. */
    var destroyAfter: Option<real>

    predicate Valid()
      reads this
    {
      |kinematic| == |bricks|
    }

    /** The component after `Start`, with its inspector defaults. */
    constructor (bricks: seq<Vec3>, kinematic: seq<bool>, colliderPresent: bool)
      requires |kinematic| == |bricks|
      ensures Valid() && this.bricks == bricks && this.kinematic == kinematic
      ensures this.colliderPresent == colliderPresent && colliderEnabled
      ensures affectedRadius == 0.5 && fadeOutDelay == 3.0 && fadeOutDuration == 2.0
      ensures fadingBricks == [] && destroyAfter == None
    {
      this.bricks := bricks;
      this.kinematic := kinematic;
      this.colliderPresent := colliderPresent;
      colliderEnabled := true;
      affectedRadius := 0.5;
      fadeOutDelay := 3.0;
      fadeOutDuration := 2.0;
      fadingBricks := [];
      destroyAfter := None;
    }

    /** `IsIntact`: the wall has a collider and it is enabled. */
    predicate IsIntact()
      reads this
      ensures IsIntact() ==> colliderPresent
      ensures !colliderEnabled ==> !IsIntact()
    {
      colliderPresent && colliderEnabled
    }

    /** `OnControllerColliderHit` with an object tagged `tag` whose `Player`
        component is `player`: an intact wall marks a living player dead.
        Only the flag is set; speed and velocity are left as they were. */
    method OnControllerColliderHit(tag: string, player: PlayerLife.Player?)
      modifies (if player != null then {player} else {})`isDead
      ensures var kills := tag == PlayerTag && IsIntact() && player != null && !old(player.isDead);
        kills ==> player.isDead
      ensures player != null ==> player.isDead == (old(player.isDead) || (tag == PlayerTag && IsIntact()))
    {
      if tag == PlayerTag && IsIntact() {
        if player != null && !player.isDead {
          player.isDead := true;
        }
      }
    }

    /** `OnCollisionEnter` with an object tagged `tag`. A spell disables the
        collider, releases exactly the bricks whose distance from the impact
        (`distances`) is within `MaxWallDimension * affectedRadius`, starts
        their fade, deactivates the spell through `caster` (see
        `DeactivateSpell`) and schedules the wall's removal. Returns how many
        bricks it released, and `completed == false` when a wall without a
        collider makes the handler fail at its first step. */
    method OnCollisionEnter(tag: string, distances: seq<real>, caster: Spells.PlayerController?)
      returns (completed: bool, affectedBricks: nat)
      requires Valid() && |distances| == |bricks|
      modifies this, caster
      ensures Valid() && bricks == old(bricks)
      ensures colliderPresent == old(colliderPresent) && affectedRadius == old(affectedRadius)
      ensures fadeOutDelay == old(fadeOutDelay) && fadeOutDuration == old(fadeOutDuration)
      ensures tag != SpellTag || !old(colliderPresent) ==>
        completed == (tag != SpellTag) && affectedBricks == 0 && unchanged(this) && (caster != null ==> unchanged(caster))
      ensures tag == SpellTag && old(colliderPresent) ==>
        && completed && !IsIntact()
        && affectedBricks == |Selected(distances, EffectiveRadius(bricks, affectedRadius))|
        && fadingBricks == old(fadingBricks) + Selected(distances, EffectiveRadius(bricks, affectedRadius))
        && (forall k :: 0 <= k < |bricks| ==>
              kinematic[k] == (old(kinematic[k]) && !(distances[k] <= EffectiveRadius(bricks, affectedRadius))))
        && destroyAfter == Some(fadeOutDelay + fadeOutDuration + 1.0)
        && (caster != null ==> !caster.magicActive && caster.pendingDestroys == 0)
        && (caster != null ==>
              && caster.currentSpellCooldown == old(caster.currentSpellCooldown) && caster.casts == old(caster.casts)
              && caster.magicPosition == old(caster.magicPosition) && caster.hasRigidbody == old(caster.hasRigidbody))
        && (caster != null && caster.hasRigidbody ==> caster.linearVelocity == Zero && caster.angularVelocity == Zero)
        && (caster != null && !caster.hasRigidbody ==>
              caster.linearVelocity == old(caster.linearVelocity) && caster.angularVelocity == old(caster.angularVelocity))
    {
      affectedBricks := 0;
      if tag != SpellTag {
        return true, 0;
      }
      if !colliderPresent {
        return false, 0;
      }
      affectedBricks := Shatter(distances, caster);
      completed := true;
    }

    /** The spell branch of `OnCollisionEnter` on a wall with a collider:
        the collider is disabled, the bricks within the wall's largest
        dimension times `affectedRadius` are released, the caster's magic is
        destroyed and the wall's removal is scheduled. */
    method Shatter(distances: seq<real>, caster: Spells.PlayerController?) returns (affectedBricks: nat)
      requires Valid() && |distances| == |bricks|
      modifies this`colliderEnabled, this`kinematic, this`fadingBricks, this`destroyAfter, caster
      ensures Valid() && !colliderEnabled && bricks == old(bricks) && affectedRadius == old(affectedRadius)
      ensures affectedBricks == |Selected(distances, EffectiveRadius(bricks, affectedRadius))|
      ensures fadingBricks == old(fadingBricks) + Selected(distances, EffectiveRadius(bricks, affectedRadius))
      ensures forall k :: 0 <= k < |bricks| ==>
        kinematic[k] == (old(kinematic[k]) && !(distances[k] <= EffectiveRadius(bricks, affectedRadius)))
      ensures destroyAfter == Some(fadeOutDelay + fadeOutDuration + 1.0)
      ensures caster != null ==> !caster.magicActive && caster.pendingDestroys == 0
      ensures caster != null ==>
        caster.currentSpellCooldown == old(caster.currentSpellCooldown) && caster.casts == old(caster.casts)
        && caster.magicPosition == old(caster.magicPosition) && caster.hasRigidbody == old(caster.hasRigidbody)
      ensures caster != null && caster.hasRigidbody ==> caster.linearVelocity == Zero && caster.angularVelocity == Zero
      ensures caster != null && !caster.hasRigidbody ==>
        caster.linearVelocity == old(caster.linearVelocity) && caster.angularVelocity == old(caster.angularVelocity)
    {
      colliderEnabled := false;
      var maxWallDimension := CalculateMaxWallDimension(bricks);
      var effectiveRadius := maxWallDimension * affectedRadius;
      assert effectiveRadius == EffectiveRadius(bricks, affectedRadius);
      affectedBricks := ReleaseBricks(distances, effectiveRadius);
      // The spell that hit the wall is active; what becomes of it is not wall state.
      var _ := DeactivateSpell(caster, true);
      destroyAfter := Some(fadeOutDelay + fadeOutDuration + 1.0);
    }

    /** The loop of `OnCollisionEnter` over the bricks: every brick within
        `effectiveRadius` of the impact stops being kinematic, is counted and
        starts fading; the others are left alone. */
    method ReleaseBricks(distances: seq<real>, effectiveRadius: real) returns (affectedBricks: nat)
      requires Valid() && |distances| == |bricks|
      modifies this`kinematic, this`fadingBricks
      ensures Valid()
      ensures affectedBricks == |Selected(distances, effectiveRadius)|
      ensures fadingBricks == old(fadingBricks) + Selected(distances, effectiveRadius)
      ensures forall k :: 0 <= k < |bricks| ==> kinematic[k] == (old(kinematic[k]) && !(distances[k] <= effectiveRadius))
    {
      affectedBricks := 0;
      var k := 0;
      while k < |bricks|
        invariant 0 <= k <= |bricks| && |kinematic| == |bricks|
        invariant affectedBricks == |Selected(distances[..k], effectiveRadius)|
        invariant fadingBricks == old(fadingBricks) + Selected(distances[..k], effectiveRadius)
        invariant forall j :: 0 <= j < k ==> kinematic[j] == (old(kinematic[j]) && !(distances[j] <= effectiveRadius))
        invariant forall j :: k <= j < |bricks| ==> kinematic[j] == old(kinematic[j])
      {
        assert distances[..k + 1][..k] == distances[..k];
        if distances[k] <= effectiveRadius {
          kinematic := kinematic[k := false];
          affectedBricks := affectedBricks + 1;
          fadingBricks := fadingBricks + [k];
        }
        k := k + 1;
      }
      assert distances[..k] == distances;
    }

    /** `DeactivateSpell`: the caster found for the spell (through the
        spell's parent or the object tagged "Player") destroys its magic;
        without one the spell object (active `spellActive`) is just hidden.
        Returns whether the spell object is still active. */
    method DeactivateSpell(caster: Spells.PlayerController?, spellActive: bool) returns (stillActive: bool)
      modifies caster
      ensures caster == null ==> !stillActive
      ensures caster != null ==>
        && !caster.magicActive && caster.pendingDestroys == 0 && stillActive == spellActive
        && caster.currentSpellCooldown == old(caster.currentSpellCooldown) && caster.casts == old(caster.casts)
        && caster.magicPosition == old(caster.magicPosition) && caster.hasRigidbody == old(caster.hasRigidbody)
        && (caster.hasRigidbody ==> caster.linearVelocity == Zero && caster.angularVelocity == Zero)
        && (!caster.hasRigidbody ==>
              caster.linearVelocity == old(caster.linearVelocity) && caster.angularVelocity == old(caster.angularVelocity))
    {
      if caster != null {
        caster.DestroyMagic();
        stillActive := spellActive;
      } else {
        stillActive := false;
      }
    }
  }
}
