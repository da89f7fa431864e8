/** The `ObstaclesTransparency` component: every frame, the renderers of the
    obstacles between the camera and the player are made 30% opaque with
    the standard shader, and the renderers that are no longer in the way get
    their original shader back. A cache remembers, for every renderer
    currently made transparent, its material and the shader that material
    had before. Renderers and materials are identified by numbers; each
    renderer has its own material instance (`Renderer.material`). */
module Transparency {
  import opened Common

  /** The alpha an obstacle in the way is given. */
  const SeeThroughAlpha: real := 0.3

  /** The renderers of a frame's ray hits, in hit order; `None` is a hit
      collider without a renderer. */
  function HitSet(hits: seq<Option<nat>>): set<nat>
    decreases |hits|
  {
    if hits == [] then {}
    else
      var last := hits[|hits| - 1];
      HitSet(hits[..|hits| - 1]) + if last.Some? then {last.value} else {}
  }

  /** A renderer is hit iff one of the hits carries it. */
  lemma {:induction false} HitSetSpec(hits: seq<Option<nat>>, r: nat)
    ensures r in HitSet(hits) <==> exists i :: 0 <= i < |hits| && hits[i] == Some(r)
    decreases |hits|
  {
    if hits != [] {
      var front := hits[..|hits| - 1];
      HitSetSpec(front, r);
      if r in HitSet(front) {
        var i :| 0 <= i < |front| && front[i] == Some(r);
        assert hits[i] == Some(r);
      }
      if exists i :: 0 <= i < |hits| && hits[i] == Some(r) {
        var i :| 0 <= i < |hits| && hits[i] == Some(r);
        if i < |front| {
          assert front[i] == Some(r);
        }
      }
    }
  }

  class ObstaclesTransparency {
    /** The shader of each renderer's material. */
    var shader: map<nat, nat>
    /** The colour alpha of each renderer's material. */
    var alpha: map<nat, real>
    /** `originalMaterials`: for each renderer made see-through, the shader
        its material had before. (The material recorded with it is the
        renderer's own instance, the one whose shader and alpha change.) */
    var originalMaterials: map<nat, nat>

    /** Every renderer's material has a shader and an alpha, and only known
        renderers are cached. */
    predicate Valid()
      reads this
    {
      shader.Keys == alpha.Keys && originalMaterials.Keys <= shader.Keys
    }

    constructor (shader: map<nat, nat>, alpha: map<nat, real>)
      requires shader.Keys == alpha.Keys
      ensures Valid() && originalMaterials == map[]
      ensures this.shader == shader && this.alpha == alpha
    {
      this.shader := shader;
      this.alpha := alpha;
      originalMaterials := map[];
    }

    /** `Update` for one frame. Without a player nothing happens. Otherwise,
        with `hits` the renderers the camera-to-player ray crosses and
        `standard` the standard shader: afterwards exactly the hit renderers
        are cached; a renderer keeps the shader recorded on its first hit;
        every hit renderer has the standard shader and alpha 0.3; every
        renderer cached before and not hit now has its original shader back
        but keeps alpha 0.3; every other renderer is left alone. */
    method Update(playerAssigned: bool, hits: seq<Option<nat>>, standard: nat)
      requires Valid()
      requires forall i :: 0 <= i < |hits| && hits[i].Some? ==> hits[i].value in shader
      modifies this
      ensures Valid() && shader.Keys == old(shader).Keys
      ensures !playerAssigned ==> unchanged(this)
      ensures playerAssigned ==>
        && originalMaterials.Keys == HitSet(hits)
        && (forall r :: r in originalMaterials ==>
              originalMaterials[r] == if r in old(originalMaterials) then old(originalMaterials[r]) else old(shader[r]))
        && (forall r :: r in HitSet(hits) ==> shader[r] == standard && alpha[r] == SeeThroughAlpha)
        && (forall r :: r in old(originalMaterials) && r !in HitSet(hits) ==>
              shader[r] == old(originalMaterials[r]) && alpha[r] == old(alpha[r]))
        && (forall r :: r in shader && r !in HitSet(hits) && r !in old(originalMaterials) ==>
              shader[r] == old(shader[r]) && alpha[r] == old(alpha[r]))
    {
      if !playerAssigned {
        return;
      }
      var hitRenderers := MakeSeeThrough(hits, standard);
      RestoreOthers(hitRenderers);
    }

    /** The first loop of `Update`: every hit renderer is recorded if not yet
        cached and made see-through. Returns the set of hit renderers. */
    method MakeSeeThrough(hits: seq<Option<nat>>, standard: nat) returns (hitRenderers: set<nat>)
      requires Valid()
      requires forall i :: 0 <= i < |hits| && hits[i].Some? ==> hits[i].value in shader
      modifies this`shader, this`alpha, this`originalMaterials
      ensures Valid() && hitRenderers == HitSet(hits) && shader.Keys == old(shader).Keys
      ensures originalMaterials.Keys == old(originalMaterials).Keys + hitRenderers
      ensures forall r :: r in originalMaterials ==>
        originalMaterials[r] == if r in old(originalMaterials) then old(originalMaterials[r]) else old(shader[r])
      ensures forall r :: r in hitRenderers ==> shader[r] == standard && alpha[r] == SeeThroughAlpha
      ensures forall r :: r in shader && r !in hitRenderers ==> shader[r] == old(shader[r]) && alpha[r] == old(alpha[r])
    {
      hitRenderers := {};
      var i := 0;
      while i < |hits|
        invariant 0 <= i <= |hits|
        invariant Valid() && shader.Keys == old(shader).Keys && hitRenderers == HitSet(hits[..i])
        invariant hitRenderers <= shader.Keys
        invariant originalMaterials.Keys == old(originalMaterials).Keys + hitRenderers
        invariant forall r :: r in originalMaterials ==>
          originalMaterials[r] == if r in old(originalMaterials) then old(originalMaterials[r]) else old(shader[r])
        invariant forall r :: r in hitRenderers ==> shader[r] == standard && alpha[r] == SeeThroughAlpha
        invariant forall r :: r in shader && r !in hitRenderers ==> shader[r] == old(shader[r]) && alpha[r] == old(alpha[r])
      {
        assert hits[..i + 1][..i] == hits[..i];
        if hits[i].Some? {
          var rend := hits[i].value;
          hitRenderers := hitRenderers + {rend};
          SeeThrough(rend, standard);
        }
        i := i + 1;
      }
      assert hits[..i] == hits;
    }

    /** One hit of the first loop: the renderer's shader is recorded if it
        is not cached yet, and its material gets the standard shader and
        alpha 0.3. */
    method SeeThrough(rend: nat, standard: nat)
      requires Valid() && rend in shader
      modifies this`shader, this`alpha, this`originalMaterials
      ensures Valid()
      ensures originalMaterials == if rend in old(originalMaterials) then old(originalMaterials)
                                   else old(originalMaterials)[rend := old(shader[rend])]
      ensures shader == old(shader)[rend := standard] && alpha == old(alpha)[rend := SeeThroughAlpha]
    {
      if rend !in originalMaterials {
        originalMaterials := originalMaterials[rend := shader[rend]];
      }
      shader := shader[rend := standard];
      alpha := alpha[rend := SeeThroughAlpha];
    }

    /** The second loop of `Update`: every cached renderer not hit this
        frame gets its original shader back and leaves the cache. Its
        material is reassigned to itself, so its alpha stays as it is. */
    method RestoreOthers(hitRenderers: set<nat>)
      requires Valid()
      requires hitRenderers <= originalMaterials.Keys
      modifies this`shader, this`originalMaterials
      ensures Valid() && originalMaterials.Keys == hitRenderers && shader.Keys == old(shader).Keys
      ensures forall r :: r in originalMaterials ==> originalMaterials[r] == old(originalMaterials[r])
      ensures forall r :: r in shader ==>
        shader[r] == if r in old(originalMaterials) && r !in hitRenderers then old(originalMaterials[r]) else old(shader[r])
    {
      var keys := originalMaterials.Keys;
      while keys != {}
        invariant keys <= old(originalMaterials).Keys
        invariant Valid() && shader.Keys == old(shader).Keys
        invariant originalMaterials.Keys == hitRenderers + keys
        invariant forall r :: r in originalMaterials ==> originalMaterials[r] == old(originalMaterials[r])
        invariant forall r :: r in shader ==>
          shader[r] == if r in old(originalMaterials) && r !in hitRenderers && r !in keys
                       then old(originalMaterials[r]) else old(shader[r])
        decreases keys
      {
        var rend :| rend in keys;
        keys := keys - {rend};
        if rend !in hitRenderers {
          Restore(rend);
        }
      }
    }

    /** One renderer of the second loop: its material gets the recorded
        shader back and it leaves the cache. */
    method Restore(rend: nat)
      requires Valid() && rend in originalMaterials
      modifies this`shader, this`originalMaterials
      ensures Valid()
      ensures shader == old(shader)[rend := old(originalMaterials[rend])]
      ensures originalMaterials == old(originalMaterials) - {rend}
    {
      shader := shader[rend := originalMaterials[rend]];
      originalMaterials := originalMaterials - {rend};
    }
  }
}
