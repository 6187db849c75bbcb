/**
 * The material side of a UIParticle element (the component that uses `m_Particles`
 * and `activeMeshIndices`).
 *
 * The element owns a list of particle systems and a list of flags, two per system:
 * flag 2i says system i's main geometry is present, flag 2i+1 its trail geometry.
 * A material pass gives back everything the element held, assigns consecutive
 * renderer slots to the present streams (at most eight), acquires a stencil and a
 * texture variant for each slot as needed, and then releases what it gave back.
 * The renderer is recorded as the trace of calls made on it; the variant caches are
 * those of module Materials; material modifiers on the same object are functions.
 */
module Particle {
  import opened Common
  import opened Materials

  /** One system under a root, as the active-only component search sees it. */
  datatype ChildSystem = ChildSystem(isPlaying: bool, subEmittersEnabled: bool, prewarm: bool)

  /** What the element reads from one ParticleSystem and its renderer. */
  datatype ParticleSystem = ParticleSystem(
    sharedMaterials: seq<Material>,       // the renderer's shared materials, in order
    spriteTexture: Option<Texture>,       // GetTextureForSprite()
    activeHierarchy: seq<ChildSystem>)    // the system itself and its active descendants

  /** One renderer slot the material pass fills: which stream, from which base material. */
  datatype Request = Request(slot: nat, particle: nat, stream: SubStream, base: Material, texture: Option<Texture>)

  /** A call on the element's CanvasRenderer. */
  datatype RendererCall = ClearRenderer | SetMaterialCount(count: nat) | SetMaterial(material: Material, slot: nat)

  /** A mesh rented from the mesh pool. */
  datatype MeshHandle = MeshHandle(id: nat)

  /** What a material pass reads from the engine: the stencil depth, activity, and the object's material modifiers. */
  datatype Host = Host(stencilDepth: int, isActiveAndEnabled: bool, modifiers: seq<Material -> Material>)

  /** What variant resolution depends on besides its arguments. */
  datatype MaterialContext = MaterialContext(stencilValue: int, animatablePropertyCount: nat, instanceId: int)

  /** The variants one resolution acquires, and the material it hands back. */
  datatype Resolution = Resolution(masks: seq<Material>, modified: seq<Material>, material: Material)

  /** The variants a whole pass acquires, and the SetMaterial calls it makes. */
  datatype Pass = Pass(masks: seq<Material>, modified: seq<Material>, calls: seq<RendererCall>)

  /** What a material pass changes: the held lists, the renderer calls and both caches. */
  datatype Snapshot = Snapshot(masks: seq<Material>, modified: seq<Material>, calls: seq<RendererCall>,
                               stencilRefs: multiset<Material>, stencilHistory: seq<CacheOp>,
                               modifiedRefs: multiset<Material>, modifiedHistory: seq<CacheOp>)

  /** The steps of the Start coroutine. */
  datatype StartStep = StopAll | ClearAll | YieldFrame | PlayAll
  datatype StartRun = StartRun(steps: seq<StartStep>, faulted: bool)

  /** The renderer never has more material slots than this. */
  const MAX_MATERIAL_COUNT: nat := 8

  function Min(a: nat, b: nat): nat
  {
    if a < b then a else b
  }

  /** The number of true flags. */
  function CountTrue(s: seq<bool>): (n: nat)
    ensures n <= |s|
    ensures n == 0 <==> forall k :: 0 <= k < |s| ==> !s[k]
    ensures n == multiset(s)[true]
  {
    if s == [] then 0
    else
      assert s == s[..|s| - 1] + [s[|s| - 1]];
      CountTrue(s[..|s| - 1]) + (if s[|s| - 1] then 1 else 0)
  }

  // ---------------------------------------------------------------------------
  // Slot plan

  /** The flag position of a stream of a system. */
  function FlagIndex(particle: nat, stream: SubStream): nat
  {
    2 * particle + (if stream == Main then 0 else 1)
  }

  /** The shared material a stream uses. */
  function MaterialIndex(stream: SubStream): nat
  {
    if stream == Main then 0 else 1
  }

  /** A stream asks for a slot: its flag is set and its renderer has the material it needs. */
  predicate Wanted(ps: seq<Option<ParticleSystem>>, idx: seq<bool>, particle: nat, stream: SubStream)
  {
    && particle < |ps| && ps[particle].Some?
    && FlagIndex(particle, stream) < |idx| && idx[FlagIndex(particle, stream)]
    && MaterialIndex(stream) < |ps[particle].value.sharedMaterials|
  }

  /** A request is for a wanted stream, with that stream's base material and texture. */
  predicate Eligible(ps: seq<Option<ParticleSystem>>, idx: seq<bool>, r: Request)
  {
    && Wanted(ps, idx, r.particle, r.stream)
    && r.base == ps[r.particle].value.sharedMaterials[MaterialIndex(r.stream)]
    && r.texture == (if r.stream == Main then ps[r.particle].value.spriteTexture else None)
  }

  function MainRequest(p: ParticleSystem, idx: seq<bool>, i: nat, j: nat): seq<Request>
    requires 2 * i < |idx|
  {
    if idx[2 * i] && 0 < |p.sharedMaterials| then [Request(j, i, Main, p.sharedMaterials[0], p.spriteTexture)] else []
  }

  function TrailRequest(p: ParticleSystem, idx: seq<bool>, i: nat, j: nat): seq<Request>
    requires 2 * i + 1 < |idx|
  {
    if idx[2 * i + 1] && 1 < |p.sharedMaterials| then [Request(j, i, Trail, p.sharedMaterials[1], None)] else []
  }

  /** The requests the pass makes from system i on, with j slots taken and n slots in all. */
  function PlanFrom(ps: seq<Option<ParticleSystem>>, idx: seq<bool>, n: nat, i: nat, j: nat): seq<Request>
    decreases |ps| - i, 1
  {
    if i >= |ps| || n <= j then []
    else match ps[i]
      case None => PlanFrom(ps, idx, n, i + 1, j)
      case Some(p) =>
        if |idx| <= 2 * i then []
        else
          var main := MainRequest(p, idx, i, j);
          main + PlanTrail(ps, idx, n, i, j + |main|)
  }

  /** The requests from system i's trail on. */
  function PlanTrail(ps: seq<Option<ParticleSystem>>, idx: seq<bool>, n: nat, i: nat, j: nat): seq<Request>
    requires i < |ps| && ps[i].Some?
    decreases |ps| - i, 0
  {
    if |idx| <= 2 * i + 1 || n <= j then []
    else
      var trail := TrailRequest(ps[i].value, idx, i, j);
      trail + PlanFrom(ps, idx, n, i + 1, j + |trail|)
  }

  /** The whole plan of a pass. */
  function Plan(ps: seq<Option<ParticleSystem>>, idx: seq<bool>): seq<Request>
  {
    PlanFrom(ps, idx, Min(MAX_MATERIAL_COUNT, CountTrue(idx)), 0, 0)
  }

  /**
   * Slots j, j+1, ... in order, all below n; every request eligible, the first at flag lo or
   * later, each next one at a strictly later flag.
   */
  predicate Shaped(ps: seq<Option<ParticleSystem>>, idx: seq<bool>, plan: seq<Request>, j: nat, n: nat, lo: nat)
    decreases |plan|
  {
    plan != [] ==>
      && plan[0].slot == j && j < n
      && Eligible(ps, idx, plan[0]) && lo <= FlagIndex(plan[0].particle, plan[0].stream)
      && Shaped(ps, idx, plan[1..], j + 1, n, FlagIndex(plan[0].particle, plan[0].stream) + 1)
  }

  /** What a shaped plan is, request by request. */
  lemma {:induction false} ShapedMeans(ps: seq<Option<ParticleSystem>>, idx: seq<bool>, plan: seq<Request>, j: nat, n: nat, lo: nat)
    requires Shaped(ps, idx, plan, j, n, lo)
    ensures plan == [] || j + |plan| <= n
    ensures forall k :: 0 <= k < |plan| ==>
      plan[k].slot == j + k && Eligible(ps, idx, plan[k]) && lo <= FlagIndex(plan[k].particle, plan[k].stream)
    ensures forall a, b :: 0 <= a < b < |plan| ==>
      FlagIndex(plan[a].particle, plan[a].stream) < FlagIndex(plan[b].particle, plan[b].stream)
    decreases |plan|
  {
    if plan != [] {
      var tail := plan[1..];
      var first := FlagIndex(plan[0].particle, plan[0].stream);
      ShapedMeans(ps, idx, tail, j + 1, n, first + 1);
      forall k | 0 < k < |plan|
        ensures plan[k].slot == j + k && Eligible(ps, idx, plan[k]) && first < FlagIndex(plan[k].particle, plan[k].stream)
      {
        assert plan[k] == tail[k - 1];
      }
      forall a, b | 0 <= a < b < |plan|
        ensures FlagIndex(plan[a].particle, plan[a].stream) < FlagIndex(plan[b].particle, plan[b].stream)
      {
        if 0 < a {
          assert plan[a] == tail[a - 1] && plan[b] == tail[b - 1];
        }
      }
    }
  }

  /** Every request of x is for a stream whose flag comes before hi. */
  predicate Below(x: seq<Request>, hi: nat)
  {
    forall k :: 0 <= k < |x| ==> FlagIndex(x[k].particle, x[k].stream) < hi
  }

  /** A shaped plan stays shaped under a lower bound on its first flag. */
  lemma ShapedLower(ps: seq<Option<ParticleSystem>>, idx: seq<bool>, plan: seq<Request>, j: nat, n: nat, lo: nat, hi: nat)
    requires lo <= hi && Shaped(ps, idx, plan, j, n, hi)
    ensures Shaped(ps, idx, plan, j, n, lo)
  {
  }

  /** A request of at most one element, then a shaped plan at later flags: shaped together. */
  lemma ShapedPrepend(ps: seq<Option<ParticleSystem>>, idx: seq<bool>, x: seq<Request>, y: seq<Request>, z: seq<Request>,
                      j: nat, n: nat, lo: nat, mid: nat)
    requires |x| <= 1 && Shaped(ps, idx, x, j, n, lo) && Shaped(ps, idx, y, j + |x|, n, mid) && lo <= mid
    requires Below(x, mid) && z == x + y
    ensures Shaped(ps, idx, z, j, n, lo)
  {
    if x == [] {
      assert z == y;
      ShapedLower(ps, idx, y, j, n, lo, mid);
    } else {
      assert z[0] == x[0] && z[1..] == y;
      ShapedLower(ps, idx, y, j + 1, n, FlagIndex(x[0].particle, x[0].stream) + 1, mid);
    }
  }

  /** The plan from system i on assigns consecutive slots below n to eligible streams, in flag order. */
  lemma {:induction false} PlanFromShaped(ps: seq<Option<ParticleSystem>>, idx: seq<bool>, n: nat, i: nat, j: nat)
    ensures Shaped(ps, idx, PlanFrom(ps, idx, n, i, j), j, n, 2 * i)
    decreases |ps| - i, 2
  {
    if i >= |ps| || n <= j {
      assert PlanFrom(ps, idx, n, i, j) == [];
    } else if ps[i].None? {
      PlanFromShaped(ps, idx, n, i + 1, j);
      assert PlanFrom(ps, idx, n, i, j) == PlanFrom(ps, idx, n, i + 1, j);
      ShapedLower(ps, idx, PlanFrom(ps, idx, n, i + 1, j), j, n, 2 * i, 2 * (i + 1));
    } else if |idx| <= 2 * i {
      assert PlanFrom(ps, idx, n, i, j) == [];
    } else {
      SystemShaped(ps, idx, n, i, j);
    }
  }

  /** The plan from a present system i on: its main request, then the rest from its trail on. */
  lemma {:induction false} SystemShaped(ps: seq<Option<ParticleSystem>>, idx: seq<bool>, n: nat, i: nat, j: nat)
    requires i < |ps| && j < n && ps[i].Some? && 2 * i < |idx|
    ensures Shaped(ps, idx, PlanFrom(ps, idx, n, i, j), j, n, 2 * i)
    decreases |ps| - i, 1
  {
    var main := MainRequest(ps[i].value, idx, i, j);
    var rest := PlanTrail(ps, idx, n, i, j + |main|);
    PlanFromOfSystem(ps, idx, n, i, j);
    MainShaped(ps, idx, n, i, j);
    PlanTrailShaped(ps, idx, n, i, j + |main|);
    ShapedPrepend(ps, idx, main, rest, PlanFrom(ps, idx, n, i, j), j, n, 2 * i, 2 * i + 1);
  }

  /** The plan from a present system: its main request, then the plan from its trail. */
  lemma PlanFromOfSystem(ps: seq<Option<ParticleSystem>>, idx: seq<bool>, n: nat, i: nat, j: nat)
    requires i < |ps| && j < n && ps[i].Some? && 2 * i < |idx|
    ensures PlanFrom(ps, idx, n, i, j) ==
      MainRequest(ps[i].value, idx, i, j) + PlanTrail(ps, idx, n, i, j + |MainRequest(ps[i].value, idx, i, j)|)
  {
  }

  lemma {:induction false} PlanTrailShaped(ps: seq<Option<ParticleSystem>>, idx: seq<bool>, n: nat, i: nat, j: nat)
    requires i < |ps| && ps[i].Some?
    ensures Shaped(ps, idx, PlanTrail(ps, idx, n, i, j), j, n, 2 * i + 1)
    decreases |ps| - i, 0
  {
    if |idx| <= 2 * i + 1 || n <= j {
      assert PlanTrail(ps, idx, n, i, j) == [];
    } else {
      var trail := TrailRequest(ps[i].value, idx, i, j);
      TrailShaped(ps, idx, n, i, j);
      PlanFromShaped(ps, idx, n, i + 1, j + |trail|);
      ShapedPrepend(ps, idx, trail, PlanFrom(ps, idx, n, i + 1, j + |trail|), PlanTrail(ps, idx, n, i, j), j, n, 2 * i + 1, 2 * i + 2);
    }
  }

  /** System i's main request, if any, is shaped and comes before its trail's flag. */
  lemma MainShaped(ps: seq<Option<ParticleSystem>>, idx: seq<bool>, n: nat, i: nat, j: nat)
    requires i < |ps| && ps[i].Some? && 2 * i < |idx| && j < n
    ensures Shaped(ps, idx, MainRequest(ps[i].value, idx, i, j), j, n, 2 * i)
    ensures Below(MainRequest(ps[i].value, idx, i, j), 2 * i + 1)
  {
    var p := ps[i].value;
    var x := MainRequest(p, idx, i, j);
    if x != [] {
      assert x == [Request(j, i, Main, p.sharedMaterials[0], p.spriteTexture)];
      assert Wanted(ps, idx, i, Main);
      assert Eligible(ps, idx, x[0]);
    }
  }

  /** System i's trail request, if any, is shaped and comes before the next system's flags. */
  lemma TrailShaped(ps: seq<Option<ParticleSystem>>, idx: seq<bool>, n: nat, i: nat, j: nat)
    requires i < |ps| && ps[i].Some? && 2 * i + 1 < |idx| && j < n
    ensures Shaped(ps, idx, TrailRequest(ps[i].value, idx, i, j), j, n, 2 * i + 1)
    ensures Below(TrailRequest(ps[i].value, idx, i, j), 2 * (i + 1))
  {
    var p := ps[i].value;
    var x := TrailRequest(p, idx, i, j);
    if x != [] {
      assert x == [Request(j, i, Trail, p.sharedMaterials[1], None)];
      assert Wanted(ps, idx, i, Trail);
      assert Eligible(ps, idx, x[0]);
    }
  }

  /**
   * Slots are assigned consecutively from 0 and stay below min(8, count); each goes to a
   * stream whose flag is set and whose renderer has the material; no stream gets two.
   */
  lemma PlanSlots(ps: seq<Option<ParticleSystem>>, idx: seq<bool>)
    ensures var plan := Plan(ps, idx);
      && |plan| <= Min(MAX_MATERIAL_COUNT, CountTrue(idx))
      && (forall k :: 0 <= k < |plan| ==> plan[k].slot == k && Eligible(ps, idx, plan[k]))
      && (forall a, b :: 0 <= a < b < |plan| ==> (plan[a].particle, plan[a].stream) != (plan[b].particle, plan[b].stream))
  {
    PlanFromShaped(ps, idx, Min(MAX_MATERIAL_COUNT, CountTrue(idx)), 0, 0);
    ShapedMeans(ps, idx, Plan(ps, idx), 0, Min(MAX_MATERIAL_COUNT, CountTrue(idx)), 0);
  }

  /** Some request of the plan is for this stream. */
  predicate Serves(plan: seq<Request>, p: nat, s: SubStream)
  {
    exists k :: 0 <= k < |plan| && plan[k].particle == p && plan[k].stream == s
  }

  /** While slots remain, every wanted stream from system i on gets one. */
  lemma {:induction false} PlanFromComplete(ps: seq<Option<ParticleSystem>>, idx: seq<bool>, n: nat, i: nat, j: nat,
                                            p: nat, s: SubStream)
    requires i <= p && Wanted(ps, idx, p, s)
    requires j + |PlanFrom(ps, idx, n, i, j)| < n
    ensures Serves(PlanFrom(ps, idx, n, i, j), p, s)
    decreases |ps| - i, 1
  {
    var plan := PlanFrom(ps, idx, n, i, j);
    if ps[i].None? {
      PlanFromComplete(ps, idx, n, i + 1, j, p, s);
    } else {
      var main := MainRequest(ps[i].value, idx, i, j);
      if p == i && s == Main {
        assert plan[0] == main[0];
        assert Serves(plan, p, s);
      } else {
        var rest := PlanTrail(ps, idx, n, i, j + |main|);
        PlanTrailComplete(ps, idx, n, i, j + |main|, p, s);
        var k :| 0 <= k < |rest| && rest[k].particle == p && rest[k].stream == s;
        assert plan[|main| + k] == rest[k];
        assert Serves(plan, p, s);
      }
    }
  }

  lemma {:induction false} PlanTrailComplete(ps: seq<Option<ParticleSystem>>, idx: seq<bool>, n: nat, i: nat, j: nat,
                                             p: nat, s: SubStream)
    requires i < |ps| && ps[i].Some?
    requires (i < p || (i == p && s == Trail)) && Wanted(ps, idx, p, s)
    requires j + |PlanTrail(ps, idx, n, i, j)| < n
    ensures Serves(PlanTrail(ps, idx, n, i, j), p, s)
    decreases |ps| - i, 0
  {
    var plan := PlanTrail(ps, idx, n, i, j);
    var trail := TrailRequest(ps[i].value, idx, i, j);
    if p == i {
      assert plan[0] == trail[0];
      assert Serves(plan, p, s);
    } else {
      var rest := PlanFrom(ps, idx, n, i + 1, j + |trail|);
      PlanFromComplete(ps, idx, n, i + 1, j + |trail|, p, s);
      var k :| 0 <= k < |rest| && rest[k].particle == p && rest[k].stream == s;
      assert plan[|trail| + k] == rest[k];
      assert Serves(plan, p, s);
    }
  }

  /** A pass that leaves slots unused serves every wanted stream. */
  lemma PlanServesAllWhenRoomLeft(ps: seq<Option<ParticleSystem>>, idx: seq<bool>, p: nat, s: SubStream)
    requires Wanted(ps, idx, p, s)
    requires |Plan(ps, idx)| < Min(MAX_MATERIAL_COUNT, CountTrue(idx))
    ensures Serves(Plan(ps, idx), p, s)
  {
    PlanFromComplete(ps, idx, Min(MAX_MATERIAL_COUNT, CountTrue(idx)), 0, 0, p, s);
  }

  // ---------------------------------------------------------------------------
  // Variant resolution and modifiers

  /** The stencil variant GetModifiedMaterial acquires: one when the stencil value is positive. */
  function StencilVariants(base: Material, stencilValue: int): seq<Material>
  {
    if 0 < stencilValue
    then [StencilVariant(base, StencilMask(stencilValue), Keep, Equal, All, StencilMask(stencilValue), 0)]
    else []
  }

  /** The texture variant GetModifiedMaterial acquires: one when there is a texture or an animatable property. */
  function TextureVariants(m: Material, texture: Option<Texture>, ctx: MaterialContext): seq<Material>
  {
    if texture.None? && ctx.animatablePropertyCount == 0 then []
    else [TextureVariant(m, texture, if ctx.animatablePropertyCount == 0 then 0 else ctx.instanceId)]
  }

  /** The material after acquiring the variants of s: the latest of them, or m itself. */
  function Latest(m: Material, s: seq<Material>): Material
  {
    if s == [] then m else s[0]
  }

  /** GetModifiedMaterial: a stencil variant when the stencil value is positive, then a texture variant when needed. */
  function ResolveVariant(base: Material, texture: Option<Texture>, ctx: MaterialContext): (r: Resolution)
    ensures ctx.stencilValue <= 0 ==> r.masks == []
    ensures 0 < ctx.stencilValue ==>
      r.masks == [StencilVariant(base, StencilMask(ctx.stencilValue), Keep, Equal, All, StencilMask(ctx.stencilValue), 0)]
    ensures texture.None? && ctx.animatablePropertyCount == 0 ==> r.modified == []
    ensures texture.Some? || 0 < ctx.animatablePropertyCount ==>
      r.modified == [TextureVariant(if r.masks == [] then base else r.masks[0], texture,
                                    if ctx.animatablePropertyCount == 0 then 0 else ctx.instanceId)]
    ensures r.material == (if r.modified != [] then r.modified[0] else if r.masks != [] then r.masks[0] else base)
  {
    var masks := StencilVariants(base, ctx.stencilValue);
    var modified := TextureVariants(Latest(base, masks), texture, ctx);
    Resolution(masks, modified, Latest(Latest(base, masks), modified))
  }

  /** Without a positive stencil value, texture or animatable property, resolution hands back its input. */
  lemma ResolveVariantIdentity(base: Material, texture: Option<Texture>, ctx: MaterialContext)
    ensures ResolveVariant(base, texture, ctx).material == base
        <==> ctx.stencilValue <= 0 && texture.None? && ctx.animatablePropertyCount == 0
  {
    var r := ResolveVariant(base, texture, ctx);
    if r.masks != [] && r.modified == [] {
      assert r.material.StencilVariant? && r.material.base == base;
      assert r.material != base by { MaterialGrows(base, r.material); }
    }
    if r.modified != [] {
      assert r.material.TextureVariant?;
      assert r.material != base by { MaterialGrows(base, r.material); }
    }
  }

  /** How many derivation steps lie between a material and its asset. */
  function Depth(m: Material): nat
  {
    match m
    case BaseMaterial(_) => 0
    case StencilVariant(base, _, _, _, _, _, _) => 1 + Depth(base)
    case TextureVariant(base, _, _) => 1 + Depth(base)
  }

  /** A derived material is never the material it was derived from. */
  lemma MaterialGrows(base: Material, v: Material)
    requires (v.StencilVariant? && v.base == base) || (v.TextureVariant? && (v.base == base || (v.base.StencilVariant? && v.base.base == base)))
    ensures v != base
  {
    assert Depth(v) > Depth(base);
  }

  /** The modifiers after the first one, applied in order from position k. */
  function ChainFrom(mods: seq<Material -> Material>, k: nat, m: Material): Material
    decreases |mods| - k
  {
    if k >= |mods| then m else ChainFrom(mods, k + 1, mods[k](m))
  }

  /** What the material modifiers of the object make of m: every modifier but the first, in order. */
  function Chain(mods: seq<Material -> Material>, m: Material): Material
  {
    ChainFrom(mods, 1, m)
  }

  lemma {:induction false} ChainFromAppend(mods: seq<Material -> Material>, f: Material -> Material, k: nat, m: Material)
    requires 1 <= k <= |mods|
    ensures ChainFrom(mods + [f], k, m) == f(ChainFrom(mods, k, m))
    decreases |mods| - k
  {
    if k < |mods| {
      assert (mods + [f])[k] == mods[k];
      ChainFromAppend(mods, f, k + 1, mods[k](m));
    } else {
      assert (mods + [f])[k] == f;
    }
  }

  lemma {:induction false} ChainFromIgnoresBefore(mods: seq<Material -> Material>, g: Material -> Material, p: nat, k: nat, m: Material)
    requires p < k && p < |mods|
    ensures ChainFrom(mods[p := g], k, m) == ChainFrom(mods, k, m)
    decreases |mods| - k
  {
    if k < |mods| {
      ChainFromIgnoresBefore(mods, g, p, k + 1, mods[k](m));
    }
  }

  /** The first modifier (the element itself) never takes part; later ones compose left to right. */
  lemma ChainLaws(mods: seq<Material -> Material>, g: Material -> Material, f: Material -> Material, m: Material)
    ensures |mods| <= 1 ==> Chain(mods, m) == m
    ensures 0 < |mods| ==> Chain(mods[0 := g], m) == Chain(mods, m)
    ensures 0 < |mods| ==> Chain(mods + [f], m) == f(Chain(mods, m))
  {
    if 0 < |mods| {
      ChainFromIgnoresBefore(mods, g, 0, 1, m);
      ChainFromAppend(mods, f, 1, m);
    }
  }

  /** A pass extended by one more request: its variants are acquired and its material is set at its slot. */
  function Extend(prev: Pass, r: Request, ctx: MaterialContext, mods: seq<Material -> Material>): Pass
  {
    var res := ResolveVariant(r.base, r.texture, ctx);
    Pass(prev.masks + res.masks, prev.modified + res.modified, prev.calls + [SetMaterial(Chain(mods, res.material), r.slot)])
  }

  /** The acquisitions and renderer calls of the requests of a plan, in order. */
  function PassOver(plan: seq<Request>, ctx: MaterialContext, mods: seq<Material -> Material>): Pass
  {
    if plan == [] then Pass([], [], [])
    else Extend(PassOver(plan[..|plan| - 1], ctx, mods), plan[|plan| - 1], ctx, mods)
  }

  lemma PassOverSnoc(done: seq<Request>, r: Request, ctx: MaterialContext, mods: seq<Material -> Material>)
    ensures PassOver(done + [r], ctx, mods) == Extend(PassOver(done, ctx, mods), r, ctx, mods)
  {
    assert (done + [r])[..|done|] == done;
  }

  /** The pass over a plan's first j + 1 requests extends the pass over its first j by request j. */
  lemma PassOverPrefix(plan: seq<Request>, j: nat, ctx: MaterialContext, mods: seq<Material -> Material>)
    requires j < |plan|
    ensures PassOver(plan[..j + 1], ctx, mods) == Extend(PassOver(plan[..j], ctx, mods), plan[j], ctx, mods)
  {
    assert plan[..j + 1] == plan[..j] + [plan[j]];
    PassOverSnoc(plan[..j], plan[j], ctx, mods);
  }

  /** One SetMaterial per request, in plan order, at the request's slot and with its resolved, modified material. */
  lemma {:induction false} PassOverCalls(plan: seq<Request>, ctx: MaterialContext, mods: seq<Material -> Material>)
    ensures var calls := PassOver(plan, ctx, mods).calls;
      && |calls| == |plan|
      && forall k :: 0 <= k < |plan| ==>
           calls[k] == SetMaterial(Chain(mods, ResolveVariant(plan[k].base, plan[k].texture, ctx).material), plan[k].slot)
  {
    if plan != [] {
      var init := plan[..|plan| - 1];
      PassOverCalls(init, ctx, mods);
      var calls := PassOver(plan, ctx, mods).calls;
      var prev := PassOver(init, ctx, mods).calls;
      assert calls == prev + [calls[|plan| - 1]];
      forall k | 0 <= k < |plan|
        ensures calls[k] == SetMaterial(Chain(mods, ResolveVariant(plan[k].base, plan[k].texture, ctx).material), plan[k].slot)
      {
        if k < |init| {
          assert calls[k] == prev[k] && plan[k] == init[k];
        }
      }
    }
  }

  /**
   * One stencil variant per request exactly when the stencil value is positive, each comparing
   * equal against the stencil mask and writing nothing.
   */
  lemma {:induction false} PassOverMasks(plan: seq<Request>, ctx: MaterialContext, mods: seq<Material -> Material>)
    ensures var masks := PassOver(plan, ctx, mods).masks;
      && |masks| == (if 0 < ctx.stencilValue then |plan| else 0)
      && forall k :: 0 <= k < |masks| ==>
           && masks[k].StencilVariant? && masks[k].writeMask == 0
           && masks[k].stencilId == StencilMask(ctx.stencilValue) == masks[k].readMask
  {
    if plan != [] {
      var init := plan[..|plan| - 1];
      PassOverMasks(init, ctx, mods);
      var masks := PassOver(plan, ctx, mods).masks;
      var prev := PassOver(init, ctx, mods).masks;
      var res := ResolveVariant(plan[|plan| - 1].base, plan[|plan| - 1].texture, ctx);
      assert masks == prev + res.masks;
      forall k | 0 <= k < |masks|
        ensures masks[k].StencilVariant? && masks[k].writeMask == 0
        ensures masks[k].stencilId == StencilMask(ctx.stencilValue) == masks[k].readMask
      {
        if k < |prev| {
          assert masks[k] == prev[k];
        } else {
          assert masks[k] == res.masks[k - |prev|];
        }
      }
    }
  }

  /** A request for which GetModifiedMaterial acquires a texture variant: it has a texture, or there are animatable properties. */
  predicate NeedsTexture(r: Request, ctx: MaterialContext)
  {
    r.texture.Some? || 0 < ctx.animatablePropertyCount
  }

  /** The number of requests of a plan that need a texture variant. */
  function TexturedCount(plan: seq<Request>, ctx: MaterialContext): (n: nat)
    ensures n <= |plan|
    ensures 0 < ctx.animatablePropertyCount ==> n == |plan|
  {
    if plan == [] then 0
    else TexturedCount(plan[..|plan| - 1], ctx) + (if NeedsTexture(plan[|plan| - 1], ctx) then 1 else 0)
  }

  /**
   * One texture variant per request that has a texture, and one per request whenever there are
   * animatable properties. Each carries property id 0 without properties and the instance id
   * with them; without properties each has a texture, and with them variant k is request k's.
   */
  lemma {:induction false} PassOverModified(plan: seq<Request>, ctx: MaterialContext, mods: seq<Material -> Material>)
    ensures var modified := PassOver(plan, ctx, mods).modified;
      && |modified| == TexturedCount(plan, ctx)
      && (forall k :: 0 <= k < |modified| ==>
            && modified[k].TextureVariant?
            && modified[k].propertyId == (if ctx.animatablePropertyCount == 0 then 0 else ctx.instanceId)
            && (ctx.animatablePropertyCount == 0 ==> modified[k].texture.Some?))
      && (0 < ctx.animatablePropertyCount ==> forall k :: 0 <= k < |plan| ==> modified[k].texture == plan[k].texture)
  {
    if plan != [] {
      var init := plan[..|plan| - 1];
      var last := plan[|plan| - 1];
      PassOverModified(init, ctx, mods);
      var modified := PassOver(plan, ctx, mods).modified;
      var prev := PassOver(init, ctx, mods).modified;
      var res := ResolveVariant(last.base, last.texture, ctx);
      assert modified == prev + res.modified;
      forall k | 0 <= k < |modified|
        ensures modified[k].TextureVariant?
        ensures modified[k].propertyId == (if ctx.animatablePropertyCount == 0 then 0 else ctx.instanceId)
        ensures ctx.animatablePropertyCount == 0 ==> modified[k].texture.Some?
        ensures 0 < ctx.animatablePropertyCount ==> k < |plan| && modified[k].texture == plan[k].texture
      {
        if k < |prev| {
          assert modified[k] == prev[k];
          if 0 < ctx.animatablePropertyCount {
            assert plan[k] == init[k];
          }
        } else {
          assert modified[k] == res.modified[k - |prev|];
        }
      }
    }
  }

  // ---------------------------------------------------------------------------
  // Start

  /** A system that delays play: playing, with sub-emitters or prewarm. */
  predicate DelaysPlay(p: ParticleSystem)
  {
    exists c :: c in p.activeHierarchy && c.isPlaying && (c.subEmittersEnabled || c.prewarm)
  }

  /** Entry i is the first that delays play, and no null entry comes before it. */
  predicate HitAt(ps: seq<Option<ParticleSystem>>, i: int)
  {
    0 <= i < |ps| && ps[i].Some? && DelaysPlay(ps[i].value) && forall i' :: 0 <= i' < i ==> ps[i'].Some?
  }

  /** Entry i is null, and every entry before it is a system that does not delay play. */
  predicate FaultAt(ps: seq<Option<ParticleSystem>>, i: int)
  {
    0 <= i < |ps| && ps[i].None? && forall i' :: 0 <= i' < i ==> ps[i'].Some? && !DelaysPlay(ps[i'].value)
  }

  /** Past a first entry that does not delay play, hits and faults are those of the rest, one place on. */
  lemma ShiftPastFirst(ps: seq<Option<ParticleSystem>>)
    requires 0 < |ps| && ps[0].Some? && !DelaysPlay(ps[0].value)
    ensures (exists i :: HitAt(ps, i)) <==> (exists i :: HitAt(ps[1..], i))
    ensures (exists i :: FaultAt(ps, i)) <==> (exists i :: FaultAt(ps[1..], i))
  {
    var tail := ps[1..];
    if i :| HitAt(ps, i) {
      assert i > 0;
      assert HitAt(tail, i - 1) by {
        forall i' | 0 <= i' < i - 1
          ensures tail[i'].Some?
        {
          assert tail[i'] == ps[i' + 1];
        }
      }
    }
    if i :| HitAt(tail, i) {
      assert HitAt(ps, i + 1) by {
        forall i' | 0 <= i' < i + 1
          ensures ps[i'].Some?
        {
          if i' > 0 {
            assert ps[i'] == tail[i' - 1];
          }
        }
      }
    }
    if i :| FaultAt(ps, i) {
      assert i > 0;
      assert FaultAt(tail, i - 1) by {
        forall i' | 0 <= i' < i - 1
          ensures tail[i'].Some? && !DelaysPlay(tail[i'].value)
        {
          assert tail[i'] == ps[i' + 1];
        }
      }
    }
    if i :| FaultAt(tail, i) {
      assert FaultAt(ps, i + 1) by {
        forall i' | 0 <= i' < i + 1
          ensures ps[i'].Some? && !DelaysPlay(ps[i'].value)
        {
          if i' > 0 {
            assert ps[i'] == tail[i' - 1];
          }
        }
      }
    }
  }

  /**
   * Whether Start delays play: some listed system has a playing system under it with
   * sub-emitters or prewarm. The search stops at the first hit; a null entry reached
   * before any hit faults (None), AnyFast being taken to hand every entry to the lambda.
   */
  function DelayToPlay(ps: seq<Option<ParticleSystem>>): (r: Option<bool>)
    ensures r == Some(true) <==> exists i :: HitAt(ps, i)
    ensures r.None? <==> exists i :: FaultAt(ps, i)
  {
    if ps == [] then Some(false)
    else match ps[0]
      case None => assert FaultAt(ps, 0); None
      case Some(p) =>
        if DelaysPlay(p) then assert HitAt(ps, 0); Some(true)
        else ShiftPastFirst(ps); DelayToPlay(ps[1..])
  }

  /** Start: stop and clear, wait one frame, play, only when play is delayed. */
  function StartSteps(ps: seq<Option<ParticleSystem>>): (run: StartRun)
    ensures run.faulted <==> DelayToPlay(ps).None?
    ensures run.steps != [] <==> DelayToPlay(ps) == Some(true)
    ensures run.steps != [] ==> run.steps == [StopAll, ClearAll, YieldFrame, PlayAll]
  {
    match DelayToPlay(ps)
    case None => StartRun([], true)
    case Some(delay) => if delay then StartRun([StopAll, ClearAll, YieldFrame, PlayAll], false) else StartRun([], false)
  }

  /** Where the slot loop stops, the plan has nothing left. */
  lemma PlanStops(ps: seq<Option<ParticleSystem>>, idx: seq<bool>, n: nat, i: nat, j: nat, plan: seq<Request>)
    requires j <= |plan| && plan[j..] == PlanFrom(ps, idx, n, i, j)
    requires i >= |ps| || n <= j || (ps[i].Some? && |idx| <= 2 * i)
    ensures plan[..j] == plan
  {
    assert plan[j..] == [];
  }

  /** A missing system takes no slot. */
  lemma PlanSkips(ps: seq<Option<ParticleSystem>>, idx: seq<bool>, n: nat, i: nat, j: nat, plan: seq<Request>)
    requires j <= |plan| && plan[j..] == PlanFrom(ps, idx, n, i, j)
    requires i < |ps| && j < n && ps[i].None?
    ensures plan[j..] == PlanFrom(ps, idx, n, i + 1, j)
  {
  }

  /** System i's main stream takes the next slot when it asks for one; the plan then goes on with its trail. */
  lemma PlanMainStep(ps: seq<Option<ParticleSystem>>, idx: seq<bool>, n: nat, i: nat, j: nat, plan: seq<Request>)
    requires j <= |plan| && plan[j..] == PlanFrom(ps, idx, n, i, j)
    requires i < |ps| && j < n && ps[i].Some? && 2 * i < |idx|
    ensures var p := ps[i].value;
      if idx[2 * i] && 0 < |p.sharedMaterials| then
        && j < |plan| && plan[j] == Request(j, i, Main, p.sharedMaterials[0], p.spriteTexture)
        && plan[..j + 1] == plan[..j] + [plan[j]] && plan[j + 1..] == PlanTrail(ps, idx, n, i, j + 1)
      else
        plan[j..] == PlanTrail(ps, idx, n, i, j)
  {
    var main := MainRequest(ps[i].value, idx, i, j);
    PlanAdvance(plan, j, main, PlanTrail(ps, idx, n, i, j + |main|));
  }

  /** System i's trail stream takes the next slot when it asks for one; the plan then goes on with system i + 1. */
  lemma PlanTrailStep(ps: seq<Option<ParticleSystem>>, idx: seq<bool>, n: nat, i: nat, j: nat, plan: seq<Request>)
    requires i < |ps| && ps[i].Some?
    requires j <= |plan| && plan[j..] == PlanTrail(ps, idx, n, i, j)
    requires j < n && 2 * i + 1 < |idx|
    ensures var p := ps[i].value;
      if idx[2 * i + 1] && 1 < |p.sharedMaterials| then
        && j < |plan| && plan[j] == Request(j, i, Trail, p.sharedMaterials[1], None)
        && plan[..j + 1] == plan[..j] + [plan[j]] && plan[j + 1..] == PlanFrom(ps, idx, n, i + 1, j + 1)
      else
        plan[j..] == PlanFrom(ps, idx, n, i + 1, j)
  {
    var trail := TrailRequest(ps[i].value, idx, i, j);
    PlanAdvance(plan, j, trail, PlanFrom(ps, idx, n, i + 1, j + |trail|));
  }

  /** Where the trail has no slot left, the plan has nothing left. */
  lemma PlanTrailStops(ps: seq<Option<ParticleSystem>>, idx: seq<bool>, n: nat, i: nat, j: nat, plan: seq<Request>)
    requires i < |ps| && ps[i].Some?
    requires j <= |plan| && plan[j..] == PlanTrail(ps, idx, n, i, j)
    requires |idx| <= 2 * i + 1 || n <= j
    ensures plan[..j] == plan
  {
    assert plan[j..] == [];
  }

  lemma PlanAdvance(plan: seq<Request>, j: nat, x: seq<Request>, rest: seq<Request>)
    requires j <= |plan| && plan[j..] == x + rest
    ensures j + |x| <= |plan| && plan[..j + |x|] == plan[..j] + x && plan[j + |x|..] == rest
  {
    assert plan == plan[..j] + plan[j..];
    assert plan[..j + |x|] == plan[..j] + plan[j..][..|x|];
    assert plan[j..][..|x|] == x;
  }

  lemma ConcatAssoc<T>(a: seq<T>, b: seq<T>, c: seq<T>)
    ensures a + b + c == a + (b + c)
  {
  }

  lemma BagOfConcat(b: multiset<Material>, s: seq<Material>, t: seq<Material>)
    ensures b + multiset(s) + multiset(t) == b + multiset(s + t)
  {
  }

  lemma BagPlusNothing(b: multiset<Material>, s: seq<Material>)
    requires s == []
    ensures b + multiset(s) == b && Additions(s) == []
  {
  }

  // ---------------------------------------------------------------------------
  // State

  /** The static s_PrevMaskMaterials and s_PrevModifiedMaterials lists, shared by all elements. */
  class PreviousMaterials {
    var mask: seq<Material>
    var modified: seq<Material>

    constructor ()
      ensures mask == [] && modified == []
    {
      mask := [];
      modified := [];
    }
  }

  /** Releasing one more waiting variant: the bag and the history both extend by it. */
  lemma ReleaseStep(refs: multiset<Material>, history: seq<CacheOp>, waiting: seq<Material>, k: nat)
    requires k < |waiting|
    ensures refs - multiset(waiting[..k]) - multiset{waiting[k]} == refs - multiset(waiting[..k + 1])
    ensures history + Removals(waiting[..k]) + [Removed(waiting[k])] == history + Removals(waiting[..k + 1])
  {
    var done := waiting[..k];
    assert waiting[..k + 1] == done + [waiting[k]];
    assert Removals(done + [waiting[k]]) == Removals(done) + [Removed(waiting[k])] by {
      assert (done + [waiting[k]])[..|done|] == done;
    }
    SubtractTwice(refs, multiset(done), multiset{waiting[k]});
  }

  lemma SubtractTwice(a: multiset<Material>, b: multiset<Material>, c: multiset<Material>)
    ensures a - b - c == a - (b + c)
  {
    assert forall x :: (a - b - c)[x] == (a - (b + c))[x];
  }

  /** Removing the members of a bag that it contains leaves what else was added. */
  lemma KeepsAdded(a: multiset<Material>, n: multiset<Material>, r: multiset<Material>)
    requires r <= a
    ensures n <= a + n - r
  {
    forall x
      ensures n[x] <= (a + n - r)[x]
    {
    }
  }

  class UIParticle {
    /** m_Particles: its systems; None for an entry that tests false. */
    var particles: seq<Option<ParticleSystem>>
    /** _activeMeshIndices: two flags per system, main then trail. */
    var activeMeshIndices: seq<bool>
    /** _maskMaterials: the stencil variants it holds. */
    var maskMaterials: seq<Material>
    /** _modifiedMaterials: the texture variants it holds. */
    var modifiedMaterials: seq<Material>
    var stencilValue: int
    var shouldRecalculateStencil: bool
    var maskable: bool
    /** m_AnimatableProperties.Length. */
    var animatablePropertyCount: nat
    /** GetInstanceID(). */
    const instanceId: int
    /** _bakedMesh. */
    var bakedMesh: Option<MeshHandle>
    /** Whether it is in the updater's registry. */
    var registered: bool
    /** Every call made on its CanvasRenderer, in order. */
    var rendererCalls: seq<RendererCall>
    const previous: PreviousMaterials
    const stencilCache: StencilMaterialCache
    const modifiedCache: ModifiedMaterialCache

    /** Between calls the previous lists are empty and the caches hold at least what the element holds. */
    ghost predicate Valid()
      reads this, previous, stencilCache, modifiedCache
    {
      && previous.mask == [] && previous.modified == []
      && multiset(maskMaterials) <= stencilCache.refs
      && multiset(modifiedMaterials) <= modifiedCache.refs
      && (registered <==> bakedMesh.Some?)
    }

    constructor (particles: seq<Option<ParticleSystem>>, maskable: bool, animatablePropertyCount: nat, instanceId: int,
                 previous: PreviousMaterials, stencilCache: StencilMaterialCache, modifiedCache: ModifiedMaterialCache)
      requires previous.mask == [] && previous.modified == []
      ensures Valid()
      ensures this.particles == particles && this.maskable == maskable
      ensures this.animatablePropertyCount == animatablePropertyCount && this.instanceId == instanceId
      ensures this.previous == previous && this.stencilCache == stencilCache && this.modifiedCache == modifiedCache
      ensures activeMeshIndices == [] && maskMaterials == [] && modifiedMaterials == [] && rendererCalls == []
      ensures stencilValue == 0 && shouldRecalculateStencil && bakedMesh.None? && !registered
    {
      this.particles := particles;
      this.activeMeshIndices := [];
      this.maskMaterials := [];
      this.modifiedMaterials := [];
      this.stencilValue := 0;
      this.shouldRecalculateStencil := true;
      this.maskable := maskable;
      this.animatablePropertyCount := animatablePropertyCount;
      this.instanceId := instanceId;
      this.bakedMesh := None;
      this.registered := false;
      this.rendererCalls := [];
      this.previous := previous;
      this.stencilCache := stencilCache;
      this.modifiedCache := modifiedCache;
    }

    /** raycastTarget: always false. Its setter has an empty body, so the model has no field for it. */
    function RaycastTarget(): (r: bool)
      ensures !r
    {
      false
    }

    function Context(): MaterialContext
      reads this`stencilValue, this`animatablePropertyCount
    {
      MaterialContext(stencilValue, animatablePropertyCount, instanceId)
    }

    /** The early exit of a material pass: no flag set, inactive, or no systems. */
    predicate Idle(host: Host)
      reads this`activeMeshIndices, this`particles
    {
      CountTrue(activeMeshIndices) == 0 || !host.isActiveAndEnabled || |particles| == 0
    }

    /**
     * What a material pass acquires and the renderer calls it makes: a single ClearRenderer when
     * idle, else SetMaterialCount(min(8, flags set)) followed by the pass over the plan.
     */
    ghost function Acquisition(host: Host): Pass
      reads this`activeMeshIndices, this`particles, this`stencilValue, this`animatablePropertyCount
    {
      if Idle(host) then Pass([], [], [ClearRenderer])
      else
        var pass := PassOver(Plan(particles, activeMeshIndices), Context(), host.modifiers);
        Pass(pass.masks, pass.modified, [SetMaterialCount(Min(MAX_MATERIAL_COUNT, CountTrue(activeMeshIndices)))] + pass.calls)
    }

    /**
     * The state after a material pass. What was held (with anything already waiting in the
     * previous lists) is released once each from its own cache after the new variants are
     * acquired; the previous lists end empty.
     */
    twostate predicate MaterialsRebuilt(host: Host)
      reads this, previous, stencilCache, modifiedCache
    {
      var released := old(previous.mask) + old(maskMaterials);
      var releasedModified := old(previous.modified) + old(modifiedMaterials);
      && particles == old(particles) && maskable == old(maskable)
      && animatablePropertyCount == old(animatablePropertyCount)
      && bakedMesh == old(bakedMesh) && registered == old(registered)
      && stencilValue == (if old(shouldRecalculateStencil) then (if maskable then host.stencilDepth else 0) else old(stencilValue))
      && !shouldRecalculateStencil
      && previous.mask == [] && previous.modified == []
      && maskMaterials == Acquisition(host).masks && modifiedMaterials == Acquisition(host).modified
      && rendererCalls == old(rendererCalls) + Acquisition(host).calls
      && stencilCache.refs == old(stencilCache.refs) + multiset(maskMaterials) - multiset(released)
      && stencilCache.history == old(stencilCache.history) + Additions(maskMaterials) + Removals(released)
      && modifiedCache.refs == old(modifiedCache.refs) + multiset(modifiedMaterials) - multiset(releasedModified)
      && modifiedCache.history == old(modifiedCache.history) + Additions(modifiedMaterials) + Removals(releasedModified)
    }

    /** The stencil half of GetModifiedMaterial: acquire the stencil variant, if any, and hold it. */
    method AddStencilVariant(base: Material) returns (mat: Material)
      modifies this`maskMaterials, stencilCache
      ensures var v := StencilVariants(base, stencilValue);
        && mat == Latest(base, v)
        && maskMaterials == old(maskMaterials) + v
        && stencilCache.refs == old(stencilCache.refs) + multiset(v)
        && stencilCache.history == old(stencilCache.history) + Additions(v)
    {
      if 0 < stencilValue {
        var mask := StencilMask(stencilValue);
        mat := stencilCache.Add(base, mask, Keep, Equal, All, mask, 0);
        maskMaterials := maskMaterials + [mat];
        assert Additions([mat]) == [Added(mat)];
      } else {
        mat := base;
        BagPlusNothing(stencilCache.refs, []);
      }
    }

    /** The texture half of GetModifiedMaterial: acquire the texture variant, if any, and hold it. */
    method AddTextureVariant(m: Material, texture: Option<Texture>) returns (mat: Material)
      modifies this`modifiedMaterials, modifiedCache
      ensures var v := TextureVariants(m, texture, Context());
        && mat == Latest(m, v)
        && modifiedMaterials == old(modifiedMaterials) + v
        && modifiedCache.refs == old(modifiedCache.refs) + multiset(v)
        && modifiedCache.history == old(modifiedCache.history) + Additions(v)
    {
      if texture.None? && animatablePropertyCount == 0 {
        mat := m;
        BagPlusNothing(modifiedCache.refs, []);
        return;
      }
      var id := if animatablePropertyCount == 0 then 0 else instanceId;
      mat := modifiedCache.Add(m, texture, id);
      modifiedMaterials := modifiedMaterials + [mat];
      assert Additions([mat]) == [Added(mat)];
    }

    /** GetModifiedMaterial: acquire the variants base needs and record them as held. */
    method GetModifiedMaterial(base: Material, texture: Option<Texture>) returns (mat: Material)
      modifies this`maskMaterials, this`modifiedMaterials, stencilCache, modifiedCache
      ensures var res := ResolveVariant(base, texture, Context());
        && mat == res.material
        && maskMaterials == old(maskMaterials) + res.masks
        && modifiedMaterials == old(modifiedMaterials) + res.modified
        && stencilCache.refs == old(stencilCache.refs) + multiset(res.masks)
        && stencilCache.history == old(stencilCache.history) + Additions(res.masks)
        && modifiedCache.refs == old(modifiedCache.refs) + multiset(res.modified)
        && modifiedCache.history == old(modifiedCache.history) + Additions(res.modified)
    {
      mat := AddStencilVariant(base);
      mat := AddTextureVariant(mat, texture);
    }

    /** The modifier loop: every material modifier of the object but the first, in order. */
    method ApplyMaterialModifiers(mods: seq<Material -> Material>, m: Material) returns (mat: Material)
      ensures mat == Chain(mods, m)
    {
      mat := m;
      var k := 1;
      while k < |mods|
        invariant 1 <= k
        invariant ChainFrom(mods, k, mat) == Chain(mods, m)
      {
        mat := mods[k](mat);
        k := k + 1;
      }
    }

    /** ClearPreviousMaterials: release every waiting variant from its own cache, then empty both lists. */
    method ClearPreviousMaterials()
      modifies previous, stencilCache, modifiedCache
      ensures previous.mask == [] && previous.modified == []
      ensures stencilCache.refs == old(stencilCache.refs) - multiset(old(previous.mask))
      ensures stencilCache.history == old(stencilCache.history) + Removals(old(previous.mask))
      ensures modifiedCache.refs == old(modifiedCache.refs) - multiset(old(previous.modified))
      ensures modifiedCache.history == old(modifiedCache.history) + Removals(old(previous.modified))
    {
      ReleasePreviousMasks();
      ReleasePreviousModified();
    }

    /** The first loop of ClearPreviousMaterials: each waiting stencil variant goes back to StencilMaterial. */
    method ReleasePreviousMasks()
      modifies previous`mask, stencilCache
      ensures previous.mask == []
      ensures stencilCache.refs == old(stencilCache.refs) - multiset(old(previous.mask))
      ensures stencilCache.history == old(stencilCache.history) + Removals(old(previous.mask))
    {
      var waiting := previous.mask;
      var k := 0;
      while k < |waiting|
        invariant 0 <= k <= |waiting|
        invariant stencilCache.refs == old(stencilCache.refs) - multiset(waiting[..k])
        invariant stencilCache.history == old(stencilCache.history) + Removals(waiting[..k])
      {
        var m := waiting[k];
        ReleaseStep(old(stencilCache.refs), old(stencilCache.history), waiting, k);
        stencilCache.Remove(m);
        k := k + 1;
      }
      assert waiting[..k] == waiting;
      previous.mask := [];
    }

    /** The second loop of ClearPreviousMaterials: each waiting texture variant goes back to ModifiedMaterial. */
    method ReleasePreviousModified()
      modifies previous`modified, modifiedCache
      ensures previous.modified == []
      ensures modifiedCache.refs == old(modifiedCache.refs) - multiset(old(previous.modified))
      ensures modifiedCache.history == old(modifiedCache.history) + Removals(old(previous.modified))
    {
      var waiting := previous.modified;
      var k := 0;
      while k < |waiting|
        invariant 0 <= k <= |waiting|
        invariant modifiedCache.refs == old(modifiedCache.refs) - multiset(waiting[..k])
        invariant modifiedCache.history == old(modifiedCache.history) + Removals(waiting[..k])
      {
        var m := waiting[k];
        ReleaseStep(old(modifiedCache.refs), old(modifiedCache.history), waiting, k);
        modifiedCache.Remove(m);
        k := k + 1;
      }
      assert waiting[..k] == waiting;
      previous.modified := [];
    }

    /** Move what the element holds to the end of the previous lists. */
    method GiveBackHeld()
      modifies this`maskMaterials, this`modifiedMaterials, previous
      ensures previous.mask == old(previous.mask) + old(maskMaterials) && maskMaterials == []
      ensures previous.modified == old(previous.modified) + old(modifiedMaterials) && modifiedMaterials == []
    {
      previous.mask := previous.mask + maskMaterials;
      maskMaterials := [];
      previous.modified := previous.modified + modifiedMaterials;
      modifiedMaterials := [];
    }

    /** ClearMaterials: give everything back, clear the renderer, release. */
    method ClearMaterials()
      modifies this`maskMaterials, this`modifiedMaterials, this`rendererCalls, previous, stencilCache, modifiedCache
      ensures maskMaterials == [] && modifiedMaterials == []
      ensures previous.mask == [] && previous.modified == []
      ensures rendererCalls == old(rendererCalls) + [ClearRenderer]
      ensures stencilCache.refs == old(stencilCache.refs) - multiset(old(previous.mask) + old(maskMaterials))
      ensures stencilCache.history == old(stencilCache.history) + Removals(old(previous.mask) + old(maskMaterials))
      ensures modifiedCache.refs == old(modifiedCache.refs) - multiset(old(previous.modified) + old(modifiedMaterials))
      ensures modifiedCache.history == old(modifiedCache.history) + Removals(old(previous.modified) + old(modifiedMaterials))
    {
      GiveBackHeld();
      rendererCalls := rendererCalls + [ClearRenderer];
      ClearPreviousMaterials();
    }

    /** Resolve one request's material, pass it through the modifiers and set it at the request's slot. */
    method ServeRequest(r: Request, mods: seq<Material -> Material>)
      modifies this`maskMaterials, this`modifiedMaterials, this`rendererCalls, stencilCache, modifiedCache
      ensures var res := ResolveVariant(r.base, r.texture, Context());
        && maskMaterials == old(maskMaterials) + res.masks
        && modifiedMaterials == old(modifiedMaterials) + res.modified
        && rendererCalls == old(rendererCalls) + [SetMaterial(Chain(mods, res.material), r.slot)]
        && stencilCache.refs == old(stencilCache.refs) + multiset(res.masks)
        && stencilCache.history == old(stencilCache.history) + Additions(res.masks)
        && modifiedCache.refs == old(modifiedCache.refs) + multiset(res.modified)
        && modifiedCache.history == old(modifiedCache.history) + Additions(res.modified)
    {
      var mat := GetModifiedMaterial(r.base, r.texture);
      mat := ApplyMaterialModifiers(mods, mat);
      rendererCalls := rendererCalls + [SetMaterial(mat, r.slot)];
    }

    /** The current values of what a material pass changes. */
    ghost function Snap(): Snapshot
      reads this`maskMaterials, this`modifiedMaterials, this`rendererCalls, stencilCache, modifiedCache
    {
      Snapshot(maskMaterials, modifiedMaterials, rendererCalls, stencilCache.refs, stencilCache.history,
               modifiedCache.refs, modifiedCache.history)
    }

    /** The held lists, the renderer calls and the caches extend their values in s0 by the pass p. */
    ghost predicate Holds(p: Pass, s0: Snapshot)
      reads this`maskMaterials, this`modifiedMaterials, this`rendererCalls, stencilCache, modifiedCache
    {
      && maskMaterials == s0.masks + p.masks
      && modifiedMaterials == s0.modified + p.modified
      && rendererCalls == s0.calls + p.calls
      && stencilCache.refs == s0.stencilRefs + multiset(p.masks)
      && stencilCache.history == s0.stencilHistory + Additions(p.masks)
      && modifiedCache.refs == s0.modifiedRefs + multiset(p.modified)
      && modifiedCache.history == s0.modifiedHistory + Additions(p.modified)
    }

    /** Serve one more request: the state then holds the pass extended by r. */
    method ServeNext(r: Request, mods: seq<Material -> Material>, ghost p: Pass, ghost s0: Snapshot)
      requires Holds(p, s0)
      modifies this`maskMaterials, this`modifiedMaterials, this`rendererCalls, stencilCache, modifiedCache
      ensures Holds(Extend(p, r, Context(), mods), s0)
    {
      ghost var res := ResolveVariant(r.base, r.texture, Context());
      ConcatAssoc(s0.masks, p.masks, res.masks);
      ConcatAssoc(s0.modified, p.modified, res.modified);
      ConcatAssoc(s0.calls, p.calls, [SetMaterial(Chain(mods, res.material), r.slot)]);
      AdditionsConcat(p.masks, res.masks);
      AdditionsConcat(p.modified, res.modified);
      ConcatAssoc(s0.stencilHistory, Additions(p.masks), Additions(res.masks));
      ConcatAssoc(s0.modifiedHistory, Additions(p.modified), Additions(res.modified));
      BagOfConcat(s0.stencilRefs, p.masks, res.masks);
      BagOfConcat(s0.modifiedRefs, p.modified, res.modified);
      ServeRequest(r, mods);
    }

    /** Serve the request at position j of the plan: the state then holds the pass over the plan up to j + 1. */
    method ServeNextOf(r: Request, mods: seq<Material -> Material>, ghost plan: seq<Request>, j: nat, ghost s0: Snapshot)
      requires j < |plan| && plan[j] == r
      requires Holds(PassOver(plan[..j], Context(), mods), s0)
      modifies this`maskMaterials, this`modifiedMaterials, this`rendererCalls, stencilCache, modifiedCache
      ensures Holds(PassOver(plan[..j + 1], Context(), mods), s0)
    {
      ghost var ctx := Context();
      PassOverPrefix(plan, j, ctx, mods);
      ServeNext(r, mods, PassOver(plan[..j], ctx, mods), s0);
      assert Context() == ctx;
    }

    /** The main stream of system i: serve its request if it makes one. */
    method ServeMain(systems: seq<Option<ParticleSystem>>, flags: seq<bool>, materialCount: nat, i: nat, j: nat,
                     mods: seq<Material -> Material>, ghost plan: seq<Request>, ghost s0: Snapshot) returns (next: nat)
      requires i < |systems| && systems[i].Some? && j < materialCount && 2 * i < |flags|
      requires j <= |plan| && plan[j..] == PlanFrom(systems, flags, materialCount, i, j)
      requires Holds(PassOver(plan[..j], Context(), mods), s0)
      modifies this`maskMaterials, this`modifiedMaterials, this`rendererCalls, stencilCache, modifiedCache
      ensures j <= next <= |plan| && plan[next..] == PlanTrail(systems, flags, materialCount, i, next)
      ensures Holds(PassOver(plan[..next], Context(), mods), s0)
    {
      var ps := systems[i].value;
      PlanMainStep(systems, flags, materialCount, i, j, plan);
      if flags[2 * i] && 0 < |ps.sharedMaterials| {
        var r := Request(j, i, Main, ps.sharedMaterials[0], ps.spriteTexture);
        ServeNextOf(r, mods, plan, j, s0);
        next := j + 1;
      } else {
        next := j;
      }
    }

    /** The trail stream of system i: serve its request if it makes one. */
    method ServeTrail(systems: seq<Option<ParticleSystem>>, flags: seq<bool>, materialCount: nat, i: nat, j: nat,
                      mods: seq<Material -> Material>, ghost plan: seq<Request>, ghost s0: Snapshot) returns (next: nat)
      requires i < |systems| && systems[i].Some? && j < materialCount && 2 * i + 1 < |flags|
      requires j <= |plan| && plan[j..] == PlanTrail(systems, flags, materialCount, i, j)
      requires Holds(PassOver(plan[..j], Context(), mods), s0)
      modifies this`maskMaterials, this`modifiedMaterials, this`rendererCalls, stencilCache, modifiedCache
      ensures j <= next <= |plan| && plan[next..] == PlanFrom(systems, flags, materialCount, i + 1, next)
      ensures Holds(PassOver(plan[..next], Context(), mods), s0)
    {
      var ps := systems[i].value;
      PlanTrailStep(systems, flags, materialCount, i, j, plan);
      if flags[2 * i + 1] && 1 < |ps.sharedMaterials| {
        var r := Request(j, i, Trail, ps.sharedMaterials[1], None);
        ServeNextOf(r, mods, plan, j, s0);
        next := j + 1;
      } else {
        next := j;
      }
    }

    /**
     * One system of the slot loop: nothing for a missing system, else its main stream and then,
     * while flags and slots remain, its trail. `stop` says the loop ends here.
     */
    method ServeSystem(systems: seq<Option<ParticleSystem>>, flags: seq<bool>, materialCount: nat, i: nat, j: nat,
                       mods: seq<Material -> Material>, ghost plan: seq<Request>, ghost s0: Snapshot)
      returns (next: nat, stop: bool)
      requires i < |systems|
      requires j <= |plan| && plan[j..] == PlanFrom(systems, flags, materialCount, i, j)
      requires Holds(PassOver(plan[..j], Context(), mods), s0)
      modifies this`maskMaterials, this`modifiedMaterials, this`rendererCalls, stencilCache, modifiedCache
      ensures j <= next <= |plan| && Holds(PassOver(plan[..next], Context(), mods), s0)
      ensures stop ==> plan[..next] == plan
      ensures !stop ==> plan[next..] == PlanFrom(systems, flags, materialCount, i + 1, next)
    {
      if materialCount <= j || (systems[i].Some? && |flags| <= i * 2) {
        PlanStops(systems, flags, materialCount, i, j, plan);
        return j, true;
      }
      if systems[i].None? {
        PlanSkips(systems, flags, materialCount, i, j, plan);
        return j, false;
      }
      next := ServeMain(systems, flags, materialCount, i, j, mods, plan, s0);
      if |flags| <= i * 2 + 1 || materialCount <= next {
        PlanTrailStops(systems, flags, materialCount, i, next, plan);
        return next, true;
      }
      next := ServeTrail(systems, flags, materialCount, i, next, mods, plan, s0);
      stop := false;
    }

    /** The slot loop of a material pass: walk the systems, fill slots 0, 1, ... below materialCount. */
    method AssignSlots(mods: seq<Material -> Material>, materialCount: nat)
      requires materialCount == Min(MAX_MATERIAL_COUNT, CountTrue(activeMeshIndices))
      modifies this`maskMaterials, this`modifiedMaterials, this`rendererCalls, stencilCache, modifiedCache
      ensures Holds(PassOver(Plan(particles, activeMeshIndices), Context(), mods), old(Snap()))
    {
      var systems := particles;
      var flags := activeMeshIndices;
      ghost var s0 := Snap();
      ghost var plan := Plan(systems, flags);
      var j := 0;
      var i := 0;
      var stop := false;
      while i < |systems| && !stop
        invariant 0 <= i <= |systems| && j <= |plan|
        invariant stop ==> plan[..j] == plan
        invariant !stop ==> plan[j..] == PlanFrom(systems, flags, materialCount, i, j)
        invariant Holds(PassOver(plan[..j], Context(), mods), s0)
      {
        j, stop := ServeSystem(systems, flags, materialCount, i, j, mods, plan, s0);
        i := i + 1;
      }
      if !stop {
        PlanStops(systems, flags, materialCount, i, j, plan);
      }
    }

    /** The middle of a material pass: clear the renderer when idle, else size it and assign the slots. */
    method AcquireMaterials(host: Host)
      modifies this`maskMaterials, this`modifiedMaterials, this`rendererCalls, stencilCache, modifiedCache
      ensures var acq := Acquisition(host);
        && maskMaterials == old(maskMaterials) + acq.masks
        && modifiedMaterials == old(modifiedMaterials) + acq.modified
        && rendererCalls == old(rendererCalls) + acq.calls
        && stencilCache.refs == old(stencilCache.refs) + multiset(acq.masks)
        && stencilCache.history == old(stencilCache.history) + Additions(acq.masks)
        && modifiedCache.refs == old(modifiedCache.refs) + multiset(acq.modified)
        && modifiedCache.history == old(modifiedCache.history) + Additions(acq.modified)
    {
      var count := CountTrue(activeMeshIndices);
      if count == 0 || !host.isActiveAndEnabled || |particles| == 0 {
        rendererCalls := rendererCalls + [ClearRenderer];
        BagPlusNothing(stencilCache.refs, []);
        BagPlusNothing(modifiedCache.refs, []);
        return;
      }
      var materialCount := Min(MAX_MATERIAL_COUNT, count);
      rendererCalls := rendererCalls + [SetMaterialCount(materialCount)];
      AssignSlots(host.modifiers, materialCount);
      ConcatAssoc(old(rendererCalls), [SetMaterialCount(materialCount)], Acquisition(host).calls[1..]);
    }

    /** The stencil value is recomputed only when asked for: the stencil depth when maskable, else 0. */
    method RecalculateStencil(host: Host)
      modifies this`stencilValue, this`shouldRecalculateStencil
      ensures stencilValue == (if old(shouldRecalculateStencil) then (if maskable then host.stencilDepth else 0) else old(stencilValue))
      ensures !shouldRecalculateStencil
    {
      if shouldRecalculateStencil {
        stencilValue := if maskable then host.stencilDepth else 0;
        shouldRecalculateStencil := false;
      }
    }

    /**
     * UpdateMaterial: give back what is held, recompute the stencil value if asked to, and
     * either clear the renderer or assign the slots; finally release what was given back.
     */
    method UpdateMaterial(host: Host)
      modifies this, previous, stencilCache, modifiedCache
      ensures activeMeshIndices == old(activeMeshIndices)
      ensures MaterialsRebuilt(host)
    {
      GiveBackHeld();
      RecalculateStencil(host);
      AcquireThenRelease(host);
    }

    /** The second half of a material pass, once nothing is held: acquire, then release what waits. */
    method AcquireThenRelease(host: Host)
      requires maskMaterials == [] && modifiedMaterials == []
      modifies this`maskMaterials, this`modifiedMaterials, this`rendererCalls, previous, stencilCache, modifiedCache
      ensures var acq := Acquisition(host);
        && previous.mask == [] && previous.modified == []
        && maskMaterials == acq.masks && modifiedMaterials == acq.modified
        && rendererCalls == old(rendererCalls) + acq.calls
        && stencilCache.refs == old(stencilCache.refs) + multiset(acq.masks) - multiset(old(previous.mask))
        && stencilCache.history == old(stencilCache.history) + Additions(acq.masks) + Removals(old(previous.mask))
        && modifiedCache.refs == old(modifiedCache.refs) + multiset(acq.modified) - multiset(old(previous.modified))
        && modifiedCache.history == old(modifiedCache.history) + Additions(acq.modified) + Removals(old(previous.modified))
    {
      AcquireMaterials(host);
      ClearPreviousMaterials();
    }

    /** A material pass started from a valid state keeps the state valid. */
    twostate lemma MaterialsRebuiltKeepsValid(host: Host)
      requires old(Valid()) && MaterialsRebuilt(host)
      ensures Valid()
    {
      assert old(previous.mask) + old(maskMaterials) == old(maskMaterials);
      assert old(previous.modified) + old(modifiedMaterials) == old(modifiedMaterials);
      KeepsAdded(old(stencilCache.refs), multiset(maskMaterials), multiset(old(maskMaterials)));
      KeepsAdded(old(modifiedCache.refs), multiset(modifiedMaterials), multiset(old(modifiedMaterials)));
    }

    /** The activeMeshIndices setter: nothing when the flags are equal, else replace them and run a material pass. */
    method SetActiveMeshIndices(value: seq<bool>, host: Host)
      requires Valid()
      modifies this, previous, stencilCache, modifiedCache
      ensures Valid()
      ensures old(activeMeshIndices) == value ==> unchanged(this, previous, stencilCache, modifiedCache)
      ensures old(activeMeshIndices) != value ==> activeMeshIndices == value && MaterialsRebuilt(host)
    {
      if activeMeshIndices == value {
        return;
      }
      activeMeshIndices := value;
      UpdateMaterial(host);
      MaterialsRebuiltKeepsValid(host);
    }

    /** OnEnable: clear the flags, register with the updater, rent a mesh. */
    method OnEnable(rented: MeshHandle)
      requires Valid() && !registered
      modifies this`activeMeshIndices, this`registered, this`bakedMesh
      ensures Valid()
      ensures activeMeshIndices == [] && registered && bakedMesh == Some(rented)
    {
      activeMeshIndices := [];
      registered := true;
      bakedMesh := Some(rented);
    }

    /** A disabled element that holds nothing, with nothing waiting, is valid. */
    lemma DisabledIsValid()
      requires !registered && bakedMesh.None? && maskMaterials == [] && modifiedMaterials == []
      requires previous.mask == [] && previous.modified == []
      ensures Valid()
    {
    }

    /** OnDisable: unregister, hand the mesh back to the pool, release every held variant. */
    method OnDisable() returns (returned: Option<MeshHandle>)
      requires Valid() && registered
      modifies this`registered, this`bakedMesh, this`maskMaterials, this`modifiedMaterials, this`rendererCalls
      modifies previous, stencilCache, modifiedCache
      ensures Valid()
      ensures !registered && bakedMesh.None? && returned == old(bakedMesh)
      ensures maskMaterials == [] && modifiedMaterials == []
      ensures rendererCalls == old(rendererCalls) + [ClearRenderer]
      ensures stencilCache.refs == old(stencilCache.refs) - multiset(old(maskMaterials))
      ensures stencilCache.history == old(stencilCache.history) + Removals(old(maskMaterials))
      ensures modifiedCache.refs == old(modifiedCache.refs) - multiset(old(modifiedMaterials))
      ensures modifiedCache.history == old(modifiedCache.history) + Removals(old(modifiedMaterials))
    {
      registered := false;
      returned := bakedMesh;
      bakedMesh := None;
      assert previous.mask + maskMaterials == maskMaterials && previous.modified + modifiedMaterials == modifiedMaterials;
      ClearMaterials();
      DisabledIsValid();
    }
  }
}
