/**
 * Materials and the two shared variant caches the element acquires from.
 *
 * StencilMaterial and ModifiedMaterial are process-wide caches of derived materials:
 * `Add` hands out a variant of a base material and takes one reference to it, and
 * `Remove` gives one reference back. Their implementation is not part of this
 * model; each cache is described by the bag of references it holds and the
 * history of calls made on it, both ghost. A variant is identified by what it
 * was derived from, so equal arguments give equal variants.
 */
module Materials {
  import opened Common

  /** A texture asset (Texture2D). */
  datatype Texture = Texture(id: nat)

  /** UnityEngine.Rendering.StencilOp, as far as the element uses it. */
  datatype StencilOp = Keep

  /** UnityEngine.Rendering.CompareFunction, as far as the element uses it. */
  datatype CompareFunction = Equal

  /** UnityEngine.Rendering.ColorWriteMask, as far as the element uses it. */
  datatype ColorWriteMask = All

  /** A material: an asset, or a variant derived from another material. */
  datatype Material =
    | BaseMaterial(id: nat)
    | StencilVariant(base: Material, stencilId: int, operation: StencilOp, compare: CompareFunction,
                     colorWriteMask: ColorWriteMask, readMask: int, writeMask: int)
    | TextureVariant(base: Material, texture: Option<Texture>, propertyId: int)

  /** One call on a cache. */
  datatype CacheOp = Added(material: Material) | Removed(material: Material)

  /** The history entries of adding the materials of s, in order. */
  function Additions(s: seq<Material>): (r: seq<CacheOp>)
    ensures |r| == |s|
    ensures forall k :: 0 <= k < |s| ==> r[k] == Added(s[k])
  {
    if s == [] then [] else Additions(s[..|s| - 1]) + [Added(s[|s| - 1])]
  }

  /** The history entries of removing the materials of s, in order. */
  function Removals(s: seq<Material>): (r: seq<CacheOp>)
    ensures |r| == |s|
    ensures forall k :: 0 <= k < |s| ==> r[k] == Removed(s[k])
  {
    if s == [] then [] else Removals(s[..|s| - 1]) + [Removed(s[|s| - 1])]
  }

  lemma AdditionsConcat(a: seq<Material>, b: seq<Material>)
    ensures Additions(a + b) == Additions(a) + Additions(b)
  {
    assert forall k :: 0 <= k < |a + b| ==> (a + b)[k] == if k < |a| then a[k] else b[k - |a|];
  }

  /** The number of times m is released in a history. */
  function ReleaseCount(h: seq<CacheOp>, m: Material): (n: nat)
    ensures n <= |h|
  {
    if h == [] then 0 else ReleaseCount(h[..|h| - 1], m) + (if h[|h| - 1] == Removed(m) then 1 else 0)
  }

  lemma {:induction false} ReleaseCountAppend(a: seq<CacheOp>, b: seq<CacheOp>, m: Material)
    ensures ReleaseCount(a + b, m) == ReleaseCount(a, m) + ReleaseCount(b, m)
    decreases |b|
  {
    if b == [] {
      assert a + b == a;
    } else {
      assert (a + b)[..|a + b| - 1] == a + b[..|b| - 1];
      ReleaseCountAppend(a, b[..|b| - 1], m);
    }
  }

  /** Releasing a list releases each material as many times as it occurs in the list; additions release nothing. */
  lemma {:induction false} ReleaseCountOfRemovals(s: seq<Material>, m: Material)
    ensures ReleaseCount(Removals(s), m) == multiset(s)[m]
    ensures ReleaseCount(Additions(s), m) == 0
  {
    if s != [] {
      var init := s[..|s| - 1];
      ReleaseCountOfRemovals(init, m);
      assert s == init + [s[|s| - 1]];
      assert Removals(s)[..|s| - 1] == Removals(init);
      assert Additions(s)[..|s| - 1] == Additions(init);
    }
  }

  /**
   * A pass that acquires `added` and then releases `released` releases each material exactly
   * as often as it occurs in `released`, whatever was acquired.
   */
  lemma ReleasedExactlyOnce(added: seq<Material>, released: seq<Material>, m: Material)
    ensures ReleaseCount(Additions(added) + Removals(released), m) == multiset(released)[m]
  {
    ReleaseCountAppend(Additions(added), Removals(released), m);
    ReleaseCountOfRemovals(added, m);
    ReleaseCountOfRemovals(released, m);
  }

  /**
   * The stencil mask for a stencil depth: C#'s `(1 << depth) - 1` on 32-bit ints. The shift
   * count is taken modulo 32 and the subtraction wraps, so depth 32 gives 0 and depth 31
   * gives int.MaxValue.
   */
  function StencilMask(depth: int): (r: int)
    ensures -0x8000_0000 <= r <= 0x7FFF_FFFF
    ensures 0 < depth < 31 ==> r == Pow2(depth) - 1 && r > 0
    ensures 0 < depth % 32 < 31 ==> r == Pow2(depth % 32) - 1
    ensures depth % 32 == 0 ==> r == 0
    ensures depth % 32 == 31 ==> r == 0x7FFF_FFFF
  {
    var k := depth % 32;
    Pow2Below31(k);
    Pow2Exact31();
    var shifted := Pow2(k);
    var wrapped := if shifted >= 0x8000_0000 then shifted - 0x1_0000_0000 else shifted;
    if wrapped == -0x8000_0000 then 0x7FFF_FFFF else wrapped - 1
  }

  function Pow2(n: nat): (r: nat)
    ensures r >= 1
    ensures n > 0 ==> r >= 2
  {
    if n == 0 then 1 else 2 * Pow2(n - 1)
  }

  lemma Pow2Below31(n: nat)
    requires n <= 31
    ensures Pow2(n) <= 0x8000_0000
    ensures n < 31 ==> Pow2(n) < 0x8000_0000
  {
    Pow2Exact31();
    if n < 31 {
      Pow2Monotonic(n, 30);
    } else {
      assert n == 31;
    }
  }

  lemma {:induction false} Pow2Monotonic(a: nat, b: nat)
    requires a <= b
    ensures Pow2(a) <= Pow2(b)
    decreases b - a
  {
    if a < b {
      Pow2Monotonic(a, b - 1);
    }
  }

  lemma Pow2Exact31()
    ensures Pow2(31) == 0x8000_0000
  {
    assert Pow2(8) == 256;
    assert Pow2(16) == 256 * Pow2(8) by { Pow2Add(8, 8); }
    assert Pow2(24) == 256 * Pow2(16) by { Pow2Add(8, 16); }
    assert Pow2(31) == 128 * Pow2(24) by { Pow2Add(7, 24); }
  }

  lemma {:induction false} Pow2Add(a: nat, b: nat)
    ensures Pow2(a + b) == Pow2(a) * Pow2(b)
  {
    if a > 0 {
      Pow2Add(a - 1, b);
      assert Pow2(a + b) == 2 * Pow2(a - 1 + b);
      assert Pow2(a) == 2 * Pow2(a - 1);
    }
  }

  /** StencilMaterial: hands out stencil variants and counts references to them. */
  class StencilMaterialCache {
    ghost var refs: multiset<Material>
    ghost var history: seq<CacheOp>

    constructor ()
      ensures refs == multiset{} && history == []
    {
      refs := multiset{};
      history := [];
    }

    /** StencilMaterial.Add: the variant of base for these stencil settings; one more reference to it. */
    method Add(base: Material, stencilId: int, operation: StencilOp, compare: CompareFunction,
               colorWriteMask: ColorWriteMask, readMask: int, writeMask: int) returns (v: Material)
      modifies this
      ensures v == StencilVariant(base, stencilId, operation, compare, colorWriteMask, readMask, writeMask)
      ensures refs == old(refs) + multiset{v}
      ensures history == old(history) + [Added(v)]
    {
      v := StencilVariant(base, stencilId, operation, compare, colorWriteMask, readMask, writeMask);
      refs := refs + multiset{v};
      history := history + [Added(v)];
    }

    /** StencilMaterial.Remove: give one reference back. */
    method Remove(m: Material)
      modifies this
      ensures refs == old(refs) - multiset{m}
      ensures history == old(history) + [Removed(m)]
    {
      refs := refs - multiset{m};
      history := history + [Removed(m)];
    }
  }

  /** ModifiedMaterial: hands out texture/property variants and counts references to them. */
  class ModifiedMaterialCache {
    ghost var refs: multiset<Material>
    ghost var history: seq<CacheOp>

    constructor ()
      ensures refs == multiset{} && history == []
    {
      refs := multiset{};
      history := [];
    }

    /** ModifiedMaterial.Add: the variant of base with this texture and property id; one more reference to it. */
    method Add(base: Material, texture: Option<Texture>, propertyId: int) returns (v: Material)
      modifies this
      ensures v == TextureVariant(base, texture, propertyId)
      ensures refs == old(refs) + multiset{v}
      ensures history == old(history) + [Added(v)]
    {
      v := TextureVariant(base, texture, propertyId);
      refs := refs + multiset{v};
      history := history + [Added(v)];
    }

    /** ModifiedMaterial.Remove: give one reference back. */
    method Remove(m: Material)
      modifies this
      ensures refs == old(refs) - multiset{m}
      ensures history == old(history) + [Removed(m)]
    {
      refs := refs - multiset{m};
      history := history + [Removed(m)];
    }
  }
}
