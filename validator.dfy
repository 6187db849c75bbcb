/**
 * The editor self-validator of the element (ISelfValidator.Validate) and its cone-shape test.
 *
 * The validator reads a GameObject's configuration and appends one error message per failing
 * check, in a fixed order. Here the configuration is an abstract record, a message is an
 * `Issue` naming the failed check, and a result also says whether the checks ran to the end:
 * with no ParticleSystem component the code throws when it reads `particles[0]`, and with no
 * renderer it throws when it reads `pr.enabled`, keeping the messages added so far.
 */
module Validator {
  import opened Common

  /** A Vector3 as read from the engine; C# floats are taken as reals. */
  datatype Vec3 = Vec3(x: real, y: real, z: real)

  /** ParticleSystemRenderMode; `Hidden` is the engine's `None`. */
  datatype RenderMode = Billboard | Stretch | HorizontalBillboard | VerticalBillboard | Mesh | Hidden

  /** ParticleSystemShapeType, as far as the validator tells shapes apart. */
  datatype ShapeType = Cone | OtherShape

  /** ParticleSystemAnimationMode of the texture sheet animation module. */
  datatype AnimationMode = Grid | Sprites

  /** The ParticleSystemRenderer, when there is one. */
  datatype RendererState = RendererState(
    enabled: bool,
    hasSharedMaterial: bool,
    renderMode: RenderMode,
    hasMesh: bool,
    hasTrailMaterial: bool)

  /** What the validator reads from the element and its GameObject. */
  datatype Config = Config(
    raycastTarget: bool,
    systemCount: nat,              // ParticleSystem components on the GameObject
    firstIsSource: bool,           // the first of them is the element's Source
    scaleZNearlyZero: bool,        // Mathf.Approximately(transform.lossyScale.z, 0)
    renderer: Option<RendererState>,
    rotation: Vec3,                // transform.rotation.eulerAngles; the engine gives each in [0, 360), which only HeadingAngles and ConeAcceptedIffPattern rely on
    shapeType: ShapeType,
    shapeRotation: Vec3,
    shapeScale: Vec3,
    sheetMode: AnimationMode,
    uvChannelMask: int,
    trailsEnabled: bool)

  /** The three vectors the cone-shape message prints. */
  datatype ConeDetail = ConeDetail(rotation: Vec3, shapeRotation: Vec3, shapeScale: Vec3)

  /** One error message, by the check that failed. */
  datatype Issue =
    | RaycastTargetOn
    | MultipleSystems
    | NotSource
    | ZeroScaleZ
    | RendererMissing
    | RendererEnabled
    | SharedMaterialMissing
    | MeshMissing
    | RenderModeNone
    | ConeShapeInvalid(detail: ConeDetail)
    | UvChannelUnset
    | TrailMaterialMissing

  /** The messages added, and whether the validator got past its last check without throwing. */
  datatype Validation = Validation(errors: seq<Issue>, completed: bool)

  // ---------------------------------------------------------------------------
  // Cone shape

  /** The outcome of IsValidConeShape: accepted, or rejected with the detail it prints. */
  datatype ConeCheck = Accepted | Rejected(detail: ConeDetail)

  /** C#'s float `x % 180f`: the remainder of truncated division, with the sign of x. */
  function Rem180(x: real): (r: real)
    ensures 0.0 <= x ==> 0.0 <= r < 180.0
    ensures x < 0.0 ==> -180.0 < r <= 0.0
    ensures -180.0 < x < 180.0 ==> r == x
    // x and r differ by a whole multiple of 180.
    ensures ((x - r) / 180.0).Floor as real == (x - r) / 180.0
  {
    if 0.0 <= x then
      var q := (x / 180.0).Floor;
      assert (x - (x - 180.0 * q as real)) / 180.0 == q as real;
      x - 180.0 * q as real
    else
      var q := ((-x) / 180.0).Floor;
      assert (x - -((-x) - 180.0 * q as real)) / 180.0 == -q as real;
      assert (-q as real).Floor == -q;
      -((-x) - 180.0 * q as real)
  }

  /** Unity's Vector3 `==`: the squared distance is below the square of 1e-5. */
  predicate NearlyEqual(a: Vec3, b: Vec3)
  {
    var dx := a.x - b.x;
    var dy := a.y - b.y;
    var dz := a.z - b.z;
    dx * dx + dy * dy + dz * dz < 0.00001 * 0.00001
  }

  /** Pattern 1: heading straight up or down, shape rotation x = z = 0, shape scale (1, 0, 1). */
  predicate Heading(rot: Vec3, sr: Vec3, ss: Vec3)
  {
    && (Rem180(rot.x) == 90.0 || Rem180(rot.x) == -90.0) && rot.y == 0.0 && rot.z == 0.0
    && sr.x == 0.0 && sr.z == 0.0
    && NearlyEqual(ss, Vec3(1.0, 0.0, 1.0))
  }

  /** Pattern 2: no rotation, shape rotated 90 degrees about y with z = 0, shape scale x = 0. */
  predicate AroundZ(rot: Vec3, sr: Vec3, ss: Vec3)
  {
    && NearlyEqual(rot, Vec3(0.0, 0.0, 0.0))
    && sr.y == 90.0 && sr.z == 0.0
    && ss.x == 0.0
  }

  /** IsValidConeShape: try pattern 1, then pattern 2; otherwise reject with the three vectors. */
  function IsValidConeShape(rot: Vec3, sr: Vec3, ss: Vec3): (r: ConeCheck)
    ensures r.Rejected? ==> r.detail == ConeDetail(rot, sr, ss)
  {
    if Heading(rot, sr, ss) then Accepted
    else if AroundZ(rot, sr, ss) then Accepted
    else Rejected(ConeDetail(rot, sr, ss))
  }

  /**
   * For an Euler angle rot.x in [0, 360), as the engine reports it, a cone shape is accepted
   * exactly when it heads straight up or down (rot.x is 90 or 270, no y or z rotation, shape
   * rotation x = z = 0, shape scale (1, 0, 1)) or has no rotation, shape rotation y = 90 and
   * z = 0, and shape scale x = 0. A rejection carries the inputs.
   */
  lemma ConeAcceptedIffPattern(rot: Vec3, sr: Vec3, ss: Vec3)
    ensures 0.0 <= rot.x < 360.0 ==>
      (IsValidConeShape(rot, sr, ss) == Accepted <==>
        || ((rot.x == 90.0 || rot.x == 270.0) && rot.y == 0.0 && rot.z == 0.0
            && sr.x == 0.0 && sr.z == 0.0 && NearlyEqual(ss, Vec3(1.0, 0.0, 1.0)))
        || (NearlyEqual(rot, Vec3(0.0, 0.0, 0.0)) && sr.y == 90.0 && sr.z == 0.0 && ss.x == 0.0))
    ensures IsValidConeShape(rot, sr, ss) != Accepted ==> IsValidConeShape(rot, sr, ss) == Rejected(ConeDetail(rot, sr, ss))
  {
    if 0.0 <= rot.x < 360.0 {
      HeadingAngles(rot.x);
    }
  }

  /** A component whose square is below 1e-10 lies strictly between -1 and 1. */
  lemma SmallSquare(a: real)
    requires a * a < 0.00001 * 0.00001
    ensures -1.0 < a < 1.0
  {
  }

  /** The two patterns never both hold: a rotation near zero is not heading up or down. */
  lemma PatternsExclusive(rot: Vec3, sr: Vec3, ss: Vec3)
    ensures !(Heading(rot, sr, ss) && AroundZ(rot, sr, ss))
  {
    if AroundZ(rot, sr, ss) {
      var dx, dy, dz := rot.x - 0.0, rot.y - 0.0, rot.z - 0.0;
      assert dx * dx + dy * dy + dz * dz < 0.00001 * 0.00001;
      assert dy * dy >= 0.0 && dz * dz >= 0.0;
      assert dx * dx < 0.00001 * 0.00001;
      SmallSquare(dx);
      assert Rem180(rot.x) == rot.x;
    }
  }

  /** For an Euler angle in [0, 360), pattern 1's heading test holds exactly at 90 and 270 degrees. */
  lemma HeadingAngles(x: real)
    requires 0.0 <= x < 360.0
    ensures Rem180(x) == 90.0 || Rem180(x) == -90.0 <==> x == 90.0 || x == 270.0
  {
    var q := (x / 180.0).Floor;
    assert 0 <= q <= 1;
    if q == 0 {
      assert Rem180(x) == x;
    } else {
      assert Rem180(x) == x - 180.0;
    }
  }

  // ---------------------------------------------------------------------------
  // Validate

  /** One AddError call: the message when the check fails, nothing otherwise. */
  function Report(fails: bool, i: Issue): (r: seq<Issue>)
    ensures |r| == (if fails then 1 else 0) && (fails ==> r[0] == i)
  {
    if fails then [i] else []
  }

  /** The shape module check fails: the shape is a cone and IsValidConeShape rejects it. */
  predicate ConeFails(c: Config)
  {
    c.shapeType == Cone && IsValidConeShape(c.rotation, c.shapeRotation, c.shapeScale).Rejected?
  }

  /** The cone message, with the detail a rejecting IsValidConeShape hands back. */
  function ConeIssue(c: Config): Issue
  {
    ConeShapeInvalid(ConeDetail(c.rotation, c.shapeRotation, c.shapeScale))
  }

  /** ISelfValidator.Validate, check by check as the code runs them. */
  function Validate(c: Config): Validation
  {
    var head := Report(c.raycastTarget, RaycastTargetOn) + Report(c.systemCount > 1, MultipleSystems);
    if c.systemCount == 0 then
      Validation(head, false)
    else
      var upToRenderer := head
        + Report(!c.firstIsSource, NotSource)
        + Report(c.scaleZNearlyZero, ZeroScaleZ)
        + Report(c.renderer.None?, RendererMissing);
      if c.renderer.None? then
        Validation(upToRenderer, false)
      else
        var pr := c.renderer.value;
        var errors := upToRenderer
          + Report(pr.enabled, RendererEnabled)
          + Report(!pr.hasSharedMaterial, SharedMaterialMissing)
          + Report(pr.renderMode == Mesh && !pr.hasMesh, MeshMissing)
          + Report(pr.renderMode == Hidden, RenderModeNone)
          + Report(ConeFails(c), ConeIssue(c))
          + Report(c.sheetMode == Sprites && c.uvChannelMask == 0, UvChannelUnset)
          + Report(c.trailsEnabled && !pr.hasTrailMaterial, TrailMaterialMissing);
        Validation(errors, true)
  }

  // ---------------------------------------------------------------------------
  // The checks as a table

  /** The number of checks. */
  const CHECKS: nat := 12

  /** The position of an issue's check in the order the validator runs them. */
  function Rank(i: Issue): (k: nat)
    ensures k < CHECKS
  {
    match i
    case RaycastTargetOn => 0
    case MultipleSystems => 1
    case NotSource => 2
    case ZeroScaleZ => 3
    case RendererMissing => 4
    case RendererEnabled => 5
    case SharedMaterialMissing => 6
    case MeshMissing => 7
    case RenderModeNone => 8
    case ConeShapeInvalid(_) => 9
    case UvChannelUnset => 10
    case TrailMaterialMissing => 11
  }

  /**
   * Whether check k fails, on its own. The renderer checks read the renderer, so they do not
   * fail when there is none (the code never gets to them then).
   */
  function Fails(c: Config, k: nat): bool
    requires k < CHECKS
  {
    if k == 0 then c.raycastTarget
    else if k == 1 then c.systemCount > 1
    else if k == 2 then !c.firstIsSource
    else if k == 3 then c.scaleZNearlyZero
    else if k == 4 then c.renderer.None?
    else if c.renderer.None? then false
    else
      var pr := c.renderer.value;
      if k == 5 then pr.enabled
      else if k == 6 then !pr.hasSharedMaterial
      else if k == 7 then pr.renderMode == Mesh && !pr.hasMesh
      else if k == 8 then pr.renderMode == Hidden
      else if k == 9 then ConeFails(c)
      else if k == 10 then c.sheetMode == Sprites && c.uvChannelMask == 0
      else c.trailsEnabled && !pr.hasTrailMaterial
  }

  /** The message check k adds when it fails. */
  function IssueAt(c: Config, k: nat): (i: Issue)
    requires k < CHECKS
    ensures Rank(i) == k
  {
    if k == 0 then RaycastTargetOn
    else if k == 1 then MultipleSystems
    else if k == 2 then NotSource
    else if k == 3 then ZeroScaleZ
    else if k == 4 then RendererMissing
    else if k == 5 then RendererEnabled
    else if k == 6 then SharedMaterialMissing
    else if k == 7 then MeshMissing
    else if k == 8 then RenderModeNone
    else if k == 9 then ConeIssue(c)
    else if k == 10 then UvChannelUnset
    else TrailMaterialMissing
  }

  /** How many checks run before the validator finishes or throws. */
  function Reached(c: Config): (n: nat)
    ensures n <= CHECKS
  {
    if c.systemCount == 0 then 2 else if c.renderer.None? then 5 else CHECKS
  }

  /** The messages of the first n checks, in check order. */
  function Collect(c: Config, n: nat): seq<Issue>
    requires n <= CHECKS
  {
    if n == 0 then [] else Collect(c, n - 1) + Report(Fails(c, n - 1), IssueAt(c, n - 1))
  }

  lemma CollectTwo(c: Config)
    ensures Collect(c, 2) == Report(c.raycastTarget, RaycastTargetOn) + Report(c.systemCount > 1, MultipleSystems)
  {
    assert Collect(c, 1) == [] + Report(c.raycastTarget, RaycastTargetOn);
  }

  lemma CollectFive(c: Config)
    ensures Collect(c, 5) == Collect(c, 2)
      + Report(!c.firstIsSource, NotSource) + Report(c.scaleZNearlyZero, ZeroScaleZ)
      + Report(c.renderer.None?, RendererMissing)
  {
    assert Collect(c, 3) == Collect(c, 2) + Report(!c.firstIsSource, NotSource);
    assert Collect(c, 4) == Collect(c, 3) + Report(c.scaleZNearlyZero, ZeroScaleZ);
  }

  lemma CollectNine(c: Config)
    requires c.renderer.Some?
    ensures var pr := c.renderer.value;
      Collect(c, 9) == Collect(c, 5)
        + Report(pr.enabled, RendererEnabled)
        + Report(!pr.hasSharedMaterial, SharedMaterialMissing)
        + Report(pr.renderMode == Mesh && !pr.hasMesh, MeshMissing)
        + Report(pr.renderMode == Hidden, RenderModeNone)
  {
    var pr := c.renderer.value;
    assert Collect(c, 6) == Collect(c, 5) + Report(pr.enabled, RendererEnabled);
    assert Collect(c, 7) == Collect(c, 6) + Report(!pr.hasSharedMaterial, SharedMaterialMissing);
  }

  lemma CollectAll(c: Config)
    requires c.renderer.Some?
    ensures var pr := c.renderer.value;
      Collect(c, CHECKS) == Collect(c, 9)
        + Report(ConeFails(c), ConeIssue(c))
        + Report(c.sheetMode == Sprites && c.uvChannelMask == 0, UvChannelUnset)
        + Report(c.trailsEnabled && !pr.hasTrailMaterial, TrailMaterialMissing)
  {
    assert Collect(c, 10) == Collect(c, 9) + Report(ConeFails(c), ConeIssue(c));
  }

  /**
   * The validator adds exactly the messages of the checks it reaches, in check order, and
   * completes exactly when it reaches them all.
   */
  lemma ValidateFollowsTable(c: Config)
    ensures Validate(c).errors == Collect(c, Reached(c))
    ensures Validate(c).completed <==> Reached(c) == CHECKS
  {
    CollectTwo(c);
    if c.systemCount > 0 {
      CollectFive(c);
      if c.renderer.Some? {
        CollectNine(c);
        CollectAll(c);
      }
    }
  }

  /** The validator throws exactly when there is no ParticleSystem component or no renderer. */
  lemma ValidateCompletes(c: Config)
    ensures Validate(c).completed <==> c.systemCount >= 1 && c.renderer.Some?
  {
  }

  /** The messages of the first n checks come in strictly increasing check order, each from a check before n. */
  lemma {:induction false} CollectOrdered(c: Config, n: nat)
    requires n <= CHECKS
    ensures forall k :: 0 <= k < |Collect(c, n)| ==> Rank(Collect(c, n)[k]) < n
    ensures forall a, b :: 0 <= a < b < |Collect(c, n)| ==> Rank(Collect(c, n)[a]) < Rank(Collect(c, n)[b])
  {
    if n > 0 {
      CollectOrdered(c, n - 1);
      var prev := Collect(c, n - 1);
      var s := Collect(c, n);
      forall k | 0 <= k < |s|
        ensures Rank(s[k]) < n
      {
        if k < |prev| {
          assert s[k] == prev[k];
        }
      }
      forall a, b | 0 <= a < b < |s|
        ensures Rank(s[a]) < Rank(s[b])
      {
        if b < |prev| {
          assert s[a] == prev[a] && s[b] == prev[b];
        } else {
          assert s[a] == prev[a];
        }
      }
    }
  }

  /** A message is among the first n checks' messages exactly when its own check is among them and fails with it. */
  lemma {:induction false} CollectHas(c: Config, n: nat, i: Issue)
    requires n <= CHECKS
    ensures i in Collect(c, n) <==> Rank(i) < n && Fails(c, Rank(i)) && IssueAt(c, Rank(i)) == i
  {
    if n > 0 {
      CollectHas(c, n - 1, i);
      var prev := Collect(c, n - 1);
      var m := Report(Fails(c, n - 1), IssueAt(c, n - 1));
      assert Collect(c, n) == prev + m;
      assert i in m <==> Fails(c, n - 1) && IssueAt(c, n - 1) == i;
      assert i in Collect(c, n) <==> i in prev || i in m;
    }
  }

  /**
   * Every failing check the validator reaches adds its message, once, and no other message is
   * added; messages come in check order.
   */
  lemma ValidateReports(c: Config, i: Issue)
    ensures i in Validate(c).errors <==> Rank(i) < Reached(c) && Fails(c, Rank(i)) && IssueAt(c, Rank(i)) == i
    ensures forall a, b :: 0 <= a < b < |Validate(c).errors| ==>
      Rank(Validate(c).errors[a]) < Rank(Validate(c).errors[b])
  {
    ValidateFollowsTable(c);
    CollectHas(c, Reached(c), i);
    CollectOrdered(c, Reached(c));
  }

  /** A cone message appears exactly for a completed run on a cone shape that IsValidConeShape rejects, with its detail. */
  lemma ConeReported(c: Config, d: ConeDetail)
    ensures ConeShapeInvalid(d) in Validate(c).errors <==>
      && Validate(c).completed && c.shapeType == Cone
      && IsValidConeShape(c.rotation, c.shapeRotation, c.shapeScale) == Rejected(d)
  {
    ValidateReports(c, ConeShapeInvalid(d));
  }

  /** A missing trail material is reported only for a completed run with trails enabled. */
  lemma TrailReported(c: Config)
    ensures TrailMaterialMissing in Validate(c).errors <==>
      Validate(c).completed && c.trailsEnabled && !c.renderer.value.hasTrailMaterial
  {
    ValidateReports(c, TrailMaterialMissing);
  }

  /** With no ParticleSystem component, only the raycast message can be added before the throw. */
  lemma NoSystemStopsEarly(c: Config)
    requires c.systemCount == 0
    ensures Validate(c) == Validation(if c.raycastTarget then [RaycastTargetOn] else [], false)
  {
  }
}
