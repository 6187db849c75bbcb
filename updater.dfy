/**
 * The frame scheduler and mesh baker of UIParticleUpdater.
 *
 * A process-wide registry holds the enabled particle elements. It subscribes its
 * refresh hook to the host's "canvases will render" signal while the registry is
 * non-empty. Once per frame index the hook bakes every registered element into a
 * scratch mesh and pushes that mesh to the element's canvas renderer, isolating a
 * fault in one element from the others. The baker decides, from what the particle
 * engine reports, how many material sub-streams the element gets (0, 1 or 2) and
 * which transform each baked sub-mesh is combined with.
 *
 * The engine is not simulated: what it reports about an element in one frame is a
 * `FrameInput`, baked geometry is the symbolic `Geometry.Baked`, and matrices are the
 * symbolic expressions of module Matrices.
 */
module Updater {
  import opened Common
  import opened Matrices

  /** ParticleSystem.main.simulationSpace. */
  datatype SimulationSpace = Local | World | Custom

  type CameraId = nat

  /** What the baker reads from the element's ParticleSystem (its Source). */
  datatype ParticleSource = ParticleSource(
    transform: TransformId,                        // ps.transform
    simulationSpace: SimulationSpace,              // ps.main.simulationSpace
    customSimulationSpace: Option<TransformId>,    // ps.main.customSimulationSpace, None when it tests false
    trailsEnabled: bool,                           // ps.trails.enabled
    trailsWorldSpace: bool)                        // ps.trails.worldSpace

  /** What the engine reports about one element during one refresh. */
  datatype FrameInput = FrameInput(
    source: ParticleSource,
    sourceMissing: bool,               // the element has no Source, so ps.IsAlive() throws
    canvasMissing: bool,               // the element has no canvas, so canvas.worldCamera throws
    elementTransform: TransformId,     // the UIParticle's own transform
    isAlive: bool,                     // ps.IsAlive()
    particleCount: nat,                // ps.particleCount
    alphaApproximatelyZero: bool,      // Mathf.Approximately(canvasRenderer.GetInheritedAlpha(), 0)
    worldCamera: Option<CameraId>,     // canvas.worldCamera
    editorCamera: Option<CameraId>,    // Camera.current while the element is being edited, else None
    mainBakeThrows: bool,              // SourceRenderer.BakeMesh throws
    trailBakeThrows: bool,             // SourceRenderer.BakeTrailsMesh throws
    setMeshThrows: bool)               // canvasRenderer.SetMesh throws

  /** The content of a scratch sub-mesh: cleared, or baked by the engine for one element and stream. */
  datatype Geometry = Cleared | Baked(owner: BakeTarget, stream: SubStream, camera: CameraId)

  /** One entry of the two-entry combine buffer; None fields are those of a default struct. */
  datatype CombineInstance = CombineInstance(mesh: Option<Geometry>, transform: Option<Matrix>)

  datatype SubMesh = SubMesh(geometry: Geometry, transform: Matrix)

  /** A mesh as the renderer receives it: its sub-meshes and whether its bounds were recomputed. */
  datatype MeshValue = MeshValue(subMeshes: seq<SubMesh>, boundsRecalculated: bool)

  /** A mesh right after Mesh.Clear. */
  const EMPTY_MESH := MeshValue([], false)

  /** The error log (L.E and Debug.LogException), one entry per logged fault. */
  datatype LogEntry =
    | CameraMissing(element: BakeTarget)
    | TrailBakeFailed(element: BakeTarget)
    | ExceptionLogged(element: BakeTarget)

  /** UnityEditor.PlayModeStateChange. */
  datatype PlayModeStateChange = EnteredEditMode | ExitingEditMode | EnteredPlayMode | ExitingPlayMode

  /** BakeMesh either returns (leaving the scratch mesh as given) or throws. */
  datatype BakeOutcome = Returned(mesh: MeshValue) | Threw

  /** Everything one BakeMesh call decides: the SetSubMeshCount argument (None: not called), outcome, log. */
  datatype BakeEffect = BakeEffect(subMeshCount: Option<nat>, outcome: BakeOutcome, log: seq<LogEntry>)

  // ---------------------------------------------------------------------------
  // Matrix choice

  /** A Custom space without a custom transform is treated as Local. */
  function EffectiveSpace(src: ParticleSource): (r: SimulationSpace)
    ensures r == src.simulationSpace || (src.simulationSpace == Custom && r == Local)
    ensures r == Custom <==> src.simulationSpace == Custom && src.customSimulationSpace.Some?
  {
    if src.simulationSpace == Custom && src.customSimulationSpace.None? then Local else src.simulationSpace
  }

  /** GetScaledMatrix: the transform that brings baked geometry into the element's local frame. */
  function GetScaledMatrix(src: ParticleSource): Matrix
  {
    var t := src.transform;
    match EffectiveSpace(src)
    case Local => Product(Inverse(Rotate(t)), Inverse(Scale(LossyScale(t))))
    case World => WorldToLocal(t)
    case Custom => Product(WorldToLocal(t), Translate(Position(src.customSimulationSpace.value)))
  }

  /** The transform of the trail sub-mesh: corrected by -position only for Local space with world-space trails. */
  function TrailMatrix(input: FrameInput): Matrix
  {
    var matrix := GetScaledMatrix(input.source);
    if input.source.simulationSpace == Local && input.source.trailsWorldSpace
    then Product(matrix, Translate(Negated(Position(input.elementTransform))))
    else matrix
  }

  /** A Local-space matrix undoes the system's scale and rotation: derived * S * R == I. */
  lemma LocalMatrixUndoesRotationAndScale(src: ParticleSource)
    requires EffectiveSpace(src) == Local
    ensures Equivalent(Product(Product(GetScaledMatrix(src), Scale(LossyScale(src.transform))), Rotate(src.transform)), Identity)
  {
    var t := src.transform;
    var r := Letter(RotationOf(t), false);
    var s := Letter(ScalingBy(LossyScale(t)), false);
    var m := GetScaledMatrix(src);
    assert Eval(Inverse(Rotate(t))) == [Flip(r)];
    assert Eval(Inverse(Scale(LossyScale(t)))) == [Flip(s)];
    EvalProductOfLetters(Inverse(Rotate(t)), Inverse(Scale(LossyScale(t))), Flip(r), Flip(s));
    assert Eval(m) == [Flip(r), Flip(s)];
    PushAllOne([Flip(r), Flip(s)], s);
    assert Eval(Product(m, Scale(LossyScale(t)))) == [Flip(r)];
    PushAllOne([Flip(r)], r);
  }

  /** A World-space matrix is the world-to-local matrix, so it undoes local-to-world. */
  lemma WorldMatrixIsWorldToLocal(src: ParticleSource)
    requires src.simulationSpace == World
    ensures GetScaledMatrix(src) == WorldToLocal(src.transform)
    ensures Equivalent(Product(GetScaledMatrix(src), Inverse(WorldToLocal(src.transform))), Identity)
  {
    ProductWithInverseIsIdentity(WorldToLocal(src.transform));
  }

  /** A Custom-space matrix is world-to-local after a translation by the custom space's position. */
  lemma CustomMatrixTranslatesByCustomPosition(src: ParticleSource)
    requires src.simulationSpace == Custom && src.customSimulationSpace.Some?
    ensures Equivalent(Product(GetScaledMatrix(src), Translate(Negated(Position(src.customSimulationSpace.value)))),
                       WorldToLocal(src.transform))
  {
    var c := src.customSimulationSpace.value;
    var w := Letter(WorldToLocalOf(src.transform), false);
    var p := Letter(TranslationBy(Position(c)), false);
    assert StripNegation(Negated(Position(c))) == (Position(c), true);
    EvalProductOfLetters(WorldToLocal(src.transform), Translate(Position(c)), w, p);
    assert Eval(GetScaledMatrix(src)) == [w, p];
    assert Eval(Translate(Negated(Position(c)))) == [Flip(p)];
    PushAllOne([w, p], Flip(p));
  }

  /** Custom space without a custom transform gives exactly the Local matrix. */
  lemma CustomWithoutTransformIsLocal(src: ParticleSource)
    requires src.simulationSpace == Custom && src.customSimulationSpace.None?
    ensures GetScaledMatrix(src) == GetScaledMatrix(src.(simulationSpace := Local))
  {
  }

  /**
   * The trail transform differs from the main one only for Local space with world-space
   * trails, and then by exactly a translation by -position. A Custom space that fell back to
   * Local does not get the correction, because the source tests the configured space.
   */
  lemma TrailMatrixCorrection(input: FrameInput)
    ensures input.source.simulationSpace == Local && input.source.trailsWorldSpace ==>
      Equivalent(Product(TrailMatrix(input), Translate(Position(input.elementTransform))), GetScaledMatrix(input.source))
    ensures !(input.source.simulationSpace == Local && input.source.trailsWorldSpace) ==>
      TrailMatrix(input) == GetScaledMatrix(input.source)
  {
    if input.source.simulationSpace == Local && input.source.trailsWorldSpace {
      var m := GetScaledMatrix(input.source);
      var t := input.source.transform;
      var pos := Position(input.elementTransform);
      var q := Letter(TranslationBy(pos), true);
      assert StripNegation(Negated(pos)) == (pos, true);
      assert Eval(Translate(Negated(pos))) == [q];
      assert Eval(Translate(pos)) == [Flip(q)];
      var r := Letter(RotationOf(t), true);
      var s := Letter(ScalingBy(LossyScale(t)), true);
      assert Eval(Inverse(Rotate(t))) == [r];
      assert Eval(Inverse(Scale(LossyScale(t)))) == [s];
      EvalProductOfLetters(Inverse(Rotate(t)), Inverse(Scale(LossyScale(t))), r, s);
      assert Eval(m) == [r, s];
      PushAllOne([r, s], q);
      assert Eval(TrailMatrix(input)) == [r, s, q];
      PushAllOne([r, s, q], Flip(q));
      assert [r, s, q][..2] == [r, s];
    }
  }

  // ---------------------------------------------------------------------------
  // Bake decision

  /** ResolveCamera: the canvas's world camera, else the editing camera. */
  function ResolveCamera(input: FrameInput): (r: Option<CameraId>)
    ensures r.Some? <==> input.worldCamera.Some? || input.editorCamera.Some?
    ensures input.worldCamera.Some? ==> r == input.worldCamera
    ensures r == input.worldCamera || r == input.editorCamera
  {
    if input.worldCamera.Some? then input.worldCamera else input.editorCamera
  }

  /** The early exit: no live particles, or an invisible element. */
  predicate NothingToRender(input: FrameInput)
  {
    !input.isAlive || input.particleCount == 0 || input.alphaApproximatelyZero
  }

  /** The early exit is taken: the Source is there and has nothing to render. */
  predicate ExitsEarly(input: FrameInput)
  {
    !input.sourceMissing && NothingToRender(input)
  }

  /** The bake throws before it has any effect: no Source, or no canvas once past the early exit. */
  predicate FaultsEarly(input: FrameInput)
  {
    input.sourceMissing || (!NothingToRender(input) && input.canvasMissing)
  }

  /** The bake gets as far as resolving the camera. */
  predicate ReachesCamera(input: FrameInput)
  {
    !input.sourceMissing && !NothingToRender(input) && !input.canvasMissing
  }

  /** The main geometry is baked without throwing. */
  predicate BakesMain(input: FrameInput)
  {
    ReachesCamera(input) && ResolveCamera(input).Some? && !input.mainBakeThrows
  }

  /** The combined mesh for one or two sub-meshes. */
  function CombinedMesh(e: BakeTarget, input: FrameInput, cam: CameraId, count: nat): MeshValue
  {
    var main := SubMesh(Baked(e, Main, cam), GetScaledMatrix(input.source));
    var trail := SubMesh(Baked(e, Trail, cam), TrailMatrix(input));
    MeshValue(if count == 1 then [main] else [main, trail], true)
  }

  /** What BakeMesh does to an element, given the scratch mesh it is handed. */
  function BakeSpec(e: BakeTarget, input: FrameInput, mesh: MeshValue): (r: BakeEffect)
    // A missing Source or canvas throws before anything is set or logged.
    ensures FaultsEarly(input) ==> r == BakeEffect(None, Threw, [])
    // Early exit: the sub-mesh count is set to 0 and nothing is combined.
    ensures ExitsEarly(input) ==> r == BakeEffect(Some(0), Returned(mesh), [])
    // No camera: the count is left alone, the given mesh is returned and the fault is logged.
    ensures ReachesCamera(input) && ResolveCamera(input).None? ==>
      r == BakeEffect(None, Returned(mesh), [CameraMissing(e)])
    // A throwing main bake escapes before the count is set.
    ensures r.outcome.Threw? <==>
      FaultsEarly(input) || (ReachesCamera(input) && ResolveCamera(input).Some? && input.mainBakeThrows)
    ensures r.outcome.Threw? ==> r.subMeshCount.None? && r.log == []
    // The count: 2 exactly when trails bake, 1 when the main bakes alone.
    ensures r.subMeshCount.Some? ==> r.subMeshCount.value <= 2
    ensures r.subMeshCount == Some(2) <==> BakesMain(input) && input.source.trailsEnabled && !input.trailBakeThrows
    ensures r.subMeshCount == Some(1) <==> BakesMain(input) && (!input.source.trailsEnabled || input.trailBakeThrows)
    // A failed trail bake is logged and does not abort the main result.
    ensures TrailBakeFailed(e) in r.log <==> BakesMain(input) && input.source.trailsEnabled && input.trailBakeThrows
    ensures BakesMain(input) ==>
      r.log == (if input.source.trailsEnabled && input.trailBakeThrows then [TrailBakeFailed(e)] else [])
    // When something was combined, the mesh has one sub-mesh per counted stream, each with its own rule.
    ensures BakesMain(input) ==>
      && r.outcome.Returned?
      && r.subMeshCount.Some?
      && |r.outcome.mesh.subMeshes| == r.subMeshCount.value
      && r.outcome.mesh.boundsRecalculated
      && r.outcome.mesh.subMeshes[0] == SubMesh(Baked(e, Main, ResolveCamera(input).value), GetScaledMatrix(input.source))
      && (r.subMeshCount.value == 2 ==>
            r.outcome.mesh.subMeshes[1] == SubMesh(Baked(e, Trail, ResolveCamera(input).value), TrailMatrix(input)))
    // Otherwise a returned mesh is the one that was handed in.
    ensures !BakesMain(input) && r.outcome.Returned? ==> r.outcome.mesh == mesh
  {
    if input.sourceMissing then BakeEffect(None, Threw, [])
    else if NothingToRender(input) then BakeEffect(Some(0), Returned(mesh), [])
    else if input.canvasMissing then BakeEffect(None, Threw, [])
    else match ResolveCamera(input)
      case None => BakeEffect(None, Returned(mesh), [CameraMissing(e)])
      case Some(cam) =>
        if input.mainBakeThrows then BakeEffect(None, Threw, [])
        else
          var trailBaked := input.source.trailsEnabled && !input.trailBakeThrows;
          var count := if trailBaked then 2 else 1;
          var log := if input.source.trailsEnabled && input.trailBakeThrows then [TrailBakeFailed(e)] else [];
          BakeEffect(Some(count), Returned(CombinedMesh(e, input, cam, count)), log)
  }

  /** The combine buffer after one BakeMesh call. */
  function CisAfterBake(cis: seq<CombineInstance>, e: BakeTarget, input: FrameInput): (r: seq<CombineInstance>)
    requires |cis| == 2
    ensures |r| == 2
  {
    if !ReachesCamera(input) || ResolveCamera(input).None? then cis
    else
      var cam := ResolveCamera(input).value;
      var main := CombineInstance(Some(if input.mainBakeThrows then Cleared else Baked(e, Main, cam)),
                                  Some(GetScaledMatrix(input.source)));
      if input.mainBakeThrows || !input.source.trailsEnabled then [main, cis[1]]
      else [main, CombineInstance(Some(if input.trailBakeThrows then Cleared else Baked(e, Trail, cam)),
                                  Some(TrailMatrix(input)))]
  }

  // ---------------------------------------------------------------------------
  // One refresh pass, element by element

  /** The element's sub-mesh count after its turn in a pass. */
  function CountAfter(count: nat, e: BakeTarget, input: FrameInput): nat
  {
    var r := BakeSpec(e, input, EMPTY_MESH);
    if r.subMeshCount.Some? then r.subMeshCount.value else count
  }

  /** The element's renderer mesh after its turn in a pass: the baked mesh, unless baking or pushing threw. */
  function MeshAfter(mesh: MeshValue, e: BakeTarget, input: FrameInput): MeshValue
  {
    match BakeSpec(e, input, EMPTY_MESH).outcome
    case Threw => mesh
    case Returned(m) => if input.setMeshThrows then mesh else m
  }

  /** What the pass logs for one element. */
  function ElementLog(e: BakeTarget, input: FrameInput): seq<LogEntry>
  {
    var r := BakeSpec(e, input, EMPTY_MESH);
    r.log + (if r.outcome.Threw? || input.setMeshThrows then [ExceptionLogged(e)] else [])
  }

  /** What the pass logs for a list of elements, in list order. */
  function PassLog(ps: seq<BakeTarget>, inputs: BakeTarget -> FrameInput): seq<LogEntry>
  {
    if ps == [] then [] else PassLog(ps[..|ps| - 1], inputs) + ElementLog(ps[|ps| - 1], inputs(ps[|ps| - 1]))
  }

  /** The combine buffer after a pass over a list of elements. */
  function PassCis(cis: seq<CombineInstance>, ps: seq<BakeTarget>, inputs: BakeTarget -> FrameInput): (r: seq<CombineInstance>)
    requires |cis| == 2
    ensures |r| == 2
  {
    if ps == [] then cis
    else CisAfterBake(PassCis(cis, ps[..|ps| - 1], inputs), ps[|ps| - 1], inputs(ps[|ps| - 1]))
  }

  /** The pass over the first i + 1 elements is the pass over the first i followed by element i's turn. */
  lemma PassPrefix(cis: seq<CombineInstance>, ps: seq<BakeTarget>, inputs: BakeTarget -> FrameInput, i: nat)
    requires |cis| == 2 && i < |ps|
    ensures PassLog(ps[..i + 1], inputs) == PassLog(ps[..i], inputs) + ElementLog(ps[i], inputs(ps[i]))
    ensures PassCis(cis, ps[..i + 1], inputs) == CisAfterBake(PassCis(cis, ps[..i], inputs), ps[i], inputs(ps[i]))
  {
    assert ps[..i + 1][..i] == ps[..i];
  }

  /**
   * What an element's renderer holds after its turn, case by case. With nothing to render or
   * no camera, the cleared scratch mesh is pushed as it is, empty. The old mesh stays only when
   * pushing throws, the Source or canvas is missing, or the main bake throws. Otherwise the
   * pushed mesh is the combination of this element's own main (and trail) geometry.
   */
  lemma MeshAfterCases(mesh: MeshValue, e: BakeTarget, input: FrameInput)
    ensures !input.setMeshThrows && (ExitsEarly(input) || (ReachesCamera(input) && ResolveCamera(input).None?)) ==>
      MeshAfter(mesh, e, input) == EMPTY_MESH
    ensures input.setMeshThrows || FaultsEarly(input) ||
            (ReachesCamera(input) && ResolveCamera(input).Some? && input.mainBakeThrows) ==>
      MeshAfter(mesh, e, input) == mesh
    ensures !input.setMeshThrows && BakesMain(input) ==>
      && MeshAfter(mesh, e, input) ==
           CombinedMesh(e, input, ResolveCamera(input).value,
                        if input.source.trailsEnabled && !input.trailBakeThrows then 2 else 1)
      && forall k :: 0 <= k < |MeshAfter(mesh, e, input).subMeshes| ==>
           MeshAfter(mesh, e, input).subMeshes[k].geometry.Baked? && MeshAfter(mesh, e, input).subMeshes[k].geometry.owner == e
  {
  }

  /** An entry logged in a pass belongs to an element of the pass. */
  lemma {:induction false} PassLogNamesPassElements(ps: seq<BakeTarget>, inputs: BakeTarget -> FrameInput)
    ensures forall k :: 0 <= k < |PassLog(ps, inputs)| ==> PassLog(ps, inputs)[k].element in ps
  {
    if ps != [] {
      var init := ps[..|ps| - 1];
      PassLogNamesPassElements(init, inputs);
      var last := ps[|ps| - 1];
      var r := BakeSpec(last, inputs(last), EMPTY_MESH);
      assert forall k :: 0 <= k < |r.log| ==> r.log[k].element == last;
      assert forall x :: x in init ==> x in ps;
    }
  }

  /** An element's entries in a pass are exactly its own entries: other elements' faults do not leak into them. */
  lemma {:induction false} PassLogIsolatesElements(ps: seq<BakeTarget>, inputs: BakeTarget -> FrameInput, e: BakeTarget)
    requires Distinct(ps) && e in ps
    ensures EntriesOf(PassLog(ps, inputs), e) == ElementLog(e, inputs(e))
  {
    var init := ps[..|ps| - 1];
    var last := ps[|ps| - 1];
    assert ps == init + [last];
    EntriesOfConcat(PassLog(init, inputs), ElementLog(last, inputs(last)), e);
    EntriesOfOwn(last, inputs(last), e);
    DistinctInit(ps);
    if e == last {
      EntriesOfAbsent(init, inputs, e);
    } else {
      assert e in init;
      PassLogIsolatesElements(init, inputs, e);
    }
  }

  /** The entries of a log that name element e. */
  function EntriesOf(log: seq<LogEntry>, e: BakeTarget): seq<LogEntry>
  {
    if log == [] then []
    else EntriesOf(log[..|log| - 1], e) + (if log[|log| - 1].element == e then [log[|log| - 1]] else [])
  }

  lemma {:induction false} EntriesOfConcat(a: seq<LogEntry>, b: seq<LogEntry>, e: BakeTarget)
    ensures EntriesOf(a + b, e) == EntriesOf(a, e) + EntriesOf(b, e)
    decreases |b|
  {
    if b != [] {
      assert (a + b)[..|a + b| - 1] == a + b[..|b| - 1];
      EntriesOfConcat(a, b[..|b| - 1], e);
    } else {
      assert a + b == a;
    }
  }

  lemma EntriesOfOwn(x: BakeTarget, input: FrameInput, e: BakeTarget)
    ensures EntriesOf(ElementLog(x, input), e) == if x == e then ElementLog(x, input) else []
  {
    var log := ElementLog(x, input);
    assert forall k :: 0 <= k < |log| ==> log[k].element == x;
    EntriesOfUniform(log, x, e);
  }

  lemma {:induction false} EntriesOfUniform(log: seq<LogEntry>, x: BakeTarget, e: BakeTarget)
    requires forall k :: 0 <= k < |log| ==> log[k].element == x
    ensures EntriesOf(log, e) == if x == e then log else []
  {
    if log != [] {
      EntriesOfUniform(log[..|log| - 1], x, e);
      assert log[..|log| - 1] + [log[|log| - 1]] == log;
    }
  }

  lemma EntriesOfAbsent(ps: seq<BakeTarget>, inputs: BakeTarget -> FrameInput, e: BakeTarget)
    requires e !in ps
    ensures EntriesOf(PassLog(ps, inputs), e) == []
  {
    PassLogNamesPassElements(ps, inputs);
    EntriesOfNone(PassLog(ps, inputs), e);
  }

  lemma {:induction false} EntriesOfNone(log: seq<LogEntry>, e: BakeTarget)
    requires forall k :: 0 <= k < |log| ==> log[k].element != e
    ensures EntriesOf(log, e) == []
  {
    if log != [] {
      EntriesOfNone(log[..|log| - 1], e);
    }
  }

  // ---------------------------------------------------------------------------
  // Editor play-mode flag

  /** The skip flag after a sequence of play-mode transitions. */
  function SkipAfter(skip: bool, states: seq<PlayModeStateChange>): bool
  {
    if states == [] then skip
    else
      var s := SkipAfter(skip, states[..|states| - 1]);
      match states[|states| - 1]
      case ExitingPlayMode => true
      case EnteredEditMode => false
      case _ => s
  }

  /** The transitions that move the skip flag. */
  predicate Toggles(state: PlayModeStateChange)
  {
    state == ExitingPlayMode || state == EnteredEditMode
  }

  /**
   * The flag is set exactly when the last ExitingPlayMode comes after the last EnteredEditMode;
   * when neither occurs it keeps its value.
   */
  lemma {:induction false} SkipFollowsLastToggle(skip: bool, states: seq<PlayModeStateChange>)
    ensures (forall k :: 0 <= k < |states| ==> !Toggles(states[k])) ==> SkipAfter(skip, states) == skip
    ensures forall k :: 0 <= k < |states| && Toggles(states[k]) && (forall m :: k < m < |states| ==> !Toggles(states[m]))
              ==> SkipAfter(skip, states) == (states[k] == ExitingPlayMode)
  {
    if states != [] {
      SkipFollowsLastToggle(skip, states[..|states| - 1]);
    }
  }

  // ---------------------------------------------------------------------------
  // Registry helpers

  predicate Distinct<T(==)>(s: seq<T>)
  {
    forall i, j :: 0 <= i < j < |s| ==> s[i] != s[j]
  }

  /** Dropping the last element of a list without duplicates leaves one without it and without duplicates. */
  lemma DistinctInit<T>(s: seq<T>)
    requires Distinct(s) && s != []
    ensures Distinct(s[..|s| - 1]) && s[|s| - 1] !in s[..|s| - 1]
  {
    var init := s[..|s| - 1];
    forall a, b | 0 <= a < b < |init|
      ensures init[a] != init[b]
    {
      assert init[a] == s[a] && init[b] == s[b];
    }
    forall k | 0 <= k < |init|
      ensures init[k] != s[|s| - 1]
    {
      assert init[k] == s[k];
    }
  }

  /** The position of the first occurrence of x in s. */
  function IndexOf<T(==)>(s: seq<T>, x: T): (k: nat)
    requires x in s
    ensures k < |s| && s[k] == x && x !in s[..k]
  {
    if s[0] == x then 0
    else
      var k := 1 + IndexOf(s[1..], x);
      assert s[..k] == [s[0]] + s[1..][..k - 1];
      k
  }

  /** List.Remove: drop the first occurrence, if any. */
  function RemoveFirst<T(==)>(s: seq<T>, x: T): (r: seq<T>)
    ensures x !in s ==> r == s
    ensures x in s ==> |r| == |s| - 1 && multiset(r) == multiset(s) - multiset{x}
  {
    if x in s then
      var k := IndexOf(s, x);
      assert s == s[..k] + [x] + s[k + 1..];
      s[..k] + s[k + 1..]
    else s
  }

  /** The elements after the removed one move down by one place. */
  lemma RemoveFirstAt<T>(s: seq<T>, x: T, i: nat)
    requires x in s && i < |s| - 1
    ensures RemoveFirst(s, x)[i] == s[if i < IndexOf(s, x) then i else i + 1]
  {
  }

  /** Removing an element from a list without duplicates leaves a list without duplicates that lost just it. */
  lemma RemoveFromDistinct<T>(s: seq<T>, x: T)
    requires Distinct(s) && x in s
    ensures Distinct(RemoveFirst(s, x))
    ensures forall y :: y in RemoveFirst(s, x) <==> y in s && y != x
  {
    var k := IndexOf(s, x);
    var r := RemoveFirst(s, x);
    forall i, j | 0 <= i < j < |r|
      ensures r[i] != r[j]
    {
      RemoveFirstAt(s, x, i);
      RemoveFirstAt(s, x, j);
    }
    forall y
      ensures y in r <==> y in s && y != x
    {
      if y in r {
        var i :| 0 <= i < |r| && r[i] == y;
        RemoveFirstAt(s, x, i);
        var i' := if i < k then i else i + 1;
        assert s[i'] == y && i' != k;
      }
      if y in s && y != x {
        var i :| 0 <= i < |s| && s[i] == y;
        assert i != k;
        var i' := if i < k then i else i - 1;
        RemoveFirstAt(s, x, i');
        assert r[i'] == y;
      }
    }
  }

  // ---------------------------------------------------------------------------
  // State

  /** What a refresh pass starts from: the serviced list, the log, the buffer, and each element's count and mesh. */
  datatype PassStart = PassStart(serviced: seq<BakeTarget>, log: seq<LogEntry>, cis: seq<CombineInstance>,
                                 counts: seq<nat>, meshes: seq<MeshValue>)

  /** The sub-mesh counts of a list of elements, position by position. */
  ghost function Counts(ps: seq<BakeTarget>): (r: seq<nat>)
    reads set e | e in ps
    ensures |r| == |ps| && forall k :: 0 <= k < |ps| ==> r[k] == ps[k].subMeshCount
  {
    if ps == [] then [] else Counts(ps[..|ps| - 1]) + [ps[|ps| - 1].subMeshCount]
  }

  /** The renderer meshes of a list of elements, position by position. */
  ghost function Meshes(ps: seq<BakeTarget>): (r: seq<MeshValue>)
    reads set e | e in ps
    ensures |r| == |ps| && forall k :: 0 <= k < |ps| ==> r[k] == ps[k].mesh
  {
    if ps == [] then [] else Meshes(ps[..|ps| - 1]) + [ps[|ps| - 1].mesh]
  }

  /** The first i elements of ps have had their turns since s0: the serviced list, the log and the buffer show them in order. */
  predicate TraceAt(ps: seq<BakeTarget>, i: nat, inputs: BakeTarget -> FrameInput, s0: PassStart,
                    serviced: seq<BakeTarget>, log: seq<LogEntry>, cis: seq<CombineInstance>)
  {
    && i <= |ps| && |s0.cis| == 2
    && serviced == s0.serviced + ps[..i]
    && log == s0.log + PassLog(ps[..i], inputs)
    && cis == PassCis(s0.cis, ps[..i], inputs)
  }

  /** Element i's turn (serviced, its log entries, its buffer writes) carries the trace from i to i + 1. */
  lemma TraceStep(ps: seq<BakeTarget>, i: nat, inputs: BakeTarget -> FrameInput, s0: PassStart,
                  serviced: seq<BakeTarget>, log: seq<LogEntry>, cis: seq<CombineInstance>)
    requires i < |ps| && TraceAt(ps, i, inputs, s0, serviced, log, cis)
    ensures TraceAt(ps, i + 1, inputs, s0, serviced + [ps[i]], log + ElementLog(ps[i], inputs(ps[i])),
                    CisAfterBake(cis, ps[i], inputs(ps[i])))
  {
    PassPrefix(s0.cis, ps, inputs, i);
    assert ps[..i + 1] == ps[..i] + [ps[i]];
  }

  /**
   * The counts and meshes of ps: each of the first i elements has had its turn since s0, and
   * every later one is as it was.
   */
  predicate TurnsAt(ps: seq<BakeTarget>, i: nat, inputs: BakeTarget -> FrameInput, s0: PassStart,
                    counts: seq<nat>, meshes: seq<MeshValue>)
  {
    && i <= |ps| && |s0.counts| == |ps| && |s0.meshes| == |ps| && |counts| == |ps| && |meshes| == |ps|
    && (forall k :: 0 <= k < i ==>
          counts[k] == CountAfter(s0.counts[k], ps[k], inputs(ps[k])) && meshes[k] == MeshAfter(s0.meshes[k], ps[k], inputs(ps[k])))
    && (forall k :: i <= k < |ps| ==> counts[k] == s0.counts[k] && meshes[k] == s0.meshes[k])
  }

  /** Element i's new count and mesh, with every other element unchanged, carry the turns from i to i + 1. */
  lemma TurnStep(ps: seq<BakeTarget>, i: nat, inputs: BakeTarget -> FrameInput, s0: PassStart,
                 counts: seq<nat>, meshes: seq<MeshValue>)
    requires i < |ps| && TurnsAt(ps, i, inputs, s0, counts, meshes)
    ensures TurnsAt(ps, i + 1, inputs, s0,
                    counts[i := CountAfter(counts[i], ps[i], inputs(ps[i]))],
                    meshes[i := MeshAfter(meshes[i], ps[i], inputs(ps[i]))])
  {
  }

  /** The face of a UIParticle that the updater uses: SetSubMeshCount and its canvas renderer's mesh. */
  class BakeTarget {
    /** The count last passed to SetSubMeshCount. */
    var subMeshCount: nat
    /** The mesh last copied into the canvas renderer by SetMesh. */
    var mesh: MeshValue

    constructor ()
      ensures subMeshCount == 0 && mesh == EMPTY_MESH
    {
      subMeshCount := 0;
      mesh := EMPTY_MESH;
    }

    method SetSubMeshCount(count: nat)
      modifies this
      ensures subMeshCount == count && mesh == old(mesh)
    {
      subMeshCount := count;
    }

    method SetMesh(m: MeshValue)
      modifies this
      ensures mesh == m && subMeshCount == old(subMeshCount)
    {
      mesh := m;
    }
  }

  /** The static state of UIParticleUpdater. */
  class Scheduler {
    /** _particles: the registered elements, in registration order. */
    var particles: seq<BakeTarget>
    /** How many times Refresh is subscribed to Canvas.willRenderCanvases. */
    var subscriptions: nat
    /** _frameCount: the last frame index serviced. */
    var frameCount: int
    /** _skipRefresh: set while the editor leaves play mode. */
    var skipRefresh: bool
    /** Everything logged as an error or exception. */
    var log: seq<LogEntry>
    /** Every element baked so far, in the order they were baked. */
    ghost var serviced: seq<BakeTarget>
    /** _cis: the two-entry combine buffer, shared by all elements. */
    const cis: array<CombineInstance>

    ghost predicate Valid()
      reads this
    {
      && cis.Length == 2
      && Distinct(particles)
      && subscriptions == (if |particles| == 0 then 0 else 1)
    }

    ghost function Registered(): set<BakeTarget>
      reads this
    {
      set e | e in particles
    }

    constructor ()
      ensures Valid() && fresh(cis)
      ensures particles == [] && subscriptions == 0 && frameCount == 0 && !skipRefresh && log == [] && serviced == []
      ensures cis[..] == [CombineInstance(None, None), CombineInstance(None, None)]
    {
      particles := [];
      subscriptions := 0;
      frameCount := 0;
      skipRefresh := false;
      log := [];
      serviced := [];
      cis := new CombineInstance[2](_ => CombineInstance(None, None));
    }

    /** Register: append a new element; subscribe on the first one. */
    method Register(e: BakeTarget)
      requires Valid() && e !in particles
      modifies this
      ensures Valid()
      ensures particles == old(particles) + [e]
      ensures subscriptions == old(subscriptions) + (if old(particles) == [] then 1 else 0)
      ensures frameCount == old(frameCount) && skipRefresh == old(skipRefresh) && log == old(log) && serviced == old(serviced)
    {
      particles := particles + [e];
      if |particles| == 1 {
        subscriptions := subscriptions + 1;
      }
    }

    /** Unregister: remove a registered element; unsubscribe when the last one leaves. */
    method Unregister(e: BakeTarget)
      requires Valid() && e in particles
      modifies this
      ensures Valid()
      ensures particles == RemoveFirst(old(particles), e)
      ensures Registered() == old(Registered()) - {e}
      ensures subscriptions == old(subscriptions) - (if |particles| == 0 then 1 else 0)
      ensures frameCount == old(frameCount) && skipRefresh == old(skipRefresh) && log == old(log) && serviced == old(serviced)
    {
      RemoveFromDistinct(particles, e);
      particles := RemoveFirst(particles, e);
      if |particles| == 0 && subscriptions > 0 {
        subscriptions := subscriptions - 1;
      }
    }

    /** OnPlayModeStateChanged: set the skip flag on leaving play mode, clear it on entering edit mode. */
    method OnPlayModeStateChanged(state: PlayModeStateChange)
      modifies this`skipRefresh
      ensures skipRefresh == SkipAfter(old(skipRefresh), [state])
    {
      if state == ExitingPlayMode {
        skipRefresh := true;
      } else if state == EnteredEditMode {
        skipRefresh := false;
      }
    }

    /** BakeMesh: bake one element into the scratch mesh and set its sub-mesh count. */
    method BakeMesh(e: BakeTarget, input: FrameInput, mesh: MeshValue) returns (outcome: BakeOutcome)
      requires cis.Length == 2
      modifies this`log, cis, e
      ensures outcome == BakeSpec(e, input, mesh).outcome
      ensures log == old(log) + BakeSpec(e, input, mesh).log
      ensures e.subMeshCount == (var c := BakeSpec(e, input, mesh).subMeshCount; if c.Some? then c.value else old(e.subMeshCount))
      ensures e.mesh == old(e.mesh)
      ensures cis[..] == CisAfterBake(old(cis[..]), e, input)
    {
      if input.sourceMissing {
        return Threw;
      }
      if NothingToRender(input) {
        e.SetSubMeshCount(0);
        return Returned(mesh);
      }
      if input.canvasMissing {
        return Threw;
      }
      var cam := ResolveCamera(input);
      if cam.None? {
        log := log + [CameraMissing(e)];
        return Returned(mesh);
      }
      var matrix := GetScaledMatrix(input.source);

      // Main particles: set the transform, create the sub-mesh on first use, clear it, bake.
      var subMeshCount := 1;
      cis[0] := CombineInstance(Some(Cleared), Some(matrix));
      if input.mainBakeThrows {
        return Threw;
      }
      cis[0] := cis[0].(mesh := Some(Baked(e, Main, cam.value)));

      // Trails: their own transform; a failed trail bake is logged and leaves one sub-mesh.
      if input.source.trailsEnabled {
        cis[1] := CombineInstance(Some(Cleared), Some(TrailMatrix(input)));
        if input.trailBakeThrows {
          log := log + [TrailBakeFailed(e)];
        } else {
          cis[1] := cis[1].(mesh := Some(Baked(e, Trail, cam.value)));
          subMeshCount := subMeshCount + 1;
        }
      }

      e.SetSubMeshCount(subMeshCount);

      // Combine: one sub-mesh alone, or both without merging; then recompute bounds.
      var combined: MeshValue;
      if subMeshCount == 1 {
        combined := MeshValue([SubMesh(cis[0].mesh.value, cis[0].transform.value)], false);
      } else {
        combined := MeshValue([SubMesh(cis[0].mesh.value, cis[0].transform.value),
                               SubMesh(cis[1].mesh.value, cis[1].transform.value)], false);
      }
      combined := combined.(boundsRecalculated := true);
      return Returned(combined);
    }

    /** One element's turn in a pass: bake it into a cleared scratch mesh, then push the result; a fault is logged. */
    method Service(e: BakeTarget, input: FrameInput)
      requires cis.Length == 2
      modifies this`log, cis, e
      ensures log == old(log) + ElementLog(e, input)
      ensures cis[..] == CisAfterBake(old(cis[..]), e, input)
      ensures e.subMeshCount == CountAfter(old(e.subMeshCount), e, input)
      ensures e.mesh == MeshAfter(old(e.mesh), e, input)
    {
      var outcome := BakeMesh(e, input, EMPTY_MESH);
      match outcome {
        case Threw =>
          log := log + [ExceptionLogged(e)];
        case Returned(m) =>
          if input.setMeshThrows {
            log := log + [ExceptionLogged(e)];
          } else {
            e.SetMesh(m);
          }
      }
    }

    /**
     * Refresh: at most once per frame index, and never while the skip flag is set, bake every
     * registered element in list order and push the result to it; a fault is logged and the
     * pass goes on with the next element.
     */
    method Refresh(frame: int, inputs: BakeTarget -> FrameInput)
      requires Valid()
      modifies this, cis, Registered()
      ensures Valid()
      ensures particles == old(particles) && subscriptions == old(subscriptions) && skipRefresh == old(skipRefresh)
      ensures old(skipRefresh) || frame == old(frameCount) ==>
        unchanged(this) && unchanged(cis) && unchanged(Registered())
      ensures !old(skipRefresh) && frame != old(frameCount) ==>
        && frameCount == frame
        && serviced == old(serviced) + particles
        && log == old(log) + PassLog(particles, inputs)
        && cis[..] == PassCis(old(cis[..]), particles, inputs)
        && (forall e :: e in particles ==>
              && e.subMeshCount == CountAfter(old(e.subMeshCount), e, inputs(e))
              && e.mesh == MeshAfter(old(e.mesh), e, inputs(e)))
    {
      ghost var s0 := PassStart(serviced, log, cis[..], Counts(particles), Meshes(particles));
      if skipRefresh {
        return;
      }
      if frameCount == frame {
        return;
      }
      frameCount := frame;

      var i := 0;
      while i < |particles|
        invariant 0 <= i <= |particles|
        invariant Valid()
        invariant particles == old(particles) && subscriptions == old(subscriptions) && skipRefresh == old(skipRefresh)
        invariant frameCount == frame
        invariant Traced(i, inputs, s0) && Updated(i, inputs, s0)
      {
        ServiceAt(i, inputs, s0);
        i := i + 1;
      }
      assert particles[..i] == particles;
      forall e | e in particles
        ensures e.subMeshCount == CountAfter(old(e.subMeshCount), e, inputs(e))
        ensures e.mesh == MeshAfter(old(e.mesh), e, inputs(e))
      {
        var k :| 0 <= k < |particles| && particles[k] == e;
      }
    }

    /** A pass has serviced the first i elements, in order: the serviced list, the log and the buffer show their turns. */
    ghost predicate Traced(i: nat, inputs: BakeTarget -> FrameInput, s0: PassStart)
      reads this, cis
    {
      cis.Length == 2 && TraceAt(particles, i, inputs, s0, serviced, log, cis[..])
    }

    /** Each of the first i elements has had its turn, and every later element is as it was at the start. */
    ghost predicate Updated(i: nat, inputs: BakeTarget -> FrameInput, s0: PassStart)
      reads this, set e | e in particles
    {
      && i <= |particles| && |s0.counts| == |particles| && |s0.meshes| == |particles|
      && (forall k :: 0 <= k < i ==>
            && particles[k].subMeshCount == CountAfter(s0.counts[k], particles[k], inputs(particles[k]))
            && particles[k].mesh == MeshAfter(s0.meshes[k], particles[k], inputs(particles[k])))
      && (forall k :: i <= k < |particles| ==> particles[k].subMeshCount == s0.counts[k] && particles[k].mesh == s0.meshes[k])
    }

    /** Element i's turn in a pass. */
    method ServiceAt(i: nat, inputs: BakeTarget -> FrameInput, ghost s0: PassStart)
      requires Valid() && i < |particles| && Traced(i, inputs, s0) && Updated(i, inputs, s0)
      modifies this`log, this`serviced, cis, particles[i]
      ensures Valid()
      ensures Traced(i + 1, inputs, s0) && Updated(i + 1, inputs, s0)
    {
      var e := particles[i];
      ghost var counts := Counts(particles);
      ghost var meshes := Meshes(particles);
      TraceStep(particles, i, inputs, s0, serviced, log, cis[..]);
      TurnStep(particles, i, inputs, s0, counts, meshes);
      Service(e, inputs(e));
      serviced := serviced + [e];
      ghost var counts' := counts[i := CountAfter(counts[i], e, inputs(e))];
      ghost var meshes' := meshes[i := MeshAfter(meshes[i], e, inputs(e))];
      forall k | 0 <= k < |particles|
        ensures particles[k].subMeshCount == counts'[k] && particles[k].mesh == meshes'[k]
      {
        if k != i {
          assert particles[k] != e;
        }
      }
    }
  }
}
