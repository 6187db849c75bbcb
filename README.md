# UI particle renderer: scheduler, material slots and editor validator

This project models the core of a Unity UI particle component (`UIParticle`) and proves
properties of the model. The component draws a particle system inside a UI canvas: once per
frame it bakes the particle geometry into a mesh, and it composes the renderer's material slots
from the system's materials.

The model has three parts, one per core source file.

- **UIParticleUpdater** (`updater.dfy`, module `Updater`). A process-wide registry of enabled
  elements. It subscribes its refresh hook to the canvas render signal while it is non-empty.
  `Refresh` runs at most once per frame index, and not while the editor's skip flag is set. It
  bakes every element in list order and isolates a fault in one element from the others.
  `BakeMesh` decides how many sub-meshes an element gets (0, 1 or 2) and which transform each
  sub-mesh is combined with. The scheduler is a class. Its fields are the list, the
  subscription count, the frame index, the skip flag, the error log and the two-entry combine
  buffer, which is an `array`. Matrices are symbolic expressions (`matrices.dfy`, module
  `Matrices`) with a free-group meaning, so that "this matrix undoes that one" can be stated
  without floating point.
- **UIParticle** (`particle.dfy`, module `Particle`; `materials.dfy`, module `Materials`). The
  material pass of an element. It gives back the variants it holds. It recomputes the stencil
  value when asked to. It assigns renderer slots 0, 1, ... to the main and trail streams whose
  flags are set, at most `min(8, flags set)` of them, and acquires a stencil or texture variant
  for each slot as needed. Finally it releases what it gave back. The two variant caches
  (`StencilMaterial` and `ModifiedMaterial`) are classes with a ghost bag of references and a
  ghost history of `Add`/`Remove` calls. The shared "previous" lists are a class of their own.
  The renderer is the sequence of calls made on it. Material modifiers are uninterpreted
  functions. The enable/disable lifecycle, the `activeMeshIndices` setter and the rule by which
  `Start` delays play are modelled too.
- **UIParticle.Editor** (`validator.dfy`, module `Validator`). The editor self-validator, a
  pure function from an abstract configuration record to the error messages it adds, in check
  order. Each message is an `Issue` naming its check. The result also says whether the
  validator ran to its end without throwing. `IsValidConeShape` accepts the two rotation/scale
  patterns.

The slot loop is specified by a function `Plan` that lists the requests the loop makes. Each
request gives a slot, a system, a stream and a base material. The method that runs the loop is
proved to make exactly the acquisitions and renderer calls of `PassOver(Plan(...))`. The
properties of the slots are lemmas about `Plan`: consecutive slots, the bound, only eligible
streams, no stream twice, and every wanted stream served when slots are left over.
`GetModifiedMaterial` is specified by `ResolveVariant`. `BakeMesh` is specified by `BakeSpec`.
`Refresh` is specified by `PassLog`, `PassCis`, `CountAfter` and `MeshAfter`.

Three behaviours of the code are worth noting:

- When no camera resolves, `BakeMesh` returns without touching the scratch mesh. `Refresh` then
  pushes that freshly cleared, empty mesh to the renderer. The previous mesh is not kept.
- The stencil variant is requested with stencil id and read mask `(1 << s) - 1` and a write
  mask of 0.
- With no ParticleSystem component, the validator throws at `particles[0]`. With no renderer it
  throws at `pr.enabled`. Both are modelled as a run that stops (`completed == false`) and
  keeps the messages added so far. They are not preconditions.

The two C# files use different shapes of the element. `UIParticle.cs` uses `m_Particles` and
`activeMeshIndices`. The updater and the editor file use `Source`, `SourceRenderer` and
`SetSubMeshCount`. Each file is modelled against the interface it uses: the updater bakes a
`BakeTarget`, and the material pass works on the `UIParticle` class. No glue between the two is
invented.

## Model

| member | source | states |
|---|---|---|
| Updater.Scheduler.constructor | Scripts/UIParticleUpdater.cs:12-13 | The registry starts empty and unsubscribed, and the combine buffer holds two default entries. |
| Updater.Scheduler.Register | Scripts/UIParticleUpdater.cs:15-25 | Requires the element not to be registered yet. Appends it, and subscribes exactly when it is the first. Frame index, skip flag and log are unchanged. The invariant "subscribed once iff the list is non-empty, and no element twice" is kept. |
| Updater.Scheduler.Unregister | Scripts/UIParticleUpdater.cs:27-38 | Requires the element to be registered. Removes its first occurrence, so the registered set loses exactly that element. Unsubscribes exactly when the list becomes empty, and keeps the same invariant. |
| Updater.RemoveFirst | Scripts/UIParticleUpdater.cs:32 | List.Remove leaves a list without x unchanged. Otherwise the result is one shorter and its bag of elements lacks exactly one x. |
| Updater.RemoveFromDistinct | Scripts/UIParticleUpdater.cs:32 | Removing a member of a duplicate-free list leaves a duplicate-free list whose members are exactly the others. |
| Updater.Scheduler.Refresh | Scripts/UIParticleUpdater.cs:43-91 | With the skip flag set, or with the frame index already serviced, nothing changes: not the frame index, not the buffer, not any element. Otherwise the frame index becomes the current one, and every registered element is serviced exactly once, in list order. The log is the concatenation of the elements' own logs in that order. Each element's sub-mesh count and mesh are its own turn's result. Registry, subscription and skip flag are unchanged. |
| Updater.Scheduler.ServiceAt | Scripts/UIParticleUpdater.cs:68-86 | Element i's turn extends the trace of the pass by that element alone. Every other element keeps its count and mesh. |
| Updater.Scheduler.Service | Scripts/UIParticleUpdater.cs:70-85 | One element's turn: it bakes into a cleared mesh and pushes the result. When baking or pushing throws, one exception entry is logged and the renderer keeps its mesh. |
| Updater.MeshAfterCases | Scripts/UIParticleUpdater.cs:70-136 | With nothing to render or no camera, and a push that does not throw, the renderer gets the cleared, empty scratch mesh. The old mesh stays when the push throws, when a missing Source or canvas makes the bake throw, or when the main bake throws. Otherwise the renderer gets the combination of this element's own main geometry, and its trail geometry when that bakes, each sub-mesh owned by the element. Each element starts from the empty mesh, as the clear at line 70 gives. |
| Updater.PassLogNamesPassElements | Scripts/UIParticleUpdater.cs:68-86 | Every entry logged by a pass names an element of that pass. |
| Updater.PassLogIsolatesElements | Scripts/UIParticleUpdater.cs:68-86 | In a pass over distinct elements, an element's entries are exactly what its own turn logs. Other elements' faults neither add to them nor hide them. |
| Updater.Scheduler.OnPlayModeStateChanged | Scripts/UIParticleUpdater.cs:208-218 | ExitingPlayMode sets the skip flag, EnteredEditMode clears it, and every other state leaves it as it was. |
| Updater.SkipFollowsLastToggle | Scripts/UIParticleUpdater.cs:204-218 | After any sequence of play-mode changes, the flag is set iff the last toggling change was ExitingPlayMode. With no toggling change it keeps its initial value. |
| Updater.EffectiveSpace | Scripts/UIParticleUpdater.cs:97-100 | The space used is the configured one, except that Custom without a custom transform becomes Local. Custom is used iff it is configured and a custom transform is present. |
| Updater.GetScaledMatrix | Scripts/UIParticleUpdater.cs:93-110 | The switch over the space used. LocalMatrixUndoesRotationAndScale, WorldMatrixIsWorldToLocal, CustomMatrixTranslatesByCustomPosition and CustomWithoutTransformIsLocal state what each arm undoes. |
| Updater.TrailMatrix | Scripts/UIParticleUpdater.cs:161-163 | The trail sub-mesh's transform. TrailMatrixCorrection states when and by how much it differs from the main one. |
| Updater.LocalMatrixUndoesRotationAndScale | Scripts/UIParticleUpdater.cs:99-104 | In Local space, including Custom without a custom transform, the matrix times Scale(lossyScale) times Rotate(rotation) is the identity. |
| Updater.WorldMatrixIsWorldToLocal | Scripts/UIParticleUpdater.cs:105 | In World space the matrix is worldToLocal, and it cancels against its inverse. |
| Updater.CustomMatrixTranslatesByCustomPosition | Scripts/UIParticleUpdater.cs:107 | In Custom space with a custom transform, the matrix followed by a translation by minus the custom position is worldToLocal. |
| Updater.CustomWithoutTransformIsLocal | Scripts/UIParticleUpdater.cs:99-100 | Custom space without a custom transform gives exactly the Local matrix. |
| Updater.TrailMatrixCorrection | Scripts/UIParticleUpdater.cs:161-163 | The trail transform differs from the main one only for configured Local space with world-space trails. Then the extra factor is exactly a translation by minus the element's position. |
| Updater.ResolveCamera | Scripts/UIParticleUpdater.cs:193-200 | A camera resolves iff the canvas has a world camera or the element is being edited with a current camera. The world camera wins when present. Otherwise the editing camera is used. |
| Updater.BakeSpec | Scripts/UIParticleUpdater.cs:112-200 | With no Source, `IsAlive` throws before anything is set or logged. So does a missing canvas once the early exit is passed, when the camera is read. Invisible or dormant systems set the count to 0 and combine nothing. Without a camera the count is not set and a camera error is logged. A throwing main bake escapes before the count is set and logs nothing. The count is 2 iff the main and trail streams both bake, and 1 iff the main bakes and trails are off or throw. When the main bakes, the only entry the bake logs is the trail failure, iff the trail bake throws. A combined mesh has one sub-mesh per counted stream, each with its own transform rule, and its bounds are recomputed. Otherwise a returned mesh is the one handed in. |
| Updater.Scheduler.BakeMesh | Scripts/UIParticleUpdater.cs:112-201 | The method's outcome, log, sub-mesh count and combine-buffer writes are those of BakeSpec. It does not touch the element's renderer mesh. |
| Updater.BakeTarget.SetSubMeshCount | Scripts/UIParticleUpdater.cs:182 | Records the count and nothing else. |
| Updater.BakeTarget.SetMesh | Scripts/UIParticleUpdater.cs:79 | Replaces the renderer mesh and nothing else. |
| Particle.UIParticle.RaycastTarget | Scripts/UIParticle.cs:65-69 | raycastTarget is always false. |
| Particle.UIParticle.SetActiveMeshIndices | Scripts/UIParticle.cs:132-142 | Equal flags change nothing at all. Different flags are replaced and a full material pass follows. Validity is kept. |
| Particle.UIParticle.UpdateMaterial | Scripts/UIParticle.cs:170-237 | After a material pass, the previous lists are empty. The element holds exactly the variants the pass acquired. The renderer received ClearRenderer when idle, else the slot count followed by one SetMaterial per planned request. Each cache gained the new variants and lost one reference for each variant given back or already waiting. Its history is the additions followed by those removals. The stencil value is recomputed only when flagged. |
| Particle.UIParticle.MaterialsRebuiltKeepsValid | Scripts/UIParticle.cs:170-237 | A material pass from a valid state leaves a valid state: the caches still hold every variant the element holds. |
| Particle.UIParticle.RecalculateStencil | Scripts/UIParticle.cs:180-186 | When flagged, the stencil value becomes the stencil depth if maskable, else 0, and the flag clears. Otherwise the value is kept. |
| Particle.UIParticle.GiveBackHeld | Scripts/UIParticle.cs:173-178 | The held lists are appended to the previous lists and emptied. |
| Particle.UIParticle.AcquireMaterials | Scripts/UIParticle.cs:188-234 | Acquires exactly the variants of the pass over the plan, and makes its renderer calls: ClearRenderer when idle, else the slot count and the SetMaterial calls. |
| Particle.UIParticle.AcquireThenRelease | Scripts/UIParticle.cs:188-236 | Starting from nothing held, the element ends holding what was acquired. Everything waiting is released after the acquisitions. |
| Particle.UIParticle.AssignSlots | Scripts/UIParticle.cs:201-234 | The slot loop makes exactly the acquisitions and renderer calls of PassOver(Plan(particles, flags)). |
| Particle.UIParticle.ServeSystem | Scripts/UIParticle.cs:202-234 | One iteration of the slot loop follows the plan. A missing system takes nothing, and the loop stops when the plan has nothing left. |
| Particle.UIParticle.ServeMain | Scripts/UIParticle.cs:211-222 | The main stream serves the plan's next request if it makes one, and the plan goes on with the trail. |
| Particle.UIParticle.ServeTrail | Scripts/UIParticle.cs:224-233 | The trail stream serves the plan's next request if it makes one, and the plan goes on with the next system. |
| Particle.UIParticle.ServeRequest | Scripts/UIParticle.cs:216-221 | One slot gets the resolved variant, passed through the modifiers, at the request's slot. The variants acquired are recorded as held. |
| Particle.UIParticle.ServeNextOf | Scripts/UIParticle.cs:214-232 | Serving request j extends the state from the pass over the first j requests to the pass over the first j + 1. |
| Particle.UIParticle.ServeNext | Scripts/UIParticle.cs:216-219 | Serving one request extends the recorded pass by that request. |
| Particle.UIParticle.ApplyMaterialModifiers | Scripts/UIParticle.cs:217-218 | The modifier loop computes Chain: every modifier but the first, in order. |
| Particle.ChainLaws | Scripts/UIParticle.cs:217-218 | The first modifier never takes part, and with at most one modifier the material is unchanged. One more modifier is applied last. |
| Particle.CountTrue | Scripts/UIParticle.cs:189 | It is the number of set flags. It is at most the length, and it is 0 iff no flag is set. |
| Particle.PlanSlots | Scripts/UIParticle.cs:199-233 | The plan's slots are 0, 1, 2, ... and there are at most min(8, flags set) of them. Each goes to a stream whose flag is set and whose renderer has the material it needs: index 0 for main, index 1 for trail, with the sprite texture only for main. No stream gets two slots. |
| Particle.PlanFromShaped | Scripts/UIParticle.cs:202-233 | From any system on, the plan takes consecutive slots below the bound, for eligible streams in strictly increasing flag order. |
| Particle.PlanServesAllWhenRoomLeft | Scripts/UIParticle.cs:201-234 | When the pass leaves slots unused, every wanted stream gets a slot. |
| Particle.PlanFromComplete | Scripts/UIParticle.cs:202-233 | While slots remain, every wanted stream from system i on is served. |
| Particle.PlanTrailComplete | Scripts/UIParticle.cs:224-233 | While slots remain, every wanted stream from system i's trail on is served. |
| Particle.PlanSkips | Scripts/UIParticle.cs:205-206 | A missing system takes no slot. |
| Particle.PlanStops | Scripts/UIParticle.cs:204-213 | When the systems, the slots or the flags run out, the plan has nothing left. |
| Particle.PlanTrailStops | Scripts/UIParticle.cs:226 | When the flags or the slots run out before a trail, the plan has nothing left. |
| Particle.PlanMainStep | Scripts/UIParticle.cs:211-222 | A main stream with its flag set and a first material takes the next slot, with that material and the sprite texture. Otherwise it takes none. |
| Particle.PlanTrailStep | Scripts/UIParticle.cs:224-233 | A trail stream with its flag set and a second material takes the next slot, with that material and no texture. Otherwise it takes none. |
| Particle.PassOverCalls | Scripts/UIParticle.cs:214-232 | A pass makes one SetMaterial per request, in plan order, at the request's slot, with its resolved and modified material. |
| Particle.PassOverMasks | Scripts/UIParticle.cs:266-269 | A pass acquires one stencil variant per request iff the stencil value is positive. Each has stencil id and read mask equal to the stencil mask, and a write mask of 0. |
| Particle.PassOverModified | Scripts/UIParticle.cs:272-276 | A pass acquires exactly one texture variant per request that has a texture, and one per request whenever there are animatable properties. The property id is 0 without properties and the instance id with them. Without properties every variant has a texture. With them, variant k carries request k's texture. |
| Particle.ResolveVariant | Scripts/UIParticle.cs:264-279 | A stencil variant is acquired iff the stencil value is positive, with masks (1 << s) - 1, Keep, Equal, All and write mask 0. A texture variant, on top of it, is acquired iff there is a texture or an animatable property, with id 0 when there are no properties and the instance id otherwise. The result is the latest variant, else the base itself. |
| Particle.ResolveVariantIdentity | Scripts/UIParticle.cs:266-272 | Resolution hands back its input iff the stencil value is not positive, there is no texture and there is no animatable property. |
| Particle.MaterialGrows | Scripts/UIParticle.cs:268-275 | A derived variant is never the material it was derived from. |
| Particle.UIParticle.GetModifiedMaterial | Scripts/UIParticle.cs:264-279 | Returns ResolveVariant's material. It appends the stencil variant it acquires to the held mask list and the cache, and the texture variant to the held modified list and the cache. |
| Particle.UIParticle.AddStencilVariant | Scripts/UIParticle.cs:266-270 | The stencil half: with a positive stencil value, one variant is acquired, held and returned. Otherwise the base is returned unchanged. |
| Particle.UIParticle.AddTextureVariant | Scripts/UIParticle.cs:272-278 | The texture half: with a texture or a property, one variant is acquired, held and returned. Otherwise the input is returned unchanged. |
| Materials.StencilMask | Scripts/UIParticle.cs:268 | `(1 << s) - 1` on 32-bit ints: the shift count is taken mod 32 and the subtraction wraps. It is 2^(s mod 32) - 1 when s mod 32 is between 1 and 30, 0 when s mod 32 is 0, and int.MaxValue when s mod 32 is 31. |
| Materials.StencilMaterialCache.Add | Scripts/UIParticle.cs:268 | Hands out the variant identified by its arguments and takes one reference to it. |
| Materials.StencilMaterialCache.Remove | Scripts/UIParticle.cs:256 | Gives one reference back. |
| Materials.ModifiedMaterialCache.Add | Scripts/UIParticle.cs:275 | Hands out the variant identified by its arguments and takes one reference to it. |
| Materials.ModifiedMaterialCache.Remove | Scripts/UIParticle.cs:260 | Gives one reference back. |
| Particle.UIParticle.ClearPreviousMaterials | Scripts/UIParticle.cs:253-262 | Every waiting stencil variant is removed once from StencilMaterial, and every waiting texture variant once from ModifiedMaterial, in list order. Both lists end empty. |
| Particle.UIParticle.ReleasePreviousMasks | Scripts/UIParticle.cs:255-257 | The first loop: the cache loses one reference per waiting stencil variant and its history records those removals in order. |
| Particle.UIParticle.ReleasePreviousModified | Scripts/UIParticle.cs:259-261 | The second loop: the same for texture variants and ModifiedMaterial. |
| Materials.ReleasedExactlyOnce | Scripts/UIParticle.cs:253-262 | In a pass that acquires some variants and then releases a list, each material is released exactly as many times as it occurs in that list, whatever was acquired. |
| Materials.ReleaseCountOfRemovals | Scripts/UIParticle.cs:255-260 | Releasing a list releases each material as often as it occurs in it, and acquiring releases nothing. |
| Particle.UIParticle.ClearMaterials | Scripts/UIParticle.cs:239-251 | Everything held and everything waiting is released once from its own cache. The renderer is cleared, and nothing is held or waiting afterwards. |
| Particle.UIParticle.OnEnable | Scripts/UIParticle.cs:330-348 | The flags are cleared, the element is registered and the rented mesh is kept. Validity is kept. |
| Particle.UIParticle.OnDisable | Scripts/UIParticle.cs:372-383 | The element is unregistered and its mesh is handed back and forgotten. Every held variant is released once, the renderer is cleared, and validity is kept. |
| Particle.UIParticle.DisabledIsValid | Scripts/UIParticle.cs:372-383 | A disabled element that holds nothing, with nothing waiting, is in a valid state. |
| Particle.DelayToPlay | Scripts/UIParticle.cs:354-358 | Start delays play iff the search reaches a listed system with an active, playing system under it that has sub-emitters or prewarm, and only non-null entries lie before it. It faults iff a null entry comes before any such system, given that `AnyFast` passes null entries to the lambda. |
| Particle.StartSteps | Scripts/UIParticle.cs:354-366 | Start runs Stop, Clear, one yielded frame and Play, in that order, iff play is delayed. Otherwise it does nothing or faults. |
| Validator.IsValidConeShape | Scripts/UIParticle.Editor.cs:80-108 | A rejection carries exactly the rotation, shape rotation and shape scale as its detail. |
| Validator.ConeAcceptedIffPattern | Scripts/UIParticle.Editor.cs:80-108 | For an Euler x angle in [0, 360), a cone is accepted in exactly two cases. In the first, x is 90 or 270, y and z are 0, the shape rotation has x = z = 0 and the shape scale is (1, 0, 1). In the second, the rotation is zero, the shape rotation has y = 90 and z = 0, and the shape scale has x = 0. Otherwise it is rejected with its three vectors as detail. |
| Validator.PatternsExclusive | Scripts/UIParticle.Editor.cs:91-103 | No configuration matches both patterns. |
| Validator.Rem180 | Scripts/UIParticle.Editor.cs:91 | C#'s `x % 180f` keeps the sign of x, has magnitude below 180, is x itself when abs(x) < 180, and differs from x by a whole multiple of 180. |
| Validator.HeadingAngles | Scripts/UIParticle.Editor.cs:91 | For an Euler angle in [0, 360), the heading test holds iff the angle is 90 or 270. |
| Validator.Validate | Scripts/UIParticle.Editor.cs:29-78 | The validator as the code runs it. ValidateFollowsTable, ValidateReports, ValidateCompletes, ConeReported and TrailReported state what it adds and when it stops. |
| Validator.Report | Scripts/UIParticle.Editor.cs:29-78 | One AddError call adds one message iff its check fails. |
| Validator.ValidateFollowsTable | Scripts/UIParticle.Editor.cs:29-78 | The validator adds exactly the messages of the failing checks among those it reaches, in check order. It completes iff it reaches all twelve. |
| Validator.ValidateReports | Scripts/UIParticle.Editor.cs:29-78 | A message is added iff its check is reached and fails with that message. Messages come in strictly increasing check order, so no check adds two. |
| Validator.ValidateCompletes | Scripts/UIParticle.Editor.cs:34-47 | The validator throws iff there is no ParticleSystem component or no renderer. |
| Validator.NoSystemStopsEarly | Scripts/UIParticle.Editor.cs:31-38 | With no ParticleSystem component, only the raycast message can come before the throw. |
| Validator.ConeReported | Scripts/UIParticle.Editor.cs:59-64 | A cone message appears iff the run gets past the renderer, the shape is a cone and IsValidConeShape rejects it. It then carries that rejection's detail. |
| Validator.TrailReported | Scripts/UIParticle.Editor.cs:72-76 | A missing trail material is reported iff the run gets past the renderer, trails are enabled and the renderer has no trail material. |

## Left out

- Engine work is left out: the actual baking, CombineMeshes and RecalculateBounds. Geometry is the symbolic `Baked(owner, stream, camera)`, and a combined mesh is its list of sub-meshes with transforms.
- Matrix4x4 arithmetic is left out. Matrices are symbolic expressions whose meaning is a word over invertible atoms (rotations, scales, translations, worldToLocal). The atoms are assumed invertible, and the switch's unreachable default arm is left out.
- `Mathf.Approximately` on the inherited alpha and on lossyScale.z are boolean inputs. Floats in the cone-shape test are reals, and Vector3 `==` is the real squared distance below 1e-10, without float rounding.
- The engine's per-frame answers (whether the Source and canvas are present, IsAlive, particleCount, cameras, which bake or SetMesh throws) are a `FrameInput` per element. `Editing.Yes` and `Camera.current` together are one optional editing camera. The updater's `Time.frameCount` is a parameter of Refresh.
- MeshPool is not modelled. The rented scratch mesh in Refresh is the empty mesh each element starts from. `OnEnable` is given the rented mesh as a parameter, and `OnDisable` returns it.
- Profiler samples and log texts are left out. The log records only which element faulted and how.
- `UpdateMaterialProperties` and the property-block copying are engine plumbing and are left out, as are the scale setters, the `DrivenRectTransformTracker`, and MaskableGraphic's own OnEnable/OnDisable.
- The older `Validate` in Scripts/UIParticle.cs at lines 425-451 is left out. It depends on component collection that is not part of this model.
- Particle.UIParticle.UpdateMaterial: the renderer's shared materials, the sprite texture and the child systems are read from each `ParticleSystem` value. A renderer component is assumed present. `GetTextureForSprite`, `CountFast`, `SequenceEqualFast` and `AnyFast` are taken to do what their names say.
- Particle.DelayToPlay: `AnyFast` is not part of this model. It is taken to call its predicate on every entry, null ones included. The lambda at Scripts/UIParticle.cs:354-358 has no null check, so a null entry reached before a hit faults. If `AnyFast` skips null entries, as the slot loop does at line 206, that entry is passed over instead, and the fault case of DelayToPlay and StartSteps does not arise.
- Particle.StartSteps: the coroutine is a list of steps with one yielded frame. Timing beyond that, and Exec over the list, are left out.
- Validator.Validate: ShapeType is reduced to Cone or another shape. The renderer checks are not taken as failing when there is no renderer, because the code throws before it reaches them. The system name in messages is left out.
- Updater.Scheduler.Register and Updater.Scheduler.Unregister: the Unity assertions become preconditions, and the `_refresh` delegate is a subscription count.
- Updater.Scheduler.Refresh: it is modelled for the editor build, where the skip flag exists.
- Particle.UIParticle.ServeSystem, ServeMain, ServeTrail, ServeNext, ServeNextOf, AssignSlots, AcquireMaterials, AcquireThenRelease, RecalculateStencil, GiveBackHeld, AddStencilVariant, AddTextureVariant, ReleasePreviousMasks and ReleasePreviousModified split single source methods into steps. Updater.Scheduler.ServiceAt and Updater.Scheduler.Service do the same. They are not separate source operations.
