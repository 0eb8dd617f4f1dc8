# ReSTIR render passes: host-side model

This project models the host side of two Falcor render passes from a ReSTIR
(reservoir-based spatiotemporal importance resampling) renderer and proves
properties of that model in Dafny:

- **RestirInitTemporal** drives two ray-tracing stages per frame. The
  init+temporal stage runs first, then the spatial+finalize stage. The pass
  also keeps four per-pixel reservoir buffers across frames. It rebuilds its
  three stage records (program, shader binding table, variables) on every scene
  change. It keeps one-shot flags: a clear request from the UI and a request
  for fresh initial light samples.
- **Restir** is a single-stage path tracer. It adds light and resource-validity
  defines to its program every frame. It creates its variables once, binds its
  channels and launches one ray-tracing dispatch per frame.

Each pass is a class whose fields are the pass's state:
- frame flags and counter;
- the scene;
- the reservoir storage;
- the stage records.

Two more fields stand for the device:
- the next fresh buffer handle;
- `calls`, the log of calls the pass makes into the framework. These are texture
  clears, light-collection builds, variable creation, buffer creation and
  ray-tracing dispatches. Each dispatch carries the variables it was given.

The methods follow the source functions one for one. Each method's `ensures`
ties the new state and the new calls to specification functions. Lemmas then
prove what those functions promise over one frame and over several frames.

Modules:
- `Falcor`: the framework as values. This covers 32-bit unsigned arithmetic,
  `std::to_string`, render data, scenes, binding tables, programs and their
  defines, program variables, and the call log.
- `Channels`: the channel loops both passes share. These bind channels to
  shader variables, compute the `is_valid_*` defines and clear the outputs when
  no scene is bound.
- `RestirInitTemporal` and `RestirInitTemporalProperties`: the two-stage pass.
- `Restir` and `RestirProperties`: the single-stage pass.

Behaviour the code has and the model keeps:
- The counter `mFrameCount` is a 32-bit `uint`, so it wraps to 0 after
  2^32 - 1. `setScene` does not reset it, so it counts from construction, not
  from the last scene change.
- `allocateReservoir` reallocates whenever the size differs from the one stored
  last. A window going from size A to B and back to A therefore allocates three
  times. It does not allocate once per distinct size.
- Reallocating does not set the clear request. The first frame after a resize
  still passes `gClearBuffers` as it was.
- In RestirInitTemporal, `execute` guards `prepareVars` with
  `mTracerTemporal.pVars`. No reachable code builds the temporal stage record
  (`prepareTemporalProgram` is never called), and no code creates its
  variables (`prepareVars` leaves it out). So every frame does the following:
  - creates the variables of all three stages anew;
  - adds the sample generator's defines to the three programs again.
- In Restir, `execute` adds its defines to the program on every frame. Adding
  the same defines again changes nothing (`RestirProperties.FrameProgramIdempotent`).
  The variables are created on the first frame only (`RestirProperties.TwoFrames`).

Inputs of the model:
- The framework's shader reflection (`var.hasMember`) and the sample
  generator's defines are parameters of the constructor.
- Restir's bounce limit is also a constructor parameter.
- Scenes and render data are plain values.

## Model

| member | source | states |
|---|---|---|
| Falcor.WrapIncrement | Source/RenderPasses/RestirInitTemporal/RestirInitTemporal.cpp:204 | `++` on a 32-bit `uint`: the result is (x + 1) mod 2^32, so 2^32 - 1 wraps to 0 |
| Falcor.WrapMultiply | Source/RenderPasses/RestirInitTemporal/RestirInitTemporal.cpp:609 | the element count `bufferX * bufferY` is the product mod 2^32, and equals the true product whenever that fits in 32 bits |
| Falcor.DecimalString | Source/RenderPasses/Restir/Restir.cpp:97 | `std::to_string` of the bounce limit is a non-empty string of decimal digits with no leading zero (except for 0 itself) |
| Falcor.DigitChar | Source/RenderPasses/Restir/Restir.cpp:97 | each digit of `std::to_string` is a character '0'..'9' |
| Falcor.DecimalRoundTrip | Source/RenderPasses/Restir/Restir.cpp:97 | reading the MAX_BOUNCES define back as a decimal number gives the bounce limit |
| Falcor.DecimalStringInjective | Source/RenderPasses/Restir/Restir.cpp:97 | different bounce limits give different MAX_BOUNCES values |
| Falcor.GetTexture | Source/RenderPasses/RestirInitTemporal/RestirInitTemporal.cpp:159 | `getTexture(name)` returns a texture exactly when the graph supplies that channel, and then the one it supplies (null otherwise) |
| Falcor.Scene.GeometryIDs | Source/RenderPasses/RestirInitTemporal/RestirInitTemporal.cpp:279 | `getGeometryIDs(TriangleMesh)` holds exactly the IDs whose geometry is a triangle mesh |
| Falcor.CreateTable | Source/RenderPasses/RestirInitTemporal/RestirInitTemporal.cpp:273 | `RtBindingTable::create(m, r, g)` has m miss slots, r ray types and g geometries, and no miss shader or hit group assigned yet |
| Falcor.SetRayGen | Source/RenderPasses/RestirInitTemporal/RestirInitTemporal.cpp:276 | after `setRayGen(entry)` the table's ray-generation entry is `entry`; its shape (miss count, ray types, geometry count) and every miss and hit-group entry are as before; a valid table stays valid |
| Falcor.SetMiss | Source/RenderPasses/RestirInitTemporal/RestirInitTemporal.cpp:277-278 | miss slot i then names the given entry; other miss slots, every hit group and the table shape are unchanged |
| Falcor.SetHitGroup | Source/RenderPasses/RestirInitTemporal/RestirInitTemporal.cpp:279-282 | for that ray type each listed geometry gets the hit group and every other geometry keeps its own; other ray types and the misses are unchanged |
| Falcor.AddDefine | Source/RenderPasses/Restir/Restir.cpp:97-103 | after `addDefine(name, value)` the defined names are the old ones plus `name`, `name` reads back as `value`, every other define keeps its value, and the shader file and the payload and recursion budgets are kept |
| Falcor.AddDefineIsMerge | Source/RenderPasses/Restir/Restir.cpp:97-103 | adding one define is the same as merging the one-entry map with `addDefines` |
| Falcor.AddDefines | Source/RenderPasses/RestirInitTemporal/RestirInitTemporal.cpp:173-176 | `addDefines(d)` merges: the program then has the old keys and those of d; the values from d win and the other old values are kept |
| Channels.BindChannels | Source/RenderPasses/RestirInitTemporal/RestirInitTemporal.cpp:244-253 | the channel loop binds the channels one after another in list order, and touches neither the uniforms nor the member set |
| Channels.BoundKeepsUniforms | Source/RenderPasses/RestirInitTemporal/RestirInitTemporal.cpp:246-252 | binding channels never changes the constant-buffer values or the members |
| Channels.BoundMeaning | Source/RenderPasses/RestirInitTemporal/RestirInitTemporal.cpp:248-250 | each channel with a shader variable (that is also a member, when membership is tested) is bound to the graph's texture for it, or to null when the graph lacks it |
| Channels.BoundKeepsOthers | Source/RenderPasses/RestirInitTemporal/RestirInitTemporal.cpp:248 | a variable that no binding channel names keeps its old binding, or stays unbound |
| Channels.BoundConcat | Source/RenderPasses/Restir/Restir.cpp:123-130 | binding the inputs and then the outputs is binding their concatenation in order |
| Channels.ValidDefineNameInjective | Source/RenderPasses/RestirInitTemporal/RestirInitTemporal.cpp:173 | different shader variables get different `is_valid_` define names |
| Channels.ValidResourceDefinesMeaning | Source/RenderPasses/RestirInitTemporal/RestirInitTemporal.cpp:173 | the validity defines are one define per channel with a shader variable and no other; each is "1" exactly when the graph supplies that channel, else "0" |
| Channels.ValidResourceDefinesConcat | Source/RenderPasses/Restir/Restir.cpp:105-106 | adding the input validity defines and then the output ones gives the defines of both lists together |
| Channels.ClearOutputs | Source/RenderPasses/RestirInitTemporal/RestirInitTemporal.cpp:157-164 | the clear loop issues the clears of `ClearEvents`: one per listed output the graph supplies, in list order |
| Channels.ClearEventsMeaning | Source/RenderPasses/RestirInitTemporal/RestirInitTemporal.cpp:157-164 | without a scene only clears are issued, and they clear exactly the supplied output textures |
| RestirInitTemporal.InitSamplesAndTemporalTable | Source/RenderPasses/RestirInitTemporal/RestirInitTemporal.cpp:273-282 | init+temporal table: 2 misses (0 shadowMiss, 1 indirectMiss) and 2 ray types over all geometries; ray 0 uses ("", shadowAnyHit) and ray 1 uses (indirectClosestHit, indirectAnyHit) on triangle meshes; everything else is empty |
| RestirInitTemporal.ShadowOnlyTable | Source/RenderPasses/RestirInitTemporal/RestirInitTemporal.cpp:304-309 | spatial and finalize table: 1 miss (shadowMiss) and 1 ray type; ("", shadowAnyHit) on triangle meshes; everything else is empty |
| RestirInitTemporal.AllocateEstablishes | Source/RenderPasses/RestirInitTemporal/RestirInitTemporal.cpp:601-609 | after allocation the storage has the requested size, four buffers of width*height (32-bit) elements, and needs no further allocation; when it did allocate, the four handles are distinct and none is a handle of the storage they replace |
| RestirInitTemporal.AllocateIdempotent | Source/RenderPasses/RestirInitTemporal/RestirInitTemporal.cpp:603-606 | a second `allocateReservoir` with the same size changes nothing and creates nothing |
| RestirInitTemporal.SpatialVarsIgnoreInitLights | Source/RenderPasses/RestirInitTemporal/RestirInitTemporal.cpp:363-372 | the spatial+finalize stage's variables do not depend on the initial-samples flag (so clearing it before that stage changes nothing) |
| RestirInitTemporal.RestirInitTemporalPass.constructor | Source/RenderPasses/RestirInitTemporal/RestirInitTemporal.h:88-95 | initial state: no clear pending, initial samples requested, the four toggles on, counter 0, size (0, 0), no buffers, every stage record null |
| RestirInitTemporal.RestirInitTemporalPass.Compile | Source/RenderPasses/RestirInitTemporal/RestirInitTemporal.h:48 | `compile` changes nothing |
| RestirInitTemporal.RestirInitTemporalPass.OnMouseEvent | Source/RenderPasses/RestirInitTemporal/RestirInitTemporal.h:52 | the mouse handler never consumes an event |
| RestirInitTemporal.RestirInitTemporalPass.OnKeyEvent | Source/RenderPasses/RestirInitTemporal/RestirInitTemporal.h:53 | the keyboard handler never consumes an event |
| RestirInitTemporal.RestirInitTemporalPass.RenderUI | Source/RenderPasses/RestirInitTemporal/RestirInitTemporal.cpp:214-221 | the Clear Buffers button sets the clear request and the initial-samples request, but only when no clear is pending; otherwise nothing changes |
| RestirInitTemporal.RestirInitTemporalPass.SetScene | Source/RenderPasses/RestirInitTemporal/RestirInitTemporal.cpp:224-230 | the scene is stored, initial samples are requested, and the three stage records are rebuilt for it (null without a scene); the counter and the reservoirs are kept |
| RestirInitTemporal.RestirInitTemporalPass.PrepareInitSamplesAndTemporalProgram | Source/RenderPasses/RestirInitTemporal/RestirInitTemporal.cpp:256-286 | the init record is reset, then rebuilt with RestirInitialSamples.rt.slang, payload 96, depth 2, the scene defines and its table; initial samples are requested |
| RestirInitTemporal.RestirInitTemporalPass.PrepareSpatialResamplingAndFinalizeProgram | Source/RenderPasses/RestirInitTemporal/RestirInitTemporal.cpp:288-313 | the spatial record is reset, then rebuilt with RestirSpatial.rt.slang and the shadow-only table |
| RestirInitTemporal.RestirInitTemporalPass.PrepareCopyTemporalProgram | Source/RenderPasses/RestirInitTemporal/RestirInitTemporal.cpp:315-340 | the finalize record is reset, then rebuilt with RestirFinalize.rt.slang and the shadow-only table |
| RestirInitTemporal.RestirInitTemporalPass.PrepareVars | Source/RenderPasses/RestirInitTemporal/RestirInitTemporal.cpp:738-753 | for init, spatial and finalize in that order: sample-generator defines added and fresh variables created; the other records are untouched |
| RestirInitTemporal.RestirInitTemporalPass.AllocateReservoir | Source/RenderPasses/RestirInitTemporal/RestirInitTemporal.cpp:601-694 | allocates exactly when nothing is stored or the size differs; then stores the size and creates the two temporal and two spatial buffers of width*height elements, in that order |
| RestirInitTemporal.RestirInitTemporalPass.ExecuteInitSamplesAndTemporalProgram | Source/RenderPasses/RestirInitTemporal/RestirInitTemporal.cpp:342-361 | writes the counter, initial-samples, temporal and clear flags; binds the inputs (members only) and the four buffers; dispatches over (w, h, 1); then clears the initial-samples request |
| RestirInitTemporal.RestirInitTemporalPass.ExecuteSpatialResamplingAndFinalizeProgram | Source/RenderPasses/RestirInitTemporal/RestirInitTemporal.cpp:363-385 | writes the counter, spatial, direct, indirect and clear flags; binds the inputs, the outputs and the four buffers; dispatches over (w, h, 1) |
| RestirInitTemporal.RestirInitTemporalPass.PrepareFrame | Source/RenderPasses/RestirInitTemporal/RestirInitTemporal.cpp:168-182 | builds the light collection when the render settings use emissive lights, adds the input validity defines to the three programs, and rebuilds the variables every frame |
| RestirInitTemporal.RestirInitTemporalPass.DispatchFrame | Source/RenderPasses/RestirInitTemporal/RestirInitTemporal.cpp:184-189 | sizes the reservoirs for the output, then runs both stages with the frame's flags as they were at its start, and clears the clear request |
| RestirInitTemporal.RestirInitTemporalPass.Execute | Source/RenderPasses/RestirInitTemporal/RestirInitTemporal.cpp:153-205 | without a scene: only the output clears, and no state change. With one: the frame's calls are `FrameEvents`, the reservoirs are `Allocate`d, the three programs gain the validity and sample-generator defines, the binding tables and the temporal and update-shade records are unchanged, the finalize variables are fresh, the init and spatial variables are fresh and then bound by `InitDispatchVars` and `SpatialDispatchVars` with the old frame state, the new reservoirs and the frame's textures, and the frame state becomes `FrameAfterExecute` (counter + 1 with wrap, no clear and no initial samples pending) |
| RestirInitTemporalProperties.UnboundFrameOnlyClears | Source/RenderPasses/RestirInitTemporal/RestirInitTemporal.cpp:155-166 | a frame without a scene issues no dispatch and exactly one clear, of outputColor, when the graph supplies it |
| RestirInitTemporalProperties.FrameCallOrder | Source/RenderPasses/RestirInitTemporal/RestirInitTemporal.cpp:168-188 | a frame with a scene makes calls in this order: the optional light collection; variable creation for init, spatial and finalize; the buffer creations; then exactly two dispatches over (w, h, 1), init+temporal first and spatial+finalize second, as the last two calls |
| RestirInitTemporalProperties.DispatchesShareFrameState | Source/RenderPasses/RestirInitTemporal/RestirInitTemporal.cpp:342-372 | both dispatches receive the same gFrameCount and gClearBuffers (the values at the start of the frame); each stage gets its own toggles, and init gets gInitialSamples |
| RestirInitTemporalProperties.DispatchesBindReservoirs | Source/RenderPasses/RestirInitTemporal/RestirInitTemporal.cpp:352-381 | both dispatches bind all four reservoir buffers of the current storage |
| RestirInitTemporalProperties.InitDispatchBindsInputs | Source/RenderPasses/RestirInitTemporal/RestirInitTemporal.cpp:350 | the init dispatch binds each input its program declares to the graph's texture (or null) and leaves undeclared inputs unbound |
| RestirInitTemporalProperties.ClearRequestConsumedOnce | Source/RenderPasses/RestirInitTemporal/RestirInitTemporal.cpp:214-221 | a clear request reaches the next frame and is gone after it; pressing the button again while one is pending changes nothing |
| RestirInitTemporalProperties.SceneChangeRestartsSamples | Source/RenderPasses/RestirInitTemporal/RestirInitTemporal.cpp:224-227 | after `setScene` the next init dispatch asks for initial samples and the one after does not; the counter is not reset |
| RestirInitTemporalProperties.RunFramesCounter | Source/RenderPasses/RestirInitTemporal/RestirInitTemporal.cpp:189-204 | after n frames the counter has advanced by n mod 2^32; after at least one frame no clear and no initial samples are pending; the toggles never change |
| RestirInitTemporalProperties.FramesFromStart | Source/RenderPasses/RestirInitTemporal/RestirInitTemporal.h:88-95 | from the initial values, frame n sees counter n mod 2^32, and only frame 0 asks for initial samples |
| RestirInitTemporalProperties.AllocatedForLast | Source/RenderPasses/RestirInitTemporal/RestirInitTemporal.cpp:608 | after `allocateReservoir(x, y)` the stored size is (x, y) and buffers exist |
| RestirInitTemporalProperties.AllocatedForLastOfAll | Source/RenderPasses/RestirInitTemporal/RestirInitTemporal.cpp:603-608 | after a sequence of sizes the storage holds buffers for the last one |
| RestirInitTemporalProperties.EveryResizeReallocates | Source/RenderPasses/RestirInitTemporal/RestirInitTemporal.cpp:603-606 | when each size differs from the one before, every frame creates four new buffers |
| RestirInitTemporalProperties.SameSizeAllocatesOnce | Source/RenderPasses/RestirInitTemporal/RestirInitTemporal.cpp:603-606 | repeating one size creates buffers at most once, on the first request |
| RestirInitTemporalProperties.ResizeBackAndForth | Source/RenderPasses/RestirInitTemporal/RestirInitTemporal.cpp:603-606 | sizes A, B, A from empty storage mean three allocations and twelve buffers |
| RestirInitTemporalProperties.SceneChangeThenTwoFrames | Source/RenderPasses/RestirInitTemporal/RestirInitTemporal.cpp:153-205 | on the pass object, `setScene` then two frames at one size: the first init dispatch asks for initial samples and the second does not; the second frame creates no buffers; the counter advances twice from its old value |
| RestirInitTemporalProperties.FirstDispatchFlags | Source/RenderPasses/RestirInitTemporal/RestirInitTemporal.cpp:346 | the init dispatch is the second-to-last call of the frame and carries the frame's initial-samples request |
| RestirInitTemporalProperties.NoCreationsWhenSized | Source/RenderPasses/RestirInitTemporal/RestirInitTemporal.cpp:184-185 | a frame whose storage already has the output size creates no buffer |
| Restir.RestirTable | Source/RenderPasses/Restir/Restir.cpp:160-174 | table: 2 misses (0 scatterMiss, 1 shadowMiss) and 2 ray types over all geometries; ray 0 uses (scatterTriangleMeshClosestHit, scatterTriangleMeshAnyHit) and ray 1 uses ("", shadowTriangleMeshAnyHit) on triangle meshes; everything else is empty |
| Restir.LightDefinesMeaning | Source/RenderPasses/Restir/Restir.cpp:97-103 | the light defines are exactly MAX_BOUNCES and the four USE_ defines; each USE_ define is "1" when the scene's query holds and "0" otherwise; MAX_BOUNCES reads back as the bounce limit |
| Restir.LightDefinesNotValidity | Source/RenderPasses/Restir/Restir.cpp:97-106 | no light define shares a name with a validity define |
| Restir.FrameProgramMerged | Source/RenderPasses/Restir/Restir.cpp:97-106 | one frame's defines are the old defines, then the light defines, then the validity defines of all the pass's channels |
| Restir.FrameProgramLightDefines | Source/RenderPasses/Restir/Restir.cpp:97-106 | after the frame's defines each USE_ define is "1" when the scene's query holds and "0" otherwise, and MAX_BOUNCES reads back as the bounce limit |
| Restir.FrameProgramValidityDefines | Source/RenderPasses/Restir/Restir.cpp:105-106 | after the frame's defines every channel's `is_valid_` define is "1" exactly when the graph supplies the channel |
| Restir.DispatchVarsMeaning | Source/RenderPasses/Restir/Restir.cpp:113-130 | the dispatch variables have gFrameCount written; every input and output is bound (without a membership test) to its texture or null; everything else is as before |
| Restir.RestirPass.constructor | Source/RenderPasses/Restir/Restir.cpp:55-60 | a new pass has no scene, a null stage record and counter 0 |
| Restir.RestirPass.RenderUI | Source/RenderPasses/Restir/Restir.cpp:138-140 | `renderUI` changes nothing |
| Restir.RestirPass.SetScene | Source/RenderPasses/Restir/Restir.cpp:142-177 | the record is reset, then rebuilt with Restir.rt.slang, payload 72, depth 2, the scene defines and its table (null without a scene); the counter is kept |
| Restir.RestirPass.PrepareVars | Source/RenderPasses/Restir/Restir.cpp:212-221 | adds the sample generator's defines, creates the variables and logs their creation |
| Restir.RestirPass.AddFrameDefines | Source/RenderPasses/Restir/Restir.cpp:97-106 | the five single defines and the two validity merges give the program `FrameProgram`; nothing else of the record changes |
| Restir.RestirPass.Execute | Source/RenderPasses/Restir/Restir.cpp:77-136 | without a scene: only the output clear, and no state change. With one: the program is `FrameProgram` (plus the sample-generator defines when the variables were null), the variables are created only when null and then bound by `DispatchVars` with the old counter, the calls are `FrameEvents`, and the counter is incremented with wrap |
| RestirProperties.UnboundFrameOnlyClears | Source/RenderPasses/Restir/Restir.cpp:79-90 | a frame without a scene issues no dispatch and exactly one clear, of color, when the graph supplies it |
| RestirProperties.FrameCallOrder | Source/RenderPasses/Restir/Restir.cpp:92-135 | a frame with a scene launches once, as its last call, over (w, h, 1); it creates variables exactly when they were null, and builds the light collection exactly when the render settings use emissive lights |
| RestirProperties.FrameProgramIdempotent | Source/RenderPasses/Restir/Restir.cpp:97-106 | adding one frame's defines again, with the same scene and inputs, leaves the program unchanged |
| RestirProperties.DispatchVarsRebind | Source/RenderPasses/Restir/Restir.cpp:113-130 | the variables kept from the last frame and bound again equal freshly bound ones: a launch depends only on this frame's counter and textures |
| RestirProperties.TwoFrames | Source/RenderPasses/Restir/Restir.cpp:108-111 | on the pass object, of two frames with a scene only the first may create the variables and the second never does; each ends with its launch; the counter advances twice |

## Left out

- GPU work is not modelled. The shader code, the reservoir resampling, and what the dispatches read and write are outside the model. A dispatch is a logged call together with the variables it was given.
- Building the light collection (`getLightCollection`) is logged as one call. Its internals are framework code and not part of this model.
- Parts of program creation are left out: shader modules, the maximum attribute size, entry-point registration on the program description, and `setTypeConformances`. The entry names do appear in the binding tables. The scene's defines are a field of the scene value.
- The sample generator is reduced to its defines. `bindShaderData` is not modelled because it writes sample-generator state only.
- Buffer creation keeps the handle, the element count and the variable whose layout gives the stride. Bind flags, memory type and the stride value come from shader reflection and are not modelled.
- `renderUI` of RestirInitTemporal: only the Clear Buffers button is modelled. The four checkboxes are UI input, so the toggles stay as constructed. The properties show that frames never change them.
- `getProperties`, `reflect`, `registerPlugin` and Restir's `parseProperties` (an empty loop) are left out. They do not change the pass state.
- The four-stage functions of RestirInitTemporal (`executeInitSamples`, `prepareInitSamplesProgram`, `executeTemporal`, `prepareTemporalProgram`, `executeSpatial`, `prepareSpatialProgram`, `executeFinalize`, `prepareFinalizeProgram`) and `executeCopyTemporalProgram` are left out. `execute` never calls them. The update-shade record is never built and stays null.
- Restir.h is not part of this model:
  - the bounce limit `mMaxBounces` is a constructor parameter;
  - `mFrameCount` is taken as a 32-bit unsigned counter starting at 0;
  - Restir's `compile` and event handlers are not modelled.
- `getValidResourceDefines` and `getDefaultTextureDims` live in framework headers that are not part of this model:
  - the first becomes one `is_valid_<texname>` define per channel that has a shader variable, with value "1" or "0";
  - the second becomes the width and height of the render data.
- Shader reflection is not checked on writes. The model assumes that every constant-buffer field and resource name the passes write is declared by the shader: the uniforms of both passes, the four reservoir buffers of RestirInitTemporal, and Restir's channels, which it binds without a membership test. Writing a name the shader does not declare is an error inside the framework and is not modelled.
- Reference-counted pointers are not modelled. Each stage record is a value held in one field (RestirInitTemporal groups its five records in one `Tracers` field). So aliasing between records is not represented, and neither is a record's program being shared with its variables.
- RestirInitTemporal.RestirInitTemporalPass.PrepareFrame and RestirInitTemporal.RestirInitTemporalPass.DispatchFrame are not source functions. They are the halves of `execute` (light collection, defines and variables; then allocation and the two stages), split out to keep the proofs small.
- Restir.RestirPass.AddFrameDefines is not a source function. It is the define block of `execute`, split out for the same reason.
