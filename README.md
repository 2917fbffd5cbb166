# ComputePathTracer render pass: per-frame orchestration

This project models the core of the `ComputePathTracer` render pass: the host-side state machine that drives a path tracer with two caches.

- The **radiance hash cache** ("RHC") is a hashed voxel grid with two voxel-data buffers. The buffers swap the current and previous roles every frame.
- The **neural cache** ("NN") is a small network that trains online. It keeps a primal and a filtered copy of its weights.

In each frame the pass can do the following:

- parse or serialise its properties;
- reset its lazily created resources;
- when its options have changed, decide which cache is active and create the samplers, GPU buffers and compute passes those caches need;
- bind shader variables;
- dispatch a fixed schedule of compute passes.

The GPU work is opaque. A frame yields a trace of `Dispatch` records. Each record has a pass role, its thread counts and the shader variables bound on the pass. That makes order, counts, flag clearing and buffer roles statable.

Modules:

- `TracerState` (state.dfy) holds the state as values:
  - the settings reachable through properties;
  - the members of the cache and network parameter structs that the pass reads;
  - the `mBuffers` and `mPasses` slot tables;
  - the 32-bit frame counter;
  - the `Tracer` snapshot of the whole render pass.
- `PropertyParsing` (properties.dfy) holds `parseProperties` as a fold over the property dictionary, and `getProperties`. Its lemmas cover last-write-wins, unknown keys, a value of the wrong kind, and reading back serialised properties.
- `Lifecycle` (lifecycle.dfy) holds the constructor, `reset`, `setProperties`, `setScene`, activation, `setupData`, `createPasses`, `setupBuffers` and the whole options rebuild of `execute`.
- `FrameSchedule` (schedule.dfy) holds the shader variables set by `bindData`, the dispatch trace of `execute`, and `execute` itself over time: the `Ready` invariant, the one-shot reset flags and the counters.
- `ComputePathTracerPass` (tracer.dfy) holds the render pass as a class:
  - the fields are those the source mutates;
  - `mBuffers` and `mPasses` are arrays, nulled in loops and filled slot by slot;
  - the parsing loop and the four-step training loop are `while`/`for` loops;
  - every method is proved against the function over `Tracer` that models it.

The class implements `setProperties` and `setScene` as corrected under "## Findings". The as-written versions are kept as functions, each with a lemma that exhibits the defect.

Three behaviours of the code that the model keeps:

- The code's `parseProperties` does not recognise `RRProbStartValue` or `RRProbReductionFactor`, although `getProperties` writes both.
- The exponent property is named `RHCHashMapSizeExponent` (line 44).
- `hashMapSize` is derived from its exponent only when the exponent property is parsed. Nothing rederives it when a rebuild applies the options.

## Model

| member | source | states |
|---|---|---|
| TracerState.Pow2 | Source/RenderPasses/ComputePathTracer/ComputePathTracer.cpp:72 | `std::pow(2u, e)` as an exact power: at least 1, and even for a positive exponent |
| TracerState.Pow2Add | Source/RenderPasses/ComputePathTracer/ComputePathTracer.cpp:72 | powers of two multiply by adding exponents: `Pow2(a + b) == Pow2(a) * Pow2(b)`, so `Pow2(e + 1) == 2 * Pow2(e)` and `Pow2` is the exact power `2^e` |
| TracerState.Inc32 | Source/RenderPasses/ComputePathTracer/ComputePathTracer.cpp:522 | `mFrameCount++` on an unsigned 32-bit counter: the successor below 2^32 - 1, and 0 after it |
| TracerState.Settings.Get | Source/RenderPasses/ComputePathTracer/ComputePathTracer.cpp:59-80 | every key reads as a value of the kind its member converts from |
| TracerState.BufferIndex | Source/RenderPasses/ComputePathTracer/ComputePathTracer.cpp:289-302 | every buffer kind has a slot inside the nine-slot `mBuffers` |
| TracerState.PassIndex | Source/RenderPasses/ComputePathTracer/ComputePathTracer.cpp:195-270 | every pass role has a slot inside the eight-slot `mPasses` |
| TracerState.EmptyTables | Source/RenderPasses/ComputePathTracer/ComputePathTracer.cpp:103-105 | every slot of the nulled buffer and pass tables is null |
| PropertyParsing.LookUpKey | Source/RenderPasses/ComputePathTracer/ComputePathTracer.cpp:61-80 | the if/else chain finds a key exactly for that key's property name, and no key for any other name |
| PropertyParsing.LookUpKeyName | Source/RenderPasses/ComputePathTracer/ComputePathTracer.cpp:34-49 | the fourteen recognised names are distinct: each name is found as its own key |
| PropertyParsing.ApplyKey | Source/RenderPasses/ComputePathTracer/ComputePathTracer.cpp:61-79 | a value of the key's kind writes exactly that key and keeps the RR floats. The exponent also sets `hashMapSize = 2^e`, and no other key changes the size. A value of another kind throws |
| PropertyParsing.ApplyProperty | Source/RenderPasses/ComputePathTracer/ComputePathTracer.cpp:59-80 | one loop iteration takes the warning branch exactly when the name is unknown |
| PropertyParsing.UnknownNames | Source/RenderPasses/ComputePathTracer/ComputePathTracer.cpp:80 | every name collected for a warning is unknown to the chain |
| PropertyParsing.ParseStepWellKinded | Source/RenderPasses/ComputePathTracer/ComputePathTracer.cpp:59-80 | a well-kinded entry never throws. It warns exactly when its name is unknown, writes its value under the key it names and nowhere else, and rederives the size only for the exponent |
| PropertyParsing.WellKindedNeverThrows | Source/RenderPasses/ComputePathTracer/ComputePathTracer.cpp:57-81 | a well-kinded dictionary parses without throwing and warns once per unknown key, in order |
| PropertyParsing.LastWriteWins | Source/RenderPasses/ComputePathTracer/ComputePathTracer.cpp:57-81 | after parsing, every key holds the last value written under its name, or what it held |
| PropertyParsing.ParsingKeepsUnkeyed | Source/RenderPasses/ComputePathTracer/ComputePathTracer.cpp:69-73 | parsing keeps the RR floats. `hashMapSize` is kept unless the exponent is written, and then equals 2^exponent |
| PropertyParsing.ParsingKeepsSizeDerived | Source/RenderPasses/ComputePathTracer/ComputePathTracer.cpp:69-73 | `hashMapSize == 2^hashMapSizeExp` is preserved by parsing any dictionary, because the exponent line is the only place either changes |
| PropertyParsing.ParsingKeepsComplete | Source/RenderPasses/ComputePathTracer/ComputePathTracer.cpp:57-81 | parsing never leaves a member without a value of its kind |
| PropertyParsing.WrongKindStops | Source/RenderPasses/ComputePathTracer/ComputePathTracer.cpp:57-81 | the first value of the wrong kind ends parsing. The entries before it stay applied, its name is reported, and later entries have no effect |
| PropertyParsing.ThrowStops | Source/RenderPasses/ComputePathTracer/ComputePathTracer.cpp:57-81 | once a conversion has thrown, the rest of the dictionary does not change the outcome |
| PropertyParsing.UnknownKeysIgnored | Source/RenderPasses/ComputePathTracer/ComputePathTracer.cpp:80 | a dictionary of unknown names changes no setting and warns once per name, in order |
| PropertyParsing.RRFloatKeysUnknown | Source/RenderPasses/ComputePathTracer/ComputePathTracer.cpp:125-126 | the two RR float names that getProperties writes are unknown to parseProperties |
| PropertyParsing.GetProperties | Source/RenderPasses/ComputePathTracer/ComputePathTracer.cpp:115-134 | getProperties writes fifteen entries |
| PropertyParsing.GetPropertiesAt | Source/RenderPasses/ComputePathTracer/ComputePathTracer.cpp:118-132 | entries 7 and 8 are the RR floats under unknown names. Every other entry is a key under its own name, with the value the settings hold |
| PropertyParsing.GetPropertiesWarnings | Source/RenderPasses/ComputePathTracer/ComputePathTracer.cpp:115-134 | the only names in getProperties that parseProperties warns about are `RRProbStartValue` and `RRProbReductionFactor`, in that order |
| PropertyParsing.GetPropertiesWritten | Source/RenderPasses/ComputePathTracer/ComputePathTracer.cpp:115-134 | getProperties writes every key except the light BVH options exactly once, with its value |
| PropertyParsing.GetPropertiesWellKinded | Source/RenderPasses/ComputePathTracer/ComputePathTracer.cpp:115-134 | every value getProperties writes has the kind its key converts from |
| PropertyParsing.GetThenParse | Source/RenderPasses/ComputePathTracer/ComputePathTracer.cpp:57-134 | parsing getProperties into any settings never throws and warns about the two RR floats only. It restores every serialised key. It keeps the light BVH options and RR floats of the target, and sets `hashMapSize` to 2^(restored exponent) |
| PropertyParsing.GetThenParseIdentity | Source/RenderPasses/ComputePathTracer/ComputePathTracer.cpp:57-134 | on complete settings whose size agrees with the exponent, parsing getProperties back is the identity |
| Lifecycle.Construct | Source/RenderPasses/ComputePathTracer/ComputePathTracer.cpp:83-89 | the constructor yields an object exactly when parsing the creation dictionary does not throw. The object has the parsed settings, the options pending, no scene, frame 0 and nothing created |
| Lifecycle.RetainedSettingsDiffer | Source/RenderPasses/ComputePathTracer/ComputePathTracer.cpp:96-99 | the settings after reset differ from those before at most in the light BVH options, which become the emissive sampler's when one exists |
| Lifecycle.ResetClears | Source/RenderPasses/ComputePathTracer/ComputePathTracer.cpp:91-106 | after reset the frame and step counters are 0 and the samplers, sampler block, buffers and passes are null. All other members are kept, except the retained settings |
| Lifecycle.ResetIdempotent | Source/RenderPasses/ComputePathTracer/ComputePathTracer.cpp:91-106 | resetting twice is resetting once |
| Lifecycle.SetPropertiesOutcome | Source/RenderPasses/ComputePathTracer/ComputePathTracer.cpp:108-113 | as written, setProperties returns exactly when parsing does not throw. It then leaves the reset state with the options pending and every parsed key except the light BVH options. A throwing call changes only the settings written before the bad entry |
| Lifecycle.SetPropertiesRetainsSampler | Source/RenderPasses/ComputePathTracer/ComputePathTracer.cpp:108-113 | as written, while an emissive sampler exists, setProperties ends with the sampler's light BVH options, not the parsed ones |
| Lifecycle.SetPropertiesLosesOptions | Source/RenderPasses/ComputePathTracer/ComputePathTracer.cpp:108-113 | concrete case: the sampler runs with options 1 and options 2 are parsed. Parsing yields 2, and setProperties leaves 1 |
| Lifecycle.SetPropertiesForwardingOutcome | Source/RenderPasses/ComputePathTracer/ComputePathTracer.cpp:108-113 | corrected setProperties: every parsed setting survives the reset, the light BVH options included. It otherwise ends as reset does, with the options pending. The throwing case is as written |
| Lifecycle.SetSceneState | Source/RenderPasses/ComputePathTracer/ComputePathTracer.cpp:658-663 | as written, setScene records the scene, empties every slot, zeroes the frame counter, and leaves the options flag as it was |
| Lifecycle.SetSceneRebuild | Source/RenderPasses/ComputePathTracer/ComputePathTracer.cpp:651-663 | corrected setScene, like the "Reload shader" button: it records the scene, empties every slot, and sets the options flag |
| Lifecycle.FillBuffersAt | Source/RenderPasses/ComputePathTracer/ComputePathTracer.cpp:287-303 | after the first n buffer statements of setupData, a filled slot is unchanged. An empty slot that has been reached and is wanted holds its specified buffer |
| Lifecycle.SetupDataSlots | Source/RenderPasses/ComputePathTracer/ComputePathTracer.cpp:287-303 | setupData never replaces a buffer. An empty slot receives a buffer exactly when its component wants it. The buffer is sized from the state setupData leaves: 8-byte entries times `hashMapSize`; `16*hashMapSize` bytes per voxel buffer; `4*nnParamCount` bytes for the weight and gradient buffers; `4*gradientAuxElements` bytes; `featureHashMapSize / placesPerElement` entries |
| Lifecycle.SetupDataSamplers | Source/RenderPasses/ComputePathTracer/ComputePathTracer.cpp:275-286 | setupData creates the environment map sampler when the scene has an environment light. It creates the emissive sampler, with the parsed options, when emissive lights are on. Existing samplers stay |
| Lifecycle.SetupDataKeeps | Source/RenderPasses/ComputePathTracer/ComputePathTracer.cpp:273-304 | setupData changes only the samplers, the buffers and, with the network active, `gradientAuxElements = 4 * nnParamCount` |
| Lifecycle.SetupBuffersSpec | Source/RenderPasses/ComputePathTracer/ComputePathTracer.cpp:306-312 | setupBuffers needs the path tracing pass unless the block exists. It leaves the sampler block present and changes nothing else |
| Lifecycle.FillPassesAt | Source/RenderPasses/ComputePathTracer/ComputePathTracer.cpp:195-270 | after the first n statements of createPasses, a pass exists exactly when it existed, or has been reached and is wanted |
| Lifecycle.CreatePassesSlots | Source/RenderPasses/ComputePathTracer/ComputePathTracer.cpp:195-270 | after createPasses a pass exists exactly when it existed or is wanted. Training is wanted with either cache, path tracing always, resolve and cache reset with the RHC, and the network passes with the NN |
| Lifecycle.ActivatedFlags | Source/RenderPasses/ComputePathTracer/ComputePathTracer.cpp:475-478 | RHC is active iff requiresRHC, injectRadianceRR, injectRadianceSpread, debugColor, debugLevels or debugVoxels holds. NN is active iff requiresNN, debugOutput or nircDebug holds. keepThreads equals NN active |
| Lifecycle.ActivatedKeeps | Source/RenderPasses/ComputePathTracer/ComputePathTracer.cpp:470-478 | reset and activation keep the one-shot reset flags and the UI-only debug switches |
| Lifecycle.ApplyOptionsSteps | Source/RenderPasses/ComputePathTracer/ComputePathTracer.cpp:470-483 | the options block is: reset, activate, setupData, createPasses, then the sampler block and clearing the flag. It builds from an empty state |
| Lifecycle.ApplyOptionsCounters | Source/RenderPasses/ComputePathTracer/ComputePathTracer.cpp:470-483 | after the options block the flag is clear, the sampler block exists, both counters are 0, and the samplers exist exactly as the scene asks |
| Lifecycle.ApplyOptionsActivation | Source/RenderPasses/ComputePathTracer/ComputePathTracer.cpp:470-483 | after the options block both activation flags hold iff their inputs do, and keepThreads equals NN active. The reset flags and debug switches are untouched |
| Lifecycle.ApplyOptionsSettings | Source/RenderPasses/ComputePathTracer/ComputePathTracer.cpp:470-483 | after the options block the settings are those reset retained, and the optimizer state holds four floats per parameter |
| Lifecycle.ApplyOptionsBuffers | Source/RenderPasses/ComputePathTracer/ComputePathTracer.cpp:287-303 | after the options block a buffer exists exactly when its component wants it, at its specified size |
| Lifecycle.ApplyOptionsPasses | Source/RenderPasses/ComputePathTracer/ComputePathTracer.cpp:195-270 | after the options block a pass exists exactly when it is wanted |
| Lifecycle.ApplyOptionsSettles | Source/RenderPasses/ComputePathTracer/ComputePathTracer.cpp:470-483 | the rebuild is complete: running setupData or createPasses again changes nothing |
| Lifecycle.ExponentTenSizes | Source/RenderPasses/ComputePathTracer/ComputePathTracer.cpp:287-292 | with exponent 10 and the cache active, the hash grid holds 1024 entries of 8 bytes (8192 bytes), and each voxel buffer holds 16384 bytes |
| FrameSchedule.VoxelRolesDistinct | Source/RenderPasses/ComputePathTracer/ComputePathTracer.cpp:331-332 | the current and previous voxel buffers are the two buffers and never alias. Buffer 0 is current iff the frame count is even |
| FrameSchedule.VoxelRolesAlternate | Source/RenderPasses/ComputePathTracer/ComputePathTracer.cpp:331-332 | what is current at frame f is previous at frame f+1, and the other way round, also when the 32-bit counter wraps |
| FrameSchedule.PassVarsVoxels | Source/RenderPasses/ComputePathTracer/ComputePathTracer.cpp:331-375 | training, resolve and path tracing bind the parity-selected voxel pair. The cache reset binds buffer 0 as current and 1 as previous. A used pass binds voxel data only with the cache active |
| FrameSchedule.ScheduleVoxels | Source/RenderPasses/ComputePathTracer/ComputePathTracer.cpp:331-375 | within one frame, every training, resolve and path tracing dispatch sees the same parity-selected pair. Every reset dispatch sees 0 and 1 fixed |
| FrameSchedule.PassVarsWeights | Source/RenderPasses/ComputePathTracer/ComputePathTracer.cpp:334-402 | training binds the primal weights, and path tracing and the debug view bind the filtered ones. Gradient descent binds both, and the optimizer step `t = step_count` |
| FrameSchedule.ScheduleWeights | Source/RenderPasses/ComputePathTracer/ComputePathTracer.cpp:334-402 | every dispatch of a frame reads the weights and step count of its pass |
| FrameSchedule.ScheduleSlotsExist | Source/RenderPasses/ComputePathTracer/ComputePathTracer.cpp:314-437 | when the wanted buffers exist, no dispatch of a frame binds a null buffer slot |
| FrameSchedule.SubStepRoles | Source/RenderPasses/ComputePathTracer/ComputePathTracer.cpp:500-509 | every training sub-step issues the same passes: gradient clear with the NN, training with either cache, descent with the NN |
| FrameSchedule.TrainingRoles | Source/RenderPasses/ComputePathTracer/ComputePathTracer.cpp:500-509 | n sub-steps issue n copies of that pattern |
| FrameSchedule.ResetDispatchesRoles | Source/RenderPasses/ComputePathTracer/ComputePathTracer.cpp:488-497 | the frame opens with the RHC reset if RHC is active and flagged, then the NN reset if NN is active and flagged |
| FrameSchedule.TailDispatchesRoles | Source/RenderPasses/ComputePathTracer/ComputePathTracer.cpp:510-520 | after training come the resolve if RHC is active, path tracing always, then the NIRC debug pass if NN is active and nircDebug is set |
| FrameSchedule.ScheduleRoles | Source/RenderPasses/ComputePathTracer/ComputePathTracer.cpp:488-520 | the pass order of a frame: the resets, four training sub-steps, resolve, path tracing, debug view |
| FrameSchedule.FrameRolesCount | Source/RenderPasses/ComputePathTracer/ComputePathTracer.cpp:488-520 | how often each pass occurs in that order |
| FrameSchedule.ScheduleCounts | Source/RenderPasses/ComputePathTracer/ComputePathTracer.cpp:488-520 | per frame: path tracing runs once. Training runs 4 times with either cache, and clear and descent 4 times with the NN. Resolve runs once with the RHC. Each reset runs once when active and flagged, and the debug view once with the NN and nircDebug |
| FrameSchedule.ScheduleIssued | Source/RenderPasses/ComputePathTracer/ComputePathTracer.cpp:488-520 | every dispatch is of a pass the frame uses, over its thread counts, with the variables bindData set on it. Training uses `frameDim/10`, path tracing `frameDim`, the cache passes `hashMapSize`, clear and descent `nnParamCount`, the NN reset `max(gradientAuxElements, nnParamCount)`, and the debug view 1000 x 1000 |
| FrameSchedule.TrainingIterations | Source/RenderPasses/ComputePathTracer/ComputePathTracer.cpp:500-509 | n sub-steps bind `gTrainIteration` to 0 .. n-1 in turn, with either cache active |
| FrameSchedule.ScheduleIterations | Source/RenderPasses/ComputePathTracer/ComputePathTracer.cpp:500-509 | the training dispatches of a frame see `gTrainIteration` 0, 1, 2, 3 in turn, or none without a cache |
| FrameSchedule.BuiltBinds | Source/RenderPasses/ComputePathTracer/ComputePathTracer.cpp:314-437 | when everything wanted is built, bindData finds every pass it dereferences and the sampler block |
| FrameSchedule.ApplyOptionsBuilt | Source/RenderPasses/ComputePathTracer/ComputePathTracer.cpp:470-483 | the options block leaves built everything a frame binds, with the flag clear |
| FrameSchedule.PreparedBuilt | Source/RenderPasses/ComputePathTracer/ComputePathTracer.cpp:470-484 | from a ready state, bindData sees a built state. Without pending options the state is untouched |
| FrameSchedule.ReadyRenders | Source/RenderPasses/ComputePathTracer/ComputePathTracer.cpp:439-524 | from a ready state execute never dereferences a null pass or block. With a scene and no recompile-needing change it renders, binding only buffers that exist |
| FrameSchedule.AdvanceKeepsBuilt | Source/RenderPasses/ComputePathTracer/ComputePathTracer.cpp:488-523 | clearing the reset flags and counting the frame keep the state built |
| FrameSchedule.ExecuteKeepsReady | Source/RenderPasses/ComputePathTracer/ComputePathTracer.cpp:439-524 | execute keeps the state ready. After a rendered frame nothing is left to rebuild, so the options are applied once per change |
| FrameSchedule.NoSceneNoDispatch | Source/RenderPasses/ComputePathTracer/ComputePathTracer.cpp:444-453 | without a scene execute only clears the outputs: no dispatch, and the state and both counters are unchanged |
| FrameSchedule.ExecuteCounters | Source/RenderPasses/ComputePathTracer/ComputePathTracer.cpp:522-523 | a rendered frame increments both counters, from 0 after a rebuild. The frame counter wraps at 2^32 |
| FrameSchedule.ResetCounts | Source/RenderPasses/ComputePathTracer/ComputePathTracer.cpp:488-497 | a frame dispatches each reset once when its component is active and flagged, and never otherwise |
| FrameSchedule.PreparedKeepsFlags | Source/RenderPasses/ComputePathTracer/ComputePathTracer.cpp:470-483 | preparing a frame changes no one-shot reset flag |
| FrameSchedule.ExecuteFlags | Source/RenderPasses/ComputePathTracer/ComputePathTracer.cpp:488-497 | after a rendered frame a reset flag is still set iff it was set and its reset was not dispatched |
| FrameSchedule.ResetsRunOnce | Source/RenderPasses/ComputePathTracer/ComputePathTracer.cpp:488-497 | over two rendered frames each reset is dispatched at most once |
| FrameSchedule.ConstructReady | Source/RenderPasses/ComputePathTracer/ComputePathTracer.cpp:83-89 | a constructed pass is ready |
| FrameSchedule.SetPropertiesReady | Source/RenderPasses/ComputePathTracer/ComputePathTracer.cpp:108-113 | the corrected setProperties keeps the state ready, also when it throws |
| FrameSchedule.SetSceneRebuildReady | Source/RenderPasses/ComputePathTracer/ComputePathTracer.cpp:651-663 | the corrected setScene leaves the state ready |
| FrameSchedule.SetSceneThenExecute | Source/RenderPasses/ComputePathTracer/ComputePathTracer.cpp:658-663 | as written, setScene on a pass whose options are applied makes the next frame that renders dereference the null path tracing pass |
| FrameSchedule.SecondSceneFails | Source/RenderPasses/ComputePathTracer/ComputePathTracer.cpp:658-663 | from construction, the first scene renders, and loading a second scene breaks the next frame |
| FrameSchedule.SetSceneRebuildRenders | Source/RenderPasses/ComputePathTracer/ComputePathTracer.cpp:651-663 | with the corrected setScene, the next frame of the scene renders |
| ComputePathTracerPass.ComputePathTracer.Init | Source/RenderPasses/ComputePathTracer/ComputePathTracer.h:97-98 | the member initialisers: frame 0, options pending, no scene, both tables fresh and null |
| ComputePathTracerPass.ComputePathTracer.ParseProperties | Source/RenderPasses/ComputePathTracer/ComputePathTracer.cpp:57-81 | the loop changes only the settings, to the fold `ApplyAll`, with its warnings and the key whose conversion threw |
| ComputePathTracerPass.ComputePathTracer.Reset | Source/RenderPasses/ComputePathTracer/ComputePathTracer.cpp:91-106 | the new state is `ResetState` of the old one |
| ComputePathTracerPass.ComputePathTracer.RetainSamplerOptions | Source/RenderPasses/ComputePathTracer/ComputePathTracer.cpp:96-99 | the emissive sampler's options are copied into the settings when a sampler exists. Nothing else changes |
| ComputePathTracerPass.ComputePathTracer.DropBuffers | Source/RenderPasses/ComputePathTracer/ComputePathTracer.cpp:103 | the loop nulls every buffer slot and changes nothing else |
| ComputePathTracerPass.ComputePathTracer.DropPasses | Source/RenderPasses/ComputePathTracer/ComputePathTracer.cpp:105 | the loop nulls every pass slot and changes nothing else |
| ComputePathTracerPass.ComputePathTracer.SetProperties | Source/RenderPasses/ComputePathTracer/ComputePathTracer.cpp:108-113 | the object ends as the corrected setProperties does, throwing or returning. The warnings are those of parsing |
| ComputePathTracerPass.ComputePathTracer.ForwardSamplerOptions | Source/RenderPasses/ComputePathTracer/ComputePathTracer.cpp:96-99 | an existing emissive sampler takes the parsed light BVH options. Nothing else changes |
| ComputePathTracerPass.ComputePathTracer.SetScene | Source/RenderPasses/ComputePathTracer/ComputePathTracer.cpp:658-663 | the object ends as the corrected setScene does |
| ComputePathTracerPass.ComputePathTracer.CreateSamplers | Source/RenderPasses/ComputePathTracer/ComputePathTracer.cpp:275-286 | the environment map sampler exists when it did or the scene has an environment light. The emissive sampler is created with the parsed options when absent and emissive lights are on |
| ComputePathTracerPass.ComputePathTracer.CreateEmissiveSampler | Source/RenderPasses/ComputePathTracer/ComputePathTracer.cpp:282-286 | an absent emissive sampler is created, with the parsed options, when emissive lights are on |
| ComputePathTracerPass.ComputePathTracer.SizeOptimizerState | Source/RenderPasses/ComputePathTracer/ComputePathTracer.cpp:300 | with the network active, `gradientAuxElements` becomes `4 * nnParamCount` |
| ComputePathTracerPass.ComputePathTracer.CreateBuffer | Source/RenderPasses/ComputePathTracer/ComputePathTracer.cpp:289 | one slot is filled if wanted and null. No other slot changes |
| ComputePathTracerPass.ComputePathTracer.SetupCacheBuffers | Source/RenderPasses/ComputePathTracer/ComputePathTracer.cpp:287-293 | the three cache statements, in order, with their sizes |
| ComputePathTracerPass.ComputePathTracer.SetupNetworkBuffers | Source/RenderPasses/ComputePathTracer/ComputePathTracer.cpp:294-303 | the six network statements, in order, with the optimizer state sized before its buffer |
| ComputePathTracerPass.ComputePathTracer.SetupData | Source/RenderPasses/ComputePathTracer/ComputePathTracer.cpp:273-304 | the new state is `SetupDataSpec` of the old one |
| ComputePathTracerPass.ComputePathTracer.CreatePass | Source/RenderPasses/ComputePathTracer/ComputePathTracer.cpp:195-270 | one slot is set if wanted and empty. No other slot changes |
| ComputePathTracerPass.ComputePathTracer.CreatePasses | Source/RenderPasses/ComputePathTracer/ComputePathTracer.cpp:149-271 | the new state is `CreatePassesSpec` of the old one |
| ComputePathTracerPass.ComputePathTracer.SetupBuffers | Source/RenderPasses/ComputePathTracer/ComputePathTracer.cpp:306-312 | the new state is `SetupBuffersSpec` of the old one, given a path tracing pass or an existing block |
| ComputePathTracerPass.ComputePathTracer.ActivateComponents | Source/RenderPasses/ComputePathTracer/ComputePathTracer.cpp:475-478 | the two activation flags and keepThreads take the values of the activation lines |
| ComputePathTracerPass.ComputePathTracer.ApplyOptionChanges | Source/RenderPasses/ComputePathTracer/ComputePathTracer.cpp:470-483 | the new state is `ApplyOptions` of the old one |
| ComputePathTracerPass.ComputePathTracer.Prepare | Source/RenderPasses/ComputePathTracer/ComputePathTracer.cpp:470-483 | it rebuilds exactly when the options changed |
| ComputePathTracerPass.ComputePathTracer.ClearCacheReset | Source/RenderPasses/ComputePathTracer/ComputePathTracer.cpp:488-491 | the cache reset flag is cleared exactly when its reset runs |
| ComputePathTracerPass.ComputePathTracer.ClearNetworkReset | Source/RenderPasses/ComputePathTracer/ComputePathTracer.cpp:493-496 | the network reset flag is cleared exactly when its reset runs |
| ComputePathTracerPass.ComputePathTracer.DispatchFrame | Source/RenderPasses/ComputePathTracer/ComputePathTracer.cpp:488-523 | the trace is `Schedule` of the state bindData saw, and the state is advanced by `Advance` |
| ComputePathTracerPass.ComputePathTracer.Execute | Source/RenderPasses/ComputePathTracer/ComputePathTracer.cpp:439-524 | the outcome and the new state are those of `ExecuteFrame` |
| ComputePathTracerPass.ResetPassDispatches | Source/RenderPasses/ComputePathTracer/ComputePathTracer.cpp:488-497 | the reset dispatches are `ResetDispatches` |
| ComputePathTracerPass.TrainingDispatches | Source/RenderPasses/ComputePathTracer/ComputePathTracer.cpp:500-509 | the four-iteration loop yields `Training` over `TrainingSteps` sub-steps |
| ComputePathTracerPass.TailDispatches | Source/RenderPasses/ComputePathTracer/ComputePathTracer.cpp:510-520 | the dispatches after training are `Tail` |
| ComputePathTracerPass.FillBuffersUnrolled | Source/RenderPasses/ComputePathTracer/ComputePathTracer.cpp:287-303 | the nine guarded buffer statements, in source order, compute `FillBuffers` |
| ComputePathTracerPass.FillPassesUnrolled | Source/RenderPasses/ComputePathTracer/ComputePathTracer.cpp:195-270 | the eight guarded pass statements, in source order, compute `FillPasses` |
| ComputePathTracerPass.Create | Source/RenderPasses/ComputePathTracer/ComputePathTracer.cpp:83-89 | a fresh object exists exactly when `Construct` yields one, and its state is that value |

## Left out

**The environment.** These are inputs or opaque records:
- GPU work, shader programs, define lists and Falcor plumbing:
  - the `.slang` kernels;
  - the define strings and float formatting in `createPasses` (lines 151-193, 196-269);
  - `ComputePass::create`;
  - buffer and parameter-block creation;
  - `bindShaderData`;
  - textures;
  - `PixelDebug`;
  - profiling.

  A dispatch is a record of role, thread counts and the variables followed. A buffer is a size descriptor. A pass is a flag.
- The definitions of `mRRParams` and `mNNParams` are not part of this model.
  - `requiresRHC()`, `requiresNN()`, the scene's `useEnvLight()` and `useEmissiveLights` are inputs of each frame (`SceneQuery`).
  - `getOptionBits()` feeds only a define string.
  - `nnParamCount` and its derivation from the network topology are a free field.
  - `featureHashMapPlacesPerElement` is assumed positive (the `Positive` type of `TracerState.NNParams`), so the division `featureHashMapSize / featureHashMapPlacesPerElement` at line 302 never divides by zero. The code that sets it is not part of this model.
- `ComputePathTracerPass.ComputePathTracer.Reset`: does not call `mNNParams.update()` (line 94), because its definition is not part of this model. `nnParamCount` is kept unchanged.
- `ComputePathTracerPass.ComputePathTracer.Execute`:
  - does not model the emissive sampler's `update()` or the `LightingChanged` and `RenderOptionsChanged` refresh flags (lines 462-468 and 473), which belong to the sampler library and the render graph;
  - models clearing the outputs without a scene as the `OutputsCleared` outcome;
  - models the exception for recompile-needing scene changes as `SceneChangeUnsupported`.
- `FALCOR_ASSERT(targetDim > 0)` (line 487) is not modelled. The frame size is an input of any size.
- `mCamPos`, the sample generator, camera queries and texture bindings in `bindData` have no variable in the model. The variables followed are the two counters, the training iteration, and every buffer binding.
- `Lifecycle.SetSceneState` and `ComputePathTracerPass.ComputePathTracer.SetScene`: setScene is modelled for a non-null scene only. A null scene faults at line 661, where `mpScene->getCamera()` is called without a check; the model has no scene argument and always records that a scene is set.
- The dynamic cast in `reset` (lines 96-99) is modelled as "an emissive sampler exists". The model assumes every emissive sampler is a light BVH sampler, which is the only kind `setupData` creates.

**Value modelling.**
- Property values convert to a member only when they have the member's kind (bool, unsigned, light BVH options). A value of another kind throws.
  - The JSON library's lossy conversions are not modelled, for example a boolean or float into an unsigned member. The library is not part of this model.
  - The JSON iteration order of the dictionary is its sequence order.
- Warnings are returned as a list of names, not logged.
- The RR floats `RRProbStartValue` and `RRProbReductionFactor` are only stored and copied, so they are `real`.
- The light BVH options are an opaque value.
- `step_count`, the hash map and buffer sizes, and std::pow are exact natural numbers. Only `mFrameCount` is modelled as a 32-bit unsigned counter, because its parity chooses the buffer roles. A `uint32_t` overflow of `std::pow(2u, e)` for e >= 32, or of `16 * hashMapSize`, is not modelled.
- `getProperties` is a function: serialising changes nothing.

**Other entry points.**
- `renderUI` (lines 526-656) is not modelled. It edits settings, debug switches and the one-shot reset flags, and edits `hashMapSizeExp` without rederiving `hashMapSize`. The model treats those fields as arbitrary values between calls. Its "Reload shader" button is cited only as the intended behaviour of `setScene`.
- `reflect`, `compile`, the mouse and key handlers and the plugin registration are not modelled: they hold no state.
- `ComputePathTracer.h` does not declare the members the .cpp uses. Only its initial values (`mFrameCount = 0`, `mOptionsChanged = true`, lines 97-98) are taken.
- The scripts under `scripts/` wire render graphs and capture frames, so they are not modelled.

## Findings

| source | as written | input that shows it | evidently intended | confidence | as-written member | corrected member |
|---|---|---|---|---|---|---|
| Source/RenderPasses/ComputePathTracer/ComputePathTracer.cpp:658-663 | `setScene` calls `reset()`, which nulls every compute pass, but leaves `mOptionsChanged` as it was | construct the pass, set a scene, render one frame (the options block runs and clears the flag), then set a second scene and render. The options block is skipped and `bindData` dereferences the null path tracing pass | also set `mOptionsChanged = true`, as the "Reload shader" button does (lines 651-655), so that the next frame rebuilds the passes | not executed; high | `Lifecycle.SetSceneState`, with `FrameSchedule.SetSceneThenExecute` and `FrameSchedule.SecondSceneFails` | `Lifecycle.SetSceneRebuild`, with `FrameSchedule.SetSceneRebuildReady` and `FrameSchedule.SetSceneRebuildRenders` |
| Source/RenderPasses/ComputePathTracer/ComputePathTracer.cpp:108-113 | `setProperties` parses `lightBVHOptions` into `mLightBVHOptions`, then `reset()` (lines 96-99) overwrites it with the options of the existing emissive sampler | an emissive sampler built with options 1; `setProperties` with `lightBVHOptions` = options 2. Afterwards the settings hold options 1, from which the next rebuild creates the sampler | hand the parsed options to the existing sampler, or skip the retention, so that the reset keeps the new options | not executed; medium | `Lifecycle.SetPropertiesState`, with `Lifecycle.SetPropertiesRetainsSampler` and `Lifecycle.SetPropertiesLosesOptions` | `Lifecycle.SetPropertiesForwarding`, with `Lifecycle.SetPropertiesForwardingOutcome` and `FrameSchedule.SetPropertiesReady` |
