/** The lifecycle of the pass: construction, reset, setProperties and
    setScene, and what a frame with changed options rebuilds (activation of
    the radiance hash cache and the neural network, lazy creation of
    samplers, buffers and compute passes). */
module Lifecycle {
  import opened TracerState
  import opened PropertyParsing

  /** The state after member initialisers: no frame rendered yet, options
      pending (mOptionsChanged starts true), no scene, nothing created. */
  function Fresh(defaults: Settings, rhc: RHCParams, nn: NNParams): Tracer {
    Tracer(defaults, rhc, nn, 0, true, false, false, None, false, NoBuffers, NoPasses)
  }

  /** The constructor: parses the creation dictionary over the defaults.
      A conversion that throws leaves no object. */
  function Construct(defaults: Settings, rhc: RHCParams, nn: NNParams, props: Properties): (r: Option<Tracer>)
    ensures r.Some? <==> ApplyAll(defaults, props).failedKey.None?
    ensures r.Some? ==> r.value.settings == ApplyAll(defaults, props).settings
    ensures r.Some? ==> r.value.optionsChanged && !r.value.hasScene && r.value.frameCount == 0
    ensures r.Some? ==> Empty(r.value)
  {
    var o := ApplyAll(defaults, props);
    if o.failedKey.Some? then None else Some(Fresh(o.settings, rhc, nn))
  }

  /** The light BVH options after reset: those of the emissive sampler when
      one exists, the parsed ones otherwise. */
  function RetainedSettings(t: Tracer): Settings {
    match t.emissiveSampler
    case Some(o) => t.settings.(keyed := t.settings.keyed[LightBVHOptionsKey := LightBVH(o)])
    case None => t.settings
  }

  /** reset(): the optimizer step count and frame count return to zero,
      the samplers, sampler block, buffers and passes are dropped, and the
      emissive sampler's options are copied back into the settings. */
  function ResetState(t: Tracer): Tracer {
    t.(settings := RetainedSettings(t),
       nn := t.nn.(stepCount := 0),
       emissiveSampler := None,
       envMapSampler := false,
       samplerBlock := false,
       buffers := NoBuffers,
       frameCount := 0,
       passes := NoPasses)
  }

  /** True when nothing lazily created exists. */
  predicate Empty(t: Tracer) {
    !t.envMapSampler && t.emissiveSampler.None? && !t.samplerBlock
    && t.buffers == NoBuffers && t.passes == NoPasses
  }

  /** The settings reset() retains differ from the parsed ones at most in
      the light BVH options, which become the emissive sampler's. */
  lemma RetainedSettingsDiffer(t: Tracer)
    ensures SameUnkeyed(RetainedSettings(t), t.settings)
    ensures RetainedSettings(t).hashMapSize == t.settings.hashMapSize
    ensures forall k :: k != LightBVHOptionsKey ==> RetainedSettings(t).Get(k) == t.settings.Get(k)
    ensures RetainedSettings(t).lightBVHOptions() ==
              (if t.emissiveSampler.Some? then t.emissiveSampler.value else t.settings.lightBVHOptions())
  {
  }

  /** What reset() leaves: counters at zero, nothing created, every other
      member as it was except the retained settings. */
  lemma ResetClears(t: Tracer)
    ensures Empty(ResetState(t))
    ensures ResetState(t).frameCount == 0 && ResetState(t).nn == t.nn.(stepCount := 0)
    ensures ResetState(t).optionsChanged == t.optionsChanged && ResetState(t).hasScene == t.hasScene
    ensures ResetState(t).rhc == t.rhc && ResetState(t).settings == RetainedSettings(t)
  {
  }

  /** Resetting twice is resetting once. */
  lemma ResetIdempotent(t: Tracer)
    ensures ResetState(ResetState(t)) == ResetState(t)
  {
  }

  /** What a call that may throw leaves behind. */
  datatype Call = Returned(state: Tracer) | Threw(state: Tracer, key: string)

  /** setProperties: parse, flag the options as changed, reset. A
      conversion that throws propagates out of parseProperties with the
      keys before it applied and neither the flag nor the reset done. */
  function SetPropertiesState(t: Tracer, props: Properties): Call {
    var o := ApplyAll(t.settings, props);
    if o.failedKey.Some? then Threw(t.(settings := o.settings), o.failedKey.value)
    else Returned(ResetState(t.(settings := o.settings, optionsChanged := true)))
  }

  /** A successful setProperties leaves the state that reset() leaves, with
      the options pending and every parsed setting in place (except the
      light BVH options while an emissive sampler exists); a throwing one
      changes only the settings written before the bad entry. */
  lemma SetPropertiesOutcome(t: Tracer, props: Properties)
    ensures SetPropertiesState(t, props).Returned? <==> ApplyAll(t.settings, props).failedKey.None?
    ensures SetPropertiesState(t, props).Returned? ==>
              var u := SetPropertiesState(t, props).state;
              u.optionsChanged && Empty(u) && u.frameCount == 0 && u.nn.stepCount == 0
              && u.hasScene == t.hasScene && u.rhc == t.rhc
              && forall k :: k != LightBVHOptionsKey ==> u.settings.Get(k) == ApplyAll(t.settings, props).settings.Get(k)
    ensures SetPropertiesState(t, props).Threw? ==>
              SetPropertiesState(t, props).state == t.(settings := ApplyAll(t.settings, props).settings)
              && SetPropertiesState(t, props).key == ApplyAll(t.settings, props).failedKey.value
  {
    if ApplyAll(t.settings, props).failedKey.None? {
      var t' := t.(settings := ApplyAll(t.settings, props).settings, optionsChanged := true);
      ResetClears(t');
      RetainedSettingsDiffer(t');
    }
  }

  /** setProperties as written, while an emissive sampler exists: reset()
      overwrites the light BVH options just parsed with the sampler's, so
      the new options never take effect. */
  lemma SetPropertiesRetainsSampler(t: Tracer, props: Properties)
    requires t.emissiveSampler.Some? && ApplyAll(t.settings, props).failedKey.None?
    ensures SetPropertiesState(t, props).state.settings.lightBVHOptions() == t.emissiveSampler.value
  {
    var t' := t.(settings := ApplyAll(t.settings, props).settings, optionsChanged := true);
    RetainedSettingsDiffer(t');
  }

  /** A concrete case: options 2 are set while the sampler runs with
      options 1, and options 1 remain. */
  lemma SetPropertiesLosesOptions(t: Tracer)
    requires t.emissiveSampler == Some(LightBVHOptions(1))
    ensures var props := [(kLightBVHOptions, LightBVH(LightBVHOptions(2)))];
            ApplyAll(t.settings, props).failedKey.None?
            && ApplyAll(t.settings, props).settings.lightBVHOptions() == LightBVHOptions(2)
            && SetPropertiesState(t, props).state.settings.lightBVHOptions() == LightBVHOptions(1)
  {
    var props := [(kLightBVHOptions, LightBVH(LightBVHOptions(2)))];
    WellKindedNeverThrows(t.settings, props);
    LastWriteWins(t.settings, props);
    SetPropertiesRetainsSampler(t, props);
  }

  /** setProperties as evidently intended: the parsed light BVH options are
      handed to an existing emissive sampler before the reset, so the
      reset retains the new options. */
  function SetPropertiesForwarding(t: Tracer, props: Properties): Call {
    var o := ApplyAll(t.settings, props);
    if o.failedKey.Some? then Threw(t.(settings := o.settings), o.failedKey.value)
    else
      var u := t.(settings := o.settings, optionsChanged := true);
      Returned(ResetState(if u.emissiveSampler.Some? then u.(emissiveSampler := Some(o.settings.lightBVHOptions())) else u))
  }

  /** The corrected setProperties keeps every parsed setting, the light BVH
      options included, and otherwise ends as reset() does with the
      options pending; a throwing call changes only the settings written
      before the bad entry. */
  lemma SetPropertiesForwardingOutcome(t: Tracer, props: Properties)
    ensures SetPropertiesForwarding(t, props).Returned? <==> ApplyAll(t.settings, props).failedKey.None?
    ensures SetPropertiesForwarding(t, props).Returned? ==>
              var u := SetPropertiesForwarding(t, props).state;
              var o := ApplyAll(t.settings, props).settings;
              u.optionsChanged && Empty(u) && u.frameCount == 0 && u.nn.stepCount == 0
              && u.hasScene == t.hasScene && u.rhc == t.rhc
              && SameUnkeyed(u.settings, o) && u.settings.hashMapSize == o.hashMapSize
              && forall k :: u.settings.Get(k) == o.Get(k)
    ensures SetPropertiesForwarding(t, props).Threw? ==>
              SetPropertiesForwarding(t, props).state == t.(settings := ApplyAll(t.settings, props).settings)
              && SetPropertiesForwarding(t, props).key == ApplyAll(t.settings, props).failedKey.value
  {
    var o := ApplyAll(t.settings, props);
    if o.failedKey.None? {
      var u := t.(settings := o.settings, optionsChanged := true);
      var f := if u.emissiveSampler.Some? then u.(emissiveSampler := Some(o.settings.lightBVHOptions())) else u;
      ResetClears(f);
      RetainedSettingsDiffer(f);
      assert f.settings == o.settings;
      forall k
        ensures ResetState(f).settings.Get(k) == o.settings.Get(k)
      {
        if k == LightBVHOptionsKey {
          assert o.settings.Get(k) == LightBVH(o.settings.lightBVHOptions());
        }
      }
    }
  }

  /** setScene as written: records the scene and resets. mOptionsChanged is
      left as it was. */
  function SetSceneState(t: Tracer): (r: Tracer)
    ensures r.hasScene && Empty(r) && r.frameCount == 0
    ensures r.optionsChanged == t.optionsChanged
  {
    ResetState(t.(hasScene := true))
  }

  /** setScene as evidently intended, like the "Reload shader" button:
      records the scene, flags the options as changed and resets, so that
      the next frame rebuilds what the reset dropped. */
  function SetSceneRebuild(t: Tracer): (r: Tracer)
    ensures r.hasScene && Empty(r) && r.frameCount == 0 && r.optionsChanged
  {
    ResetState(t.(hasScene := true, optionsChanged := true))
  }

  /** The per-frame facts the options rebuild reads but this model cannot
      compute: mRRParams.requiresRHC() / requiresNN(), and the scene's
      useEnvLight() and render settings' useEmissiveLights. */
  datatype SceneQuery = SceneQuery(
    rrRequiresRHC: bool,
    rrRequiresNN: bool,
    useEnvLight: bool,
    useEmissiveLights: bool)

  /** The activation step of execute: the cache is active when anything
      reads or shows it, the network when anything queries or shows it;
      threads are kept running exactly when the network is active. */
  function Activate(t: Tracer, q: SceneQuery): Tracer {
    var s := t.settings;
    t.(rhc := t.rhc.(active := q.rrRequiresRHC || s.injectRadianceRR() || s.injectRadianceSpread()
                               || s.rhcDebugColor() || t.rhc.debugLevels || t.rhc.debugVoxels),
       nn := t.nn.(active := q.rrRequiresNN || s.nnDebugOutput() || t.nn.nircDebug,
                   keepThreads := q.rrRequiresNN || s.nnDebugOutput() || t.nn.nircDebug))
  }

  /** Whether setupData wants buffer `k`. */
  predicate BufferWanted(t: Tracer, k: BufferKind) {
    match k
    case HashGridEntries => t.rhc.active
    case VoxelData0 => t.rhc.active
    case VoxelData1 => t.rhc.active
    case FeatureHashGridEntries => t.nn.active && t.nn.featureHashMapProbingSize > 0
    case _ => t.nn.active
  }

  /** The buffer setupData creates for kind `k`: 8-byte hash grid entries,
      16 bytes per voxel entry, one float per network parameter, and
      gradientAuxElements floats of optimizer state. */
  function BufferSpec(t: Tracer, k: BufferKind): BufferDesc {
    match k
    case HashGridEntries => Structured(8, t.settings.hashMapSize)
    case VoxelData0 => Raw(16 * t.settings.hashMapSize)
    case VoxelData1 => Raw(16 * t.settings.hashMapSize)
    case NNGradientAux => Raw(t.nn.gradientAuxElements * 4)
    case FeatureHashGridEntries =>
      Structured(8, t.nn.featureHashMapSize / t.nn.featureHashMapPlacesPerElement)
    case _ => Raw(t.nn.nnParamCount * 4)
  }

  /** The order in which setupData considers the buffers: slot order. */
  const BufferOrder: seq<BufferKind> :=
    [HashGridEntries, VoxelData0, VoxelData1, NNPrimal, NNFilteredPrimal,
     NNGradient, NNGradientCount, NNGradientAux, FeatureHashGridEntries]

  /** The order in which createPasses considers the passes: slot order. */
  const PassOrder: seq<PassRole> :=
    [TrainNNFillCache, PathTracing, RHCResolve, RHCReset,
     NNGradientClear, NNGradientDescent, NNReset, NIRCDebug]

  /** The `n`-th statement of each function considers the `n`-th slot. */
  lemma OrdersIndexed()
    ensures forall n :: 0 <= n < BufferCount ==> BufferIndex(BufferOrder[n]) == n
    ensures forall n :: 0 <= n < PassCount ==> PassIndex(PassOrder[n]) == n
  {
  }

  /** `if (!mBuffers[k]) mBuffers[k] = create(d)`, inside a block that
      runs when `wanted`. */
  function StepBuffers(b: BufferTable, k: BufferKind, wanted: bool, d: BufferDesc): BufferTable {
    var i := BufferIndex(k);
    b[i := if wanted && b[i].None? then Some(d) else b[i]]
  }

  /** The first `n` buffer statements of setupData, each guarded and
      sized from the state `u`. */
  function FillBuffers(b: BufferTable, n: nat, u: Tracer): BufferTable
    requires n <= BufferCount
  {
    if n == 0 then b
    else
      var k := BufferOrder[n - 1];
      StepBuffers(FillBuffers(b, n - 1, u), k, BufferWanted(u, k), BufferSpec(u, k))
  }

  /** Filling slot by slot: a filled slot stays as it is, an empty one that
      has been considered and is wanted receives its buffer. */
  lemma {:induction false} FillBuffersAt(b: BufferTable, n: nat, u: Tracer, k: BufferKind)
    requires n <= BufferCount
    ensures FillBuffers(b, n, u)[BufferIndex(k)] ==
              if b[BufferIndex(k)].None? && BufferIndex(k) < n && BufferWanted(u, k)
              then Some(BufferSpec(u, k)) else b[BufferIndex(k)]
  {
    if n > 0 {
      OrdersIndexed();
      BufferIndexInjective(BufferOrder[n - 1], k);
      FillBuffersAt(b, n - 1, u, k);
    }
  }

  /** The optimizer state size setupData assigns when the network is active. */
  function SizedNN(t: Tracer): NNParams {
    if t.nn.active then t.nn.(gradientAuxElements := t.nn.nnParamCount * 4) else t.nn
  }

  /** setupData: creates the samplers the scene uses and the buffers of the
      active components, each only if its slot is empty. The optimizer
      state size is assigned before its buffer is created. */
  function SetupDataSpec(t: Tracer, q: SceneQuery): Tracer {
    var u := t.(nn := SizedNN(t));
    u.(envMapSampler := t.envMapSampler || q.useEnvLight,
       emissiveSampler := if t.emissiveSampler.None? && q.useEmissiveLights
                          then Some(t.settings.lightBVHOptions()) else t.emissiveSampler,
       buffers := FillBuffers(t.buffers, BufferCount, u))
  }

  /** setupData per slot: a filled slot is never replaced; an empty one
      receives the buffer its component wants, sized from the state setupData
      leaves. */
  lemma SetupDataSlots(t: Tracer, q: SceneQuery)
    ensures var u := SetupDataSpec(t, q);
            forall k :: u.Buffer(k) ==
              if t.Buffer(k).None? && BufferWanted(u, k) then Some(BufferSpec(u, k)) else t.Buffer(k)
  {
    var u := SetupDataSpec(t, q);
    forall k
      ensures u.Buffer(k) == if t.Buffer(k).None? && BufferWanted(u, k) then Some(BufferSpec(u, k)) else t.Buffer(k)
    {
      FillBuffersAt(t.buffers, BufferCount, t.(nn := SizedNN(t)), k);
    }
  }

  /** setupData creates the environment map sampler when the scene uses an
      environment light, and the emissive sampler, with the parsed light
      BVH options, when emissive lights are on; existing samplers stay. */
  lemma SetupDataSamplers(t: Tracer, q: SceneQuery)
    ensures var u := SetupDataSpec(t, q);
            u.envMapSampler == (t.envMapSampler || q.useEnvLight)
            && (t.emissiveSampler.Some? ==> u.emissiveSampler == t.emissiveSampler)
            && (t.emissiveSampler.None? ==>
                  u.emissiveSampler == if q.useEmissiveLights then Some(t.settings.lightBVHOptions()) else None)
  {
  }

  /** setupData changes nothing but the samplers, the buffers and, when the
      network is active, the optimizer state size: four floats per
      parameter. */
  lemma SetupDataKeeps(t: Tracer, q: SceneQuery)
    ensures var u := SetupDataSpec(t, q);
            u.settings == t.settings && u.rhc == t.rhc && u.passes == t.passes
            && u.frameCount == t.frameCount && u.samplerBlock == t.samplerBlock
            && u.optionsChanged == t.optionsChanged && u.hasScene == t.hasScene
            && u.nn.(gradientAuxElements := t.nn.gradientAuxElements) == t.nn
            && (t.nn.active ==> u.nn.gradientAuxElements == 4 * t.nn.nnParamCount)
  {
  }

  /** Whether createPasses wants pass `p`: the training pass when either
      component is active, the path tracing pass always, the resolve and
      reset passes with the cache, the optimizer, reset and debug passes with
      the network. */
  predicate PassWanted(t: Tracer, p: PassRole) {
    match p
    case TrainNNFillCache => t.rhc.active || t.nn.active
    case PathTracing => true
    case RHCResolve => t.rhc.active
    case RHCReset => t.rhc.active
    case _ => t.nn.active
  }

  /** `if (!mPasses[p] && wanted) mPasses[p] = ComputePass::create(...)`. */
  function StepPasses(ps: PassTable, p: PassRole, wanted: bool): PassTable {
    var i := PassIndex(p);
    ps[i := ps[i] || wanted]
  }

  /** The first `n` statements of createPasses, each guarded by the state `t`. */
  function FillPasses(ps: PassTable, n: nat, t: Tracer): PassTable
    requires n <= PassCount
  {
    if n == 0 then ps
    else
      var p := PassOrder[n - 1];
      StepPasses(FillPasses(ps, n - 1, t), p, PassWanted(t, p))
  }

  /** Filling slot by slot: a pass exists afterwards when it existed, or
      has been considered and is wanted. */
  lemma {:induction false} FillPassesAt(ps: PassTable, n: nat, t: Tracer, p: PassRole)
    requires n <= PassCount
    ensures FillPasses(ps, n, t)[PassIndex(p)] == (ps[PassIndex(p)] || (PassIndex(p) < n && PassWanted(t, p)))
  {
    if n > 0 {
      OrdersIndexed();
      PassIndexInjective(PassOrder[n - 1], p);
      FillPassesAt(ps, n - 1, t, p);
    }
  }

  /** createPasses: compiles the wanted passes whose slots are empty. */
  function CreatePassesSpec(t: Tracer): Tracer {
    t.(passes := FillPasses(t.passes, PassCount, t))
  }

  /** createPasses per slot: a pass exists afterwards exactly when it
      existed or is wanted. */
  lemma CreatePassesSlots(t: Tracer)
    ensures forall p :: CreatePassesSpec(t).HasPass(p) == (t.HasPass(p) || PassWanted(t, p))
  {
    forall p
      ensures CreatePassesSpec(t).HasPass(p) == (t.HasPass(p) || PassWanted(t, p))
    {
      FillPassesAt(t.passes, PassCount, t, p);
    }
  }

  /** setupBuffers: creates the sampler parameter block from the path
      tracing program's reflection, so that pass must exist unless the
      block does. */
  function SetupBuffersSpec(t: Tracer): (r: Tracer)
    requires t.HasPass(PathTracing) || t.samplerBlock
    ensures r.samplerBlock && r.(samplerBlock := t.samplerBlock) == t
  {
    t.(samplerBlock := true)
  }

  /** The `if (mOptionsChanged)` block of execute: reset, activate, build,
      and clear the flag. */
  function ApplyOptions(t: Tracer, q: SceneQuery): Tracer {
    var a := Activated(t, q);
    var d := SetupDataSpec(a, q);
    var c := CreatePassesSpec(d);
    CreatePassesSlots(d);
    SetupBuffersSpec(c).(optionsChanged := false)
  }

  /** The rebuild's first two steps keep what setupData and createPasses read. */
  function Activated(t: Tracer, q: SceneQuery): Tracer {
    Activate(ResetState(t), q)
  }

  /** The three parts of ApplyOptions that read the buffer and pass wants
      agree on them. */
  lemma WantsAgree(a: Tracer, b: Tracer)
    requires a.rhc == b.rhc && a.nn == b.nn && a.settings == b.settings
    ensures forall k :: BufferWanted(a, k) == BufferWanted(b, k) && BufferSpec(a, k) == BufferSpec(b, k)
    ensures forall p :: PassWanted(a, p) == PassWanted(b, p)
  {
  }

  /** Two buffer tables that agree on every kind are equal. */
  lemma BuffersEqual(a: Tracer, b: Tracer)
    requires forall k :: a.Buffer(k) == b.Buffer(k)
    ensures a.buffers == b.buffers
  {
    forall i | 0 <= i < BufferCount
      ensures a.buffers[i] == b.buffers[i]
    {
      OrdersIndexed();
      assert a.Buffer(BufferOrder[i]) == b.Buffer(BufferOrder[i]);
    }
  }

  /** Two pass tables that agree on every role are equal. */
  lemma PassesEqual(a: Tracer, b: Tracer)
    requires forall p :: a.HasPass(p) == b.HasPass(p)
    ensures a.passes == b.passes
  {
    forall i | 0 <= i < PassCount
      ensures a.passes[i] == b.passes[i]
    {
      OrdersIndexed();
      assert a.HasPass(PassOrder[i]) == b.HasPass(PassOrder[i]);
    }
  }

  /** ApplyOptions is the build over the activated, reset state. */
  lemma ApplyOptionsSteps(t: Tracer, q: SceneQuery)
    ensures ApplyOptions(t, q) ==
              CreatePassesSpec(SetupDataSpec(Activated(t, q), q)).(samplerBlock := true, optionsChanged := false)
    ensures Empty(Activated(t, q))
  {
  }

  /** After a rebuild the counters restart, the options are applied and
      the samplers exist as the scene asks. */
  lemma ApplyOptionsCounters(t: Tracer, q: SceneQuery)
    ensures var u := ApplyOptions(t, q);
            !u.optionsChanged && u.samplerBlock && u.frameCount == 0 && u.nn.stepCount == 0
            && u.hasScene == t.hasScene
            && u.envMapSampler == q.useEnvLight
            && u.emissiveSampler == (if q.useEmissiveLights then Some(RetainedSettings(t).lightBVHOptions()) else None)
  {
    var a := Activated(t, q);
    ApplyOptionsSteps(t, q);
    SetupDataSamplers(a, q);
    SetupDataKeeps(a, q);
  }

  /** Activation after reset: the cache is active exactly when the RR
      options require it or a cache option or debug view is on, the
      network exactly when the RR options require it or a network debug
      view is on, and threads are kept running exactly with the network. */
  lemma ActivatedFlags(t: Tracer, q: SceneQuery)
    ensures var a := Activated(t, q);
            var s := t.settings;
            a.rhc.active == (q.rrRequiresRHC || s.injectRadianceRR() || s.injectRadianceSpread()
                             || s.rhcDebugColor() || t.rhc.debugLevels || t.rhc.debugVoxels)
            && a.nn.active == (q.rrRequiresNN || s.nnDebugOutput() || t.nn.nircDebug)
            && a.nn.keepThreads == a.nn.active
  {
    RetainedSettingsDiffer(t);
  }

  /** A rebuild keeps the one-shot reset flags and the UI-only debug
      switches. */
  lemma ActivatedKeeps(t: Tracer, q: SceneQuery)
    ensures var a := Activated(t, q);
            a.rhc.(active := t.rhc.active) == t.rhc
            && a.nn.(active := t.nn.active, keepThreads := t.nn.keepThreads, stepCount := t.nn.stepCount) == t.nn
  {
  }

  /** After a rebuild the activation flags follow their inputs; the
      one-shot reset flags and the UI-only debug switches are untouched. */
  lemma ApplyOptionsActivation(t: Tracer, q: SceneQuery)
    ensures var u := ApplyOptions(t, q);
            var s := t.settings;
            u.rhc.active == (q.rrRequiresRHC || s.injectRadianceRR() || s.injectRadianceSpread()
                             || s.rhcDebugColor() || t.rhc.debugLevels || t.rhc.debugVoxels)
            && u.nn.active == (q.rrRequiresNN || s.nnDebugOutput() || t.nn.nircDebug)
            && u.nn.keepThreads == u.nn.active
            && u.rhc.reset == t.rhc.reset && u.nn.reset == t.nn.reset
            && u.rhc.debugLevels == t.rhc.debugLevels && u.rhc.debugVoxels == t.rhc.debugVoxels
            && u.nn.nircDebug == t.nn.nircDebug
  {
    var a := Activated(t, q);
    ApplyOptionsSteps(t, q);
    SetupDataKeeps(a, q);
    ActivatedFlags(t, q);
    ActivatedKeeps(t, q);
  }

  /** After a rebuild the settings are those reset() retained, and the
      optimizer state holds four floats per network parameter. */
  lemma ApplyOptionsSettings(t: Tracer, q: SceneQuery)
    ensures var u := ApplyOptions(t, q);
            u.settings == RetainedSettings(t)
            && (u.nn.active ==> u.nn.gradientAuxElements == 4 * u.nn.nnParamCount)
            && u.nn.nnParamCount == t.nn.nnParamCount
            && u.nn.featureHashMapProbingSize == t.nn.featureHashMapProbingSize
  {
    var a := Activated(t, q);
    ApplyOptionsSteps(t, q);
    SetupDataKeeps(a, q);
  }

  /** After a rebuild the buffers that exist are exactly those of the active
      components, at their specified sizes. */
  lemma ApplyOptionsBuffers(t: Tracer, q: SceneQuery)
    ensures var u := ApplyOptions(t, q);
            forall k :: u.Buffer(k) == if BufferWanted(u, k) then Some(BufferSpec(u, k)) else None
  {
    var a := Activated(t, q);
    var d := SetupDataSpec(a, q);
    var u := ApplyOptions(t, q);
    ApplyOptionsSteps(t, q);
    EmptyTables();
    SetupDataSlots(a, q);
    SetupDataKeeps(a, q);
    WantsAgree(u, d);
  }

  /** After a rebuild the passes that exist are exactly the wanted ones. */
  lemma ApplyOptionsPasses(t: Tracer, q: SceneQuery)
    ensures var u := ApplyOptions(t, q);
            forall p :: u.HasPass(p) == PassWanted(u, p)
  {
    var a := Activated(t, q);
    var d := SetupDataSpec(a, q);
    var u := ApplyOptions(t, q);
    ApplyOptionsSteps(t, q);
    EmptyTables();
    SetupDataKeeps(a, q);
    CreatePassesSlots(d);
    WantsAgree(u, d);
  }

  /** A rebuild is complete: building again changes nothing. */
  lemma ApplyOptionsSettles(t: Tracer, q: SceneQuery)
    ensures var u := ApplyOptions(t, q);
            SetupDataSpec(u, q) == u && CreatePassesSpec(u) == u
  {
    var u := ApplyOptions(t, q);
    ApplyOptionsCounters(t, q);
    ApplyOptionsSettings(t, q);
    ApplyOptionsBuffers(t, q);
    ApplyOptionsPasses(t, q);
    SetupDataSlots(u, q);
    SetupDataKeeps(u, q);
    CreatePassesSlots(u);
    var v := SetupDataSpec(u, q);
    WantsAgree(u, v);
    BuffersEqual(v, u);
    PassesEqual(CreatePassesSpec(u), u);
  }

  /** The default exponent: 2^10 hash grid entries of 8 bytes, and 16 KiB
      per voxel data buffer. */
  lemma ExponentTenSizes(t: Tracer, q: SceneQuery)
    requires SizeDerived(t.settings) && t.settings.hashMapSizeExp() == 10
    requires ApplyOptions(t, q).rhc.active
    ensures ApplyOptions(t, q).Buffer(HashGridEntries) == Some(Structured(8, 1024))
    ensures ApplyOptions(t, q).Buffer(VoxelData0) == Some(Raw(16384))
    ensures ApplyOptions(t, q).Buffer(VoxelData1) == Some(Raw(16384))
    ensures ApplyOptions(t, q).Buffer(HashGridEntries).value.ByteSize() == 8192
  {
    ApplyOptionsSettings(t, q);
    ApplyOptionsBuffers(t, q);
    assert Pow2(10) == 1024;
  }
}
