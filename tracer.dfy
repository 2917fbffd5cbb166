/** The render pass as an object. Its fields are those that the methods of
    ComputePathTracer.cpp update in place; mBuffers and mPasses are arrays
    whose slots are nulled and filled one by one. Every method is proved
    against the specification function over the `Tracer` snapshot that
    models it, so the properties proved of those functions hold of the
    object. */
module ComputePathTracerPass {
  import opened TracerState
  import opened PropertyParsing
  import opened Lifecycle
  import opened FrameSchedule

  class ComputePathTracer {
    var settings: Settings
    var rhc: RHCParams
    var nn: NNParams
    var frameCount: uint32
    var optionsChanged: bool
    var hasScene: bool
    var envMapSampler: bool
    var emissiveSampler: Option<LightBVHOptions>
    var samplerBlock: bool
    /** mBuffers: a null slot is None. */
    const buffers: array<Option<BufferDesc>>
    /** mPasses: true when the slot holds a compute pass. */
    const passes: array<bool>

    ghost predicate Valid()
      reads this
    {
      buffers.Length == BufferCount && passes.Length == PassCount
    }

    /** The fields as a value. */
    function State(): Tracer
      reads this, buffers, passes
      requires Valid()
    {
      Tracer(settings, rhc, nn, frameCount, optionsChanged, hasScene,
             envMapSampler, emissiveSampler, samplerBlock, buffers[..], passes[..])
    }

    /** The object after its member initialisers, before the creation
        dictionary is parsed. */
    constructor Init(defaults: Settings, rhcDefaults: RHCParams, nnDefaults: NNParams)
      ensures Valid() && fresh(buffers) && fresh(passes)
      ensures State() == Fresh(defaults, rhcDefaults, nnDefaults)
    {
      settings, rhc, nn := defaults, rhcDefaults, nnDefaults;
      frameCount, optionsChanged, hasScene := 0, true, false;
      envMapSampler, emissiveSampler, samplerBlock := false, None, false;
      buffers := new Option<BufferDesc>[BufferCount](_ => None);
      passes := new bool[PassCount](_ => false);
      new;
      assert buffers[..] == NoBuffers;
      assert passes[..] == NoPasses;
    }

    /** parseProperties: walks the dictionary in order, assigning each
        recognised key to its member and warning about the others; a value
        of the wrong kind throws (`failedKey`) and ends the walk. */
    method ParseProperties(props: Properties) returns (warnings: seq<string>, failedKey: Option<string>)
      requires Valid()
      modifies this`settings
      ensures Valid()
      ensures State() == old(State()).(settings := ApplyAll(old(settings), props).settings)
      ensures ParseOutcome(settings, warnings, failedKey) == ApplyAll(old(settings), props)
    {
      warnings, failedKey := [], None;
      var i := 0;
      while i < |props| && failedKey.None?
        invariant 0 <= i <= |props|
        invariant ParseOutcome(settings, warnings, failedKey) == ApplyAll(old(settings), props[..i])
        invariant failedKey.None? || i > 0
        decreases |props| - i
      {
        assert props[..i + 1][..i] == props[..i];
        var (name, v) := props[i];
        match ApplyProperty(settings, name, v) {
          case Recognised(s) => settings := s;
          case Unknown => warnings := warnings + [name];
          case WrongKind => failedKey := Some(name);
        }
        i := i + 1;
      }
      if failedKey.Some? {
        ThrowStops(old(settings), props, i);
      } else {
        assert props[..i] == props;
      }
    }

    /** reset(): counters to zero, the emissive sampler's options kept,
        samplers, sampler block, every buffer and every pass dropped. */
    method Reset()
      requires Valid()
      modifies this, buffers, passes
      ensures Valid() && State() == ResetState(old(State()))
    {
      nn := nn.(stepCount := 0);
      RetainSamplerOptions();
      emissiveSampler := None;
      envMapSampler := false;
      samplerBlock := false;
      DropBuffers();
      frameCount := 0;
      DropPasses();
    }

    /** Copies the emissive sampler's light BVH options, when there is
        such a sampler, back into the settings. */
    method RetainSamplerOptions()
      requires Valid()
      modifies this`settings
      ensures Valid() && State() == old(State()).(settings := RetainedSettings(old(State())))
    {
      match emissiveSampler {
        case Some(o) => settings := settings.(keyed := settings.keyed[LightBVHOptionsKey := LightBVH(o)]);
        case None =>
      }
    }

    /** `for (auto& b : mBuffers) b = nullptr;` */
    method DropBuffers()
      requires Valid()
      modifies buffers
      ensures Valid() && State() == old(State()).(buffers := NoBuffers)
    {
      var i := 0;
      while i < buffers.Length
        invariant 0 <= i <= buffers.Length
        invariant forall j :: 0 <= j < i ==> buffers[j].None?
      {
        buffers[i] := None;
        i := i + 1;
      }
      assert buffers[..] == NoBuffers;
    }

    /** `for (auto& p : mPasses) p = nullptr;` */
    method DropPasses()
      requires Valid()
      modifies passes
      ensures Valid() && State() == old(State()).(passes := NoPasses)
    {
      var i := 0;
      while i < passes.Length
        invariant 0 <= i <= passes.Length
        invariant forall j :: 0 <= j < i ==> !passes[j]
      {
        passes[i] := false;
        i := i + 1;
      }
      assert passes[..] == NoPasses;
    }

    /** setProperties, with the parsed light BVH options handed to an
        existing emissive sampler before the reset. */
    method SetProperties(props: Properties) returns (warnings: seq<string>, failedKey: Option<string>)
      requires Valid()
      modifies this, buffers, passes
      ensures Valid()
      ensures SetPropertiesForwarding(old(State()), props) ==
                if failedKey.Some? then Threw(State(), failedKey.value) else Returned(State())
      ensures warnings == ApplyAll(old(settings), props).warnings
    {
      warnings, failedKey := ParseProperties(props);
      if failedKey.None? {
        optionsChanged := true;
        ForwardSamplerOptions();
        Reset();
      }
    }

    /** Hands the parsed light BVH options to the emissive sampler, when
        there is one. */
    method ForwardSamplerOptions()
      requires Valid()
      modifies this`emissiveSampler
      ensures Valid()
      ensures State() == old(State()).(emissiveSampler :=
                if old(emissiveSampler).Some? then Some(settings.lightBVHOptions()) else None)
    {
      if emissiveSampler.Some? {
        emissiveSampler := Some(settings.lightBVHOptions());
      }
    }

    /** setScene, flagging the options as changed so that the next frame
        rebuilds what the reset dropped. */
    method SetScene()
      requires Valid()
      modifies this, buffers, passes
      ensures Valid() && State() == SetSceneRebuild(old(State()))
    {
      hasScene := true;
      optionsChanged := true;
      Reset();
    }

    /** The samplers of setupData: the environment map sampler when the
        scene has an environment light, the emissive sampler, with the
        parsed options, when emissive lights are on. */
    method CreateSamplers(q: SceneQuery)
      requires Valid()
      modifies this`envMapSampler, this`emissiveSampler
      ensures Valid()
      ensures State() == old(State()).(envMapSampler := old(envMapSampler) || q.useEnvLight,
                                       emissiveSampler := if old(emissiveSampler).None? && q.useEmissiveLights
                                                          then Some(settings.lightBVHOptions()) else old(emissiveSampler))
    {
      if q.useEnvLight {
        if !envMapSampler {
          envMapSampler := true;
        }
      }
      CreateEmissiveSampler(q);
    }

    method CreateEmissiveSampler(q: SceneQuery)
      requires Valid()
      modifies this`emissiveSampler
      ensures Valid()
      ensures State() == old(State()).(emissiveSampler := if old(emissiveSampler).None? && q.useEmissiveLights
                                                          then Some(settings.lightBVHOptions()) else old(emissiveSampler))
    {
      if emissiveSampler.None? && q.useEmissiveLights {
        emissiveSampler := Some(settings.lightBVHOptions());
      }
    }

    /** `mNNParams.gradientAuxElements = mNNParams.nnParamCount * 4`, inside
        the network block of setupData. */
    method SizeOptimizerState()
      modifies this`nn
      ensures nn == if old(nn).active then old(nn).(gradientAuxElements := old(nn).nnParamCount * 4) else old(nn)
    {
      if nn.active {
        nn := nn.(gradientAuxElements := nn.nnParamCount * 4);
      }
    }

    /** The hash cache block of setupData: the hash grid and both voxel
        data buffers, sized from the hash map size. */
    method SetupCacheBuffers()
      requires Valid()
      modifies buffers
      ensures var a := rhc.active; var size := settings.hashMapSize;
              buffers[..] == StepBuffers(StepBuffers(StepBuffers(old(buffers[..]),
                HashGridEntries, a, Structured(8, size)), VoxelData0, a, Raw(16 * size)), VoxelData1, a, Raw(16 * size))
    {
      var size := settings.hashMapSize;
      CreateBuffer(HashGridEntries, rhc.active, Structured(8, size));
      CreateBuffer(VoxelData0, rhc.active, Raw(16 * size));
      CreateBuffer(VoxelData1, rhc.active, Raw(16 * size));
    }

    /** The network block of setupData: one float per parameter for the
        primal, filtered primal, gradient and gradient count buffers, then
        the optimizer state, sized first, and the feature hash grid when
        probing is on. */
    method SetupNetworkBuffers()
      requires Valid()
      modifies this`nn, buffers
      ensures nn == if old(nn).active then old(nn).(gradientAuxElements := old(nn).nnParamCount * 4) else old(nn)
      ensures var n := nn.active; var params := nn.nnParamCount * 4;
              buffers[..] ==
                StepBuffers(StepBuffers(StepBuffers(StepBuffers(StepBuffers(StepBuffers(old(buffers[..]),
                  NNPrimal, n, Raw(params)), NNFilteredPrimal, n, Raw(params)),
                  NNGradient, n, Raw(params)), NNGradientCount, n, Raw(params)),
                  NNGradientAux, n, Raw(nn.gradientAuxElements * 4)),
                  FeatureHashGridEntries, n && nn.featureHashMapProbingSize > 0,
                  Structured(8, nn.featureHashMapSize / nn.featureHashMapPlacesPerElement))
    {
      var params := nn.nnParamCount * 4;
      CreateBuffer(NNPrimal, nn.active, Raw(params));
      CreateBuffer(NNFilteredPrimal, nn.active, Raw(params));
      CreateBuffer(NNGradient, nn.active, Raw(params));
      CreateBuffer(NNGradientCount, nn.active, Raw(params));
      SizeOptimizerState();
      CreateBuffer(NNGradientAux, nn.active, Raw(nn.gradientAuxElements * 4));
      CreateBuffer(FeatureHashGridEntries, nn.active && nn.featureHashMapProbingSize > 0,
                   Structured(8, nn.featureHashMapSize / nn.featureHashMapPlacesPerElement));
    }

    /** `if (!mBuffers[k]) mBuffers[k] = create(d)`, under the guard of the
        enclosing block. */
    method CreateBuffer(k: BufferKind, wanted: bool, d: BufferDesc)
      requires Valid()
      modifies buffers
      ensures buffers[..] == StepBuffers(old(buffers[..]), k, wanted, d)
    {
      var i := BufferIndex(k);
      ghost var b := buffers[..];
      if wanted && buffers[i].None? {
        buffers[i] := Some(d);
      }
      assert buffers[..] == StepBuffers(b, k, wanted, d);
    }

    /** setupData: the samplers the scene asks for, then each buffer of an
        active component whose slot is null. */
    method SetupData(q: SceneQuery)
      requires Valid()
      modifies this`envMapSampler, this`emissiveSampler, this`nn, buffers
      ensures Valid() && State() == SetupDataSpec(old(State()), q)
    {
      ghost var t := State();
      CreateSamplers(q);
      SetupCacheBuffers();
      SetupNetworkBuffers();
      FillBuffersUnrolled(t.buffers, t.(nn := SizedNN(t)));
    }

    /** `if (!mPasses[p] && wanted) mPasses[p] = ComputePass::create(...)`. */
    method CreatePass(p: PassRole, wanted: bool)
      requires Valid()
      modifies passes
      ensures passes[..] == StepPasses(old(passes[..]), p, wanted)
    {
      var i := PassIndex(p);
      ghost var ps := passes[..];
      if !passes[i] && wanted {
        passes[i] := true;
      }
      assert passes[..] == StepPasses(ps, p, wanted);
    }

    /** createPasses: each pass of an active component whose slot is null. */
    method CreatePasses()
      requires Valid()
      modifies passes
      ensures Valid() && State() == CreatePassesSpec(old(State()))
    {
      ghost var t := State();
      CreatePass(TrainNNFillCache, rhc.active || nn.active);
      CreatePass(PathTracing, true);
      CreatePass(RHCResolve, rhc.active);
      CreatePass(RHCReset, rhc.active);
      CreatePass(NNGradientClear, nn.active);
      CreatePass(NNGradientDescent, nn.active);
      CreatePass(NNReset, nn.active);
      CreatePass(NIRCDebug, nn.active);
      FillPassesUnrolled(t);
    }

    /** setupBuffers: the sampler block, created from the path tracing
        program's reflection when it does not exist yet. */
    method SetupBuffers()
      requires Valid() && (State().HasPass(PathTracing) || samplerBlock)
      modifies this`samplerBlock
      ensures Valid() && State() == SetupBuffersSpec(old(State()))
    {
      if !samplerBlock {
        samplerBlock := true;
      }
    }

    /** The `if (mOptionsChanged)` block of execute. */
    method ApplyOptionChanges(q: SceneQuery)
      requires Valid()
      modifies this, buffers, passes
      ensures Valid() && State() == ApplyOptions(old(State()), q)
    {
      ghost var t := State();
      Reset();
      ActivateComponents(q);
      assert State() == Activated(t, q);
      SetupData(q);
      ghost var d := State();
      CreatePasses();
      CreatePassesSlots(d);
      assert State().HasPass(PathTracing);
      SetupBuffers();
      optionsChanged := false;
    }

    /** The activation lines of the rebuild: the hash cache when the
        Russian roulette mode, radiance injection or a debug view needs it,
        the network (and its threads) when the Russian roulette mode or a
        debug view queries it. */
    method ActivateComponents(q: SceneQuery)
      modifies this`rhc, this`nn
      ensures rhc == old(rhc).(active := q.rrRequiresRHC || settings.injectRadianceRR() || settings.injectRadianceSpread()
                                        || settings.rhcDebugColor() || old(rhc).debugLevels || old(rhc).debugVoxels)
      ensures nn == old(nn).(active := q.rrRequiresNN || settings.nnDebugOutput() || old(nn).nircDebug,
                             keepThreads := q.rrRequiresNN || settings.nnDebugOutput() || old(nn).nircDebug)
    {
      rhc := rhc.(active := q.rrRequiresRHC || settings.injectRadianceRR() || settings.injectRadianceSpread()
                            || settings.rhcDebugColor() || rhc.debugLevels || rhc.debugVoxels);
      nn := nn.(active := q.rrRequiresNN || settings.nnDebugOutput() || nn.nircDebug);
      nn := nn.(keepThreads := nn.active);
    }

    /** The dispatches of a frame, each carrying what bindData bound on its
        pass, with the one-shot reset flags cleared as their resets run and
        both counters incremented at the end. */
    method DispatchFrame(width: nat, height: nat) returns (trace: seq<Dispatch>)
      requires Valid()
      modifies this`rhc, this`nn, this`frameCount
      ensures Valid()
      ensures trace == Schedule(old(State()), width, height)
      ensures State() == Advance(old(State()))
    {
      var u := State();
      var resets := ResetPassDispatches(u);
      ClearCacheReset();
      ClearNetworkReset();
      var training := TrainingDispatches(u, width, height);
      var tail := TailDispatches(u, width, height);
      trace := resets + training + tail;
      frameCount := Inc32(frameCount);
      nn := nn.(stepCount := nn.stepCount + 1);
      assert State().settings == Advance(u).settings;
      assert State().rhc == Advance(u).rhc;
      assert State().nn == Advance(u).nn;
      assert State().frameCount == Advance(u).frameCount;
      assert State().buffers == Advance(u).buffers;
      assert State().passes == Advance(u).passes;
    }

    /** `mRHCParams.reset = false` once the cache reset has run. */
    method ClearCacheReset()
      requires Valid()
      modifies this`rhc
      ensures Valid() && State() == old(State()).(rhc := old(rhc).(reset := old(rhc).reset && !old(rhc).active))
    {
      if rhc.active && rhc.reset {
        rhc := rhc.(reset := false);
      }
    }

    /** `mNNParams.reset = false` once the network reset has run. */
    method ClearNetworkReset()
      requires Valid()
      modifies this`nn
      ensures Valid() && State() == old(State()).(nn := old(nn).(reset := old(nn).reset && !old(nn).active))
    {
      if nn.active && nn.reset {
        nn := nn.(reset := false);
      }
    }

    /** The rebuild of execute, run only when the options changed. */
    method Prepare(q: SceneQuery)
      requires Valid()
      modifies this, buffers, passes
      ensures Valid() && State() == Prepared(old(State()), q)
    {
      if optionsChanged {
        ApplyOptionChanges(q);
      }
    }

    /** execute: clear the outputs without a scene, refuse scene changes
        that need recompilation, rebuild when the options changed, then
        bind and dispatch the frame. */
    method Execute(input: FrameInput) returns (outcome: FrameOutcome)
      requires Valid()
      modifies this, buffers, passes
      ensures Valid()
      ensures ExecuteFrame(old(State()), input) == Frame(State(), outcome)
    {
      if !hasScene {
        return OutputsCleared;
      }
      if input.recompileNeeded || input.geometryChanged {
        return SceneChangeUnsupported;
      }
      Prepare(input.query);
      if !CanBind(State()) {
        return NullDereference;
      }
      var trace := DispatchFrame(input.width, input.height);
      outcome := Rendered(trace);
    }
  }

  /** The one-shot resets that open a frame: the hash cache's and the
      network's, each when its component is active and its flag is set. */
  method ResetPassDispatches(u: Tracer) returns (s: seq<Dispatch>)
    ensures s == ResetDispatches(u)
  {
    s := [];
    if u.rhc.active && u.rhc.reset {
      s := s + [Dispatched(u, RHCReset, u.settings.hashMapSize, 1)];
    }
    if u.nn.active && u.nn.reset {
      s := s + [Dispatched(u, NNReset, Max(u.nn.gradientAuxElements, u.nn.nnParamCount), 1)];
    }
  }

  /** The training loop of execute: TrainingSteps sub-steps, each with
      its iteration number bound. */
  method TrainingDispatches(u: Tracer, width: nat, height: nat) returns (s: seq<Dispatch>)
    ensures s == Training(u, width, height, TrainingSteps)
  {
    s := [];
    for i := 0 to TrainingSteps
      invariant s == Training(u, width, height, i)
    {
      var step: seq<Dispatch> := [];
      if u.nn.active {
        step := step + [Dispatched(u, NNGradientClear, u.nn.nnParamCount, 1)];
      }
      if u.rhc.active || u.nn.active {
        step := step + [Dispatch(TrainNNFillCache, width / 10, height / 10,
                                 PassVars(u, TrainNNFillCache)[TrainIterationVar := Scalar(i)])];
      }
      if u.nn.active {
        step := step + [Dispatched(u, NNGradientDescent, u.nn.nnParamCount, 1)];
      }
      s := s + step;
    }
  }

  /** The dispatches after training: resolve, path tracing, debug view. */
  method TailDispatches(u: Tracer, width: nat, height: nat) returns (s: seq<Dispatch>)
    ensures s == Tail(u, width, height)
  {
    s := [];
    if u.rhc.active {
      s := s + [Dispatched(u, RHCResolve, u.settings.hashMapSize, 1)];
    }
    s := s + [Dispatched(u, PathTracing, width, height)];
    if u.nn.active && u.nn.nircDebug {
      s := s + [Dispatched(u, NIRCDebug, NIRCDebugWidth, NIRCDebugHeight)];
    }
  }

  /** setupData's nine buffer statements, written out. */
  lemma FillBuffersUnrolled(b: BufferTable, u: Tracer)
    ensures var a := u.rhc.active; var n := u.nn.active; var size := u.settings.hashMapSize;
            var params := u.nn.nnParamCount * 4;
            FillBuffers(b, BufferCount, u) ==
              StepBuffers(StepBuffers(StepBuffers(StepBuffers(StepBuffers(StepBuffers(StepBuffers(StepBuffers(StepBuffers(
                b, HashGridEntries, a, Structured(8, size)), VoxelData0, a, Raw(16 * size)),
                VoxelData1, a, Raw(16 * size)), NNPrimal, n, Raw(params)), NNFilteredPrimal, n, Raw(params)),
                NNGradient, n, Raw(params)), NNGradientCount, n, Raw(params)),
                NNGradientAux, n, Raw(u.nn.gradientAuxElements * 4)),
                FeatureHashGridEntries, n && u.nn.featureHashMapProbingSize > 0,
                Structured(8, u.nn.featureHashMapSize / u.nn.featureHashMapPlacesPerElement))
  {
    var a := u.rhc.active;
    var n := u.nn.active;
    var size := u.settings.hashMapSize;
    var params := u.nn.nnParamCount * 4;
    var b1 := StepBuffers(b, HashGridEntries, a, Structured(8, size));
    assert FillBuffers(b, 1, u) == b1;
    var b2 := StepBuffers(b1, VoxelData0, a, Raw(16 * size));
    assert FillBuffers(b, 2, u) == b2;
    var b3 := StepBuffers(b2, VoxelData1, a, Raw(16 * size));
    assert FillBuffers(b, 3, u) == b3;
    var b4 := StepBuffers(b3, NNPrimal, n, Raw(params));
    assert FillBuffers(b, 4, u) == b4;
    var b5 := StepBuffers(b4, NNFilteredPrimal, n, Raw(params));
    assert FillBuffers(b, 5, u) == b5;
    var b6 := StepBuffers(b5, NNGradient, n, Raw(params));
    assert FillBuffers(b, 6, u) == b6;
    var b7 := StepBuffers(b6, NNGradientCount, n, Raw(params));
    assert FillBuffers(b, 7, u) == b7;
    var b8 := StepBuffers(b7, NNGradientAux, n, Raw(u.nn.gradientAuxElements * 4));
    assert FillBuffers(b, 8, u) == b8;
  }

  /** createPasses's eight statements, written out. */
  lemma FillPassesUnrolled(t: Tracer)
    ensures var a := t.rhc.active; var n := t.nn.active;
            FillPasses(t.passes, PassCount, t) ==
              StepPasses(StepPasses(StepPasses(StepPasses(StepPasses(StepPasses(StepPasses(StepPasses(
                t.passes, TrainNNFillCache, a || n), PathTracing, true), RHCResolve, a), RHCReset, a),
                NNGradientClear, n), NNGradientDescent, n), NNReset, n), NIRCDebug, n)
  {
    var a := t.rhc.active;
    var n := t.nn.active;
    var p1 := StepPasses(t.passes, TrainNNFillCache, a || n);
    assert FillPasses(t.passes, 1, t) == p1;
    var p2 := StepPasses(p1, PathTracing, true);
    assert FillPasses(t.passes, 2, t) == p2;
    var p3 := StepPasses(p2, RHCResolve, a);
    assert FillPasses(t.passes, 3, t) == p3;
    var p4 := StepPasses(p3, RHCReset, a);
    assert FillPasses(t.passes, 4, t) == p4;
    var p5 := StepPasses(p4, NNGradientClear, n);
    assert FillPasses(t.passes, 5, t) == p5;
    var p6 := StepPasses(p5, NNGradientDescent, n);
    assert FillPasses(t.passes, 6, t) == p6;
    var p7 := StepPasses(p6, NNReset, n);
    assert FillPasses(t.passes, 7, t) == p7;
  }

  /** The constructor: the member defaults, then parseProperties over the
      creation dictionary; a conversion that throws leaves no object. */
  method Create(defaults: Settings, rhcDefaults: RHCParams, nnDefaults: NNParams, props: Properties)
    returns (r: Option<ComputePathTracer>)
    ensures r.Some? <==> Construct(defaults, rhcDefaults, nnDefaults, props).Some?
    ensures r.Some? ==> fresh(r.value) && fresh(r.value.buffers) && fresh(r.value.passes)
    ensures r.Some? ==> r.value.Valid() && r.value.State() == Construct(defaults, rhcDefaults, nnDefaults, props).value
  {
    var p := new ComputePathTracer.Init(defaults, rhcDefaults, nnDefaults);
    var _, failedKey := p.ParseProperties(props);
    r := if failedKey.Some? then None else Some(p);
  }
}
