/** One call of execute: what bindData binds, which compute passes are
    dispatched in which order with how many threads, and how the counters
    and one-shot flags move. The GPU work itself is opaque: a frame yields
    the trace of its dispatches. */
module FrameSchedule {
  import opened TracerState
  import opened PropertyParsing
  import opened Lifecycle

  /** The shader variables bindData sets that this model follows. */
  datatype ShaderVar =
    | FrameCountVar        // CB.gFrameCount
    | TrainIterationVar    // CB.gTrainIteration
    | StepVar              // CB.t, the optimizer step
    | HashGridEntriesVar   // gRHCHashGridEntriesBuffer
    | VoxelDataVar         // gRHCVoxelDataBuffer
    | VoxelDataPrevVar     // gRHCVoxelDataBufferPrev
    | PrimalVar            // PrimalBuffer
    | FilteredPrimalVar    // FilteredPrimalBuffer
    | GradientVar          // GradientBuffer
    | GradientCountVar     // GradientCountBuffer
    | GradientAuxVar       // GradientAuxBuffer
    | FeatureHashGridVar   // gFeatureHashGridEntriesBuffer

  /** What a variable is bound to: the buffer in a slot of mBuffers, or a
      number. */
  datatype Binding = Slot(kind: BufferKind) | Scalar(value: nat)

  /** One `execute` of a compute pass: its role, its thread counts, and the
      variables its program sees. */
  datatype Dispatch = Dispatch(role: PassRole, threadsX: nat, threadsY: nat, vars: map<ShaderVar, Binding>)

  /** The voxel buffers a frame writes (current) and reads (previous). */
  datatype VoxelRoles = VoxelRoles(current: BufferKind, previous: BufferKind)

  /** The parity choice bindData makes for the training, resolve and path
      tracing passes. */
  function VoxelSelection(frameCount: nat): VoxelRoles {
    VoxelRoles(if frameCount % 2 == 0 then VoxelData0 else VoxelData1,
               if frameCount % 2 == 1 then VoxelData0 else VoxelData1)
  }

  /** The two roles are the two voxel buffers, never the same one; buffer 0
      is current exactly on even frames. */
  lemma VoxelRolesDistinct(f: nat)
    ensures VoxelSelection(f).current != VoxelSelection(f).previous
    ensures {VoxelSelection(f).current, VoxelSelection(f).previous} == {VoxelData0, VoxelData1}
    ensures VoxelSelection(f).current == VoxelData0 <==> f % 2 == 0
  {
  }

  /** The roles swap every frame, also when the 32-bit frame counter wraps
      around (2^32 is even): what one frame writes, the next reads. */
  lemma VoxelRolesAlternate(f: uint32)
    ensures VoxelSelection(Inc32(f)).previous == VoxelSelection(f).current
    ensures VoxelSelection(Inc32(f)).current == VoxelSelection(f).previous
  {
  }

  /** Every shader variable the model follows. */
  const AllVars: set<ShaderVar> :=
    {FrameCountVar, TrainIterationVar, StepVar, HashGridEntriesVar, VoxelDataVar, VoxelDataPrevVar,
     PrimalVar, FilteredPrimalVar, GradientVar, GradientCountVar, GradientAuxVar, FeatureHashGridVar}

  /** The passes that read the radiance cache with the frame parity's
      voxel pair once it is active: training, resolve, path tracing. */
  predicate ReadsCache(t: Tracer, p: PassRole) {
    p == RHCResolve || ((p == TrainNNFillCache || p == PathTracing) && t.rhc.active)
  }

  /** The passes that query the network once it is active: training and
      path tracing. */
  predicate QueriesNetwork(t: Tracer, p: PassRole) {
    (p == TrainNNFillCache || p == PathTracing) && t.nn.active
  }

  /** What bindData binds variable `v` of pass `p` to, if anything. The
      training, path tracing and debug passes see the frame counter; the
      descent sees the optimizer step. The cache passes bind the hash grid
      and a voxel pair: the one the frame parity selects, except for the
      reset, which binds buffer 0 as current and buffer 1 as previous.
      Training, the descent and the network reset bind the primal
      weights, path tracing and the debug view the filtered ones. The
      feature grid is bound only when probing is on and its buffer
      exists. */
  function VarBinding(t: Tracer, p: PassRole, v: ShaderVar): Option<Binding> {
    var sel := VoxelSelection(t.frameCount);
    match v
    case FrameCountVar =>
      if p == TrainNNFillCache || p == PathTracing || p == NIRCDebug then Some(Scalar(t.frameCount)) else None
    case TrainIterationVar => None
    case StepVar => if p == NNGradientDescent then Some(Scalar(t.nn.stepCount)) else None
    case HashGridEntriesVar =>
      if p == RHCReset || ReadsCache(t, p) then Some(Slot(HashGridEntries)) else None
    case VoxelDataVar =>
      if p == RHCReset then Some(Slot(VoxelData0))
      else if ReadsCache(t, p) then Some(Slot(sel.current))
      else None
    case VoxelDataPrevVar =>
      if p == RHCReset then Some(Slot(VoxelData1))
      else if ReadsCache(t, p) then Some(Slot(sel.previous))
      else None
    case PrimalVar =>
      if (p == TrainNNFillCache && t.nn.active) || p == NNGradientDescent || p == NNReset then Some(Slot(NNPrimal))
      else if (p == PathTracing && t.nn.active) || p == NIRCDebug then Some(Slot(NNFilteredPrimal))
      else None
    case FilteredPrimalVar =>
      if p == NNGradientDescent || p == NNReset then Some(Slot(NNFilteredPrimal)) else None
    case GradientVar =>
      if QueriesNetwork(t, p) || p == NNGradientClear || p == NNGradientDescent then Some(Slot(NNGradient)) else None
    case GradientCountVar =>
      if QueriesNetwork(t, p) || p == NNGradientClear || p == NNGradientDescent then Some(Slot(NNGradientCount)) else None
    case GradientAuxVar =>
      if p == NNGradientDescent || p == NNReset then Some(Slot(NNGradientAux)) else None
    case FeatureHashGridVar =>
      if (QueriesNetwork(t, p) || p == NNReset || p == NIRCDebug)
         && t.nn.featureHashMapProbingSize > 0 && t.Buffer(FeatureHashGridEntries).Some?
      then Some(Slot(FeatureHashGridEntries))
      else None
  }

  /** The variables bindData sets on pass `p`. */
  function PassVars(t: Tracer, p: PassRole): map<ShaderVar, Binding> {
    map v | v in AllVars && VarBinding(t, p, v).Some? :: VarBinding(t, p, v).value
  }

  /** A dispatch of pass `p` with the variables bindData gave it. */
  function Dispatched(t: Tracer, p: PassRole, x: nat, y: nat): Dispatch {
    Dispatch(p, x, y, PassVars(t, p))
  }

  function Max(a: nat, b: nat): nat {
    if a >= b then a else b
  }

  /** Number of training sub-steps per frame. */
  const TrainingSteps: nat := 4

  /** kNIRCDebugOutputDim. */
  const NIRCDebugWidth: nat := 1000
  const NIRCDebugHeight: nat := 1000

  /** The one-shot resets: the cache reset over every hash map entry, then
      the network reset over its larger buffer. */
  function ResetDispatches(t: Tracer): seq<Dispatch> {
    (if t.rhc.active && t.rhc.reset then [Dispatched(t, RHCReset, t.settings.hashMapSize, 1)] else [])
    + (if t.nn.active && t.nn.reset
       then [Dispatched(t, NNReset, Max(t.nn.gradientAuxElements, t.nn.nnParamCount), 1)] else [])
  }

  /** Training sub-step `i`: clear the gradients, train on a tenth of the
      frame in each direction with gTrainIteration set to `i`, descend. */
  function SubStep(t: Tracer, w: nat, h: nat, i: nat): seq<Dispatch> {
    (if t.nn.active then [Dispatched(t, NNGradientClear, t.nn.nnParamCount, 1)] else [])
    + (if t.rhc.active || t.nn.active
       then [Dispatch(TrainNNFillCache, w / 10, h / 10,
                      PassVars(t, TrainNNFillCache)[TrainIterationVar := Scalar(i)])]
       else [])
    + (if t.nn.active then [Dispatched(t, NNGradientDescent, t.nn.nnParamCount, 1)] else [])
  }

  /** The first `n` training sub-steps, in order. */
  function Training(t: Tracer, w: nat, h: nat, n: nat): seq<Dispatch> {
    if n == 0 then [] else Training(t, w, h, n - 1) + SubStep(t, w, h, n - 1)
  }

  /** After training: resolve the cache, trace the frame, then the debug
      view of the network. */
  function Tail(t: Tracer, w: nat, h: nat): seq<Dispatch> {
    (if t.rhc.active then [Dispatched(t, RHCResolve, t.settings.hashMapSize, 1)] else [])
    + [Dispatched(t, PathTracing, w, h)]
    + (if t.nn.active && t.nn.nircDebug then [Dispatched(t, NIRCDebug, NIRCDebugWidth, NIRCDebugHeight)] else [])
  }

  /** The dispatches of a frame that renders from state `t`. */
  function Schedule(t: Tracer, w: nat, h: nat): seq<Dispatch> {
    ResetDispatches(t) + Training(t, w, h, TrainingSteps) + Tail(t, w, h)
  }

  /** The passes a frame from `t` dereferences. */
  predicate Uses(t: Tracer, p: PassRole) {
    match p
    case TrainNNFillCache => t.rhc.active || t.nn.active
    case PathTracing => true
    case RHCResolve => t.rhc.active
    case RHCReset => t.rhc.active && t.rhc.reset
    case NNGradientClear => t.nn.active
    case NNGradientDescent => t.nn.active
    case NNReset => t.nn.active && t.nn.reset
    case NIRCDebug => t.nn.active && t.nn.nircDebug
  }

  /** bindData finds every pass it uses, and the sampler block whenever a
      sampler is bound into it. */
  predicate CanBind(t: Tracer) {
    (forall p :: Uses(t, p) ==> t.HasPass(p))
    && (t.envMapSampler || t.emissiveSampler.Some? ==> t.samplerBlock)
  }

  /** The per-frame inputs execute reads but this model cannot compute:
      the size of the color output, the scene's update flags, and the
      queries of the options rebuild. */
  datatype FrameInput = FrameInput(
    width: nat,
    height: nat,
    recompileNeeded: bool,
    geometryChanged: bool,
    query: SceneQuery)

  /** How a call of execute ends. */
  datatype FrameOutcome =
    | OutputsCleared             // no scene: the outputs are cleared
    | SceneChangeUnsupported     // the exception for scene changes needing recompilation
    | NullDereference            // bindData dereferences a pass or block that does not exist
    | Rendered(dispatches: seq<Dispatch>)

  datatype Frame = Frame(state: Tracer, outcome: FrameOutcome)

  /** The state bindData sees: rebuilt if the options changed. */
  function Prepared(t: Tracer, q: SceneQuery): Tracer {
    if t.optionsChanged then ApplyOptions(t, q) else t
  }

  /** The state after the dispatches: each one-shot reset flag cleared when
      its reset ran, and both counters incremented (the frame counter as a
      32-bit unsigned value). */
  function Advance(u: Tracer): Tracer {
    u.(rhc := u.rhc.(reset := u.rhc.reset && !u.rhc.active),
       nn := u.nn.(reset := u.nn.reset && !u.nn.active, stepCount := u.nn.stepCount + 1),
       frameCount := Inc32(u.frameCount))
  }

  /** execute. */
  function ExecuteFrame(t: Tracer, input: FrameInput): Frame {
    if !t.hasScene then Frame(t, OutputsCleared)
    else if input.recompileNeeded || input.geometryChanged then Frame(t, SceneChangeUnsupported)
    else
      var u := Prepared(t, input.query);
      if !CanBind(u) then Frame(u, NullDereference)
      else Frame(Advance(u), Rendered(Schedule(u, input.width, input.height)))
  }

  // ---------------------------------------------------------------------
  // The shape of a frame's schedule

  /** The roles of a trace, in order. */
  function Roles(s: seq<Dispatch>): (rs: seq<PassRole>)
    ensures |rs| == |s|
  {
    seq(|s|, i requires 0 <= i < |s| => s[i].role)
  }

  /** How many dispatches of a trace run pass `r`. */
  function Count(s: seq<Dispatch>, r: PassRole): nat {
    multiset(Roles(s))[r]
  }

  lemma RolesAppend(a: seq<Dispatch>, b: seq<Dispatch>)
    ensures Roles(a + b) == Roles(a) + Roles(b)
  {
    assert forall i | 0 <= i < |a + b| :: Roles(a + b)[i] == (Roles(a) + Roles(b))[i];
  }

  /** `n` copies of `p`, one after the other. */
  function Repeat(p: seq<PassRole>, n: nat): seq<PassRole> {
    if n == 0 then [] else Repeat(p, n - 1) + p
  }

  lemma {:induction false} RepeatCount(p: seq<PassRole>, n: nat, r: PassRole)
    ensures multiset(Repeat(p, n))[r] == n * multiset(p)[r]
  {
    if n > 0 {
      RepeatCount(p, n - 1, r);
      assert multiset(Repeat(p, n)) == multiset(Repeat(p, n - 1)) + multiset(p);
      assert (n - 1) * multiset(p)[r] + multiset(p)[r] == n * multiset(p)[r];
    }
  }

  /** The passes of one training sub-step: gradient clear with the network,
      training with either component, gradient descent with the network. */
  function StepPattern(t: Tracer): seq<PassRole> {
    (if t.nn.active then [NNGradientClear] else [])
    + (if t.rhc.active || t.nn.active then [TrainNNFillCache] else [])
    + (if t.nn.active then [NNGradientDescent] else [])
  }

  /** The one-shot resets of a frame: the cache's, then the network's. */
  function ResetRoles(t: Tracer): seq<PassRole> {
    (if t.rhc.active && t.rhc.reset then [RHCReset] else [])
    + (if t.nn.active && t.nn.reset then [NNReset] else [])
  }

  /** What follows training: the resolve, the path tracing, the debug view. */
  function TailRoles(t: Tracer): seq<PassRole> {
    (if t.rhc.active then [RHCResolve] else [])
    + [PathTracing]
    + (if t.nn.active && t.nn.nircDebug then [NIRCDebug] else [])
  }

  /** The passes of a frame in the order execute dispatches them. */
  function FrameRoles(t: Tracer): seq<PassRole> {
    ResetRoles(t) + Repeat(StepPattern(t), TrainingSteps) + TailRoles(t)
  }

  /** Every sub-step issues the same passes in the same order, whatever its
      iteration number. */
  lemma SubStepRoles(t: Tracer, w: nat, h: nat, i: nat)
    ensures Roles(SubStep(t, w, h, i)) == StepPattern(t)
  {
  }

  lemma {:induction false} TrainingRoles(t: Tracer, w: nat, h: nat, n: nat)
    ensures Roles(Training(t, w, h, n)) == Repeat(StepPattern(t), n)
  {
    if n > 0 {
      TrainingRoles(t, w, h, n - 1);
      RolesAppend(Training(t, w, h, n - 1), SubStep(t, w, h, n - 1));
      SubStepRoles(t, w, h, n - 1);
    }
  }

  /** The order of a frame: the one-shot cache and network resets, four
      training sub-steps, the resolve, the path tracing, the network debug
      view; each only when its component is active. */
  lemma ScheduleRoles(t: Tracer, w: nat, h: nat)
    ensures Roles(Schedule(t, w, h)) == FrameRoles(t)
  {
    var r := ResetDispatches(t);
    var tr := Training(t, w, h, TrainingSteps);
    var tl := Tail(t, w, h);
    RolesAppend(r + tr, tl);
    RolesAppend(r, tr);
    TrainingRoles(t, w, h, TrainingSteps);
    ResetDispatchesRoles(t);
    TailDispatchesRoles(t, w, h);
  }

  lemma ResetDispatchesRoles(t: Tracer)
    ensures Roles(ResetDispatches(t)) == ResetRoles(t)
  {
    var r1: seq<Dispatch> := if t.rhc.active && t.rhc.reset then [Dispatched(t, RHCReset, t.settings.hashMapSize, 1)] else [];
    var r2: seq<Dispatch> := if t.nn.active && t.nn.reset
      then [Dispatched(t, NNReset, Max(t.nn.gradientAuxElements, t.nn.nnParamCount), 1)] else [];
    RolesAppend(r1, r2);
  }

  lemma TailDispatchesRoles(t: Tracer, w: nat, h: nat)
    ensures Roles(Tail(t, w, h)) == TailRoles(t)
  {
    var l1: seq<Dispatch> := if t.rhc.active then [Dispatched(t, RHCResolve, t.settings.hashMapSize, 1)] else [];
    var l2: seq<Dispatch> := [Dispatched(t, PathTracing, w, h)];
    var l3: seq<Dispatch> := if t.nn.active && t.nn.nircDebug then [Dispatched(t, NIRCDebug, NIRCDebugWidth, NIRCDebugHeight)] else [];
    RolesAppend(l1, l2);
    RolesAppend(l1 + l2, l3);
  }

  function Ind(b: bool): nat {
    if b then 1 else 0
  }

  /** How often each pass runs in a frame: path tracing once; the training
      pass four times with either component; gradient clear and descent
      four times with the network; resolve once with the cache; each reset
      once when its component is active and its flag set; the debug view
      once with the network and its flag. */
  function ExpectedCount(t: Tracer, r: PassRole): nat {
    match r
    case PathTracing => 1
    case TrainNNFillCache => 4 * Ind(t.rhc.active || t.nn.active)
    case NNGradientClear => 4 * Ind(t.nn.active)
    case NNGradientDescent => 4 * Ind(t.nn.active)
    case RHCResolve => Ind(t.rhc.active)
    case RHCReset => Ind(t.rhc.active && t.rhc.reset)
    case NNReset => Ind(t.nn.active && t.nn.reset)
    case NIRCDebug => Ind(t.nn.active && t.nn.nircDebug)
  }

  lemma ResetRolesCount(t: Tracer, r: PassRole)
    ensures multiset(ResetRoles(t))[r] ==
              if r == RHCReset then Ind(t.rhc.active && t.rhc.reset)
              else if r == NNReset then Ind(t.nn.active && t.nn.reset)
              else 0
  {
  }

  lemma StepPatternCount(t: Tracer, r: PassRole)
    ensures multiset(StepPattern(t))[r] ==
              if r == NNGradientClear || r == NNGradientDescent then Ind(t.nn.active)
              else if r == TrainNNFillCache then Ind(t.rhc.active || t.nn.active)
              else 0
  {
  }

  lemma TailRolesCount(t: Tracer, r: PassRole)
    ensures multiset(TailRoles(t))[r] ==
              if r == RHCResolve then Ind(t.rhc.active)
              else if r == PathTracing then 1
              else if r == NIRCDebug then Ind(t.nn.active && t.nn.nircDebug)
              else 0
  {
  }

  lemma FrameRolesCount(t: Tracer, r: PassRole)
    ensures multiset(FrameRoles(t))[r] == ExpectedCount(t, r)
  {
    RepeatCount(StepPattern(t), 4, r);
    ResetRolesCount(t, r);
    StepPatternCount(t, r);
    TailRolesCount(t, r);
    var a, b, c := multiset(ResetRoles(t))[r], multiset(StepPattern(t))[r], multiset(TailRoles(t))[r];
    assert multiset(FrameRoles(t))[r] == a + multiset(Repeat(StepPattern(t), 4))[r] + c;
    CountSum(t, r, a, b, c);
  }

  lemma CountSum(t: Tracer, r: PassRole, a: nat, b: nat, c: nat)
    requires a == if r == RHCReset then Ind(t.rhc.active && t.rhc.reset)
                  else if r == NNReset then Ind(t.nn.active && t.nn.reset)
                  else 0
    requires b == if r == NNGradientClear || r == NNGradientDescent then Ind(t.nn.active)
                  else if r == TrainNNFillCache then Ind(t.rhc.active || t.nn.active)
                  else 0
    requires c == if r == RHCResolve then Ind(t.rhc.active)
                  else if r == PathTracing then 1
                  else if r == NIRCDebug then Ind(t.nn.active && t.nn.nircDebug)
                  else 0
    ensures a + 4 * b + c == ExpectedCount(t, r)
  {
  }

  lemma ScheduleCounts(t: Tracer, w: nat, h: nat)
    ensures forall r :: Count(Schedule(t, w, h), r) == ExpectedCount(t, r)
  {
    ScheduleRoles(t, w, h);
    forall r {
      FrameRolesCount(t, r);
    }
  }

  /** The thread counts execute passes for pass `p`. */
  function Threads(t: Tracer, p: PassRole, w: nat, h: nat): (nat, nat) {
    match p
    case TrainNNFillCache => (w / 10, h / 10)
    case PathTracing => (w, h)
    case RHCResolve => (t.settings.hashMapSize, 1)
    case RHCReset => (t.settings.hashMapSize, 1)
    case NNGradientClear => (t.nn.nnParamCount, 1)
    case NNGradientDescent => (t.nn.nnParamCount, 1)
    case NNReset => (Max(t.nn.gradientAuxElements, t.nn.nnParamCount), 1)
    case NIRCDebug => (NIRCDebugWidth, NIRCDebugHeight)
  }

  /** A dispatch as a frame from `t` issues it: of a pass the frame uses,
      over that pass's thread counts, with the variables bindData set on it
      (apart from the training iteration, which the loop sets). */
  predicate Issued(t: Tracer, d: Dispatch, w: nat, h: nat) {
    Uses(t, d.role)
    && (d.threadsX, d.threadsY) == Threads(t, d.role, w, h)
    && d.vars - {TrainIterationVar} == PassVars(t, d.role)
    && (TrainIterationVar in d.vars ==> d.vars[TrainIterationVar].Scalar?)
  }

  lemma PassVarsNoIteration(t: Tracer, p: PassRole)
    ensures TrainIterationVar !in PassVars(t, p)
  {
  }

  lemma DispatchedIssued(t: Tracer, p: PassRole, w: nat, h: nat)
    requires Uses(t, p) && p != TrainNNFillCache
    ensures Issued(t, Dispatched(t, p, Threads(t, p, w, h).0, Threads(t, p, w, h).1), w, h)
  {
    PassVarsNoIteration(t, p);
    var m := PassVars(t, p);
    assert m - {TrainIterationVar} == m;
  }

  /** Every dispatch of `s` is issued as a frame from `t` issues it. */
  predicate AllIssued(t: Tracer, s: seq<Dispatch>, w: nat, h: nat) {
    forall d :: d in s ==> Issued(t, d, w, h)
  }

  lemma AllIssuedAppend(t: Tracer, a: seq<Dispatch>, b: seq<Dispatch>, w: nat, h: nat)
    requires AllIssued(t, a, w, h) && AllIssued(t, b, w, h)
    ensures AllIssued(t, a + b, w, h)
  {
  }

  lemma SubStepIssued(t: Tracer, w: nat, h: nat, i: nat)
    ensures AllIssued(t, SubStep(t, w, h, i), w, h)
  {
    PassVarsNoIteration(t, TrainNNFillCache);
    var m := PassVars(t, TrainNNFillCache);
    assert m[TrainIterationVar := Scalar(i)] - {TrainIterationVar} == m;
    if t.nn.active {
      DispatchedIssued(t, NNGradientClear, w, h);
      DispatchedIssued(t, NNGradientDescent, w, h);
    }
  }

  lemma {:induction false} TrainingIssued(t: Tracer, w: nat, h: nat, n: nat)
    ensures AllIssued(t, Training(t, w, h, n), w, h)
  {
    if n > 0 {
      TrainingIssued(t, w, h, n - 1);
      SubStepIssued(t, w, h, n - 1);
      AllIssuedAppend(t, Training(t, w, h, n - 1), SubStep(t, w, h, n - 1), w, h);
    }
  }

  /** Every dispatch of a frame runs a pass the frame uses, over that
      pass's thread counts (a tenth of the frame in each direction for
      training, the whole frame for path tracing, one thread per hash map
      entry for the cache passes, one per parameter for the network passes,
      1000 by 1000 for the debug view), with the variables bindData set on
      that pass. */
  lemma ScheduleIssued(t: Tracer, w: nat, h: nat)
    ensures forall d :: d in Schedule(t, w, h) ==> Issued(t, d, w, h)
  {
    TrainingIssued(t, w, h, TrainingSteps);
    assert AllIssued(t, Training(t, w, h, TrainingSteps), w, h);
    if t.rhc.active && t.rhc.reset { DispatchedIssued(t, RHCReset, w, h); }
    if t.nn.active && t.nn.reset { DispatchedIssued(t, NNReset, w, h); }
    if t.rhc.active { DispatchedIssued(t, RHCResolve, w, h); }
    if t.nn.active && t.nn.nircDebug { DispatchedIssued(t, NIRCDebug, w, h); }
    DispatchedIssued(t, PathTracing, w, h);
  }

  /** The gTrainIteration values of a trace's training dispatches, in
      order. */
  function TrainIterations(s: seq<Dispatch>): seq<nat> {
    if s == [] then []
    else
      var d := s[|s| - 1];
      TrainIterations(s[..|s| - 1])
      + (if d.role == TrainNNFillCache && TrainIterationVar in d.vars && d.vars[TrainIterationVar].Scalar?
         then [d.vars[TrainIterationVar].value] else [])
  }

  lemma {:induction false} TrainIterationsAppend(a: seq<Dispatch>, b: seq<Dispatch>)
    ensures TrainIterations(a + b) == TrainIterations(a) + TrainIterations(b)
    decreases |b|
  {
    if b == [] {
      assert a + b == a;
    } else {
      assert (a + b)[..|a + b| - 1] == a + b[..|b| - 1];
      TrainIterationsAppend(a, b[..|b| - 1]);
    }
  }

  /** 0, 1, ..., n - 1. */
  function Range(n: nat): seq<nat> {
    if n == 0 then [] else Range(n - 1) + [n - 1]
  }

  lemma RangeOfSteps()
    ensures Range(TrainingSteps) == [0, 1, 2, 3]
  {
    assert Range(2) == [0, 1];
  }

  lemma NoTrainIterations(s: seq<Dispatch>)
    requires forall d :: d in s ==> d.role != TrainNNFillCache
    ensures TrainIterations(s) == []
  {
  }

  lemma SubStepIterations(t: Tracer, w: nat, h: nat, i: nat)
    ensures TrainIterations(SubStep(t, w, h, i)) == if t.rhc.active || t.nn.active then [i] else []
  {
    var c: seq<Dispatch> := if t.nn.active then [Dispatched(t, NNGradientClear, t.nn.nnParamCount, 1)] else [];
    var tr: seq<Dispatch> := if t.rhc.active || t.nn.active
       then [Dispatch(TrainNNFillCache, w / 10, h / 10, PassVars(t, TrainNNFillCache)[TrainIterationVar := Scalar(i)])]
       else [];
    var g: seq<Dispatch> := if t.nn.active then [Dispatched(t, NNGradientDescent, t.nn.nnParamCount, 1)] else [];
    TrainIterationsAppend(c + tr, g);
    TrainIterationsAppend(c, tr);
    NoTrainIterations(c);
    NoTrainIterations(g);
    if t.rhc.active || t.nn.active {
      assert tr == [] + tr;
      assert TrainIterations(tr) == [i];
    }
  }

  lemma {:induction false} TrainingIterations(t: Tracer, w: nat, h: nat, n: nat)
    ensures TrainIterations(Training(t, w, h, n)) == if t.rhc.active || t.nn.active then Range(n) else []
  {
    if n > 0 {
      var prev := Training(t, w, h, n - 1);
      var step := SubStep(t, w, h, n - 1);
      assert Training(t, w, h, n) == prev + step;
      TrainingIterations(t, w, h, n - 1);
      TrainIterationsAppend(prev, step);
      SubStepIterations(t, w, h, n - 1);
      assert Range(n) == Range(n - 1) + [n - 1];
    }
  }

  /** The training dispatches of a frame see gTrainIteration 0, 1, 2, 3 in
      turn. */
  lemma ScheduleIterations(t: Tracer, w: nat, h: nat)
    ensures TrainIterations(Schedule(t, w, h)) == if t.rhc.active || t.nn.active then [0, 1, 2, 3] else []
  {
    var r := ResetDispatches(t);
    var tr := Training(t, w, h, TrainingSteps);
    var tl := Tail(t, w, h);
    TrainIterationsAppend(r + tr, tl);
    TrainIterationsAppend(r, tr);
    TrainingIterations(t, w, h, TrainingSteps);
    RangeOfSteps();
    ResetDispatchesNoTraining(t);
    TailNoTraining(t, w, h);
  }

  lemma ResetDispatchesNoTraining(t: Tracer)
    ensures TrainIterations(ResetDispatches(t)) == []
  {
    NoTrainIterations(ResetDispatches(t));
  }

  lemma TailNoTraining(t: Tracer, w: nat, h: nat)
    ensures TrainIterations(Tail(t, w, h)) == []
  {
    NoTrainIterations(Tail(t, w, h));
  }

  // ---------------------------------------------------------------------
  // What the dispatches of a frame are bound to

  /** Map `m` binds variable `v` to `b`. */
  predicate Binds(m: map<ShaderVar, Binding>, v: ShaderVar, b: Binding) {
    v in m && m[v] == b
  }

  /** Removing the training iteration changes no other variable. */
  lemma BindsBesideIteration(m: map<ShaderVar, Binding>, n: map<ShaderVar, Binding>, v: ShaderVar)
    requires m - {TrainIterationVar} == n && v != TrainIterationVar
    ensures v in m <==> v in n
    ensures v in m ==> m[v] == n[v]
  {
    assert v in m ==> v in m - {TrainIterationVar};
  }

  /** The voxel pair of each pass: the training, resolve and path tracing
      passes bind the pair the frame parity selects, the cache reset binds
      buffer 0 as current and buffer 1 as previous, and no other pass binds
      voxel data without the cache. */
  lemma PassVarsVoxels(t: Tracer, p: PassRole)
    ensures (p == TrainNNFillCache || p == RHCResolve || p == PathTracing) && t.rhc.active ==>
              Binds(PassVars(t, p), VoxelDataVar, Slot(VoxelSelection(t.frameCount).current))
              && Binds(PassVars(t, p), VoxelDataPrevVar, Slot(VoxelSelection(t.frameCount).previous))
    ensures p == RHCReset ==>
              Binds(PassVars(t, p), VoxelDataVar, Slot(VoxelData0))
              && Binds(PassVars(t, p), VoxelDataPrevVar, Slot(VoxelData1))
    ensures VoxelDataVar in PassVars(t, p) && Uses(t, p) ==> t.rhc.active
  {
    match p
    case TrainNNFillCache =>
    case PathTracing =>
    case RHCResolve =>
    case RHCReset =>
    case NNGradientClear =>
    case NNGradientDescent =>
    case NNReset =>
    case NIRCDebug =>
  }

  /** Within a frame the training, resolve and path tracing passes use one
      and the same voxel selection, that of the frame parity; the reset
      dispatch binds buffers 0 and 1 in fixed roles; voxel data is bound
      only with the cache active. */
  lemma ScheduleVoxels(t: Tracer, w: nat, h: nat)
    ensures forall d :: d in Schedule(t, w, h) && t.rhc.active
                        && (d.role == TrainNNFillCache || d.role == RHCResolve || d.role == PathTracing) ==>
              Binds(d.vars, VoxelDataVar, Slot(VoxelSelection(t.frameCount).current))
              && Binds(d.vars, VoxelDataPrevVar, Slot(VoxelSelection(t.frameCount).previous))
    ensures forall d :: d in Schedule(t, w, h) && d.role == RHCReset ==>
              Binds(d.vars, VoxelDataVar, Slot(VoxelData0)) && Binds(d.vars, VoxelDataPrevVar, Slot(VoxelData1))
    ensures forall d :: d in Schedule(t, w, h) && VoxelDataVar in d.vars ==> t.rhc.active
  {
    ScheduleIssued(t, w, h);
    forall d | d in Schedule(t, w, h)
      ensures VoxelDataVar in d.vars ==> t.rhc.active
      ensures t.rhc.active && (d.role == TrainNNFillCache || d.role == RHCResolve || d.role == PathTracing) ==>
                Binds(d.vars, VoxelDataVar, Slot(VoxelSelection(t.frameCount).current))
                && Binds(d.vars, VoxelDataPrevVar, Slot(VoxelSelection(t.frameCount).previous))
      ensures d.role == RHCReset ==>
                Binds(d.vars, VoxelDataVar, Slot(VoxelData0)) && Binds(d.vars, VoxelDataPrevVar, Slot(VoxelData1))
    {
      PassVarsVoxels(t, d.role);
      BindsBesideIteration(d.vars, PassVars(t, d.role), VoxelDataVar);
      BindsBesideIteration(d.vars, PassVars(t, d.role), VoxelDataPrevVar);
    }
  }

  /** Which network weights each pass reads: training the primal copy,
      path tracing and the debug view the filtered copy; gradient descent
      updates both at the optimizer step count. */
  lemma PassVarsWeights(t: Tracer, p: PassRole)
    ensures p == TrainNNFillCache && t.nn.active ==> Binds(PassVars(t, p), PrimalVar, Slot(NNPrimal))
    ensures p == PathTracing && t.nn.active ==> Binds(PassVars(t, p), PrimalVar, Slot(NNFilteredPrimal))
    ensures p == NIRCDebug ==> Binds(PassVars(t, p), PrimalVar, Slot(NNFilteredPrimal))
    ensures p == NNGradientDescent ==>
              Binds(PassVars(t, p), StepVar, Scalar(t.nn.stepCount))
              && Binds(PassVars(t, p), PrimalVar, Slot(NNPrimal))
              && Binds(PassVars(t, p), FilteredPrimalVar, Slot(NNFilteredPrimal))
  {
  }

  /** The weights each dispatch of a frame reads, and the step count the
      descent sees. */
  lemma ScheduleWeights(t: Tracer, w: nat, h: nat)
    ensures forall d :: d in Schedule(t, w, h) && d.role == TrainNNFillCache && t.nn.active ==>
              Binds(d.vars, PrimalVar, Slot(NNPrimal))
    ensures forall d :: d in Schedule(t, w, h) && ((d.role == PathTracing && t.nn.active) || d.role == NIRCDebug) ==>
              Binds(d.vars, PrimalVar, Slot(NNFilteredPrimal))
    ensures forall d :: d in Schedule(t, w, h) && d.role == NNGradientDescent ==>
              Binds(d.vars, StepVar, Scalar(t.nn.stepCount))
              && Binds(d.vars, PrimalVar, Slot(NNPrimal))
              && Binds(d.vars, FilteredPrimalVar, Slot(NNFilteredPrimal))
  {
    ScheduleIssued(t, w, h);
    forall d | d in Schedule(t, w, h)
      ensures d.role == TrainNNFillCache && t.nn.active ==> Binds(d.vars, PrimalVar, Slot(NNPrimal))
      ensures (d.role == PathTracing && t.nn.active) || d.role == NIRCDebug ==>
                Binds(d.vars, PrimalVar, Slot(NNFilteredPrimal))
      ensures d.role == NNGradientDescent ==>
                Binds(d.vars, StepVar, Scalar(t.nn.stepCount))
                && Binds(d.vars, PrimalVar, Slot(NNPrimal))
                && Binds(d.vars, FilteredPrimalVar, Slot(NNFilteredPrimal))
    {
      PassVarsWeights(t, d.role);
      BindsBesideIteration(d.vars, PassVars(t, d.role), PrimalVar);
      BindsBesideIteration(d.vars, PassVars(t, d.role), FilteredPrimalVar);
      BindsBesideIteration(d.vars, PassVars(t, d.role), StepVar);
    }
  }

  /** Every buffer the active components want exists. */
  predicate Stocked(t: Tracer) {
    forall k :: BufferWanted(t, k) ==> t.Buffer(k).Some?
  }

  /** Every buffer slot `m` binds holds a buffer. */
  predicate SlotsExist(t: Tracer, m: map<ShaderVar, Binding>) {
    forall v :: v in m && m[v].Slot? ==> t.Buffer(m[v].kind).Some?
  }

  /** A pass the frame uses binds only buffers of its active components. */
  lemma PassVarsStocked(t: Tracer, p: PassRole)
    requires Stocked(t) && Uses(t, p)
    ensures SlotsExist(t, PassVars(t, p))
  {
    var m := PassVars(t, p);
    forall v | v in m && m[v].Slot?
      ensures t.Buffer(m[v].kind).Some?
    {
      SlotWanted(t, p, v);
    }
  }

  /** A buffer slot a used pass binds belongs to an active component. */
  lemma SlotWanted(t: Tracer, p: PassRole, v: ShaderVar)
    requires Uses(t, p) && v in PassVars(t, p) && PassVars(t, p)[v].Slot?
    ensures BufferWanted(t, PassVars(t, p)[v].kind)
  {
    match p
    case TrainNNFillCache =>
    case PathTracing =>
    case RHCResolve =>
    case RHCReset =>
    case NNGradientClear =>
    case NNGradientDescent =>
    case NNReset =>
    case NIRCDebug =>
  }

  /** With the wanted buffers in place, no dispatch of a frame binds a null
      buffer. */
  lemma ScheduleSlotsExist(t: Tracer, w: nat, h: nat)
    requires Stocked(t)
    ensures forall d :: d in Schedule(t, w, h) ==> SlotsExist(t, d.vars)
  {
    ScheduleIssued(t, w, h);
    forall d | d in Schedule(t, w, h)
      ensures SlotsExist(t, d.vars)
    {
      PassVarsStocked(t, d.role);
      forall v | v in d.vars && d.vars[v].Slot?
        ensures t.Buffer(d.vars[v].kind).Some?
      {
        if v != TrainIterationVar {
          BindsBesideIteration(d.vars, PassVars(t, d.role), v);
        }
      }
    }
  }

  // ---------------------------------------------------------------------
  // execute over time

  /** The passes and buffers a frame needs exist, and so does the sampler
      block. */
  predicate Built(t: Tracer) {
    t.samplerBlock && Stocked(t) && forall p :: PassWanted(t, p) ==> t.HasPass(p)
  }

  /** The state invariant execute relies on: either the next frame rebuilds,
      or everything it binds exists. */
  predicate Ready(t: Tracer) {
    t.optionsChanged || Built(t)
  }

  lemma UsesWanted(t: Tracer, p: PassRole)
    ensures Uses(t, p) ==> PassWanted(t, p)
  {
  }

  lemma BuiltBinds(t: Tracer)
    requires Built(t)
    ensures CanBind(t)
  {
    forall p | Uses(t, p)
      ensures t.HasPass(p)
    {
      UsesWanted(t, p);
    }
  }

  /** A rebuild leaves everything in place that a frame binds. */
  lemma ApplyOptionsBuilt(t: Tracer, q: SceneQuery)
    ensures Built(ApplyOptions(t, q)) && !ApplyOptions(t, q).optionsChanged
  {
    ApplyOptionsCounters(t, q);
    ApplyOptionsBuffers(t, q);
    ApplyOptionsPasses(t, q);
  }

  lemma PreparedBuilt(t: Tracer, q: SceneQuery)
    requires Ready(t)
    ensures Built(Prepared(t, q)) && !Prepared(t, q).optionsChanged
    ensures !t.optionsChanged ==> Prepared(t, q) == t
  {
    if t.optionsChanged {
      ApplyOptionsBuilt(t, q);
    }
  }

  /** From a ready state execute never dereferences a null pass, sampler
      block or buffer: it clears the outputs, refuses the scene change, or
      renders, binding only buffers that exist. */
  lemma ReadyRenders(t: Tracer, input: FrameInput)
    requires Ready(t)
    ensures ExecuteFrame(t, input).outcome != NullDereference
    ensures t.hasScene && !input.recompileNeeded && !input.geometryChanged ==>
              ExecuteFrame(t, input).outcome.Rendered?
    ensures ExecuteFrame(t, input).outcome.Rendered? ==>
              forall d :: d in ExecuteFrame(t, input).outcome.dispatches ==>
                SlotsExist(ExecuteFrame(t, input).state, d.vars)
  {
    var u := Prepared(t, input.query);
    PreparedBuilt(t, input.query);
    BuiltBinds(u);
    ScheduleSlotsExist(u, input.width, input.height);
  }

  /** Advancing a frame keeps what was built. */
  lemma AdvanceKeepsBuilt(u: Tracer)
    requires Built(u)
    ensures Built(Advance(u)) && Advance(u).optionsChanged == u.optionsChanged
  {
    var a := Advance(u);
    assert forall k :: BufferWanted(a, k) == BufferWanted(u, k) && a.Buffer(k) == u.Buffer(k);
    assert forall p :: PassWanted(a, p) == PassWanted(u, p) && a.HasPass(p) == u.HasPass(p);
  }

  /** execute keeps the state ready, and after a rendered frame nothing is
      left to rebuild: the options are applied once per change. */
  lemma ExecuteKeepsReady(t: Tracer, input: FrameInput)
    requires Ready(t)
    ensures Ready(ExecuteFrame(t, input).state)
    ensures ExecuteFrame(t, input).outcome.Rendered? ==>
              Built(ExecuteFrame(t, input).state) && !ExecuteFrame(t, input).state.optionsChanged
  {
    if t.hasScene && !input.recompileNeeded && !input.geometryChanged {
      var u := Prepared(t, input.query);
      PreparedBuilt(t, input.query);
      BuiltBinds(u);
      AdvanceKeepsBuilt(u);
    }
  }

  /** A frame with no scene only clears the outputs: no dispatch, and the
      state, with its frame and step counters, unchanged. */
  lemma NoSceneNoDispatch(t: Tracer, input: FrameInput)
    requires !t.hasScene
    ensures ExecuteFrame(t, input) == Frame(t, OutputsCleared)
  {
  }

  /** A rendered frame increments both counters, from zero after a rebuild;
      the frame counter as a 32-bit unsigned value. */
  lemma ExecuteCounters(t: Tracer, input: FrameInput)
    requires ExecuteFrame(t, input).outcome.Rendered?
    ensures var f := ExecuteFrame(t, input);
            f.state.frameCount == Inc32(if t.optionsChanged then 0 else t.frameCount)
            && f.state.nn.stepCount == (if t.optionsChanged then 0 else t.nn.stepCount) + 1
            && !f.state.optionsChanged
  {
    if t.optionsChanged {
      ApplyOptionsCounters(t, input.query);
    }
  }

  /** How often a frame from `u` dispatches each reset. */
  lemma ResetCounts(u: Tracer, w: nat, h: nat)
    ensures Count(Schedule(u, w, h), RHCReset) == Ind(u.rhc.active && u.rhc.reset)
    ensures Count(Schedule(u, w, h), NNReset) == Ind(u.nn.active && u.nn.reset)
  {
    ScheduleCounts(u, w, h);
    assert Count(Schedule(u, w, h), RHCReset) == ExpectedCount(u, RHCReset);
    assert Count(Schedule(u, w, h), NNReset) == ExpectedCount(u, NNReset);
  }

  /** Preparing a frame changes no reset flag. */
  lemma PreparedKeepsFlags(t: Tracer, q: SceneQuery)
    ensures Prepared(t, q).rhc.reset == t.rhc.reset && Prepared(t, q).nn.reset == t.nn.reset
  {
    if t.optionsChanged {
      ApplyOptionsActivation(t, q);
    }
  }

  /** The one-shot reset flags: after a rendered frame a flag is still set
      exactly when it was set and its reset was not dispatched. */
  lemma ExecuteFlags(t: Tracer, input: FrameInput)
    requires ExecuteFrame(t, input).outcome.Rendered?
    ensures var f := ExecuteFrame(t, input);
            (f.state.rhc.reset <==> t.rhc.reset && Count(f.outcome.dispatches, RHCReset) == 0)
            && (f.state.nn.reset <==> t.nn.reset && Count(f.outcome.dispatches, NNReset) == 0)
  {
    var u := Prepared(t, input.query);
    PreparedKeepsFlags(t, input.query);
    ResetCounts(u, input.width, input.height);
  }

  /** Over two rendered frames each reset is dispatched at most once. */
  lemma ResetsRunOnce(t: Tracer, first: FrameInput, second: FrameInput)
    requires ExecuteFrame(t, first).outcome.Rendered?
    requires ExecuteFrame(ExecuteFrame(t, first).state, second).outcome.Rendered?
    ensures var f1 := ExecuteFrame(t, first);
            var f2 := ExecuteFrame(f1.state, second);
            Count(f1.outcome.dispatches, RHCReset) + Count(f2.outcome.dispatches, RHCReset) <= 1
            && Count(f1.outcome.dispatches, NNReset) + Count(f2.outcome.dispatches, NNReset) <= 1
  {
    var u := Prepared(t, first.query);
    var f1 := ExecuteFrame(t, first);
    ExecuteCounters(t, first);
    assert Prepared(f1.state, second.query) == f1.state;
    ResetCounts(u, first.width, first.height);
    ResetCounts(f1.state, second.width, second.height);
  }

  /** Constructing the pass, the corrected setProperties and the corrected
      setScene leave it ready. */
  lemma ConstructReady(defaults: Settings, rhc: RHCParams, nn: NNParams, props: Properties)
    ensures var r := Construct(defaults, rhc, nn, props);
            r.Some? ==> Ready(r.value)
  {
  }

  lemma SetPropertiesReady(t: Tracer, props: Properties)
    requires Ready(t)
    ensures Ready(SetPropertiesForwarding(t, props).state)
  {
    var o := ApplyAll(t.settings, props);
    if o.failedKey.Some? {
      var u := t.(settings := o.settings);
      assert forall k :: BufferWanted(u, k) == BufferWanted(t, k) && u.Buffer(k) == t.Buffer(k);
      assert forall p :: PassWanted(u, p) == PassWanted(t, p) && u.HasPass(p) == t.HasPass(p);
    }
  }

  lemma SetSceneRebuildReady(t: Tracer)
    ensures Ready(SetSceneRebuild(t))
  {
  }

  /** setScene as written, on a pass whose options are applied: the next
      frame that renders the scene finds no path tracing pass. */
  lemma SetSceneThenExecute(t: Tracer, input: FrameInput)
    requires !t.optionsChanged && !input.recompileNeeded && !input.geometryChanged
    ensures ExecuteFrame(SetSceneState(t), input).outcome == NullDereference
  {
    var s := SetSceneState(t);
    EmptyTables();
    assert Uses(s, PathTracing) && !s.HasPass(PathTracing);
  }

  /** The first scene renders; loading a second one breaks the next frame. */
  lemma SecondSceneFails(defaults: Settings, rhc: RHCParams, nn: NNParams, first: FrameInput, second: FrameInput)
    requires !first.recompileNeeded && !first.geometryChanged
    requires !second.recompileNeeded && !second.geometryChanged
    ensures var f1 := ExecuteFrame(SetSceneState(Fresh(defaults, rhc, nn)), first);
            f1.outcome.Rendered?
            && ExecuteFrame(SetSceneState(f1.state), second).outcome == NullDereference
  {
    var t1 := SetSceneState(Fresh(defaults, rhc, nn));
    ReadyRenders(t1, first);
    ExecuteKeepsReady(t1, first);
    SetSceneThenExecute(ExecuteFrame(t1, first).state, second);
  }

  /** The corrected setScene: every later frame that renders the scene
      does render. */
  lemma SetSceneRebuildRenders(t: Tracer, input: FrameInput)
    requires !input.recompileNeeded && !input.geometryChanged
    ensures ExecuteFrame(SetSceneRebuild(t), input).outcome.Rendered?
  {
    ReadyRenders(SetSceneRebuild(t), input);
  }
}
