/** The state of the ComputePathTracer render pass, as plain values.
    The class in tracer.dfy holds these same fields and mutates them; the
    specification functions of the other modules work on the `Tracer`
    snapshot defined here. */
module TracerState {

  datatype Option<T> = None | Some(value: T)

  /** Options of the light BVH sampler: forwarded verbatim, never inspected. */
  datatype LightBVHOptions = LightBVHOptions(id: nat)

  /** The settings that parseProperties can write, one per property key. */
  datatype Key =
    | LowerBounceCount | UpperBounceCount | UseImportanceSampling | UseNEE | UseMIS
    | MISUsePowerHeuristic | UseRR | LightBVHOptionsKey | RHCHashMapSizeExponent
    | RHCInjectRadianceRR | RHCInjectRadianceSpread | RHCDebugColor
    | RRSurvivalProbOption | NNDebugOutput

  /** A property value: the kinds of JSON value the settings convert from. */
  datatype Value = Bool(b: bool) | UInt(n: nat) | Float(x: real) | LightBVH(options: LightBVHOptions)

  /** The value kind a key's member has, so the kind whose conversion
      succeeds. */
  predicate Accepts(k: Key, v: Value) {
    match k
    case LowerBounceCount => v.UInt?
    case UpperBounceCount => v.UInt?
    case LightBVHOptionsKey => v.LightBVH?
    case RHCHashMapSizeExponent => v.UInt?
    case RRSurvivalProbOption => v.UInt?
    case _ => v.Bool?
  }

  /** The keyed members, by key. A key that holds nothing reads as its
      default (see Settings.Get). */
  type KeyedValues = map<Key, Value>

  /** The value a key reads as when it holds none of its kind. */
  function Default(k: Key): (v: Value)
    ensures Accepts(k, v)
  {
    match k
    case LowerBounceCount => UInt(0)
    case UpperBounceCount => UInt(0)
    case LightBVHOptionsKey => LightBVH(LightBVHOptions(0))
    case RHCHashMapSizeExponent => UInt(0)
    case RRSurvivalProbOption => UInt(0)
    case _ => Bool(false)
  }

  /** Every key holds a value of its kind, as every member of the pass
      does; Get reads such settings directly. */
  predicate Complete(s: Settings) {
    forall k: Key :: k in s.keyed && Accepts(k, s.keyed[k])
  }

  /** The settings that the property surface reads and writes: the bounce
      bounds and light-transport toggles of the pass, and the
      property-backed members of mRRParams (useRR is its `active`),
      mRHCParams and mNNParams, held under their keys; the two RR floats,
      which getProperties writes but parseProperties ignores; and
      hashMapSize, derived from the exponent. The RR floats are only
      stored and copied, so `real` serves as their carrier. */
  datatype Settings = Settings(
    keyed: KeyedValues,
    rrProbStartValue: real,
    rrProbReductionFactor: real,
    hashMapSize: nat)
  {
    /** The value of key `k`: what the map holds, or the key's default
        when it holds nothing of the key's kind. */
    function Get(k: Key): (v: Value)
      ensures Accepts(k, v)
    {
      if k in keyed && Accepts(k, keyed[k]) then keyed[k] else Default(k)
    }

    function hashMapSizeExp(): nat { Get(RHCHashMapSizeExponent).n }
    function lightBVHOptions(): LightBVHOptions { Get(LightBVHOptionsKey).options }
    predicate useRR() { Get(UseRR).b }
    predicate injectRadianceRR() { Get(RHCInjectRadianceRR).b }
    predicate injectRadianceSpread() { Get(RHCInjectRadianceSpread).b }
    predicate rhcDebugColor() { Get(RHCDebugColor).b }
    predicate nnDebugOutput() { Get(NNDebugOutput).b }
  }

  /** The members of mRHCParams that no property sets: debug views edited
      only by the UI, and the activation and one-shot reset flags. */
  datatype RHCParams = RHCParams(
    debugLevels: bool,
    debugVoxels: bool,
    active: bool,
    reset: bool)

  /** The members of mNNParams that no property sets. `nnParamCount` is
      derived from the network topology by code that is not part of this
      model and is kept as it is. */
  datatype NNParams = NNParams(
    nircDebug: bool,
    active: bool,
    keepThreads: bool,
    reset: bool,
    nnParamCount: nat,
    gradientAuxElements: nat,
    featureHashMapSize: nat,
    featureHashMapPlacesPerElement: Positive,
    featureHashMapProbingSize: int,
    stepCount: nat)

  type Positive = n: nat | n > 0 witness 1

  /** The slots of mBuffers. */
  datatype BufferKind =
    | HashGridEntries
    | VoxelData0
    | VoxelData1
    | NNPrimal
    | NNFilteredPrimal
    | NNGradient
    | NNGradientCount
    | NNGradientAux
    | FeatureHashGridEntries

  /** The slots of mPasses: one compute pass per role. */
  datatype PassRole =
    | TrainNNFillCache
    | PathTracing
    | RHCResolve
    | RHCReset
    | NNGradientClear
    | NNGradientDescent
    | NNReset
    | NIRCDebug

  const BufferCount: nat := 9
  const PassCount: nat := 8

  /** Position of a buffer kind in mBuffers. */
  function BufferIndex(k: BufferKind): (i: nat)
    ensures i < BufferCount
  {
    match k
    case HashGridEntries => 0
    case VoxelData0 => 1
    case VoxelData1 => 2
    case NNPrimal => 3
    case NNFilteredPrimal => 4
    case NNGradient => 5
    case NNGradientCount => 6
    case NNGradientAux => 7
    case FeatureHashGridEntries => 8
  }

  /** Position of a pass role in mPasses. */
  function PassIndex(p: PassRole): (i: nat)
    ensures i < PassCount
  {
    match p
    case TrainNNFillCache => 0
    case PathTracing => 1
    case RHCResolve => 2
    case RHCReset => 3
    case NNGradientClear => 4
    case NNGradientDescent => 5
    case NNReset => 6
    case NIRCDebug => 7
  }

  /** What a created GPU buffer was asked to be: a structured buffer of
      `elementCount` elements of `elementSize` bytes, or a raw byte buffer. */
  datatype BufferDesc =
    | Structured(elementSize: nat, elementCount: nat)
    | Raw(byteSize: nat)
  {
    function ByteSize(): nat {
      match this
      case Structured(s, c) => s * c
      case Raw(b) => b
    }
  }

  /** mBuffers: a null slot is None. */
  type BufferTable = t: seq<Option<BufferDesc>> | |t| == BufferCount
    witness [None, None, None, None, None, None, None, None, None]

  /** mPasses: true when the slot holds a compiled compute pass. */
  type PassTable = t: seq<bool> | |t| == PassCount
    witness [false, false, false, false, false, false, false, false]

  const NoBuffers: BufferTable := [None, None, None, None, None, None, None, None, None]
  const NoPasses: PassTable := [false, false, false, false, false, false, false, false]

  lemma BufferIndexInjective(a: BufferKind, b: BufferKind)
    ensures BufferIndex(a) == BufferIndex(b) ==> a == b
  {
  }

  lemma PassIndexInjective(a: PassRole, b: PassRole)
    ensures PassIndex(a) == PassIndex(b) ==> a == b
  {
  }

  /** Every slot of the empty tables is null. */
  lemma EmptyTables()
    ensures forall k :: NoBuffers[BufferIndex(k)].None?
    ensures forall p :: !NoPasses[PassIndex(p)]
  {
  }

  /** The whole render-pass state. `emissiveSampler` holds the options the
      emissive light sampler was built with when one exists. */
  datatype Tracer = Tracer(
    settings: Settings,
    rhc: RHCParams,
    nn: NNParams,
    frameCount: uint32,
    optionsChanged: bool,
    hasScene: bool,
    envMapSampler: bool,
    emissiveSampler: Option<LightBVHOptions>,
    samplerBlock: bool,
    buffers: BufferTable,
    passes: PassTable)
  {
    function Buffer(k: BufferKind): Option<BufferDesc> {
      buffers[BufferIndex(k)]
    }

    predicate HasPass(p: PassRole) {
      passes[PassIndex(p)]
    }
  }

  /** A 32-bit unsigned counter (mFrameCount is a `uint`). */
  type uint32 = x: nat | x < 0x1_0000_0000

  /** `x++` on a 32-bit unsigned counter: wraps to 0 after 2^32 - 1. */
  function Inc32(x: uint32): (r: uint32)
    ensures x < 0xFFFF_FFFF ==> r == x + 1
    ensures x == 0xFFFF_FFFF ==> r == 0
  {
    (x + 1) % 0x1_0000_0000
  }

  /** std::pow(2u, e), as an exact natural number. */
  function Pow2(e: nat): (r: nat)
    ensures r >= 1
    ensures e > 0 ==> r % 2 == 0
  {
    if e == 0 then 1 else 2 * Pow2(e - 1)
  }

  /** Exponents add when powers of two multiply. */
  lemma {:induction false} Pow2Add(a: nat, b: nat)
    ensures Pow2(a + b) == Pow2(a) * Pow2(b)
    decreases a
  {
    if a > 0 {
      Pow2Add(a - 1, b);
      assert Pow2(a + b) == 2 * (Pow2(a - 1) * Pow2(b));
    }
  }
}
