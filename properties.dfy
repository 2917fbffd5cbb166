/** Property parsing and serialisation of the render pass
    (parseProperties / getProperties). */
module PropertyParsing {
  import opened TracerState

  const kLowerBounceCount: string := "lowerBounceCount"
  const kUpperBounceCount: string := "upperBounceCount"
  const kUseImportanceSampling: string := "useImportanceSampling"
  const kUseNEE: string := "useNEE"
  const kUseMIS: string := "useMIS"
  const kMISUsePowerHeuristic: string := "MISUsePowerHeuristic"
  const kUseRR: string := "useRR"
  const kRRProbStartValue: string := "RRProbStartValue"
  const kRRProbReductionFactor: string := "RRProbReductionFactor"
  const kLightBVHOptions: string := "lightBVHOptions"
  const kRHCHashMapSizeExponent: string := "RHCHashMapSizeExponent"
  const kRHCInjectRadianceRR: string := "RHCInjectRadianceRR"
  const kRHCInjectRadianceSpread: string := "RHCInjectRadianceSpread"
  const kRHCDebugColor: string := "RHCDebugColor"
  const kRRSurvivalProbOption: string := "RRSurvivalProbOption"
  const kNNDebugOutput: string := "NNDebugOutput"

  /** The property name of a key. */
  function KeyName(k: Key): string {
    match k
    case LowerBounceCount => kLowerBounceCount
    case UpperBounceCount => kUpperBounceCount
    case UseImportanceSampling => kUseImportanceSampling
    case UseNEE => kUseNEE
    case UseMIS => kUseMIS
    case MISUsePowerHeuristic => kMISUsePowerHeuristic
    case UseRR => kUseRR
    case LightBVHOptionsKey => kLightBVHOptions
    case RHCHashMapSizeExponent => kRHCHashMapSizeExponent
    case RHCInjectRadianceRR => kRHCInjectRadianceRR
    case RHCInjectRadianceSpread => kRHCInjectRadianceSpread
    case RHCDebugColor => kRHCDebugColor
    case RRSurvivalProbOption => kRRSurvivalProbOption
    case NNDebugOutput => kNNDebugOutput
  }

  /** The string comparisons of the if/else chain in parseProperties: the
      key a name stands for, or None for a name the chain does not know. */
  function LookUpKey(name: string): (r: Option<Key>)
    ensures r.Some? ==> KeyName(r.value) == name
    ensures r.None? ==> forall k: Key :: KeyName(k) != name
  {
    if name == kLowerBounceCount then Some(LowerBounceCount)
    else if name == kUpperBounceCount then Some(UpperBounceCount)
    else if name == kUseImportanceSampling then Some(UseImportanceSampling)
    else if name == kUseNEE then Some(UseNEE)
    else if name == kUseMIS then Some(UseMIS)
    else if name == kMISUsePowerHeuristic then Some(MISUsePowerHeuristic)
    else if name == kUseRR then Some(UseRR)
    else if name == kLightBVHOptions then Some(LightBVHOptionsKey)
    else if name == kRHCHashMapSizeExponent then Some(RHCHashMapSizeExponent)
    else if name == kRHCInjectRadianceRR then Some(RHCInjectRadianceRR)
    else if name == kRHCInjectRadianceSpread then Some(RHCInjectRadianceSpread)
    else if name == kRHCDebugColor then Some(RHCDebugColor)
    else if name == kRRSurvivalProbOption then Some(RRSurvivalProbOption)
    else if name == kNNDebugOutput then Some(NNDebugOutput)
    else None
  }

  /** Names that parseProperties does not recognise. */
  predicate IsUnknownKey(name: string) {
    forall k: Key :: KeyName(k) != name
  }

  /** Every key name is found again by the lookup: the names are distinct. */
  lemma LookUpKeyName(k: Key)
    ensures LookUpKey(KeyName(k)) == Some(k)
  {
  }

  /** A property dictionary, in iteration order. */
  type Properties = seq<(string, Value)>

  /** The outcome of one key: applied, unknown (a warning), or a value of
      the wrong kind (the conversion throws). */
  datatype Applied = Recognised(settings: Settings) | Unknown | WrongKind

  /** hashMapSize agrees with its exponent. */
  predicate SizeDerived(s: Settings) {
    s.hashMapSize == Pow2(s.hashMapSizeExp())
  }

  /** The settings that no key writes directly. */
  predicate SameUnkeyed(a: Settings, b: Settings) {
    a.rrProbStartValue == b.rrProbStartValue && a.rrProbReductionFactor == b.rrProbReductionFactor
  }

  /** Assigning one recognised key's value to its field: exactly that field
      changes (the exponent also recomputes hashMapSize), or the value has
      the wrong kind and the conversion throws. */
  function ApplyKey(s: Settings, k: Key, v: Value): (r: Applied)
    ensures !r.Unknown?
    ensures r.Recognised? <==> Accepts(k, v)
    ensures r.Recognised? ==> r.settings.Get(k) == v
    ensures r.Recognised? ==> forall j :: j != k ==> r.settings.Get(j) == s.Get(j)
    ensures r.Recognised? ==> SameUnkeyed(r.settings, s)
    ensures r.Recognised? && k != RHCHashMapSizeExponent ==> r.settings.hashMapSize == s.hashMapSize
    ensures r.Recognised? && k == RHCHashMapSizeExponent ==> SizeDerived(r.settings)
  {
    if !Accepts(k, v) then WrongKind
    else if k == RHCHashMapSizeExponent then
      // the only place where hashMapSize is derived
      Recognised(s.(keyed := s.keyed[k := v], hashMapSize := Pow2(v.n)))
    else Recognised(s.(keyed := s.keyed[k := v]))
  }

  /** One iteration of the loop in parseProperties. */
  function ApplyProperty(s: Settings, name: string, v: Value): (r: Applied)
    ensures r.Unknown? <==> IsUnknownKey(name)
  {
    match LookUpKey(name)
    case None => Unknown
    case Some(k) => ApplyKey(s, k, v)
  }

  /** State, warnings logged so far, and the key whose conversion threw. */
  datatype ParseOutcome = ParseOutcome(settings: Settings, warnings: seq<string>, failedKey: Option<string>)

  /** One loop iteration on the outcome so far; nothing happens once a
      conversion has thrown. */
  function ParseStep(p: ParseOutcome, key: string, v: Value): ParseOutcome {
    if p.failedKey.Some? then p
    else
      match ApplyProperty(p.settings, key, v)
      case Recognised(t) => p.(settings := t)
      case Unknown => p.(warnings := p.warnings + [key])
      case WrongKind => p.(failedKey := Some(key))
  }

  /** parseProperties over the whole dictionary: the keys in order, stopping
      at the first value whose conversion throws (earlier keys stay applied). */
  function ApplyAll(s: Settings, props: Properties): ParseOutcome
    decreases |props|
  {
    if props == [] then ParseOutcome(s, [], None)
    else
      var last := props[|props| - 1];
      ParseStep(ApplyAll(s, props[..|props| - 1]), last.0, last.1)
  }

  /** Every recognised key in the dictionary carries a value of its kind. */
  predicate WellKinded(props: Properties) {
    forall i :: 0 <= i < |props| ==>
      LookUpKey(props[i].0).None? || Accepts(LookUpKey(props[i].0).value, props[i].1)
  }

  /** The names of the unrecognised keys, in order. */
  function UnknownNames(props: Properties): (names: seq<string>)
    ensures forall n :: n in names ==> IsUnknownKey(n)
  {
    if props == [] then []
    else
      var last := props[|props| - 1];
      UnknownNames(props[..|props| - 1]) + (if LookUpKey(last.0).None? then [last.0] else [])
  }

  /** The value of the last entry named `name`, if any. */
  function LastValue(props: Properties, name: string): (r: Option<Value>)
    ensures r.Some? <==> exists i :: 0 <= i < |props| && props[i].0 == name
  {
    if props == [] then None
    else if props[|props| - 1].0 == name then Some(props[|props| - 1].1)
    else LastValue(props[..|props| - 1], name)
  }

  /** What a key holds after parsing `props` over `t`: the last value
      written under its name, or what `t` held. */
  function Written(t: Settings, props: Properties, k: Key): Value {
    match LastValue(props, KeyName(k))
    case Some(v) => v
    case None => t.Get(k)
  }

  /** The keys getProperties writes before the two RR floats, in order. */
  const FrontKeys: seq<Key> :=
    [LowerBounceCount, UpperBounceCount, UseImportanceSampling, UseNEE, UseMIS,
     MISUsePowerHeuristic, UseRR]

  /** The keys getProperties writes after the two RR floats, in order. */
  const BackKeys: seq<Key> :=
    [RHCHashMapSizeExponent, RHCInjectRadianceRR, RHCInjectRadianceSpread, RHCDebugColor,
     RRSurvivalProbOption, NNDebugOutput]

  /** One entry per key, under the key's name, with the value it holds. */
  function Entries(s: Settings, keys: seq<Key>): (props: Properties)
    ensures |props| == |keys|
    ensures forall i :: 0 <= i < |keys| ==> props[i] == (KeyName(keys[i]), s.Get(keys[i]))
  {
    seq(|keys|, i requires 0 <= i < |keys| => (KeyName(keys[i]), s.Get(keys[i])))
  }

  /** getProperties: every setting it serialises, in its order: the
      bounce bounds and light-transport toggles, the two RR floats, then
      the cache and network settings. The light BVH options are not
      serialised. */
  function GetProperties(s: Settings): (props: Properties)
    ensures |props| == 15
  {
    Entries(s, FrontKeys)
    + [(kRRProbStartValue, Float(s.rrProbStartValue)),
       (kRRProbReductionFactor, Float(s.rrProbReductionFactor))]
    + Entries(s, BackKeys)
  }

  /** One well-kinded entry never throws, warns exactly when its name is
      unknown, and writes its value under the key it names and nowhere
      else. */
  lemma ParseStepWellKinded(p: ParseOutcome, name: string, v: Value)
    requires p.failedKey.None?
    requires LookUpKey(name).None? || Accepts(LookUpKey(name).value, v)
    ensures ParseStep(p, name, v).failedKey.None?
    ensures ParseStep(p, name, v).warnings ==
              p.warnings + (if LookUpKey(name).None? then [name] else [])
    ensures forall k :: ParseStep(p, name, v).settings.Get(k) ==
              if KeyName(k) == name then v else p.settings.Get(k)
    ensures SameUnkeyed(ParseStep(p, name, v).settings, p.settings)
    ensures name != kRHCHashMapSizeExponent ==>
              ParseStep(p, name, v).settings.hashMapSize == p.settings.hashMapSize
    ensures name == kRHCHashMapSizeExponent ==> SizeDerived(ParseStep(p, name, v).settings)
  {
    LookUpKeyName(RHCHashMapSizeExponent);
    forall k ensures ParseStep(p, name, v).settings.Get(k) ==
                     if KeyName(k) == name then v else p.settings.Get(k) {
      LookUpKeyName(k);
    }
  }

  /** Parsing a well-kinded dictionary never throws and warns once per
      unknown key, in order. */
  lemma {:induction false} WellKindedNeverThrows(t: Settings, props: Properties)
    requires WellKinded(props)
    ensures ApplyAll(t, props).failedKey.None?
    ensures ApplyAll(t, props).warnings == UnknownNames(props)
  {
    if props != [] {
      var init := props[..|props| - 1];
      var last := props[|props| - 1];
      WellKindedPrefix(props);
      WellKindedNeverThrows(t, init);
      ParseStepWellKinded(ApplyAll(t, init), last.0, last.1);
    }
  }

  /** After parsing a well-kinded dictionary every key holds the last value
      written under its name, or what it held before. */
  lemma {:induction false} LastWriteWins(t: Settings, props: Properties)
    requires WellKinded(props)
    ensures forall k :: ApplyAll(t, props).settings.Get(k) == Written(t, props, k)
  {
    if props != [] {
      var init := props[..|props| - 1];
      var last := props[|props| - 1];
      WellKindedPrefix(props);
      WellKindedNeverThrows(t, init);
      LastWriteWins(t, init);
      ParseStepWellKinded(ApplyAll(t, init), last.0, last.1);
      forall k ensures ApplyAll(t, props).settings.Get(k) == Written(t, props, k) {
        assert Written(t, props, k) == if KeyName(k) == last.0 then last.1 else Written(t, init, k);
      }
    }
  }

  /** Parsing a well-kinded dictionary keeps the RR floats, and keeps
      hashMapSize unless the exponent is written, in which case the size
      follows the exponent. */
  lemma {:induction false} ParsingKeepsUnkeyed(t: Settings, props: Properties)
    requires WellKinded(props)
    ensures SameUnkeyed(ApplyAll(t, props).settings, t)
    ensures LastValue(props, kRHCHashMapSizeExponent).None? ==>
              ApplyAll(t, props).settings.hashMapSize == t.hashMapSize
    ensures LastValue(props, kRHCHashMapSizeExponent).Some? ==>
              SizeDerived(ApplyAll(t, props).settings)
  {
    if props != [] {
      var init := props[..|props| - 1];
      var last := props[|props| - 1];
      WellKindedPrefix(props);
      WellKindedNeverThrows(t, init);
      ParsingKeepsUnkeyed(t, init);
      ParseStepWellKinded(ApplyAll(t, init), last.0, last.1);
    }
  }

  lemma WellKindedPrefix(props: Properties)
    requires props != [] && WellKinded(props)
    ensures WellKinded(props[..|props| - 1])
  {
    var init := props[..|props| - 1];
    forall i | 0 <= i < |init|
      ensures LookUpKey(init[i].0).None? || Accepts(LookUpKey(init[i].0).value, init[i].1)
    {
      assert init[i] == props[i];
    }
  }

  /** The unknown names of a concatenation are those of its parts. */
  lemma {:induction false} UnknownNamesAppend(a: Properties, b: Properties)
    ensures UnknownNames(a + b) == UnknownNames(a) + UnknownNames(b)
  {
    if b != [] {
      var b' := b[..|b| - 1];
      var last := b[|b| - 1];
      var w := if LookUpKey(last.0).None? then [last.0] else [];
      assert (a + b)[..|a + b| - 1] == a + b';
      assert (a + b)[|a + b| - 1] == last;
      assert UnknownNames(a + b) == UnknownNames(a + b') + w;
      UnknownNamesAppend(a, b');
      assert UnknownNames(a) + UnknownNames(b') + w == UnknownNames(a) + (UnknownNames(b') + w);
    } else {
      assert a + b == a;
    }
  }

  /** A dictionary of recognised keys is parsed without warnings. */
  lemma {:induction false} AllKnownNoWarnings(props: Properties)
    requires forall i :: 0 <= i < |props| ==> LookUpKey(props[i].0).Some?
    ensures UnknownNames(props) == []
  {
    if props != [] {
      var init := props[..|props| - 1];
      assert forall i :: 0 <= i < |init| ==> init[i] == props[i];
      AllKnownNoWarnings(init);
    }
  }

  /** getProperties writes the two RR floats under names parseProperties
      does not know. */
  lemma RRFloatKeysUnknown()
    ensures LookUpKey(kRRProbStartValue).None? && LookUpKey(kRRProbReductionFactor).None?
  {
  }

  /** The only names in getProperties that parseProperties does not know
      are those of the two RR floats. */
  lemma GetPropertiesWarnings(s: Settings)
    ensures UnknownNames(GetProperties(s)) == [kRRProbStartValue, kRRProbReductionFactor]
  {
    var g := GetProperties(s);
    assert g == g[..7] + g[7..9] + g[9..];
    AllKnownNoWarnings(g[..7]);
    AllKnownNoWarnings(g[9..]);
    RRFloatKeysUnknown();
    var rr := g[7..9];
    assert rr[..1] == [g[7]] && rr[1] == g[8];
    assert UnknownNames([g[7]]) == [kRRProbStartValue] by {
      assert [g[7]][..0] == [];
    }
    assert UnknownNames(rr) == [kRRProbStartValue, kRRProbReductionFactor];
    UnknownNamesAppend(g[..7], rr);
    UnknownNamesAppend(g[..7] + rr, g[9..]);
  }

  /** An entry whose name occurs nowhere else is the last value under it. */
  lemma {:induction false} LastValueAt(props: Properties, i: nat)
    requires i < |props|
    requires forall j :: 0 <= j < |props| && j != i ==> props[j].0 != props[i].0
    ensures LastValue(props, props[i].0) == Some(props[i].1)
  {
    if i < |props| - 1 {
      var init := props[..|props| - 1];
      assert init[i] == props[i];
      assert forall j :: 0 <= j < |init| && j != i ==> init[j].0 != init[i].0 by {
        assert forall j :: 0 <= j < |init| ==> init[j] == props[j];
      }
      LastValueAt(init, i);
    }
  }

  /** Where getProperties writes each key. */
  function SerialisedAt(k: Key): (i: nat)
    requires k != LightBVHOptionsKey
    ensures i < 15 && i != 7 && i != 8
  {
    match k
    case LowerBounceCount => 0
    case UpperBounceCount => 1
    case UseImportanceSampling => 2
    case UseNEE => 3
    case UseMIS => 4
    case MISUsePowerHeuristic => 5
    case UseRR => 6
    case RHCHashMapSizeExponent => 9
    case RHCInjectRadianceRR => 10
    case RHCInjectRadianceSpread => 11
    case RHCDebugColor => 12
    case RRSurvivalProbOption => 13
    case NNDebugOutput => 14
  }

  /** The key getProperties writes at position `i`. */
  function KeyAt(i: nat): (k: Key)
    requires i < 15 && i != 7 && i != 8
    ensures k != LightBVHOptionsKey && SerialisedAt(k) == i
  {
    if i < 7 then FrontKeys[i] else BackKeys[i - 9]
  }

  /** Distinct keys have distinct names. */
  lemma KeyNameInjective(a: Key, b: Key)
    ensures KeyName(a) == KeyName(b) ==> a == b
  {
    LookUpKeyName(a);
    LookUpKeyName(b);
  }

  /** Each entry of getProperties: an RR float under an unknown name, or a
      key under its own name with the value the settings hold. */
  lemma GetPropertiesAt(s: Settings, j: nat)
    requires j < 15
    ensures j == 7 || j == 8 ==> IsUnknownKey(GetProperties(s)[j].0)
    ensures j != 7 && j != 8 ==> GetProperties(s)[j] == (KeyName(KeyAt(j)), s.Get(KeyAt(j)))
  {
    RRFloatKeysUnknown();
  }

  /** getProperties writes every key but the light BVH options once, under
      its own name, with the value the settings hold. */
  lemma GetPropertiesWritten(t: Settings, s: Settings, k: Key)
    ensures Written(t, GetProperties(s), k) ==
              if k == LightBVHOptionsKey then t.Get(k) else s.Get(k)
  {
    var g := GetProperties(s);
    LookUpKeyName(k);
    if k == LightBVHOptionsKey {
      forall j | 0 <= j < |g|
        ensures g[j].0 != KeyName(k)
      {
        GetPropertiesAt(s, j);
        if j != 7 && j != 8 {
          KeyNameInjective(KeyAt(j), k);
        }
      }
    } else {
      var i := SerialisedAt(k);
      GetPropertiesEntry(s, k);
      forall j | 0 <= j < |g| && j != i
        ensures g[j].0 != g[i].0
      {
        GetPropertiesAt(s, j);
        if j != 7 && j != 8 {
          KeyNameInjective(KeyAt(j), k);
        }
      }
      LastValueAt(g, i);
    }
  }

  lemma GetPropertiesEntry(s: Settings, k: Key)
    requires k != LightBVHOptionsKey
    ensures GetProperties(s)[SerialisedAt(k)] == (KeyName(k), s.Get(k))
  {
    match k
    case LowerBounceCount =>
    case UpperBounceCount =>
    case UseImportanceSampling =>
    case UseNEE =>
    case UseMIS =>
    case MISUsePowerHeuristic =>
    case UseRR =>
    case RHCHashMapSizeExponent =>
    case RHCInjectRadianceRR =>
    case RHCInjectRadianceSpread =>
    case RHCDebugColor =>
    case RRSurvivalProbOption =>
    case NNDebugOutput =>
  }

  /** Every value getProperties writes has the kind its key converts from. */
  lemma GetPropertiesWellKinded(s: Settings)
    ensures WellKinded(GetProperties(s))
  {
    var g := GetProperties(s);
    forall j | 0 <= j < |g|
      ensures LookUpKey(g[j].0).None? || Accepts(LookUpKey(g[j].0).value, g[j].1)
    {
      GetPropertiesAt(s, j);
      if j != 7 && j != 8 {
        LookUpKeyName(KeyAt(j));
      }
    }
  }

  /** Parsing what getProperties wrote never throws, warns about the two RR
      floats only, and restores every serialised key; the light BVH
      options and the RR floats keep what the parsed-into settings held,
      and hashMapSize follows the restored exponent. */
  lemma GetThenParse(t: Settings, s: Settings)
    ensures ApplyAll(t, GetProperties(s)).failedKey.None?
    ensures ApplyAll(t, GetProperties(s)).warnings == [kRRProbStartValue, kRRProbReductionFactor]
    ensures forall k :: k != LightBVHOptionsKey ==> ApplyAll(t, GetProperties(s)).settings.Get(k) == s.Get(k)
    ensures ApplyAll(t, GetProperties(s)).settings.lightBVHOptions() == t.lightBVHOptions()
    ensures SameUnkeyed(ApplyAll(t, GetProperties(s)).settings, t)
    ensures ApplyAll(t, GetProperties(s)).settings.hashMapSize == Pow2(s.hashMapSizeExp())
  {
    var g := GetProperties(s);
    var o := ApplyAll(t, g);
    GetPropertiesWellKinded(s);
    WellKindedNeverThrows(t, g);
    GetPropertiesWarnings(s);
    LastWriteWins(t, g);
    ParsingKeepsUnkeyed(t, g);
    forall k ensures o.settings.Get(k) == if k == LightBVHOptionsKey then t.Get(k) else s.Get(k) {
      GetPropertiesWritten(t, s, k);
    }
    GetPropertiesEntry(s, RHCHashMapSizeExponent);
    assert g[9].0 == kRHCHashMapSizeExponent;
    assert LastValue(g, kRHCHashMapSizeExponent).Some?;
    assert o.settings.Get(RHCHashMapSizeExponent) == s.Get(RHCHashMapSizeExponent);
  }

  /** Two complete settings holding the same keyed values and the same RR
      floats and hashMapSize are the same. */
  lemma SettingsEqual(a: Settings, b: Settings)
    requires Complete(a) && Complete(b)
    requires forall k :: a.Get(k) == b.Get(k)
    requires SameUnkeyed(a, b) && a.hashMapSize == b.hashMapSize
    ensures a == b
  {
    assert a.keyed == b.keyed by {
      forall k | k in a.keyed
        ensures a.keyed[k] == b.keyed[k]
      {
        assert a.Get(k) == b.Get(k);
      }
    }
  }

  /** Parsing never leaves a key without a value of its kind. */
  lemma {:induction false} ParsingKeepsComplete(s: Settings, props: Properties)
    requires Complete(s)
    ensures Complete(ApplyAll(s, props).settings)
  {
    if props != [] {
      ParsingKeepsComplete(s, props[..|props| - 1]);
    }
  }

  /** On complete settings whose hashMapSize agrees with its exponent, and
      with the light BVH options parsed into themselves, reading back
      getProperties is the identity. */
  lemma GetThenParseIdentity(s: Settings)
    requires Complete(s) && SizeDerived(s)
    ensures ApplyAll(s, GetProperties(s)).settings == s
  {
    GetThenParse(s, s);
    ParsingKeepsComplete(s, GetProperties(s));
    SettingsEqual(ApplyAll(s, GetProperties(s)).settings, s);
  }

  /** Parsing keeps hashMapSize == 2^hashMapSizeExp for any dictionary:
      the exponent key is the only one that changes either, and it sets
      both. */
  lemma {:induction false} ParsingKeepsSizeDerived(s: Settings, props: Properties)
    requires SizeDerived(s)
    ensures SizeDerived(ApplyAll(s, props).settings)
  {
    if props != [] {
      var init := props[..|props| - 1];
      ParsingKeepsSizeDerived(s, init);
      var prev := ApplyAll(s, init);
      var last := props[|props| - 1];
      assert ApplyAll(s, props) == ParseStep(prev, last.0, last.1);
      if prev.failedKey.None? && LookUpKey(last.0).Some? {
        var k := LookUpKey(last.0).value;
        var r := ApplyKey(prev.settings, k, last.1);
        assert r.Recognised? && k != RHCHashMapSizeExponent ==>
          r.settings.Get(RHCHashMapSizeExponent) == prev.settings.Get(RHCHashMapSizeExponent);
      }
    }
  }

  /** The first entry whose value has the wrong kind ends parsing: the keys
      before it stay applied, its name is reported, and nothing after it
      has an effect. */
  lemma {:induction false} WrongKindStops(t: Settings, props: Properties, i: nat)
    requires i < |props|
    requires WellKinded(props[..i])
    requires LookUpKey(props[i].0).Some? && !Accepts(LookUpKey(props[i].0).value, props[i].1)
    ensures ApplyAll(t, props) == ApplyAll(t, props[..i]).(failedKey := Some(props[i].0))
  {
    var init := props[..|props| - 1];
    if i == |props| - 1 {
      WellKindedNeverThrows(t, props[..i]);
      assert init == props[..i];
    } else {
      assert init[..i] == props[..i] && init[i] == props[i];
      WrongKindStops(t, init, i);
    }
  }

  /** Once a conversion has thrown, the rest of the dictionary is never
      looked at. */
  lemma {:induction false} ThrowStops(s: Settings, props: Properties, i: nat)
    requires i <= |props| && ApplyAll(s, props[..i]).failedKey.Some?
    ensures ApplyAll(s, props) == ApplyAll(s, props[..i])
    decreases |props| - i
  {
    if i < |props| {
      assert props[..i + 1][..i] == props[..i];
      ThrowStops(s, props, i + 1);
    } else {
      assert props[..i] == props;
    }
  }

  /** A dictionary of unknown keys changes nothing and warns once per key. */
  lemma {:induction false} UnknownKeysIgnored(s: Settings, props: Properties)
    requires forall i :: 0 <= i < |props| ==> IsUnknownKey(props[i].0)
    ensures ApplyAll(s, props) == ParseOutcome(s, KeysOf(props), None)
  {
    if props != [] {
      UnknownKeysIgnored(s, props[..|props| - 1]);
    }
  }

  function KeysOf(props: Properties): (keys: seq<string>)
    ensures |keys| == |props|
    ensures forall i :: 0 <= i < |props| ==> keys[i] == props[i].0
  {
    if props == [] then [] else KeysOf(props[..|props| - 1]) + [props[|props| - 1].0]
  }
}
