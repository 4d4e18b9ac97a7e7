/**
 * The two static tables of the application: the registry that maps a tool
 * name to the analysis capability it runs (AVAILABLE_FUNCTIONS) and the tool
 * schemas advertised to the language model (FUNCTION_SCHEMAS).
 */
module Registry {

  import opened Common

  /** The 24 capabilities the application can run on the model's behalf. */
  datatype Capability =
    | GetForexData
    | DetectBos | DetectChoch | DetectMarketStructureBreak
    | DetectLiquiditySweep | IdentifyLiquidityPools | DetectLiquidityVoid
    | IdentifyOrderBlocks | IdentifyFairValueGaps | IdentifyBreakerBlocks
    | CalculatePremiumDiscountZones
    | DetectImbalances | DetectInefficiencies
    | AnalyzeVolumeProfile | DetectSmartMoneyDivergence | AnalyzeOrderFlow
    | AnalyzeHigherTimeframeStructure | IdentifyConfluences
    | AnalyzeSessionCharacteristics | DetectNewsImpactZones
    | IdentifyManipulationPatterns | CalculateInstitutionalLevels
    | DetectWyckoffPhases | IdentifyTurtleSoupSetups

  /**
   * AVAILABLE_FUNCTIONS, a Python dict literal: its (name, capability)
   * entries in insertion order.
   */
  const AvailableFunctions: seq<(string, Capability)> := [
    ("get_forex_data", GetForexData),
    ("detect_bos", DetectBos),
    ("detect_choch", DetectChoch),
    ("detect_market_structure_break", DetectMarketStructureBreak),
    ("detect_liquidity_sweep", DetectLiquiditySweep),
    ("identify_liquidity_pools", IdentifyLiquidityPools),
    ("detect_liquidity_void", DetectLiquidityVoid),
    ("identify_order_blocks", IdentifyOrderBlocks),
    ("identify_fair_value_gaps", IdentifyFairValueGaps),
    ("identify_breaker_blocks", IdentifyBreakerBlocks),
    ("calculate_premium_discount_zones", CalculatePremiumDiscountZones),
    ("detect_imbalances", DetectImbalances),
    ("detect_inefficiencies", DetectInefficiencies),
    ("analyze_volume_profile", AnalyzeVolumeProfile),
    ("detect_smart_money_divergence", DetectSmartMoneyDivergence),
    ("analyze_order_flow", AnalyzeOrderFlow),
    ("analyze_higher_timeframe_structure", AnalyzeHigherTimeframeStructure),
    ("identify_confluences", IdentifyConfluences),
    ("analyze_session_characteristics", AnalyzeSessionCharacteristics),
    ("detect_news_impact_zones", DetectNewsImpactZones),
    ("identify_manipulation_patterns", IdentifyManipulationPatterns),
    ("calculate_institutional_levels", CalculateInstitutionalLevels),
    ("detect_wyckoff_phases", DetectWyckoffPhases),
    ("identify_turtle_soup_setups", IdentifyTurtleSoupSetups)
  ]

  /** The registry's keys, in insertion order. */
  function RegistryNames(): seq<string>
  {
    seq(|AvailableFunctions|, i requires 0 <= i < |AvailableFunctions| => AvailableFunctions[i].0)
  }

  /** `name in AVAILABLE_FUNCTIONS` and the value stored under it. */
  function Lookup(name: string): (r: Option<Capability>)
  {
    LookupIn(AvailableFunctions, name)
  }

  function LookupIn(entries: seq<(string, Capability)>, name: string): (r: Option<Capability>)
    ensures r.None? <==> forall i :: 0 <= i < |entries| ==> entries[i].0 != name
    decreases |entries|
  {
    if entries == [] then None
    else if entries[0].0 == name then Some(entries[0].1)
    else LookupIn(entries[1..], name)
  }

  /** With distinct keys, looking up the i-th key finds the i-th value. */
  lemma {:induction false} LookupInAt(entries: seq<(string, Capability)>, i: nat)
    requires i < |entries|
    requires forall j, k :: 0 <= j < k < |entries| ==> entries[j].0 != entries[k].0
    ensures LookupIn(entries, entries[i].0) == Some(entries[i].1)
    decreases i
  {
    if i > 0 {
      assert entries[0].0 != entries[i].0;
      LookupInAt(entries[1..], i - 1);
    }
  }

  /** The parameter names of the Python function each capability is bound to, in order. */
  function Parameters(c: Capability): seq<string>
  {
    match c
    case GetForexData => ["pair", "timeframe"]
    case DetectBos => ["data", "timeframe"]
    case AnalyzeHigherTimeframeStructure => ["pair", "current_timeframe"]
    case IdentifyConfluences => ["pair", "timeframe"]
    case DetectNewsImpactZones => ["pair"]
    case _ => ["data"]
  }

  /** One entry of FUNCTION_SCHEMAS: the tool name, its parameter properties and the required ones. */
  datatype Schema = Schema(name: string, properties: seq<string>, required: seq<string>)

  const FunctionSchemas: seq<Schema> := [
    Schema("get_forex_data", ["pair", "timeframe"], ["pair", "timeframe"]),
    Schema("detect_bos", ["data", "timeframe"], ["data", "timeframe"]),
    Schema("detect_choch", ["data"], ["data"]),
    Schema("detect_market_structure_break", ["data"], ["data"]),
    Schema("detect_liquidity_sweep", ["data"], ["data"]),
    Schema("identify_liquidity_pools", ["data"], ["data"]),
    Schema("detect_liquidity_void", ["data"], ["data"]),
    Schema("identify_order_blocks", ["data"], ["data"]),
    Schema("identify_fair_value_gaps", ["data"], ["data"]),
    Schema("identify_breaker_blocks", ["data"], ["data"]),
    Schema("calculate_premium_discount_zones", ["data"], ["data"]),
    Schema("detect_imbalances", ["data"], ["data"]),
    Schema("detect_inefficiencies", ["data"], ["data"]),
    Schema("analyze_volume_profile", ["data"], ["data"]),
    Schema("detect_smart_money_divergence", ["data"], ["data"]),
    Schema("analyze_order_flow", ["data"], ["data"]),
    Schema("analyze_higher_timeframe_structure", ["pair", "current_timeframe"], ["pair", "current_timeframe"]),
    Schema("identify_confluences", ["pair", "timeframe"], ["pair", "timeframe"]),
    Schema("analyze_session_characteristics", ["data"], ["data"]),
    Schema("detect_news_impact_zones", ["pair"], ["pair"]),
    Schema("identify_manipulation_patterns", ["data"], ["data"]),
    Schema("calculate_institutional_levels", ["data"], ["data"]),
    Schema("detect_wyckoff_phases", ["data"], ["data"]),
    Schema("identify_turtle_soup_setups", ["data"], ["data"])
  ]

  /** The schema catalog's tool names, in order. */
  function SchemaNames(): seq<string>
  {
    seq(|FunctionSchemas|, i requires 0 <= i < |FunctionSchemas| => FunctionSchemas[i].name)
  }

  /** A number that tells the registered names apart: the length and the tenth character. */
  function Fingerprint(name: string): int
  {
    if |name| < 10 then -1 else |name| * 128 + name[9] as int
  }

  /** The position of the registered name with a given fingerprint. */
  function NameIndex(fingerprint: int): int
  {
    if fingerprint == 1887 then 0
    else if fingerprint == 1395 then 1
    else if fingerprint == 1647 then 2
    else if fingerprint == 3826 then 3
    else if fingerprint == 2929 then 4
    else if fingerprint == 3180 then 5
    else if fingerprint == 2801 then 6
    else if fingerprint == 2799 then 7
    else if fingerprint == 3174 then 8
    else if fingerprint == 3042 then 9
    else if fingerprint == 4191 then 10
    else if fingerprint == 2274 then 11
    else if fingerprint == 2789 then 12
    else if fingerprint == 2927 then 13
    else if fingerprint == 3809 then 14
    else if fingerprint == 2418 then 15
    else if fingerprint == 4457 then 16
    else if fingerprint == 2659 then 17
    else if fingerprint == 4069 then 18
    else if fingerprint == 3191 then 19
    else if fingerprint == 3949 then 20
    else if fingerprint == 3935 then 21
    else if fingerprint == 2787 then 22
    else if fingerprint == 3572 then 23
    else -1
  }

  lemma FingerprintsIdentify0()
    ensures forall i :: 0 <= i < 6 ==> NameIndex(Fingerprint(AvailableFunctions[i].0)) == i
  {
  }

  lemma FingerprintsIdentify6()
    ensures forall i :: 6 <= i < 12 ==> NameIndex(Fingerprint(AvailableFunctions[i].0)) == i
  {
  }

  lemma FingerprintsIdentify12()
    ensures forall i :: 12 <= i < 18 ==> NameIndex(Fingerprint(AvailableFunctions[i].0)) == i
  {
  }

  lemma FingerprintsIdentify18()
    ensures forall i :: 18 <= i < 24 ==> NameIndex(Fingerprint(AvailableFunctions[i].0)) == i
  {
  }


  lemma SchemasAgreeWithEntries0()
    ensures forall i :: 0 <= i < 6 ==>
      && FunctionSchemas[i].name == AvailableFunctions[i].0
      && FunctionSchemas[i].properties == Parameters(AvailableFunctions[i].1)
      && FunctionSchemas[i].required == FunctionSchemas[i].properties
  {
  }

  lemma SchemasAgreeWithEntries6()
    ensures forall i :: 6 <= i < 12 ==>
      && FunctionSchemas[i].name == AvailableFunctions[i].0
      && FunctionSchemas[i].properties == Parameters(AvailableFunctions[i].1)
      && FunctionSchemas[i].required == FunctionSchemas[i].properties
  {
  }

  lemma SchemasAgreeWithEntries12()
    ensures forall i :: 12 <= i < 18 ==>
      && FunctionSchemas[i].name == AvailableFunctions[i].0
      && FunctionSchemas[i].properties == Parameters(AvailableFunctions[i].1)
      && FunctionSchemas[i].required == FunctionSchemas[i].properties
  {
  }

  lemma SchemasAgreeWithEntries18()
    ensures forall i :: 18 <= i < 24 ==>
      && FunctionSchemas[i].name == AvailableFunctions[i].0
      && FunctionSchemas[i].properties == Parameters(AvailableFunctions[i].1)
      && FunctionSchemas[i].required == FunctionSchemas[i].properties
  {
  }

  /** Schema i describes registry entry i: same name, same parameters, all of them required. */
  lemma SchemasAgreeWithEntries()
    ensures |FunctionSchemas| == |AvailableFunctions|
    ensures forall i :: 0 <= i < |FunctionSchemas| ==>
      && FunctionSchemas[i].name == AvailableFunctions[i].0
      && FunctionSchemas[i].properties == Parameters(AvailableFunctions[i].1)
      && FunctionSchemas[i].required == FunctionSchemas[i].properties
  {
    SchemasAgreeWithEntries0();
    SchemasAgreeWithEntries6();
    SchemasAgreeWithEntries12();
    SchemasAgreeWithEntries18();
  }

  /** The dict literal has 24 distinct keys. */
  lemma RegistryKeysDistinct()
    ensures |AvailableFunctions| == 24
    ensures forall j, k :: 0 <= j < k < |AvailableFunctions| ==> AvailableFunctions[j].0 != AvailableFunctions[k].0
  {
    FingerprintsIdentify0();
    FingerprintsIdentify6();
    FingerprintsIdentify12();
    FingerprintsIdentify18();
  }

  /** The advertised names are the registry's keys, in order. */
  lemma SchemaNamesAreKeys()
    ensures SchemaNames() == RegistryNames()
  {
    SchemasAgreeWithEntries();
    assert |SchemaNames()| == |RegistryNames()|;
    forall i | 0 <= i < |SchemaNames()|
      ensures SchemaNames()[i] == RegistryNames()[i]
    {
      assert FunctionSchemas[i].name == AvailableFunctions[i].0;
    }
  }

  /** A name is one of the registry's keys exactly when looking it up finds a function. */
  lemma KeyIffFound(name: string)
    ensures name in RegistryNames() <==> Lookup(name).Some?
  {
    if name in RegistryNames() {
      var i :| 0 <= i < |RegistryNames()| && RegistryNames()[i] == name;
      assert AvailableFunctions[i].0 == name;
    }
    if Lookup(name).Some? {
      var i :| 0 <= i < |AvailableFunctions| && AvailableFunctions[i].0 == name;
      assert RegistryNames()[i] == name;
    }
  }

  /**
   * The catalog and the registry agree: the schemas advertise the same 24
   * distinct names, in the same order, as the registry's keys; so every
   * advertised tool can be dispatched and every dispatchable tool is
   * advertised exactly once.
   */
  lemma SchemaNamesMatchRegistry()
    ensures SchemaNames() == RegistryNames()
    ensures |SchemaNames()| == 24
    ensures forall j, k :: 0 <= j < k < 24 ==> SchemaNames()[j] != SchemaNames()[k]
    ensures forall name :: name in SchemaNames() <==> Lookup(name).Some?
  {
    SchemaNamesAreKeys();
    RegistryKeysDistinct();
    forall name
      ensures name in SchemaNames() <==> Lookup(name).Some?
    {
      KeyIffFound(name);
    }
  }

  /**
   * Each schema advertises exactly the parameters of the function it names,
   * and requires all of them: a call that follows the schema matches the
   * signature of the registered function.
   */
  lemma SchemasMatchSignatures()
    ensures forall i :: 0 <= i < |FunctionSchemas| ==>
      && Lookup(FunctionSchemas[i].name) == Some(AvailableFunctions[i].1)
      && FunctionSchemas[i].properties == Parameters(AvailableFunctions[i].1)
      && FunctionSchemas[i].required == FunctionSchemas[i].properties
  {
    RegistryKeysDistinct();
    SchemasAgreeWithEntries();
    forall i | 0 <= i < |FunctionSchemas|
      ensures Lookup(FunctionSchemas[i].name) == Some(AvailableFunctions[i].1)
    {
      assert FunctionSchemas[i].name == AvailableFunctions[i].0;
      LookupInAt(AvailableFunctions, i);
    }
  }
}
