/**
 * The detectors whose findings are drawn at random once their guard has
 * passed: smart money divergence (`detect_smart_money_divergence`),
 * manipulation patterns (`identify_manipulation_patterns`) and Wyckoff
 * phases (`detect_wyckoff_phases`). What is left to state is the guard, the
 * gate, the candle read and how each drawn type fixes the direction.
 */
module SmcPatterns {

  import opened Common
  import opened Registry
  import opened SmcGuards

  // ---------------------------------------------------------------- divergence

  datatype DivergenceKind = RegularBullish | RegularBearish | HiddenBullish | HiddenBearish

  /** The kinds whose name contains "bullish". */
  predicate BullishKind(k: DivergenceKind)
  {
    k == RegularBullish || k == HiddenBullish
  }

  /** The draws: the 40% gate, the kind, `random.randint(65, 90)` and the confirmation choice. */
  datatype DivergenceDraws = DivergenceDraws(gate: real, kind: DivergenceKind, strength: int, confirmation: bool)

  datatype Divergence = Divergence(kind: DivergenceKind, strength: int, reversalUp: bool, confirmationNeeded: bool)

  /**
   * `detect_smart_money_divergence`: past the guard of 40 candles a
   * divergence is reported exactly when the gate passes, signalling a
   * reversal up for the bullish kinds and down for the bearish ones.
   */
  function SmartMoneyDivergence(data: Input, d: DivergenceDraws): (r: Outcome<Option<Divergence>>)
    ensures r.InsufficientData? <==> |data.candles| < 40
    ensures r.InsufficientData? ==> r.record == InsufficientRecord(DetectSmartMoneyDivergence)
    ensures !r.Raised?
    ensures r.Completed? ==> (r.value.Some? <==> d.gate > 0.6)
    ensures r.Completed? && r.value.Some? ==>
      && r.value.value.kind == d.kind
      && (r.value.value.reversalUp <==> BullishKind(d.kind))
  {
    if |data.candles| < 40 then InsufficientData(InsufficientRecord(DetectSmartMoneyDivergence))
    else if d.gate > 0.6 then Completed(Some(Divergence(d.kind, d.strength, BullishKind(d.kind), d.confirmation)))
    else Completed(None)
  }

  // ---------------------------------------------------------------- manipulation

  datatype ManipulationKind = BullTrap | BearTrap | StopHunt | FalseBreakout | WyckoffSpring | WyckoffUpthrust

  /** The kinds whose name contains "bull" or "spring": a fake move down before a true move up. */
  predicate TrueMoveUp(k: ManipulationKind)
  {
    k == BullTrap || k == WyckoffSpring
  }

  /** The draws: the 40% gate, the kind, the candle picked among the last 15, and `random.randint(70, 90)`. */
  datatype ManipulationDraws = ManipulationDraws(gate: real, kind: ManipulationKind, pick: nat, confidence: int)

  datatype Manipulation = Manipulation(kind: ManipulationKind, level: real, fakeMoveUp: bool, trueMoveUp: bool,
                                       confidence: int, timestamp: int)

  /**
   * `identify_manipulation_patterns`: past the guard of 30 candles, one
   * pattern when the gate passes, on the picked candle of the last 15; a
   * trap of longs' stops lies at that candle's low and leads up, any other
   * pattern lies at its high and leads down, and the fake move always runs
   * against the true one.
   */
  function ManipulationPatterns(data: Input, d: ManipulationDraws): (r: Outcome<seq<Manipulation>>)
    requires d.pick < 15
    ensures r.InsufficientData? <==> |data.candles| < 30
    ensures r.InsufficientData? ==> r.record == InsufficientRecord(IdentifyManipulationPatterns)
    ensures !r.Raised?
    ensures r.Completed? ==> |r.value| == (if d.gate > 0.6 then 1 else 0)
    ensures r.Completed? && |r.value| == 1 ==>
      var m := r.value[0];
      var candle := data.candles[|data.candles| - 15 + d.pick];
      && m.kind == d.kind && m.timestamp == candle.timestamp
      && (m.trueMoveUp <==> TrueMoveUp(d.kind)) && m.fakeMoveUp == !m.trueMoveUp
      && m.level == (if m.trueMoveUp then candle.low else candle.high)
  {
    var n := |data.candles|;
    if n < 30 then InsufficientData(InsufficientRecord(IdentifyManipulationPatterns))
    else if d.gate <= 0.6 then Completed([])
    else
      var recent := Last(data.candles, 15);
      var candle := recent[d.pick];
      var up := TrueMoveUp(d.kind);
      Completed([Manipulation(d.kind, if up then candle.low else candle.high, !up, up, d.confidence, candle.timestamp)])
  }

  // ---------------------------------------------------------------- Wyckoff

  datatype WyckoffKind = Accumulation | Markup | Distribution | Markdown

  const AccumulationPhases: seq<string> := ["Phase A", "Phase B", "Phase C - Spring", "Phase D", "Phase E"]
  const DistributionPhases: seq<string> := ["Phase A", "Phase B", "Phase C - Upthrust", "Phase D", "Phase E"]

  /** The draws: the 50% gate, the phase, the sub-phase picked, and `random.randint(65, 90)`. */
  datatype WyckoffDraws = WyckoffDraws(gate: real, kind: WyckoffKind, subPhase: nat, confidence: int)

  datatype WyckoffPhase = WyckoffPhase(kind: WyckoffKind, subPhase: Option<string>, confidence: int, bullish: bool)

  /**
   * `detect_wyckoff_phases`: past the guard of 50 candles, a phase when the
   * gate passes; only accumulation and distribution name a sub-phase, each
   * from its own list, and accumulation and markup expect a bullish move.
   */
  function WyckoffPhases(data: Input, d: WyckoffDraws): (r: Outcome<Option<WyckoffPhase>>)
    requires d.subPhase < 5
    ensures r.InsufficientData? <==> |data.candles| < 50
    ensures r.InsufficientData? ==> r.record == InsufficientRecord(DetectWyckoffPhases)
    ensures !r.Raised?
    ensures r.Completed? ==> (r.value.Some? <==> d.gate > 0.5)
    ensures r.Completed? && r.value.Some? ==>
      var p := r.value.value;
      && p.kind == d.kind
      && (p.subPhase.Some? <==> d.kind in {Accumulation, Distribution})
      && (d.kind == Accumulation ==> p.subPhase.value in AccumulationPhases)
      && (d.kind == Distribution ==> p.subPhase.value in DistributionPhases)
      && (p.bullish <==> d.kind in {Accumulation, Markup})
  {
    if |data.candles| < 50 then InsufficientData(InsufficientRecord(DetectWyckoffPhases))
    else if d.gate <= 0.5 then Completed(None)
    else
      var sub := match d.kind
        case Accumulation => Some(AccumulationPhases[d.subPhase])
        case Distribution => Some(DistributionPhases[d.subPhase])
        case _ => None;
      Completed(Some(WyckoffPhase(d.kind, sub, d.confidence, d.kind == Accumulation || d.kind == Markup)))
  }
}
