/** The battery calculator: in runtime mode, how long a battery of a given
    capacity carries a load; in capacity mode, which capacity carries a load
    for a target time, with a 15% commercial margin, snapped to the market
    sizes of the chosen chemistry. The page can also take the day's energy
    from the load audit and size a battery for a full day. */
module BatteryCalc {
  import opened JsNumbers
  import opened Handoff

  /** Usable depth of discharge per chemistry. */
  const Presets: map<string, real> := map["agm" := 0.5, "gel" := 0.5, "lfp" := 0.8, "lfp_pro" := 0.9]

  /** The commercial margin applied to the required capacity. */
  const SafetyMargin: real := 1.15

  /** Market capacities per chemistry, Ah, ascending. */
  const StandardCapacities: map<string, seq<real>> := map[
    "agm" := [45.0, 55.0, 65.0, 75.0, 100.0, 120.0, 150.0, 200.0, 250.0],
    "gel" := [45.0, 55.0, 65.0, 75.0, 100.0, 120.0, 150.0, 200.0, 250.0],
    "lfp" := [50.0, 100.0, 105.0, 200.0, 230.0, 280.0, 300.0],
    "lfp_pro" := [50.0, 100.0, 200.0, 300.0, 400.0, 500.0]]

  /** `STANDARD_CAPACITIES[type] || []`. */
  function Standards(chemistry: string): (s: seq<real>)
    ensures chemistry !in StandardCapacities ==> s == []
  {
    if chemistry in StandardCapacities then StandardCapacities[chemistry] else []
  }

  lemma StandardsAscending(chemistry: string)
    ensures StrictlyAscending(Standards(chemistry))
  {
    var s := Standards(chemistry);
    assert AdjacentAscending(s);
    AdjacentMakesAscending(s);
  }

  /** The two tabs: 1 computes the runtime, 2 selects a capacity. */
  datatype Mode = RuntimeMode | CapacityMode

  /** The page's fields as `parseFloat` leaves them. */
  datatype BatteryInput = BatteryInput(
    chemistry: string,
    voltage: Field,
    load: Field,
    dod: Field,
    efficiency: Field,
    capacity: Field,
    targetHours: Field)

  datatype Outcome =
    | NeedLoad   // no positive load: "--" and a prompt for the load
    | NoFigure   // no positive capacity (runtime) or target time (capacity): "--"
    | Runtime(usableWh: real, hours: real, wholeHours: int, minutes: int)
    | Capacity(required: real, headline: int, recommended: real)

  /** `Math.floor(totalMinutes / 60)` and `totalMinutes % 60`. */
  function SplitMinutes(total: int): (hm: (int, int))
  {
    (total / 60, JsRem(total, 60))
  }

  /** For a non-negative number of minutes the split is exact: whole hours
      and a remainder below sixty that add back up to the total, the hours
      being the floor of the total over sixty. */
  lemma SplitMinutesExact(total: int)
    requires total >= 0
    ensures var (h, m) := SplitMinutes(total);
      h * 60 + m == total && 0 <= m < 60 && h == (total as real / 60.0).Floor
  {
    var (h, m) := SplitMinutes(total);
    assert h * 60 + m == total;
    assert h as real <= total as real / 60.0 < (h + 1) as real;
  }

  /** A negative total (a negative DoD or efficiency typed into the expert
      fields) splits into two negative parts that no longer add back up:
      one minute short gives -1 h and -1 min. */
  lemma NegativeMinutesSplit()
    ensures SplitMinutes(-1) == (-1, -1)
    ensures SplitMinutes(-1).0 * 60 + SplitMinutes(-1).1 != -1
  {
    assert JsRem(-1, 60) == -(1 % 60);
  }

  /** Runtime mode for a positive capacity: usable energy, the runtime in
      hours and its split into hours and minutes. */
  function RuntimeFigures(v: real, c: real, dod: real, eta: real, p: real): (r: Outcome)
    requires p > 0.0
    ensures r.Runtime?
  {
    var usable := v * c * dod * eta;
    var hours := usable / p;
    var total := (hours * 60.0).Floor;
    var (h, m) := SplitMinutes(total);
    Runtime(usable, hours, h, m)
  }

  /** The least market capacity at or above the requirement, or the
      requirement rounded up to ten when the list has none. */
  function Recommended(standards: seq<real>, required: real): (rec: real)
  {
    var k := FirstAtLeast(standards, required);
    if k < |standards| then standards[k] else CeilToTen(required)
  }

  /** The required capacity in Ah: the energy drawn over the target time,
      grossed up for depth of discharge and efficiency, divided by the
      voltage, plus the margin. */
  function Required(v: real, p: real, dod: real, eta: real, t: real): (c: real)
    requires v != 0.0 && dod * eta != 0.0
  {
    var neededUsable := p * t;
    var neededTotal := neededUsable / (dod * eta);
    var pure := neededTotal / v;
    pure * SafetyMargin
  }

  /** Capacity mode for a positive target time. */
  function CapacityFigures(chemistry: string, v: real, p: real, dod: real, eta: real, t: real): (r: Outcome)
    requires v != 0.0 && dod * eta != 0.0
    ensures r.Capacity?
  {
    var required := Required(v, p, dod, eta, t);
    Capacity(required, Ceil(required), Recommended(Standards(chemistry), required))
  }

  lemma NonZeroProduct(x: real, y: real)
    requires x != 0.0 && y != 0.0
    ensures x * y != 0.0
  {
  }

  /** One run of `calculate` in the given tab. The voltage, the depth of
      discharge and the efficiency fall back to 12 V, 0.5 and 0.9 when
      empty or zero; the load, the capacity and the target time to 0. */
  function Calculate(inp: BatteryInput, mode: Mode): (r: Outcome)
    ensures r == NeedLoad <==> OrDefault(inp.load, 0.0) <= 0.0
    ensures r == NoFigure <==>
      OrDefault(inp.load, 0.0) > 0.0
      && (if mode == RuntimeMode then OrDefault(inp.capacity, 0.0) else OrDefault(inp.targetHours, 0.0)) <= 0.0
    ensures r.Runtime? ==> mode == RuntimeMode
    ensures r.Capacity? ==> mode == CapacityMode
  {
    var v := OrDefault(inp.voltage, 12.0);
    var p := OrDefault(inp.load, 0.0);
    var dod := OrDefault(inp.dod, 0.5);
    var eta := OrDefault(inp.efficiency, 0.9);
    if p <= 0.0 then NeedLoad
    else if mode == RuntimeMode then
      var c := OrDefault(inp.capacity, 0.0);
      if c <= 0.0 then NoFigure else RuntimeFigures(v, c, dod, eta, p)
    else
      assert mode == CapacityMode;
      var t := OrDefault(inp.targetHours, 0.0);
      NonZeroProduct(dod, eta);
      if t <= 0.0 then NoFigure else CapacityFigures(inp.chemistry, v, p, dod, eta, t)
  }

  // ---------------------------------------------------------------------
  // What the figures mean
  // ---------------------------------------------------------------------

  /** What a runtime result means for the figures it came from: the usable
      energy is V·C·DoD·η, the runtime is the time the load takes to draw
      it, and for a non-negative runtime the hours and minutes shown add up
      to the whole minutes of that runtime. */
  ghost predicate RuntimeMeans(r: Outcome, v: real, c: real, dod: real, eta: real, p: real)
  {
    && r.Runtime?
    && r.usableWh == v * c * dod * eta
    && r.hours * p == r.usableWh
    && (r.hours >= 0.0 ==>
          r.wholeHours * 60 + r.minutes == (r.hours * 60.0).Floor && 0 <= r.minutes < 60)
  }

  /** Runtime mode of `calculate` means what RuntimeMeans says, for the
      fields after their fallbacks. */
  lemma RuntimeMeaning(inp: BatteryInput)
    requires Calculate(inp, RuntimeMode).Runtime?
    ensures RuntimeMeans(Calculate(inp, RuntimeMode),
      OrDefault(inp.voltage, 12.0), OrDefault(inp.capacity, 0.0),
      OrDefault(inp.dod, 0.5), OrDefault(inp.efficiency, 0.9), OrDefault(inp.load, 0.0))
  {
    CalculateInRuntimeMode(inp);
    RuntimeFiguresSpec(OrDefault(inp.voltage, 12.0), OrDefault(inp.capacity, 0.0),
      OrDefault(inp.dod, 0.5), OrDefault(inp.efficiency, 0.9), OrDefault(inp.load, 0.0));
  }

  /** A runtime result is RuntimeFigures of the defaulted fields. */
  lemma CalculateInRuntimeMode(inp: BatteryInput)
    requires Calculate(inp, RuntimeMode).Runtime?
    ensures OrDefault(inp.load, 0.0) > 0.0
    ensures Calculate(inp, RuntimeMode) == RuntimeFigures(
      OrDefault(inp.voltage, 12.0), OrDefault(inp.capacity, 0.0),
      OrDefault(inp.dod, 0.5), OrDefault(inp.efficiency, 0.9), OrDefault(inp.load, 0.0))
  {
  }

  lemma RuntimeFiguresSpec(v: real, c: real, dod: real, eta: real, p: real)
    requires p > 0.0
    ensures RuntimeMeans(RuntimeFigures(v, c, dod, eta, p), v, c, dod, eta, p)
  {
    var r := RuntimeFigures(v, c, dod, eta, p);
    assert r.hours == r.usableWh / p;
    if r.hours >= 0.0 {
      SplitMinutesExact((r.hours * 60.0).Floor);
    }
  }

  /** On an ascending list, the recommendation covers the requirement. When
      the list has a size at or above it, the recommendation is the least
      such size; otherwise it is the requirement rounded up to a multiple of
      ten, less than ten above it. */
  lemma RecommendedSpec(s: seq<real>, required: real)
    requires StrictlyAscending(s)
    ensures var rec := Recommended(s, required);
      && rec >= required
      && ((exists x :: x in s && x >= required) ==>
            rec in s && forall x :: x in s && x >= required ==> rec <= x)
      && ((forall x :: x in s ==> x < required) ==>
            rec < required + 10.0 && (rec / 10.0).Floor as real == rec / 10.0)
  {
    var k := FirstAtLeast(s, required);
    FirstAtLeastIsLeast(s, required, required);
    if k == |s| {
      CeilToTenSpec(required);
    } else {
      assert s[k] in s;
    }
  }

  /** Every chemistry's recommendation obeys RecommendedSpec; an unknown
      chemistry has no list and always takes the rounding. */
  lemma RecommendedForChemistry(chemistry: string, required: real)
    ensures StrictlyAscending(Standards(chemistry))
    ensures Recommended(Standards(chemistry), required) >= required
    ensures chemistry !in StandardCapacities ==>
      Recommended(Standards(chemistry), required) == CeilToTen(required)
  {
    StandardsAscending(chemistry);
    RecommendedSpec(Standards(chemistry), required);
  }

  /** The requirement, taken back through voltage, depth of discharge and
      efficiency, is the energy drawn over the target time plus the margin. */
  lemma RequiredSpec(v: real, p: real, dod: real, eta: real, t: real)
    requires v != 0.0 && dod * eta != 0.0
    ensures Required(v, p, dod, eta, t) * v * (dod * eta) == p * t * SafetyMargin
  {
    var q := dod * eta;
    var pure := (p * t / q) / v;
    assert pure * v == p * t / q;
    assert (p * t / q) * q == p * t;
    assert pure * v * q == p * t;
  }

  /** Capacity mode: the requirement satisfies RequiredSpec; the headline is
      the requirement rounded up to whole Ah; the recommendation is taken
      from the chemistry's list as RecommendedSpec states. */
  lemma CapacityMeaning(inp: BatteryInput)
    requires Calculate(inp, CapacityMode).Capacity?
    ensures var r := Calculate(inp, CapacityMode);
      var v, p, t := OrDefault(inp.voltage, 12.0), OrDefault(inp.load, 0.0), OrDefault(inp.targetHours, 0.0);
      var dod, eta := OrDefault(inp.dod, 0.5), OrDefault(inp.efficiency, 0.9);
      && dod * eta != 0.0
      && r.required == Required(v, p, dod, eta, t)
      && r.headline as real >= r.required && ((r.headline - 1) as real) < r.required
      && r.recommended == Recommended(Standards(inp.chemistry), r.required)
  {
    var v, p, t := OrDefault(inp.voltage, 12.0), OrDefault(inp.load, 0.0), OrDefault(inp.targetHours, 0.0);
    var dod, eta := OrDefault(inp.dod, 0.5), OrDefault(inp.efficiency, 0.9);
    NonZeroProduct(dod, eta);
    assert Calculate(inp, CapacityMode) == CapacityFigures(inp.chemistry, v, p, dod, eta, t);
  }

  /** Sizing and runtime agree: with a positive voltage, depth of discharge
      and efficiency, a battery of the recommended capacity, put into the
      runtime tab with the same load, runs at least the target time. */
  lemma RecommendedCoversTarget(inp: BatteryInput)
    requires Calculate(inp, CapacityMode).Capacity?
    requires OrDefault(inp.voltage, 12.0) > 0.0 && OrDefault(inp.dod, 0.5) > 0.0 && OrDefault(inp.efficiency, 0.9) > 0.0
    ensures var rec := Calculate(inp, CapacityMode).recommended;
      var r := Calculate(inp.(capacity := Some(rec)), RuntimeMode);
      r.Runtime? && r.hours >= OrDefault(inp.targetHours, 0.0)
  {
    var v, p, t := OrDefault(inp.voltage, 12.0), OrDefault(inp.load, 0.0), OrDefault(inp.targetHours, 0.0);
    var dod, eta := OrDefault(inp.dod, 0.5), OrDefault(inp.efficiency, 0.9);
    var req := Calculate(inp, CapacityMode).required;
    var rec := Calculate(inp, CapacityMode).recommended;
    CapacityMeaning(inp);
    RecommendedForChemistry(inp.chemistry, req);
    var inp2 := inp.(capacity := Some(rec));
    PositiveCoverage(v, p, dod, eta, t, rec);
    assert OrDefault(inp2.capacity, 0.0) == rec;
    var r := RuntimeFigures(v, rec, dod, eta, p);
    assert Calculate(inp2, RuntimeMode) == r;
    CoverageArithmetic(v, p, dod, eta, t, rec);
  }

  /** The arithmetic behind RecommendedCoversTarget: a capacity at or above
      the requirement stores at least the energy the target time needs. */
  lemma CoverageArithmetic(v: real, p: real, dod: real, eta: real, t: real, rec: real)
    requires v > 0.0 && p > 0.0 && dod > 0.0 && eta > 0.0 && t > 0.0
    requires rec >= Required(v, p, dod, eta, t)
    ensures RuntimeFigures(v, rec, dod, eta, p).hours >= t
  {
    var req := Required(v, p, dod, eta, t);
    var h := RuntimeFigures(v, rec, dod, eta, p).hours;
    RequiredSpec(v, p, dod, eta, t);
    RuntimeFiguresSpec(v, rec, dod, eta, p);
    var k := v * (dod * eta);
    PositiveProduct(dod, eta);
    PositiveProduct(v, dod * eta);
    PositiveProduct(p, t);
    MultiplyMonotone(req, rec, k);
    assert v * rec * dod * eta == rec * k;
    assert h * p >= p * t;
    DivideByPositive(h, t, p);
  }

  /** Under the same conditions the requirement, and so the recommendation,
      is positive. */
  lemma PositiveCoverage(v: real, p: real, dod: real, eta: real, t: real, rec: real)
    requires v > 0.0 && p > 0.0 && dod > 0.0 && eta > 0.0 && t > 0.0
    requires rec >= Required(v, p, dod, eta, t)
    ensures rec > 0.0
  {
    var req := Required(v, p, dod, eta, t);
    RequiredSpec(v, p, dod, eta, t);
    var k := v * (dod * eta);
    PositiveProduct(dod, eta);
    PositiveProduct(v, dod * eta);
    PositiveProduct(p, t);
    if req <= 0.0 {
      NonPositiveTimesPositive(req, k);
    }
  }

  lemma NonPositiveTimesPositive(x: real, y: real)
    requires x <= 0.0 && y > 0.0
    ensures x * y <= 0.0
  {
  }

  lemma MultiplyMonotone(x: real, y: real, k: real)
    requires x <= y && k > 0.0
    ensures x * k <= y * k
  {
  }

  lemma DivideByPositive(x: real, y: real, p: real)
    requires p > 0.0 && x * p >= y * p
    ensures x >= y
  {
  }

  /** A field whose value is empty or zero behaves exactly as if the default
      had been typed in: the outcome depends on the defaulted values only. */
  lemma DefaultsActAsValues(inp: BatteryInput, mode: Mode)
    ensures Calculate(inp, mode) == Calculate(inp.(
      voltage := Some(OrDefault(inp.voltage, 12.0)),
      dod := Some(OrDefault(inp.dod, 0.5)),
      efficiency := Some(OrDefault(inp.efficiency, 0.9))), mode)
  {
    OrDefaultStable(inp.voltage, 12.0);
    OrDefaultStable(inp.dod, 0.5);
    OrDefaultStable(inp.efficiency, 0.9);
  }

  /** Defaulting twice is defaulting once, for a non-zero default. */
  lemma OrDefaultStable(f: Field, d: real)
    requires d != 0.0
    ensures OrDefault(Some(OrDefault(f, d)), d) == OrDefault(f, d)
  {
  }

  // ---------------------------------------------------------------------
  // Import from the load audit
  // ---------------------------------------------------------------------

  /** `checkImport`'s gate: the energy to import from a parsed hand-off
      record, when the tag is "1.0", the record is at most twelve hours old,
      the page was opened from the audit and the energy is positive. */
  function AuditEnergyToImport(rec: SharedRecord, fromAudit: bool, now: int): (e: Option<real>)
    ensures e.Some? <==>
      rec.version == ProtocolVersion && IsFresh(rec, now) && fromAudit && rec.totalEnergyWh > 0.0
    ensures e.Some? ==> e.value == rec.totalEnergyWh
  {
    if rec.version != ProtocolVersion then None
    else if now - rec.timestamp > MaxAgeMs then None
    else if fromAudit && rec.totalEnergyWh > 0.0 then Some(rec.totalEnergyWh)
    else None
  }

  /** Sizing for a full day on the audit's energy. */
  const AuditTargetHours: real := 24.0

  /** The load `applyAuditData` writes: the day's energy spread over the
      target hours, rounded to whole watts. */
  function AuditLoad(energyWh: real): (w: int)
    ensures (w as real) * AuditTargetHours - 12.0 <= energyWh < (w as real) * AuditTargetHours + 12.0
  {
    var w := Round(energyWh / AuditTargetHours);
    assert energyWh / AuditTargetHours * AuditTargetHours == energyWh;
    w
  }

  // ---------------------------------------------------------------------
  // The page
  // ---------------------------------------------------------------------

  /** The calculator page: its fields and the active tab. */
  class BatteryPage {
    var chemistry: string
    var voltage: Field
    var load: Field
    var dod: Field
    var efficiency: Field
    var capacity: Field
    var targetHours: Field
    var mode: Mode

    function Inputs(): BatteryInput
      reads this
    {
      BatteryInput(chemistry, voltage, load, dod, efficiency, capacity, targetHours)
    }

    /** The page as loaded: the runtime tab, and the depth of discharge of
      the selected chemistry written into its field. */
    constructor (inp: BatteryInput)
      ensures mode == RuntimeMode
      ensures Inputs() == inp.(dod := if inp.chemistry in Presets then Some(Presets[inp.chemistry]) else inp.dod)
    {
      chemistry := inp.chemistry;
      voltage := inp.voltage;
      load := inp.load;
      dod := inp.dod;
      efficiency := inp.efficiency;
      capacity := inp.capacity;
      targetHours := inp.targetHours;
      mode := RuntimeMode;
      new;
      UpdateDoDFromType();
    }

    /** `updateDoDFromType`: a known chemistry writes its preset into the
      depth-of-discharge field; an unknown one leaves the field alone. */
    method UpdateDoDFromType()
      modifies this`dod
      ensures chemistry in Presets ==> dod == Some(Presets[chemistry])
      ensures chemistry !in Presets ==> dod == old(dod)
    {
      if chemistry in Presets {
        dod := Some(Presets[chemistry]);
      }
    }

    /** A chemistry chosen in the select: update the depth of discharge,
      then recalculate. */
    method SelectChemistry(t: string) returns (r: Outcome)
      modifies this
      ensures mode == old(mode)
      ensures Inputs() == old(Inputs()).(chemistry := t, dod := if t in Presets then Some(Presets[t]) else old(dod))
      ensures r == Calculate(Inputs(), mode)
    {
      chemistry := t;
      UpdateDoDFromType();
      r := Calculate(Inputs(), mode);
    }

    /** Unticking the expert box restores the chemistry's depth of discharge
      and an efficiency of 0.9, then recalculates. */
    method CloseExpert() returns (r: Outcome)
      modifies this
      ensures mode == old(mode)
      ensures Inputs() == old(Inputs()).(
        dod := if chemistry in Presets then Some(Presets[chemistry]) else old(dod),
        efficiency := Some(0.9))
      ensures r == Calculate(Inputs(), mode)
    {
      UpdateDoDFromType();
      efficiency := Some(0.9);
      r := Calculate(Inputs(), mode);
    }

    /** A tab click: switch the mode and recalculate. */
    method SelectTab(m: Mode) returns (r: Outcome)
      modifies this`mode
      ensures mode == m
      ensures r == Calculate(Inputs(), m)
    {
      mode := m;
      r := Calculate(Inputs(), mode);
    }

    /** `applyAuditData`: switch to capacity selection, ask for a full day
      and put the day's average power into the load field. */
    method ApplyAuditData(energyWh: real) returns (r: Outcome)
      modifies this
      ensures mode == CapacityMode
      ensures Inputs() == old(Inputs()).(targetHours := Some(AuditTargetHours), load := Some(AuditLoad(energyWh) as real))
      ensures r == Calculate(Inputs(), CapacityMode)
    {
      var _ := SelectTab(CapacityMode);
      targetHours := Some(AuditTargetHours);
      load := Some(AuditLoad(energyWh) as real);
      r := Calculate(Inputs(), mode);
    }

    /** `checkImport`: apply the audit's energy when the gate lets the record
      through; otherwise leave the page as it was. */
    method CheckImport(rec: Option<SharedRecord>, fromAudit: bool, now: int)
      modifies this
      ensures rec.Some? && AuditEnergyToImport(rec.value, fromAudit, now).Some? ==>
        && mode == CapacityMode
        && Inputs() == old(Inputs()).(
             targetHours := Some(AuditTargetHours),
             load := Some(AuditLoad(rec.value.totalEnergyWh) as real))
      ensures rec.None? || AuditEnergyToImport(rec.value, fromAudit, now).None? ==>
        mode == old(mode) && Inputs() == old(Inputs())
    {
      if rec.Some? {
        var e := AuditEnergyToImport(rec.value, fromAudit, now);
        if e.Some? {
          var _ := ApplyAuditData(e.value);
        }
      }
    }
  }
}
