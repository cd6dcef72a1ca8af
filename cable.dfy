/** Conductor and protective-device sizing for a single two-wire DC run:
    the load is normalised to a current, a standard fuse is chosen with a 25%
    margin, a thermal cross-section is read off an ampacity table, a
    voltage-drop cross-section is computed and snapped up to a standard size,
    the worse of the two wins, and the resistive loss is reported. */
module CableCalc {
  import opened JsNumbers
  import opened Handoff

  datatype Material = Copper | Aluminium

  /** Whether the load field holds watts or amps (the page's `inputMode`). */
  datatype InputMode = Watts | Amps

  /** Resistivity in ohm·mm²/m. */
  function Resistivity(m: Material): (rho: real)
    ensures rho > 0.0
  {
    match m
    case Copper => 0.0175
    case Aluminium => 0.028
  }

  /** Standard conductor cross-sections, mm². */
  const CableSizes: seq<real> := [1.5, 2.5, 4.0, 6.0, 10.0, 16.0, 25.0, 35.0, 50.0, 70.0, 95.0]

  /** Standard fuse and breaker ratings, A. */
  const FuseSizes: seq<real> :=
    [6.0, 10.0, 16.0, 20.0, 25.0, 32.0, 40.0, 50.0, 63.0, 80.0, 100.0, 125.0, 160.0, 200.0, 250.0]

  /** One own property of an ampacity object: a cross-section key and the
      current it may carry. */
  datatype AmpacityEntry = AmpacityEntry(size: real, amps: real)

  /** The copper ampacity object in the order `Object.entries` visits it.
      Own-key order (section 10.1.11.1 of ECMA-262) puts integer-like keys
      first, ascending, and the other keys after them in insertion order, so
      "1.5" and "2.5" come last. */
  const CopperAmpacity: seq<AmpacityEntry> := [
    AmpacityEntry(4.0, 41.0), AmpacityEntry(6.0, 50.0), AmpacityEntry(10.0, 80.0),
    AmpacityEntry(16.0, 100.0), AmpacityEntry(25.0, 140.0), AmpacityEntry(35.0, 170.0),
    AmpacityEntry(50.0, 215.0), AmpacityEntry(70.0, 270.0), AmpacityEntry(95.0, 330.0),
    AmpacityEntry(1.5, 19.0), AmpacityEntry(2.5, 27.0)]

  /** The aluminium ampacity object in visiting order; it has no 1.5 key. */
  const AluminiumAmpacity: seq<AmpacityEntry> := [
    AmpacityEntry(4.0, 28.0), AmpacityEntry(6.0, 36.0), AmpacityEntry(10.0, 50.0),
    AmpacityEntry(16.0, 65.0), AmpacityEntry(25.0, 85.0), AmpacityEntry(35.0, 105.0),
    AmpacityEntry(50.0, 135.0), AmpacityEntry(70.0, 165.0), AmpacityEntry(95.0, 200.0),
    AmpacityEntry(2.5, 20.0)]

  function AmpacityTable(m: Material): seq<AmpacityEntry>
  {
    if m == Copper then CopperAmpacity else AluminiumAmpacity
  }

  /** The largest current in the material's table. */
  function MaxAmpacity(m: Material): real
  {
    if m == Copper then 330.0 else 200.0
  }

  /** The shape of both tables: the first nine entries are the integer-like
      keys 4 … 95 with rising currents, 95 mm² carries the most, and the
      trailing non-integer keys carry less than the first entry. */
  lemma AmpacityTableFacts(m: Material)
    ensures |AmpacityTable(m)| >= 10
    ensures forall j :: 0 <= j < 9 ==> AmpacityTable(m)[j].size == CableSizes[j + 2]
    ensures forall j :: 0 <= j < 8 ==> AmpacityTable(m)[j].amps < AmpacityTable(m)[j + 1].amps
    ensures forall j :: 9 <= j < |AmpacityTable(m)| ==> AmpacityTable(m)[j].amps < AmpacityTable(m)[0].amps
    ensures forall j :: 0 <= j < |AmpacityTable(m)| ==> AmpacityTable(m)[j].amps <= MaxAmpacity(m)
    ensures AmpacityTable(m)[8] == AmpacityEntry(95.0, MaxAmpacity(m))
  {
  }

  // ---------------------------------------------------------------------
  // Load normaliser and fuse selector
  // ---------------------------------------------------------------------

  /** The circuit as the page's fields give it. The load and the distance go
      through `parseFloat(..) || 0`; the system voltage and the drop budget
      go through a bare `parseFloat` and are assumed positive (WellFormed). */
  datatype Circuit = Circuit(
    voltage: real,
    mode: InputMode,
    load: Field,
    distance: Field,
    lossPercent: real,
    material: Material)

  predicate WellFormed(c: Circuit)
  {
    c.voltage > 0.0 && c.lossPercent > 0.0
  }

  /** The load current: watts over volts, or the amps typed in. */
  function LoadCurrent(c: Circuit): (i: real)
    requires c.voltage > 0.0
    ensures OrDefault(c.load, 0.0) > 0.0 ==> i > 0.0
  {
    var value := OrDefault(c.load, 0.0);
    if c.mode == Watts then value / c.voltage else value
  }

  /** In watts mode the current times the voltage gives back the power; in
      amps mode it is the figure typed in; a missing load is no current. */
  lemma LoadCurrentSpec(c: Circuit)
    requires c.voltage > 0.0
    ensures c.mode == Watts ==> LoadCurrent(c) * c.voltage == OrDefault(c.load, 0.0)
    ensures c.mode == Amps ==> LoadCurrent(c) == OrDefault(c.load, 0.0)
    ensures OrDefault(c.load, 0.0) == 0.0 ==> LoadCurrent(c) == 0.0
  {
  }

  /** `FUSE_SIZES.find(f => f >= target)`, falling back to the largest
      rating when it finds nothing. */
  function StandardFuse(target: real): (fuse: real)
    ensures 6.0 <= fuse <= 250.0
  {
    var k := FirstAtLeast(FuseSizes, target);
    FuseSizesBounds();
    if k < |FuseSizes| then FuseSizes[k] else FuseSizes[|FuseSizes| - 1]
  }

  /** The standard rating is the least one covering the target, or 250 A
      when the target is beyond the list. */
  lemma StandardFuseIsLeast(target: real)
    ensures target <= 250.0 ==>
      var fuse := StandardFuse(target);
      fuse in FuseSizes && fuse >= target
      && forall f :: f in FuseSizes && f >= target ==> fuse <= f
    ensures target > 250.0 ==> StandardFuse(target) == 250.0
  {
    FuseSizesFacts();
    FirstAtLeastIsLeast(FuseSizes, target, target);
  }

  /** The fuse for a load current: the standard rating for 125% of the
      current, except that once the current itself exceeds 250 A the rating
      is 125% of it rounded up to a multiple of ten. */
  function FuseRating(iLoad: real): (fuse: real)
    ensures iLoad <= 250.0 ==> 6.0 <= fuse <= 250.0
  {
    var target := iLoad * 1.25;
    if iLoad > 250.0 then CeilToTen(target) else StandardFuse(target)
  }

  /** Up to 200 A the fuse is the least standard rating at or above 125%
      of the load current. */
  lemma FuseRatingStandard(iLoad: real)
    requires iLoad <= 200.0
    ensures var fuse := FuseRating(iLoad);
      && fuse in FuseSizes && fuse >= iLoad * 1.25
      && forall f :: f in FuseSizes && f >= iLoad * 1.25 ==> fuse <= f
  {
    assert FuseRating(iLoad) == StandardFuse(iLoad * 1.25);
    StandardFuseIsLeast(iLoad * 1.25);
  }

  /** Between 200 A and 250 A the list is exhausted and the fuse stays at
      250 A, below 125% of the current: the rounding fallback only starts
      above 250 A. */
  lemma FuseRatingCapped(iLoad: real)
    requires 200.0 < iLoad <= 250.0
    ensures FuseRating(iLoad) == 250.0 < iLoad * 1.25
  {
    StandardFuseIsLeast(iLoad * 1.25);
  }

  /** Above 250 A the fuse is 125% of the current rounded up to a multiple
      of ten. */
  lemma FuseRatingRounded(iLoad: real)
    requires iLoad > 250.0
    ensures var fuse := FuseRating(iLoad);
      iLoad * 1.25 <= fuse < iLoad * 1.25 + 10.0 && (fuse / 10.0).Floor as real == fuse / 10.0
  {
    CeilToTenSpec(iLoad * 1.25);
  }

  lemma FuseSizesFacts()
    ensures StrictlyAscending(FuseSizes)
    ensures forall j :: 0 <= j < |FuseSizes| ==> 6.0 <= FuseSizes[j] <= 250.0
    ensures FuseSizes[|FuseSizes| - 1] == 250.0
  {
    assert AdjacentAscending(FuseSizes);
    AdjacentMakesAscending(FuseSizes);
  }

  /** The range of the fuse catalogue, without its order. */
  lemma FuseSizesBounds()
    ensures forall j :: 0 <= j < |FuseSizes| ==> 6.0 <= FuseSizes[j] <= 250.0
    ensures FuseSizes[|FuseSizes| - 1] == 250.0
  {
  }

  lemma CableSizesFacts()
    ensures StrictlyAscending(CableSizes)
    ensures forall j :: 0 <= j < |CableSizes| ==> 1.5 <= CableSizes[j] <= 95.0
    ensures forall j :: 2 <= j < |CableSizes| ==> 4.0 <= CableSizes[j]
    ensures CableSizes[|CableSizes| - 1] == 95.0
  {
    assert AdjacentAscending(CableSizes);
    AdjacentMakesAscending(CableSizes);
  }

  /** The range of the cable catalogue, without its order. */
  lemma CableSizesBounds()
    ensures forall j :: 0 <= j < |CableSizes| ==> 1.5 <= CableSizes[j] <= 95.0
    ensures forall j :: 2 <= j < |CableSizes| ==> 4.0 <= CableSizes[j]
  {
  }

  // ---------------------------------------------------------------------
  // Thermal constraint
  // ---------------------------------------------------------------------

  /** Position, in visiting order, of the first entry whose current reaches
      the fuse rating (the table's length when none does). */
  function ThermalIndex(m: Material, fuse: real): (k: nat)
    ensures k <= |AmpacityTable(m)|
    ensures forall j :: 0 <= j < k ==> AmpacityTable(m)[j].amps < fuse
    ensures k < |AmpacityTable(m)| ==> AmpacityTable(m)[k].amps >= fuse
  {
    FirstCarrying(AmpacityTable(m), fuse, 0)
  }

  /** `entries.find(([size, amps]) => amps >= fuse)` as an index, scanning
      from position `from` on. */
  function FirstCarrying(t: seq<AmpacityEntry>, fuse: real, from: nat): (k: nat)
    requires from <= |t|
    requires forall j :: 0 <= j < from ==> t[j].amps < fuse
    ensures from <= k <= |t|
    ensures forall j :: 0 <= j < k ==> t[j].amps < fuse
    ensures k < |t| ==> t[k].amps >= fuse
    decreases |t| - from
  {
    if from == |t| then from
    else if t[from].amps >= fuse then from
    else FirstCarrying(t, fuse, from + 1)
  }

  /** The thermal cross-section: the key of the first entry, in visiting
      order, that carries the fuse current; 95 mm² when none does. */
  function ThermalSize(m: Material, fuse: real): (s: real)
    ensures 4.0 <= s <= 95.0
  {
    var t := AmpacityTable(m);
    var k := ThermalIndex(m, fuse);
    AmpacityTableFacts(m);
    CableSizesBounds();
    if k < |t| then
      assert k < 9;
      t[k].size
    else
      95.0
  }

  /** The thermal size is a standard size of at least 4 mm² (the keys 1.5 and
      2.5 are visited last and never win); when some entry carries the fuse
      current the chosen entry does, and otherwise the size is clamped to
      95 mm². */
  lemma ThermalSizeSpec(m: Material, fuse: real)
    ensures var s := ThermalSize(m, fuse);
      && s in CableSizes && s >= 4.0
      && (fuse <= MaxAmpacity(m) ==> exists e :: e in AmpacityTable(m) && e.size == s && e.amps >= fuse)
      && (fuse > MaxAmpacity(m) ==> s == 95.0)
  {
    var t := AmpacityTable(m);
    var k := ThermalIndex(m, fuse);
    AmpacityTableFacts(m);
    if k < |t| {
      assert k < 9;
      assert t[k].size == CableSizes[k + 2];
      assert t[k] in t;
    } else {
      assert t[8].amps < fuse;
    }
  }

  /** The scan of `calculate`, as written: walk the entries in visiting order,
      stop at the first that carries the fuse current, and fall back to 95
      when the scan left the size at 0. */
  method ThermalScan(m: Material, fuse: real) returns (s: real)
    ensures s == ThermalSize(m, fuse)
  {
    var t := AmpacityTable(m);
    AmpacityTableFacts(m);
    s := 0.0;
    var i := 0;
    while i < |t|
      invariant 0 <= i <= |t|
      invariant forall j :: 0 <= j < i ==> t[j].amps < fuse
      invariant s == 0.0
    {
      if t[i].amps >= fuse {
        s := t[i].size;
        assert i == ThermalIndex(m, fuse);
        break;
      }
      i := i + 1;
    }
    if s == 0.0 {
      s := 95.0;
    }
  }

  // ---------------------------------------------------------------------
  // Voltage-drop constraint
  // ---------------------------------------------------------------------

  /** The raw cross-section the drop budget needs: 2·L·I·ρ / (U·p/100). */
  function DropCrossSection(c: Circuit, iLoad: real, dist: real): real
    requires WellFormed(c)
  {
    (2.0 * dist * iLoad * Resistivity(c.material)) / (c.voltage * (c.lossPercent / 100.0))
  }

  /** The raw section is the one whose two-way resistance drops exactly the
      allowed share of the system voltage at the load current. */
  lemma DropCrossSectionSpec(c: Circuit, iLoad: real, dist: real)
    requires WellFormed(c)
    ensures var s := DropCrossSection(c, iLoad, dist);
      s * (c.voltage * (c.lossPercent / 100.0)) == 2.0 * dist * iLoad * Resistivity(c.material)
  {
    PositiveProduct(c.voltage, c.lossPercent / 100.0);
  }

  /** `CABLE_SIZES.find(s => s >= raw)`, or 95 when it finds nothing. */
  function DropSize(sCalc: real): (s: real)
    ensures 1.5 <= s <= 95.0
  {
    var k := FirstAtLeast(CableSizes, sCalc);
    CableSizesBounds();
    if k < |CableSizes| then CableSizes[k] else 95.0
  }

  /** The drop size is the least standard size at or above the raw
      requirement, or 95 mm² when the requirement is beyond the catalogue. */
  lemma DropSizeSpec(sCalc: real)
    ensures var s := DropSize(sCalc);
      && s in CableSizes
      && (sCalc <= 95.0 ==> s >= sCalc && forall c :: c in CableSizes && c >= sCalc ==> s <= c)
      && (sCalc > 95.0 ==> s == 95.0)
  {
    CableSizesFacts();
    FirstAtLeastIsLeast(CableSizes, sCalc, sCalc);
  }

  // ---------------------------------------------------------------------
  // Reconciliation and losses
  // ---------------------------------------------------------------------

  datatype Limit = ThermalLimit | VoltageDropLimit

  /** The second loss line: the heat saved against the thermal-only size
      when the drop forced a thicker cable, else the loss over ten hours. */
  datatype Comparison = Savings(thinner: real, watts: real) | TenHourLoss(kwh: real)

  datatype Sizing =
    | Placeholder          // load or distance missing: "-- mm²", "-- A"
    | Overflow(fuse: real) // "> 95 mm²", busbar or parallel run advised
    | Sized(
        current: real,
        fuse: real,
        thermal: real,
        dropCalc: real,
        drop: real,
        final: real,
        limit: Limit,
        lossWatts: real,
        comparison: Comparison)

  /** One run of `calculate`: the placeholder when the load or the distance
      is missing, zero or negative, and a fuse with either an overflow or a
      size otherwise. */
  function Calculate(c: Circuit): (r: Sizing)
    requires WellFormed(c)
    ensures r.Placeholder? <==> OrDefault(c.load, 0.0) <= 0.0 || OrDefault(c.distance, 0.0) <= 0.0
  {
    var value := OrDefault(c.load, 0.0);
    var dist := OrDefault(c.distance, 0.0);
    if value <= 0.0 || dist <= 0.0 then Placeholder
    else Reconcile(c, LoadCurrent(c), dist)
  }

  /** Steps 3 to 7 of `calculate` for a positive current and distance. */
  function Reconcile(c: Circuit, i: real, dist: real): (r: Sizing)
    requires WellFormed(c) && i > 0.0 && dist > 0.0
    ensures !r.Placeholder?
  {
    var fuse := FuseRating(i);
    var thermal := ThermalSize(c.material, fuse);
    var rho := Resistivity(c.material);
    var dropCalc := DropCrossSection(c, i, dist);
    var drop := DropSize(dropCalc);
    if dropCalc > 95.0 || i * 1.25 > 330.0 then Overflow(fuse)
    else
      SizedRun(i, fuse, thermal, dropCalc, drop, dist, rho)
  }

  /** Step 5 and the loss block of `calculate` for a run that fits: the
      final size is the larger of the two, the drop is the limit exactly when
      it is strictly the larger (ties go to the thermal size), the loss at
      the final size is positive, and the comparison is a positive saving
      against the thermal size exactly when that size is the thinner one,
      and the ten-hour loss in kWh otherwise. */
  function SizedRun(i: real, fuse: real, thermal: real, dropCalc: real, drop: real, dist: real, rho: real): (r: Sizing)
    requires i > 0.0 && dist > 0.0 && rho > 0.0 && thermal > 0.0 && drop > 0.0
    ensures r.Sized? && r.current == i && r.fuse == fuse
    ensures r.thermal == thermal && r.dropCalc == dropCalc && r.drop == drop
    ensures r.final >= thermal && r.final >= drop && (r.final == thermal || r.final == drop)
    ensures r.limit == VoltageDropLimit <==> drop > thermal
    ensures r.lossWatts > 0.0
    ensures r.comparison.Savings? <==> thermal < r.final
    ensures r.comparison.Savings? ==> r.comparison.thinner == thermal && r.comparison.watts > 0.0
    ensures r.comparison.TenHourLoss? ==> r.comparison.kwh == r.lossWatts / 100.0
  {
    var final := if thermal >= drop then thermal else drop;
    var limit := if drop > thermal then VoltageDropLimit else ThermalLimit;
    var w := 2.0 * dist * rho;
    PositiveProduct(2.0 * dist, rho);
    LossComparisonSpec(i, w, thermal, final);
    Sized(i, fuse, thermal, dropCalc, drop, final, limit, LineLoss(i, w, final), LossComparison(i, w, thermal, final))
  }

  /** Resistive loss of the run, I²·R with R = w/S and w = 2·L·ρ. */
  function LineLoss(i: real, w: real, s: real): real
    requires s > 0.0
  {
    i * i * (w / s)
  }

  /** The second loss line: when the thermal size is thinner than the final
      one, the heat the thinner cable would have wasted over the chosen one;
      otherwise the loss over ten hours, in kWh. */
  function LossComparison(i: real, w: real, thermal: real, final: real): Comparison
    requires 0.0 < thermal <= final
  {
    var lossWatts := LineLoss(i, w, final);
    var lossThin := if thermal < final then LineLoss(i, w, thermal) else 0.0;
    if thermal < final && lossThin > 0.0 then Savings(thermal, lossThin - lossWatts)
    else TenHourLoss(lossWatts * 10.0 / 1000.0)
  }

  /** How a non-placeholder result is assembled: the fuse is the rating for
      the load current; the run overflows exactly when the raw drop
      requirement passes 95 mm² or 125% of the current passes 330 A;
      otherwise the final size is the larger of the thermal and the drop
      sizes, a standard size, and the drop is named as the limit exactly
      when it is strictly the larger (ties go to the thermal size). */
  lemma SizedStructure(c: Circuit)
    requires WellFormed(c) && !Calculate(c).Placeholder?
    ensures var r := Calculate(c);
      var i := LoadCurrent(c);
      var raw := DropCrossSection(c, i, OrDefault(c.distance, 0.0));
      && r.fuse == FuseRating(i)
      && (r.Overflow? <==> raw > 95.0 || i * 1.25 > 330.0)
      && (r.Sized? ==>
            && r.current == i
            && r.thermal == ThermalSize(c.material, r.fuse)
            && r.dropCalc == raw
            && r.drop == DropSize(raw)
            && r.final in CableSizes
            && r.final >= r.thermal && r.final >= r.drop
            && (r.final == r.thermal || r.final == r.drop)
            && (r.limit == VoltageDropLimit <==> r.drop > r.thermal))
  {
    var r := Calculate(c);
    if r.Sized? {
      ThermalSizeSpec(c.material, r.fuse);
      DropSizeSpec(r.dropCalc);
    }
  }

  /** For a positive current and run: the loss is positive, a saving is
      reported exactly when the thermal size is the thinner one, the saving
      is positive, and otherwise the figure is the ten-hour loss in kWh. */
  lemma LossComparisonSpec(i: real, w: real, thermal: real, final: real)
    requires i > 0.0 && w > 0.0 && 0.0 < thermal <= final
    ensures LineLoss(i, w, final) > 0.0
    ensures var cmp := LossComparison(i, w, thermal, final);
      && (cmp.Savings? <==> thermal < final)
      && (cmp.Savings? ==> cmp.thinner == thermal && cmp.watts > 0.0)
      && (cmp.TenHourLoss? ==> cmp.kwh == LineLoss(i, w, final) / 100.0)
  {
    LossOrder(i, w, thermal, final);
  }

  /** The resistive loss I²·(w/S) is positive and falls as the section S
      grows. */
  lemma LossOrder(i: real, w: real, a: real, b: real)
    requires i > 0.0 && w > 0.0 && 0.0 < a <= b
    ensures 0.0 < LineLoss(i, w, b) <= LineLoss(i, w, a)
    ensures a < b ==> LineLoss(i, w, b) < LineLoss(i, w, a)
  {
    DivAntitone(w, a, b);
    PositiveProduct(i, w / b);
    PositiveProduct(i, i * (w / b));
    if a < b {
      PositiveProduct(i, w / a - w / b);
      PositiveProduct(i, i * (w / a - w / b));
    }
  }

  lemma DivAntitone(w: real, a: real, b: real)
    requires w > 0.0 && 0.0 < a <= b
    ensures 0.0 < w / b <= w / a
    ensures a < b ==> w / b < w / a
  {
  }

  /** A copper run that is sized never rests on a clamped thermal size: the
      entry chosen always carries the fuse current, because the overflow
      guard trips before the fuse can pass 330 A. */
  lemma CopperCoversFuse(c: Circuit)
    requires WellFormed(c) && c.material == Copper && Calculate(c).Sized?
    ensures var r := Calculate(c);
      exists e :: e in CopperAmpacity && e.size == r.thermal && e.amps >= r.fuse
  {
    var r := Calculate(c);
    SizedStructure(c);
    FuseWithinCopperTable(LoadCurrent(c));
    ThermalSizeSpec(Copper, r.fuse);
  }

  /** Below the overflow guard the fuse never passes 330 A. */
  lemma FuseWithinCopperTable(i: real)
    requires i * 1.25 <= 330.0
    ensures FuseRating(i) <= 330.0
  {
    if i > 250.0 {
      RoundedFuseAtMost(i * 1.25, 33);
    }
  }

  /** Rounding up to a multiple of ten never passes a multiple of ten that
      is already at or above the target. */
  lemma RoundedFuseAtMost(x: real, n: int)
    requires x <= (n * 10) as real
    ensures CeilToTen(x) <= (n * 10) as real
  {
    var k := Ceil(x / 10.0);
    assert x / 10.0 <= n as real;
    assert k <= n;
  }

  /** The silent clamp of aluminium: a 170 A load over one metre gets a
      250 A fuse, no aluminium entry carries 250 A, the thermal size is
      clamped to 95 mm², and the run is still reported as sized. */
  lemma AluminiumSilentClamp(c: Circuit)
    requires c == Circuit(12.0, Amps, Some(170.0), Some(1.0), 3.0, Aluminium)
    ensures var r := Calculate(c);
      && r.Sized? && r.fuse == 250.0 && r.thermal == 95.0 && r.final == 95.0
      && forall e :: e in AluminiumAmpacity ==> e.amps < r.fuse
  {
    assert LoadCurrent(c) == 170.0;
    assert Calculate(c) == Reconcile(c, 170.0, 1.0);
    assert FuseRating(170.0) == 250.0 by {
      StandardFuseIsLeast(212.5);
    }
    assert ThermalSize(Aluminium, 250.0) == 95.0 by {
      ThermalSizeSpec(Aluminium, 250.0);
    }
    var raw := DropCrossSection(c, 170.0, 1.0);
    assert raw < 95.0;
    assert Reconcile(c, 170.0, 1.0) == SizedRun(170.0, 250.0, 95.0, raw, DropSize(raw), 1.0, 0.028);
    AluminiumBelowTopFuse();
  }

  /** Every aluminium entry carries less than the 250 A fuse. */
  lemma AluminiumBelowTopFuse()
    ensures forall e :: e in AluminiumAmpacity ==> e.amps < 250.0
  {
    AmpacityTableFacts(Aluminium);
  }

  /** 3000 W at 12 V over 10 m with a 3% budget in copper: 250 A of load,
      which is not above 250 A, so the fuse is the 250 A fallback of the
      standard list; the drop needs about 243 mm², so the run overflows. */
  lemma TwelveVoltThreeKilowatts(c: Circuit)
    requires c == Circuit(12.0, Watts, Some(3000.0), Some(10.0), 3.0, Copper)
    ensures Calculate(c) == Overflow(250.0)
  {
    SizedStructure(c);
    assert LoadCurrent(c) == 250.0;
    assert FuseRating(250.0) == 250.0 by {
      StandardFuseIsLeast(312.5);
    }
    assert DropCrossSection(c, 250.0, 10.0) > 95.0;
  }

  /** 20 A at 48 V over 30 m with a 2% budget in copper: a 25 A fuse, 4 mm²
      thermally, 21.875 mm² raw for the drop and so 25 mm² final, limited by
      the drop; 16.8 W of loss against 105 W at 4 mm². */
  lemma FortyEightVoltTwentyAmps(c: Circuit)
    requires c == Circuit(48.0, Amps, Some(20.0), Some(30.0), 2.0, Copper)
    ensures Calculate(c)
      == Sized(20.0, 25.0, 4.0, 21.875, 25.0, 25.0, VoltageDropLimit, 16.8, Savings(4.0, 88.2))
  {
    assert LoadCurrent(c) == 20.0;
    assert Calculate(c) == Reconcile(c, 20.0, 30.0);
    assert FuseRating(20.0) == 25.0 by {
      StandardFuseIsLeast(25.0);
      assert 25.0 in FuseSizes && 20.0 in FuseSizes;
    }
    assert ThermalSize(Copper, 25.0) == 4.0 by {
      assert ThermalIndex(Copper, 25.0) == 0;
    }
    assert DropCrossSection(c, 20.0, 30.0) == 21.875;
    assert DropSize(21.875) == 25.0 by {
      DropSizeSpec(21.875);
      assert 25.0 in CableSizes;
    }
    assert Reconcile(c, 20.0, 30.0) == SizedRun(20.0, 25.0, 4.0, 21.875, 25.0, 30.0, 0.0175);
    assert LineLoss(20.0, 1.05, 25.0) == 16.8;
    assert LineLoss(20.0, 1.05, 4.0) == 105.0;
  }

  /** The scan visits 1.5 and 2.5 last, so it does not pick the thinnest
      entry that carries the current: for a 16 A fuse it picks 4 mm² while
      the 1.5 mm² copper entry carries 19 A. */
  lemma ThermalSkipsThinEntries()
    ensures ThermalSize(Copper, 16.0) == 4.0
    ensures AmpacityEntry(1.5, 19.0) in CopperAmpacity
  {
    assert ThermalIndex(Copper, 16.0) == 0;
  }

  // ---------------------------------------------------------------------
  // Monotonicity in the load
  // ---------------------------------------------------------------------

  lemma StandardFuseMonotone(t1: real, t2: real)
    requires t1 <= t2
    ensures StandardFuse(t1) <= StandardFuse(t2)
  {
    FuseSizesFacts();
    FirstAtLeastIsLeast(FuseSizes, t1, t2);
  }

  lemma FuseRatingMonotone(i1: real, i2: real)
    requires i1 <= i2
    ensures FuseRating(i1) <= FuseRating(i2)
  {
    if i2 <= 250.0 {
      StandardFuseMonotoneScaled(i1, i2);
    } else if i1 > 250.0 {
      CeilToTenMonotone(i1 * 1.25, i2 * 1.25);
    } else {
      FuseRatingRounded(i2);
    }
  }

  lemma StandardFuseMonotoneScaled(i1: real, i2: real)
    requires i1 <= i2 <= 250.0
    ensures FuseRating(i1) <= FuseRating(i2)
  {
    var t1, t2 := i1 * 1.25, i2 * 1.25;
    assert FuseRating(i1) == StandardFuse(t1);
    assert FuseRating(i2) == StandardFuse(t2);
    StandardFuseMonotone(t1, t2);
  }

  lemma ThermalIndexMonotone(m: Material, f1: real, f2: real)
    requires f1 <= f2
    ensures ThermalIndex(m, f1) <= ThermalIndex(m, f2)
  {
  }

  lemma ThermalSizeMonotone(m: Material, f1: real, f2: real)
    requires f1 <= f2
    ensures ThermalSize(m, f1) <= ThermalSize(m, f2)
  {
    var k1, k2 := ThermalIndex(m, f1), ThermalIndex(m, f2);
    ThermalIndexMonotone(m, f1, f2);
    ThermalSizeAt(m, f1);
    ThermalSizeAt(m, f2);
    if k2 < 9 {
      CableSizesFacts();
      assert CableSizes[k1 + 2] <= CableSizes[k2 + 2];
    }
  }

  /** The thermal size read through the scan's index: the catalogue size
      two places further on when the scan stops, 95 mm² when it does not. */
  lemma ThermalSizeAt(m: Material, fuse: real)
    ensures var k := ThermalIndex(m, fuse);
      && (k < |AmpacityTable(m)| ==> k < 9 && ThermalSize(m, fuse) == CableSizes[k + 2])
      && (k >= 9 ==> ThermalSize(m, fuse) == 95.0)
  {
    AmpacityTableFacts(m);
  }

  lemma DropSizeMonotone(s1: real, s2: real)
    requires s1 <= s2
    ensures DropSize(s1) <= DropSize(s2)
  {
    CableSizesFacts();
    FirstAtLeastIsLeast(CableSizes, s1, s2);
  }

  lemma LoadCurrentMonotone(c1: Circuit, c2: Circuit)
    requires c1.voltage > 0.0 && c2 == c1.(load := c2.load)
    requires OrDefault(c1.load, 0.0) <= OrDefault(c2.load, 0.0)
    ensures LoadCurrent(c1) <= LoadCurrent(c2)
  {
    if c1.mode == Watts {
      DivMonotone(OrDefault(c1.load, 0.0), OrDefault(c2.load, 0.0), c1.voltage);
    }
  }

  lemma DropCrossSectionMonotone(c: Circuit, i1: real, i2: real, dist: real)
    requires WellFormed(c) && i1 <= i2 && dist > 0.0
    ensures DropCrossSection(c, i1, dist) <= DropCrossSection(c, i2, dist)
  {
    var k := 2.0 * dist;
    var rho := Resistivity(c.material);
    ScaleMonotone(k, i1, i2);
    ScaleMonotone(rho, k * i1, k * i2);
    PositiveProduct(c.voltage, c.lossPercent / 100.0);
    DivMonotone(k * i1 * rho, k * i2 * rho, c.voltage * (c.lossPercent / 100.0));
  }

  lemma DropIgnoresLoad(c1: Circuit, c2: Circuit, i: real, dist: real)
    requires WellFormed(c1) && c2 == c1.(load := c2.load)
    ensures DropCrossSection(c1, i, dist) == DropCrossSection(c2, i, dist)
  {
  }

  lemma ScaleMonotone(k: real, x: real, y: real)
    requires k > 0.0 && x <= y
    ensures k * x <= k * y && x * k <= y * k
  {
  }

  lemma DivMonotone(x: real, y: real, u: real)
    requires x <= y && u > 0.0
    ensures x / u <= y / u
  {
  }

  /** Raising the load, everything else fixed, never lowers the current, the
      fuse or the final size, and never turns an overflow back into a size. */
  lemma MonotoneInLoad(c1: Circuit, c2: Circuit)
    requires WellFormed(c1) && c2 == c1.(load := c2.load)
    requires 0.0 < OrDefault(c1.load, 0.0) <= OrDefault(c2.load, 0.0)
    ensures LoadCurrent(c1) <= LoadCurrent(c2)
    ensures var r1, r2 := Calculate(c1), Calculate(c2);
      && (r1.Placeholder? <==> r2.Placeholder?)
      && (!r1.Placeholder? ==> r1.fuse <= r2.fuse)
      && (r1.Overflow? ==> r2.Overflow?)
      && (r1.Sized? && r2.Sized? ==> r1.final <= r2.final)
  {
    var i1, i2 := LoadCurrent(c1), LoadCurrent(c2);
    LoadCurrentMonotone(c1, c2);
    var dist := OrDefault(c1.distance, 0.0);
    if dist > 0.0 {
      SizedStructure(c1);
      SizedStructure(c2);
      FuseRatingMonotone(i1, i2);
      ThermalSizeMonotone(c1.material, FuseRating(i1), FuseRating(i2));
      DropCrossSectionMonotone(c1, i1, i2, dist);
      DropIgnoresLoad(c1, c2, i2, dist);
      DropSizeMonotone(DropCrossSection(c1, i1, dist), DropCrossSection(c1, i2, dist));
    }
  }

  // ---------------------------------------------------------------------
  // Import from the load audit, and what a save request exports
  // ---------------------------------------------------------------------

  /** The power the page imports from a hand-off record: the audit's peak
      figure rounded to whole watts, when the record is at most twelve hours
      old and the figure is positive. The version tag is not consulted. */
  function ImportedPower(rec: SharedRecord, now: int): (w: Option<int>)
    ensures w.Some? <==> IsFresh(rec, now) && rec.peakPowerWatts > 0.0
    ensures w.Some? ==> rec.peakPowerWatts - 0.5 < w.value as real <= rec.peakPowerWatts + 0.5
  {
    if now - rec.timestamp > MaxAgeMs then None
    else if rec.peakPowerWatts > 0.0 then Some(Round(rec.peakPowerWatts))
    else None
  }

  /** The import reads only the age and the peak figure: a record under any
      version tag imports as one under the current tag would. */
  lemma ImportIgnoresVersion(rec: SharedRecord, now: int, version: string)
    ensures ImportedPower(rec, now) == ImportedPower(rec.(version := version), now)
  {
  }

  /** What out_cable shows. */
  datatype CableShown = NoSize | AboveCatalog | Size(mm2: real)

  /** The triple a save request stores: cable, fuse and loss as shown. */
  datatype CableSummary = CableSummary(cable: CableShown, fuse: Option<real>, lossWatts: Option<real>)

  /** The outputs after one run of `calculate`, given what they showed
      before: the loss line is rewritten only when the losses block is shown,
      so a placeholder or an overflow leaves the previous loss in place. */
  function Displayed(r: Sizing, before: CableSummary): (d: CableSummary)
    ensures d.cable.Size? <==> r.Sized?
    ensures d.cable == AboveCatalog <==> r.Overflow?
    ensures d.fuse.Some? <==> !r.Placeholder?
    ensures !r.Placeholder? ==> d.fuse == Some(r.fuse)
    ensures r.Sized? ==> d.cable == Size(r.final) && d.lossWatts == Some(r.lossWatts)
    ensures !r.Sized? ==> d.lossWatts == before.lossWatts
  {
    match r
    case Placeholder => CableSummary(NoSize, None, before.lossWatts)
    case Overflow(fuse) => CableSummary(AboveCatalog, Some(fuse), before.lossWatts)
    case Sized(_, fuse, _, _, _, final, _, loss, _) => CableSummary(Size(final), Some(fuse), Some(loss))
  }

  /** The cable page: its input fields, the module-level input mode, and the
      outputs a save request reads back. */
  class CablePage {
    var voltage: real
    var mode: InputMode
    var load: Field
    var distance: Field
    var lossPercent: real
    var material: Material
    var shown: CableSummary

    predicate Valid()
      reads this
    {
      voltage > 0.0 && lossPercent > 0.0
    }

    function Inputs(): Circuit
      reads this
    {
      Circuit(voltage, mode, load, distance, lossPercent, material)
    }

    /** The page as loaded: watts mode, outputs as the markup has them. */
    constructor (voltage: real, load: Field, distance: Field, lossPercent: real, material: Material, shown: CableSummary)
      requires voltage > 0.0 && lossPercent > 0.0
      ensures Valid()
      ensures Inputs() == Circuit(voltage, Watts, load, distance, lossPercent, material)
      ensures this.shown == shown
    {
      this.voltage := voltage;
      this.mode := Watts;
      this.load := load;
      this.distance := distance;
      this.lossPercent := lossPercent;
      this.material := material;
      this.shown := shown;
    }

    /** `calculate`: recompute from the fields and refresh the outputs. */
    method Recalculate() returns (r: Sizing)
      requires Valid()
      modifies this`shown
      ensures r == Calculate(Inputs())
      ensures shown == Displayed(r, old(shown))
    {
      r := Calculate(Inputs());
      shown := Displayed(r, shown);
    }

    /** The watts/amps toggle: switch the mode, then recalculate. */
    method Toggle(m: InputMode) returns (r: Sizing)
      requires Valid()
      modifies this
      ensures Valid()
      ensures Inputs() == old(Inputs()).(mode := m)
      ensures r == Calculate(Inputs()) && shown == Displayed(r, old(shown))
    {
      mode := m;
      r := Recalculate();
    }

    /** `initFromProject`: a fresh record with a positive peak switches to
      watts, fills in the rounded peak and recalculates; anything else
      leaves the page as it was. */
    method ImportFromProject(rec: Option<SharedRecord>, now: int)
      requires Valid()
      modifies this
      ensures Valid()
      ensures rec.Some? && ImportedPower(rec.value, now).Some? ==>
        && Inputs() == old(Inputs()).(mode := Watts, load := Some(ImportedPower(rec.value, now).value as real))
        && shown == Displayed(Calculate(Inputs()), old(shown))
      ensures rec.None? || ImportedPower(rec.value, now).None? ==>
        Inputs() == old(Inputs()) && shown == old(shown)
    {
      if rec.Some? {
        var w := ImportedPower(rec.value, now);
        if w.Some? {
          mode := Watts;
          load := Some(w.value as real);
          var _ := Recalculate();
        }
      }
    }

    /** The `ecowatt-save-request` handler's cable, fuse and loss. */
    function SavePayload(): (p: CableSummary)
      reads this
      ensures p == shown
    {
      shown
    }
  }
}
