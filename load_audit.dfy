/** The load audit: a table of appliances (power, count, hours a day), the
    peak and daily energy they add up to, the inverter that peak calls for,
    the hand-off record it sends to the battery calculator, and the rows it
    saves into and restores from the active project. */
module LoadAudit {
  import opened JsNumbers
  import opened Handoff

  /** A catalogue entry of the preset list. */
  datatype Preset = Preset(name: string, power: real, hours: real)

  const Presets: seq<Preset> := [
    Preset("Освещение (LED)", 10.0, 6.0),
    Preset("Роутер + ONU", 15.0, 24.0),
    Preset("Зарядка телефона", 20.0, 4.0),
    Preset("Ноутбук", 60.0, 8.0),
    Preset("Телевизор (LED)", 100.0, 4.0),
    Preset("Холодильник (инвертор)", 100.0, 12.0),
    Preset("Холодильник (старый)", 200.0, 10.0),
    Preset("Газовый котел (насос)", 100.0, 24.0),
    Preset("Циркуляционный насос", 60.0, 24.0),
    Preset("Микроволновка", 1200.0, 0.3),
    Preset("Чайник", 2000.0, 0.2),
    Preset("Бойлер", 1500.0, 3.0),
    Preset("Скважинный насос", 1000.0, 1.0)]

  /** The name a row gets when it is added without data. */
  const NewRowName: string := "Новый прибор"

  /** The default simultaneity factor. */
  const DefaultSim: real := 0.7

  /** The inverter's headroom over the simultaneous peak. */
  const InverterMargin: real := 1.2

  /** One table row, its numeric cells as `parseFloat` reads them. */
  datatype AuditRow = AuditRow(name: string, power: Field, qty: Field, time: Field)

  /** What `addRow` is given: a preset carries `hours`, a saved row `qty`
      and `time`; a key the object lacks is None. */
  datatype RowData = RowData(name: string, power: real, qty: Option<real>, hours: Option<real>, time: Option<real>)

  /** A row as the save handler writes it: every number already `|| 0`. */
  datatype SavedRow = SavedRow(name: string, power: real, qty: real, time: real)

  /** A text input as a string: Blank is the empty string (falsy), Typed
      any other text, carrying what `parseFloat` makes of it. */
  datatype RawField = Blank | Typed(parsed: Field)

  /** The audit slot of a project: the rows and the raw simultaneity text.
      The rendered summary strings saved beside them are not modelled. */
  datatype AuditSave = AuditSave(rows: seq<SavedRow>, simFactor: RawField)

  /** The figures `calculate` shows. */
  datatype Summary = Summary(peakSim: real, invRecWatts: real, invRecKw: real, energyKwh: real)

  function PresetData(p: Preset): RowData
  {
    RowData(p.name, p.power, None, Some(p.hours), None)
  }

  function SavedData(s: SavedRow): RowData
  {
    RowData(s.name, s.power, Some(s.qty), None, Some(s.time))
  }

  /** The row `addRow` builds: without data a blank appliance of 0 W, one
      unit, one hour; with data the given name and power, the quantity or 1,
      and `hours`, else `time`, else 1. */
  function NewRow(data: Option<RowData>): (r: AuditRow)
    ensures data.None? ==> r == AuditRow(NewRowName, Some(0.0), Some(1.0), Some(1.0))
    ensures data.Some? ==> r.name == data.value.name && r.power == Some(data.value.power)
    ensures r.qty.Some? && r.qty.value != 0.0 && r.time.Some? && r.time.value != 0.0
  {
    match data
    case None => AuditRow(NewRowName, Some(0.0), Some(1.0), Some(1.0))
    case Some(d) => AuditRow(d.name, Some(d.power), Some(OrDefault(d.qty, 1.0)), Some(OrDefault(d.hours, OrDefault(d.time, 1.0))))
  }

  /** The quantity and time `addRow` takes from data: a falsy quantity
      becomes 1, and a truthy `hours` wins over `time`, which wins over 1. */
  lemma NewRowDefaults(d: RowData)
    ensures var r := NewRow(Some(d));
      && (d.qty.Some? && d.qty.value != 0.0 ==> r.qty == d.qty)
      && (d.qty.None? || d.qty.value == 0.0 ==> r.qty == Some(1.0))
      && (d.hours.Some? && d.hours.value != 0.0 ==> r.time == d.hours)
      && ((d.hours.None? || d.hours.value == 0.0) && d.time.Some? && d.time.value != 0.0 ==> r.time == d.time)
      && ((d.hours.None? || d.hours.value == 0.0) && (d.time.None? || d.time.value == 0.0) ==> r.time == Some(1.0))
  {
  }

  /** A row's simultaneous power: power × quantity, an unreadable cell
      counting as 0. */
  function RowPeak(r: AuditRow): real
  {
    OrDefault(r.power, 0.0) * OrDefault(r.qty, 0.0)
  }

  /** A row's daily energy: its power × quantity × hours. */
  function RowEnergy(r: AuditRow): real
  {
    RowPeak(r) * OrDefault(r.time, 0.0)
  }

  /** The sum of RowPeak over the rows, in table order. */
  function SumPeak(rows: seq<AuditRow>): real
  {
    if |rows| == 0 then 0.0 else SumPeak(rows[..|rows| - 1]) + RowPeak(rows[|rows| - 1])
  }

  /** The sum of RowEnergy over the rows, in table order. */
  function SumEnergy(rows: seq<AuditRow>): real
  {
    if |rows| == 0 then 0.0 else SumEnergy(rows[..|rows| - 1]) + RowEnergy(rows[|rows| - 1])
  }

  /** The totals split over any division of the table: adding a row adds
      its figures, removing one takes them away. */
  lemma {:induction false} SumsAppend(a: seq<AuditRow>, b: seq<AuditRow>)
    ensures SumPeak(a + b) == SumPeak(a) + SumPeak(b)
    ensures SumEnergy(a + b) == SumEnergy(a) + SumEnergy(b)
    decreases |b|
  {
    if |b| > 0 {
      var b' := b[..|b| - 1];
      assert (a + b)[..|a + b| - 1] == a + b';
      SumsAppend(a, b');
    } else {
      assert a + b == a;
    }
  }

  /** A row with non-negative cells contributes non-negative figures. */
  predicate NonNegativeRow(r: AuditRow)
  {
    OrDefault(r.power, 0.0) >= 0.0 && OrDefault(r.qty, 0.0) >= 0.0 && OrDefault(r.time, 0.0) >= 0.0
  }

  /** With no negative cell, the totals are non-negative and the energy is
      zero when the peak is. */
  lemma {:induction false} SumsNonNegative(rows: seq<AuditRow>)
    requires forall i :: 0 <= i < |rows| ==> NonNegativeRow(rows[i])
    ensures SumPeak(rows) >= 0.0 && SumEnergy(rows) >= 0.0
    ensures SumPeak(rows) == 0.0 ==> SumEnergy(rows) == 0.0
  {
    if |rows| > 0 {
      var r := rows[|rows| - 1];
      SumsNonNegative(rows[..|rows| - 1]);
      assert NonNegativeRow(r);
      RowFiguresNonNegative(r);
    }
  }

  lemma RowFiguresNonNegative(r: AuditRow)
    requires NonNegativeRow(r)
    ensures RowPeak(r) >= 0.0 && RowEnergy(r) >= 0.0
    ensures RowPeak(r) == 0.0 ==> RowEnergy(r) == 0.0
  {
  }

  /** `parseFloat(val_sim) || 0.7`: the typed factor, or 0.7 when the
      field is blank, unreadable or zero. */
  function SimFactor(sim: RawField): (k: real)
    ensures k == (if sim.Typed? && sim.parsed.Some? && sim.parsed.value != 0.0 then sim.parsed.value else DefaultSim)
    ensures k != 0.0
  {
    OrDefault(if sim.Typed? then sim.parsed else None, DefaultSim)
  }

  /** The recommended inverter power in watts: the raw peak times the
      simultaneity factor, plus 20%. */
  function InverterWatts(peakRaw: real, sim: RawField): real
  {
    peakRaw * SimFactor(sim) * InverterMargin
  }

  /** The recommended inverter in kW: watts over a thousand rounded up to a
      half, never below 0.5. */
  function InverterKw(watts: real): (kw: real)
  {
    var kw := Ceil(watts / 1000.0 * 2.0) as real / 2.0;
    if kw < 0.5 then 0.5 else kw
  }

  /** The inverter size is a multiple of 0.5 kW, at least 0.5 kW and at
      least the recommended power; it is 0.5 kW up to 500 W and less than
      half a kilowatt above the recommendation beyond that. */
  lemma InverterKwSpec(watts: real)
    ensures var kw := InverterKw(watts);
      && kw >= 0.5
      && kw * 1000.0 >= watts
      && (kw * 2.0).Floor as real == kw * 2.0
      && (watts <= 500.0 ==> kw == 0.5)
      && (watts > 500.0 ==> kw * 1000.0 < watts + 500.0)
  {
    var n := Ceil(watts / 1000.0 * 2.0);
    HalfSteps(watts, n);
    var kw := InverterKw(watts);
    if n <= 1 {
      assert kw == 0.5 && kw * 2.0 == 1.0;
      assert (kw * 2.0).Floor == 1;
      assert watts <= 500.0;
    } else {
      assert kw == n as real / 2.0;
      assert kw * 2.0 == n as real && (kw * 2.0).Floor == n;
      assert kw * 1000.0 == (n as real) * 500.0;
      assert watts > 500.0;
    }
  }

  /** The rounded count of half kilowatts brackets the recommendation. */
  lemma HalfSteps(watts: real, n: int)
    requires n == Ceil(watts / 1000.0 * 2.0)
    ensures (n as real) * 500.0 >= watts
    ensures ((n - 1) as real) * 500.0 < watts
  {
    assert watts / 1000.0 * 2.0 == watts / 500.0;
  }

  /** No smaller half-kilowatt step would do: every multiple of 0.5 kW that
      is at least 0.5 kW and covers the recommendation is at least the
      chosen size. */
  lemma InverterKwLeast(watts: real, steps: int)
    requires steps >= 1 && (steps as real / 2.0) * 1000.0 >= watts
    ensures InverterKw(watts) <= steps as real / 2.0
  {
    var n := Ceil(watts / 1000.0 * 2.0);
    assert watts / 1000.0 * 2.0 <= steps as real;
    assert n <= steps;
  }

  /** The figures shown for the given totals and simultaneity field. */
  function Summarize(peakRaw: real, energy: real, sim: RawField): (s: Summary)
    ensures s.peakSim == peakRaw * SimFactor(sim)
    ensures s.invRecWatts == s.peakSim * InverterMargin
    ensures s.invRecKw == InverterKw(s.invRecWatts)
    ensures s.energyKwh * 1000.0 == energy
  {
    var peakSim := peakRaw * SimFactor(sim);
    var w := peakSim * InverterMargin;
    Summary(peakSim, w, InverterKw(w), energy / 1000.0)
  }

  /** The hand-off record the transfer button stores: protocol "1.0", the
      moment of the click, the daily energy and the recommended inverter
      power, neither rounded. */
  function Packet(peakRaw: real, energy: real, sim: RawField, now: int): (rec: SharedRecord)
    ensures rec.version == ProtocolVersion && rec.timestamp == now
    ensures rec.totalEnergyWh == energy
    ensures rec.peakPowerWatts == Summarize(peakRaw, energy, sim).invRecWatts
  {
    SharedRecord(ProtocolVersion, now, energy, InverterWatts(peakRaw, sim))
  }

  /** The row the save handler writes: cells read with `|| 0`. */
  function SaveRow(r: AuditRow): (s: SavedRow)
    ensures s.name == r.name
    ensures s.power == OrDefault(r.power, 0.0) && s.qty == OrDefault(r.qty, 0.0) && s.time == OrDefault(r.time, 0.0)
  {
    SavedRow(r.name, OrDefault(r.power, 0.0), OrDefault(r.qty, 0.0), OrDefault(r.time, 0.0))
  }

  function SavedRows(rows: seq<AuditRow>): (s: seq<SavedRow>)
    ensures |s| == |rows| && forall i :: 0 <= i < |rows| ==> s[i] == SaveRow(rows[i])
  {
    if |rows| == 0 then [] else SavedRows(rows[..|rows| - 1]) + [SaveRow(rows[|rows| - 1])]
  }

  function RestoredRows(saved: seq<SavedRow>): (rows: seq<AuditRow>)
    ensures |rows| == |saved| && forall i :: 0 <= i < |saved| ==> rows[i] == NewRow(Some(SavedData(saved[i])))
  {
    if |saved| == 0 then [] else RestoredRows(saved[..|saved| - 1]) + [NewRow(Some(SavedData(saved[|saved| - 1])))]
  }

  /** A row as it comes back from a save and a restore: unreadable cells
      become 0 for the power and 1 for the quantity and time, and a zero
      quantity or time becomes 1. */
  function Normalised(r: AuditRow): (n: AuditRow)
  {
    var q, t := OrDefault(r.qty, 0.0), OrDefault(r.time, 0.0);
    AuditRow(r.name, Some(OrDefault(r.power, 0.0)), Some(if q == 0.0 then 1.0 else q), Some(if t == 0.0 then 1.0 else t))
  }

  /** Save then restore gives back the rows in order, each normalised. */
  lemma SaveRestoreRoundTrip(rows: seq<AuditRow>)
    ensures |RestoredRows(SavedRows(rows))| == |rows|
    ensures forall i :: 0 <= i < |rows| ==> RestoredRows(SavedRows(rows))[i] == Normalised(rows[i])
  {
    var saved := SavedRows(rows);
    forall i | 0 <= i < |rows|
      ensures RestoredRows(saved)[i] == Normalised(rows[i])
    {
      RestoredRowIsNormalised(rows[i]);
    }
  }

  lemma RestoredRowIsNormalised(r: AuditRow)
    ensures NewRow(Some(SavedData(SaveRow(r)))) == Normalised(r)
  {
  }

  /** Normalising is idempotent, so a second save and restore changes
      nothing more; rows whose cells all read as non-zero come back as they
      were, and their figures are unchanged. */
  lemma NormalisedStable(r: AuditRow)
    ensures Normalised(Normalised(r)) == Normalised(r)
    ensures r.power.Some? && r.qty.Some? && r.qty.value != 0.0 && r.time.Some? && r.time.value != 0.0 ==>
      Normalised(r) == r.(power := Some(OrDefault(r.power, 0.0)))
    ensures r.qty.Some? && r.qty.value != 0.0 && r.time.Some? && r.time.value != 0.0 ==>
      RowPeak(Normalised(r)) == RowPeak(r) && RowEnergy(Normalised(r)) == RowEnergy(r)
  {
  }

  /** The table of the audit page and its simultaneity field. */
  class AuditTable {
    var rows: seq<AuditRow>
    var sim: RawField

    /** The page as loaded: two starter rows, lighting and the router. */
    constructor (sim: RawField)
      ensures rows == [NewRow(Some(PresetData(Presets[0]))), NewRow(Some(PresetData(Presets[1])))]
      ensures this.sim == sim
    {
      rows := [];
      this.sim := sim;
      new;
      AddRow(Some(PresetData(Presets[0])));
      AddRow(Some(PresetData(Presets[1])));
    }

    /** `addRow`: append one row at the bottom of the table. */
    method AddRow(data: Option<RowData>)
      modifies this`rows
      ensures rows == old(rows) + [NewRow(data)]
    {
      rows := rows + [NewRow(data)];
    }

    /** The "add from list" button with a preset selected. */
    method AddPreset(index: nat)
      requires index < |Presets|
      modifies this`rows
      ensures rows == old(rows) + [NewRow(Some(PresetData(Presets[index])))]
      ensures SumPeak(rows) == SumPeak(old(rows)) + Presets[index].power
      ensures SumEnergy(rows) == SumEnergy(old(rows)) + Presets[index].power * Presets[index].hours
    {
      var p := Presets[index];
      PresetsFacts();
      AddRow(Some(PresetData(p)));
      PresetRowFigures(p);
      SumsAppend(old(rows), [NewRow(Some(PresetData(p)))]);
    }

    /** The remove button of row `i`. */
    method RemoveRow(i: nat)
      requires i < |rows|
      modifies this`rows
      ensures rows == old(rows[..i]) + old(rows[i + 1..])
      ensures SumPeak(rows) == SumPeak(old(rows)) - RowPeak(old(rows[i]))
      ensures SumEnergy(rows) == SumEnergy(old(rows)) - RowEnergy(old(rows[i]))
    {
      var before, removed, after := rows[..i], rows[i], rows[i + 1..];
      assert rows == before + [removed] + after;
      SumsAppend(before + [removed], after);
      SumsAppend(before, [removed]);
      SumsAppend(before, after);
      rows := before + after;
    }

    /** `calculate`: one pass over the rows accumulating the peak and the
      energy, the rounded energy of each row for its cell, and the summary. */
    method Calculate() returns (cells: seq<int>, s: Summary)
      ensures |cells| == |rows| && forall j :: 0 <= j < |rows| ==> cells[j] == Round(RowEnergy(rows[j]))
      ensures s == Summarize(SumPeak(rows), SumEnergy(rows), sim)
    {
      var peak, energy := Totals();
      cells := [];
      var i := 0;
      while i < |rows|
        invariant 0 <= i <= |rows|
        invariant |cells| == i && forall j :: 0 <= j < i ==> cells[j] == Round(RowEnergy(rows[j]))
      {
        cells := cells + [Round(RowEnergy(rows[i]))];
        i := i + 1;
      }
      s := Summarize(peak, energy, sim);
    }

    /** The accumulation loop of `calculate` and of the transfer button. */
    method Totals() returns (peak: real, energy: real)
      ensures peak == SumPeak(rows) && energy == SumEnergy(rows)
    {
      peak, energy := 0.0, 0.0;
      var i := 0;
      while i < |rows|
        invariant 0 <= i <= |rows|
        invariant peak == SumPeak(rows[..i]) && energy == SumEnergy(rows[..i])
      {
        var r := rows[i];
        var rowPeak := OrDefault(r.power, 0.0) * OrDefault(r.qty, 0.0);
        var rowEnergy := rowPeak * OrDefault(r.time, 0.0);
        assert rows[..i + 1][..i] == rows[..i];
        peak := peak + rowPeak;
        energy := energy + rowEnergy;
        i := i + 1;
      }
      assert rows[..i] == rows;
    }

    /** The transfer button: sum the table afresh and build the record. */
    method Transfer(now: int) returns (rec: SharedRecord)
      ensures rec == Packet(SumPeak(rows), SumEnergy(rows), sim, now)
    {
      var peak, energy := Totals();
      rec := SharedRecord(ProtocolVersion, now, energy, InverterWatts(peak, sim));
    }

    /** The save handler: one saved row per table row, in order, and the
      raw simultaneity text. */
    method Save() returns (data: AuditSave)
      ensures data == AuditSave(SavedRows(rows), sim)
    {
      var saved: seq<SavedRow> := [];
      var i := 0;
      while i < |rows|
        invariant 0 <= i <= |rows|
        invariant saved == SavedRows(rows[..i])
      {
        assert rows[..i + 1][..i] == rows[..i];
        saved := saved + [SaveRow(rows[i])];
        i := i + 1;
      }
      assert rows[..i] == rows;
      data := AuditSave(saved, sim);
    }

    /** The start-up restore: a saved slot with at least one row replaces
      the whole table, row by row through `addRow`, and a non-empty saved
      factor replaces the field; otherwise the page keeps its defaults. */
    method Restore(saved: Option<AuditSave>)
      modifies this
      ensures Restores(saved) ==> rows == RestoredRows(saved.value.rows)
      ensures Restores(saved) && saved.value.simFactor.Typed? ==> sim == saved.value.simFactor
      ensures !(Restores(saved) && saved.value.simFactor.Typed?) ==> sim == old(sim)
      ensures !Restores(saved) ==> rows == old(rows)
    {
      if saved.Some? && |saved.value.rows| > 0 {
        var s := saved.value;
        rows := [];
        if s.simFactor.Typed? {
          sim := s.simFactor;
        }
        var i := 0;
        while i < |s.rows|
          invariant 0 <= i <= |s.rows|
          invariant rows == RestoredRows(s.rows[..i])
          invariant sim == if s.simFactor.Typed? then s.simFactor else old(sim)
        {
          assert s.rows[..i + 1][..i] == s.rows[..i];
          AddRow(Some(SavedData(s.rows[i])));
          i := i + 1;
        }
        assert s.rows[..i] == s.rows;
      }
    }
  }

  predicate Restores(saved: Option<AuditSave>)
  {
    saved.Some? && |saved.value.rows| > 0
  }

  /** A preset row contributes its catalogue power and power × hours. */
  lemma PresetRowFigures(p: Preset)
    requires p.hours != 0.0
    ensures SumPeak([NewRow(Some(PresetData(p)))]) == p.power
    ensures SumEnergy([NewRow(Some(PresetData(p)))]) == p.power * p.hours
  {
    var r := NewRow(Some(PresetData(p)));
    assert [r][..0] == [];
    assert r.time == Some(p.hours);
  }

  /** Every preset has a positive power and a positive number of hours. */
  lemma PresetsFacts()
    ensures forall i :: 0 <= i < |Presets| ==> Presets[i].power > 0.0 && Presets[i].hours > 0.0
  {
  }
}
