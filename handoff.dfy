/** The `ecowatt_project` hand-off record: the load audit writes it, the
    cable and battery calculators read it back. It is modelled after
    `JSON.parse`, with the reading clock passed in. */
module Handoff {

  /** Twelve hours, in milliseconds. */
  const MaxAgeMs: int := 12 * 60 * 60 * 1000

  const ProtocolVersion: string := "1.0"

  datatype SharedRecord = SharedRecord(
    version: string,
    timestamp: int,        // epoch milliseconds when the audit wrote it
    totalEnergyWh: real,   // audit.total_energy_wh
    peakPowerWatts: real)  // audit.peak_power_watts

  /** The consumers' age test: a record is dropped once `now - timestamp`
      exceeds twelve hours (a record from the future passes). */
  predicate IsFresh(r: SharedRecord, now: int)
  {
    now - r.timestamp <= MaxAgeMs
  }
}
