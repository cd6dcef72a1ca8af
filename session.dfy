/** How the pages work together: the load audit hands its figures to the
    battery and cable calculators through the shared record, and saves its
    table into the active project, from which it restores the table when it
    is opened again. */
module Session {
  import opened JsNumbers
  import opened Handoff
  import LoadAudit
  import BatteryCalc
  import CableCalc
  import ProjectManager

  /** The battery page, opened from the audit while the record is fresh,
      takes the audit's daily energy when there is any; once twelve hours
      have passed it takes nothing. */
  lemma AuditFeedsBattery(peak: real, energy: real, sim: LoadAudit.RawField, sent: int, now: int)
    ensures var rec := LoadAudit.Packet(peak, energy, sim, sent);
      && (now - sent <= MaxAgeMs ==>
            BatteryCalc.AuditEnergyToImport(rec, true, now) == (if energy > 0.0 then Some(energy) else None))
      && (now - sent > MaxAgeMs ==> BatteryCalc.AuditEnergyToImport(rec, true, now) == None)
  {
  }

  /** The cable page, while the record is fresh, takes the recommended
      inverter power rounded to whole watts when it is positive. */
  lemma AuditFeedsCable(peak: real, energy: real, sim: LoadAudit.RawField, sent: int, now: int)
    ensures var rec := LoadAudit.Packet(peak, energy, sim, sent);
      var w := LoadAudit.Summarize(peak, energy, sim).invRecWatts;
      && (now - sent <= MaxAgeMs && w > 0.0 ==> CableCalc.ImportedPower(rec, now) == Some(Round(w)))
      && (now - sent > MaxAgeMs || w <= 0.0 ==> CableCalc.ImportedPower(rec, now) == None)
  {
  }

  /** The audit table written into a project's slot comes back from that
      slot as the saved rows, and restoring them rebuilds every row in its
      place, normalised. */
  lemma AuditSlotRoundTrip(p: ProjectManager.Project, rows: seq<LoadAudit.AuditRow>, sim: LoadAudit.RawField)
    ensures var save := LoadAudit.AuditSave(LoadAudit.SavedRows(rows), sim);
      var q := p.(data := p.data["audit" := ProjectManager.AuditData(save)]);
      && ProjectManager.AuditSlot(q) == Some(save)
      && |LoadAudit.RestoredRows(save.rows)| == |rows|
      && forall i :: 0 <= i < |rows| ==> LoadAudit.RestoredRows(save.rows)[i] == LoadAudit.Normalised(rows[i])
  {
    LoadAudit.SaveRestoreRoundTrip(rows);
  }

  /** The whole cycle on the pages: save the audit into the active project,
      open the audit again later, and the table restored is the saved one,
      row by row normalised, whenever it had a row. */
  method SaveAndReopenAudit(table: LoadAudit.AuditTable, store: ProjectManager.ProjectStore, reopened: LoadAudit.AuditTable, now: int, later: int)
    requires reopened != table
    modifies store, reopened
    ensures |table.rows| > 0 ==>
      && |reopened.rows| == |table.rows|
      && forall i :: 0 <= i < |table.rows| ==> reopened.rows[i] == LoadAudit.Normalised(table.rows[i])
    ensures |table.rows| == 0 ==> reopened.rows == old(reopened.rows)
  {
    var save := table.Save();
    store.UpdateModuleData("audit", ProjectManager.AuditData(save), now);
    var slot := ProjectManager.AuditSlot(store.GetActiveProject(later));
    reopened.Restore(slot);
    AuditSlotRoundTrip(ProjectManager.ActiveOrTemplate(old(store.active), now), table.rows, table.sim);
  }
}
