/** The project store shared by the calculators: a list of saved projects
    (the database) and the project of the current session (the active
    project), each kept under its own storage key. Modules write their
    results into a named slot of the active project; saving copies the
    active project into the database, by id. Both storage keys are fields
    here, and the clock is a parameter. */
module ProjectManager {
  import opened JsNumbers
  import LoadAudit
  import CableCalc

  /** What a module keeps in its slot. The battery page's saved fields and
      texts are not modelled and appear as OtherData. */
  datatype Payload =
    | EmptySlot                          // `{}` as the template has it
    | AuditData(audit: LoadAudit.AuditSave)
    | CableData(cable: CableCalc.CableSummary)
    | OtherData

  datatype Project = Project(id: int, name: string, updatedAt: int, data: map<string, Payload>)

  const ModuleSlots: seq<string> := ["audit", "battery", "cable", "winter"]

  const UntitledName: string := "Без названия"

  /** The name of the project a session starts with. */
  const NewSessionName: string := "Новый проект"

  /** `createTemplate`: a project stamped with the clock, the given name or
      "Без названия" when it is empty, and the four module slots empty. */
  function CreateTemplate(name: string, now: int): (p: Project)
    ensures p.id == now && p.updatedAt == now
    ensures name != "" ==> p.name == name
    ensures name == "" ==> p.name == UntitledName
    ensures p.data.Keys == set m | m in ModuleSlots
    ensures forall m :: m in p.data ==> p.data[m] == EmptySlot
  {
    var slots := map["audit" := EmptySlot, "battery" := EmptySlot, "cable" := EmptySlot, "winter" := EmptySlot];
    assert slots.Keys == set m | m in ModuleSlots;
    Project(now, if name == "" then UntitledName else name, now, slots)
  }

  /** `getActiveProject`: the stored active project, or a fresh template
      named "Новый проект" when none is stored. */
  function ActiveOrTemplate(stored: Option<Project>, now: int): (p: Project)
    ensures stored.Some? ==> p == stored.value
    ensures stored.None? ==> p == CreateTemplate(NewSessionName, now)
  {
    if stored.Some? then stored.value else CreateTemplate(NewSessionName, now)
  }

  // ---------------------------------------------------------------------
  // List operations of the database
  // ---------------------------------------------------------------------

  /** The index of the first project with the given id, from `from` on, or
      |db| when there is none. */
  function IndexOfId(db: seq<Project>, id: int, from: nat): (k: nat)
    requires from <= |db|
    ensures from <= k <= |db|
    ensures forall j :: from <= j < k ==> db[j].id != id
    ensures k < |db| ==> db[k].id == id
    decreases |db| - from
  {
    if from == |db| || db[from].id == id then from else IndexOfId(db, id, from + 1)
  }

  /** `findIndex` / `find` on the id. */
  function FindId(db: seq<Project>, id: int): (k: nat)
    ensures k <= |db|
    ensures forall j :: 0 <= j < k ==> db[j].id != id
    ensures k < |db| ==> db[k].id == id
  {
    IndexOfId(db, id, 0)
  }

  predicate HasId(db: seq<Project>, id: int)
  {
    exists j :: 0 <= j < |db| && db[j].id == id
  }

  /** The id is present exactly when the search stops inside the list. */
  lemma FindIdPresent(db: seq<Project>, id: int)
    ensures FindId(db, id) < |db| <==> HasId(db, id)
  {
  }

  /** Any index with the two properties of the search is the search's. */
  lemma FindIdUnique(db: seq<Project>, id: int, k: nat)
    requires k <= |db|
    requires forall j :: 0 <= j < k ==> db[j].id != id
    requires k < |db| ==> db[k].id == id
    ensures FindId(db, id) == k
  {
  }

  /** The save step: replace the first project with the same id, or append
      when there is none. */
  function Upsert(db: seq<Project>, p: Project): (r: seq<Project>)
  {
    var k := FindId(db, p.id);
    if k < |db| then db[k := p] else db + [p]
  }

  /** With the id present, the first entry carrying it is replaced in place,
      the length is unchanged and every other entry stays; with the id
      absent, the project is appended at the end. */
  lemma UpsertSpec(db: seq<Project>, p: Project)
    ensures HasId(db, p.id) ==>
      var k := FindId(db, p.id);
      && |Upsert(db, p)| == |db|
      && Upsert(db, p)[k] == p
      && (forall j :: 0 <= j < |db| && j != k ==> Upsert(db, p)[j] == db[j])
      && (forall j :: 0 <= j < k ==> db[j].id != p.id)
    ensures !HasId(db, p.id) ==> Upsert(db, p) == db + [p]
  {
    FindIdPresent(db, p.id);
  }

  /** After saving, looking the id up finds the saved project, and saving
      the same project again changes nothing. */
  lemma LookupAfterUpsert(db: seq<Project>, p: Project)
    ensures var r := Upsert(db, p);
      FindId(r, p.id) < |r| && r[FindId(r, p.id)] == p
    ensures Upsert(Upsert(db, p), p) == Upsert(db, p)
  {
    var k := FindId(db, p.id);
    var r := Upsert(db, p);
    FindIdUnique(r, p.id, k);
    if k < |db| {
      assert r[k := p] == r;
    }
  }

  /** `deleteProject`'s filter: every project whose id differs, in order. */
  function RemoveId(db: seq<Project>, id: int): (r: seq<Project>)
    ensures |r| <= |db|
  {
    if |db| == 0 then []
    else RemoveId(db[..|db| - 1], id) + (if db[|db| - 1].id != id then [db[|db| - 1]] else [])
  }

  /** The filter keeps exactly the projects with another id, and nothing
      else. */
  lemma {:induction false} RemoveIdMembers(db: seq<Project>, id: int)
    ensures forall p :: p in RemoveId(db, id) <==> p in db && p.id != id
  {
    if |db| > 0 {
      var init := db[..|db| - 1];
      RemoveIdMembers(init, id);
      assert db == init + [db[|db| - 1]];
    }
  }

  /** The filter splits over a concatenation, so it keeps the survivors in
      their order; a list without the id comes through unchanged. */
  lemma {:induction false} RemoveIdAppend(a: seq<Project>, b: seq<Project>, id: int)
    ensures RemoveId(a + b, id) == RemoveId(a, id) + RemoveId(b, id)
    decreases |b|
  {
    if |b| == 0 {
      assert a + b == a;
    } else {
      var b' := b[..|b| - 1];
      assert (a + b)[..|a + b| - 1] == a + b';
      RemoveIdAppend(a, b', id);
    }
  }

  lemma {:induction false} RemoveIdAbsent(db: seq<Project>, id: int)
    requires !HasId(db, id)
    ensures RemoveId(db, id) == db
  {
    if |db| > 0 {
      var init := db[..|db| - 1];
      RemoveIdAbsent(init, id);
      assert db == init + [db[|db| - 1]];
    }
  }

  /** The session and the database. */
  class ProjectStore {
    var db: seq<Project>
    var active: Option<Project>

    constructor (db: seq<Project>, active: Option<Project>)
      ensures this.db == db && this.active == active
    {
      this.db := db;
      this.active := active;
    }

    /** `getActiveProject`. */
    function GetActiveProject(now: int): (p: Project)
      reads this
      ensures active.None? ==> p.name == NewSessionName && p.data.Keys == (set m | m in ModuleSlots)
    {
      ActiveOrTemplate(active, now)
    }

    /** `saveActiveToDB`: stamp the active project (or a fresh template)
      with the clock, write it into the database by id, and keep it as the
      active project. */
    method SaveActiveToDB(now: int)
      modifies this
      ensures var a := ActiveOrTemplate(old(active), now).(updatedAt := now);
        active == Some(a) && db == Upsert(old(db), a)
    {
      var a := ActiveOrTemplate(active, now).(updatedAt := now);
      var i := 0;
      while i < |db| && db[i].id != a.id
        invariant 0 <= i <= |db|
        invariant forall j :: 0 <= j < i ==> db[j].id != a.id
      {
        i := i + 1;
      }
      FindIdUnique(db, a.id, i);
      if i < |db| {
        db := db[i := a];
      } else {
        db := db + [a];
      }
      active := Some(a);
    }

    /** `loadProject`: make the first project with the id the active one;
      report whether there was one. */
    method LoadProject(id: int) returns (ok: bool)
      modifies this`active
      ensures ok <==> HasId(db, id)
      ensures ok ==> active == Some(db[FindId(db, id)]) && active.value.id == id
      ensures !ok ==> active == old(active)
    {
      var k := FindId(db, id);
      FindIdPresent(db, id);
      if k < |db| {
        active := Some(db[k]);
        ok := true;
      } else {
        ok := false;
      }
    }

    /** `updateModuleData`: put a module's data into its slot of the active
      project (a fresh template when none is stored). */
    method UpdateModuleData(slot: string, payload: Payload, now: int)
      modifies this`active
      ensures var before := ActiveOrTemplate(old(active), now);
        && active.Some?
        && active.value == before.(data := before.data[slot := payload])
    {
      var a := ActiveOrTemplate(active, now);
      active := Some(a.(data := a.data[slot := payload]));
    }

    /** `deleteProject`, with the answer to the confirmation: when confirmed,
      drop every project with the id from the database. */
    method DeleteProject(id: int, confirmed: bool)
      modifies this`db
      ensures confirmed ==> db == RemoveId(old(db), id)
      ensures !confirmed ==> db == old(db)
    {
      if confirmed {
        db := RemoveId(db, id);
      }
    }

    /** The dashboard's "new project" button, with the text the prompt
      returned (None when cancelled): a non-empty name starts a new active
      project. */
    method NewProject(name: Option<string>, now: int)
      modifies this`active
      ensures name.Some? && name.value != "" ==> active == Some(CreateTemplate(name.value, now))
      ensures name.None? || name.value == "" ==> active == old(active)
    {
      if name.Some? && name.value != "" {
        active := Some(CreateTemplate(name.value, now));
      }
    }
  }

  /** A slot update touches that slot alone: the id, name, date and every
      other slot stay as they were. */
  lemma UpdateTouchesOneSlot(p: Project, slot: string, payload: Payload)
    ensures var q := p.(data := p.data[slot := payload]);
      && q.id == p.id && q.name == p.name && q.updatedAt == p.updatedAt
      && q.data.Keys == p.data.Keys + {slot}
      && q.data[slot] == payload
      && forall m :: m in p.data && m != slot ==> q.data[m] == p.data[m]
  {
  }

  /** The audit slot as the audit page reads it at start-up: its rows and
      factor when the slot holds saved audit data. */
  function AuditSlot(p: Project): (s: Option<LoadAudit.AuditSave>)
    ensures s.Some? <==> "audit" in p.data && p.data["audit"].AuditData?
  {
    if "audit" in p.data && p.data["audit"].AuditData? then Some(p.data["audit"].audit) else None
  }
}
