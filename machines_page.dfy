// The logic of components/pages/machines-page.tsx: the maintenance-due count
// and the per-row flag, the three label tables, and the guards and request
// payloads of the save, add-maintenance and add-work-log handlers. Parsing of
// the form strings is supplied by the caller (`parseInt`, `parseFloat`).
module MachinesPage {
  import opened Wrappers

  /** The machine fields the page reads; optional numbers are `None` when `null` or absent. */
  datatype Machine = Machine(
    id: int,
    farmId: int,
    name: string,
    kind: string,
    engineHours: real,
    serviceIntervalHours: Option<real>,
    lastServiceHours: Option<real>)

  /** JavaScript truthiness of an optional number: present and not 0. */
  predicate Truthy(x: Option<real>) {
    x.Some? && x.value != 0.0
  }

  /** The `maintenanceDue` filter callback and the row's `needsMaintenance`. */
  predicate NeedsMaintenance(m: Machine) {
    Truthy(m.serviceIntervalHours) && Truthy(m.lastServiceHours)
    && m.engineHours - m.lastServiceHours.value >= m.serviceIntervalHours.value
  }

  /** `machines.filter(...)`: the machines due for maintenance, in list order. */
  function DueMachines(machines: seq<Machine>): seq<Machine> {
    if machines == [] then []
    else
      var last := machines[|machines| - 1];
      DueMachines(machines[..|machines| - 1]) + (if NeedsMaintenance(last) then [last] else [])
  }

  /** `maintenanceDue`: the length of the filtered list. */
  function MaintenanceDue(machines: seq<Machine>): nat {
    |DueMachines(machines)|
  }

  /** The warning flag of each table row. */
  function RowFlags(machines: seq<Machine>): (flags: seq<bool>)
    ensures |flags| == |machines|
    ensures forall i :: 0 <= i < |machines| ==> flags[i] == NeedsMaintenance(machines[i])
  {
    seq(|machines|, i requires 0 <= i < |machines| => NeedsMaintenance(machines[i]))
  }

  /** The number of set flags. */
  function CountSet(flags: seq<bool>): nat {
    if flags == [] then 0 else CountSet(flags[..|flags| - 1]) + (if flags[|flags| - 1] then 1 else 0)
  }

  // ---------------------------------------------------------------------------
  // Label tables

  datatype Entry = Entry(value: string, caption: string)

  const MachineTypes: seq<Entry> := [
    Entry("tractor", "Traktor"), Entry("combine", "Kombayn"),
    Entry("implement", "Qurilma"), Entry("other", "Boshqa")]

  const MaintenanceTypes: seq<Entry> := [
    Entry("oil_change", "Moy almashtirish"), Entry("filter_change", "Filtr almashtirish"),
    Entry("repair", "Ta'mirlash"), Entry("tire_change", "Shinalarni almashtirish"),
    Entry("inspection", "Tekshirish"), Entry("other", "Boshqa")]

  const OperationTypes: seq<Entry> := [
    Entry("plowing", "Haydash"), Entry("sowing", "Ekish"), Entry("cultivating", "Kultivatsiya"),
    Entry("spraying", "Purkash"), Entry("harvesting", "Hosilni yig'ish"), Entry("transport", "Tashish"),
    Entry("other", "Boshqa")]

  /** `table.find((t) => t.value === value)`: the first entry with that value. */
  function Find(table: seq<Entry>, value: string): (r: Option<Entry>)
    ensures r.Some? ==> r.value in table && r.value.value == value
    ensures r.None? <==> forall i :: 0 <= i < |table| ==> table[i].value != value
  {
    if table == [] then None
    else if table[0].value == value then Some(table[0])
    else Find(table[1..], value)
  }

  /** `table.find(...)?.caption || value`: the label, or the raw value when none is found or the label is empty. */
  function Label(table: seq<Entry>, value: string): string {
    var e := Find(table, value);
    if e.Some? && e.value.caption != "" then e.value.caption else value
  }

  function TypeLabel(kind: string): string {
    Label(MachineTypes, kind)
  }

  function MaintenanceTypeLabel(kind: string): string {
    Label(MaintenanceTypes, kind)
  }

  function OperationTypeLabel(kind: string): string {
    Label(OperationTypes, kind)
  }

  /** No value occurs twice and no caption is empty. */
  predicate WellFormed(table: seq<Entry>) {
    && (forall i, j :: 0 <= i < j < |table| ==> table[i].value != table[j].value)
    && (forall i :: 0 <= i < |table| ==> table[i].caption != "")
  }

  // ---------------------------------------------------------------------------
  // Handlers

  /** The machine dialog's form: every field is the text of an input. */
  datatype MachineForm = MachineForm(
    farmId: string,
    name: string,
    kind: string,
    brand: string,
    model: string,
    year: string,
    engineHours: string,
    serviceIntervalHours: string)

  datatype MachinePayload = MachinePayload(
    farmId: int,
    name: string,
    kind: string,
    brand: Option<string>,
    model: Option<string>,
    year: Option<int>,
    engineHours: real,
    serviceIntervalHours: Option<real>)

  /** What a handler does: refuse (the `alert` and `return`) or send one request. */
  datatype SaveRequest = Refused | Create(payload: MachinePayload) | Update(id: int, payload: MachinePayload)

  /** `s || null` on a form string. */
  function NonEmpty(s: string): Option<string> {
    if s != "" then Some(s) else None
  }

  /** `handleSave`: the guard, then the payload, sent as an update when editing and a create otherwise. */
  function HandleSave(form: MachineForm, editing: Option<Machine>,
                      parseInt: string -> int, parseFloat: string -> real): SaveRequest
  {
    if form.name == "" || form.kind == "" then Refused
    else
      var data := MachinePayload(
        parseInt(form.farmId),
        form.name,
        form.kind,
        NonEmpty(form.brand),
        NonEmpty(form.model),
        if form.year != "" then Some(parseInt(form.year)) else None,
        if form.engineHours != "" then parseFloat(form.engineHours) else 0.0,
        if form.serviceIntervalHours != "" then Some(parseFloat(form.serviceIntervalHours)) else None);
      if editing.Some? then Update(editing.value.id, data) else Create(data)
  }

  datatype MaintenanceForm = MaintenanceForm(date: string, kind: string, cost: string,
    engineHoursAtService: string, description: string)

  datatype MaintenancePayload = MaintenancePayload(date: string, kind: string, cost: Option<real>,
    engineHoursAtService: Option<real>, description: Option<string>)

  datatype WorkLogForm = WorkLogForm(farmId: string, fieldId: string, date: string, operation: string,
    hours: string, areaHa: string, fuelLiters: string)

  datatype WorkLogPayload = WorkLogPayload(farmId: int, fieldId: Option<int>, date: string, operation: string,
    hours: Option<real>, areaHa: Option<real>, fuelLiters: Option<real>)

  /** A request for the selected machine, or a refusal. */
  datatype AddRequest<P> = Rejected | Add(machineId: int, payload: P)

  /** `x ? parseFloat(x) : null` */
  function ParsedOrNull(s: string, parseFloat: string -> real): Option<real> {
    if s != "" then Some(parseFloat(s)) else None
  }

  /** `handleAddMaintenance`: needs a selected machine, a date and a type. */
  function HandleAddMaintenance(selected: Option<Machine>, form: MaintenanceForm,
                                parseFloat: string -> real): AddRequest<MaintenancePayload>
  {
    if selected.None? || form.date == "" || form.kind == "" then Rejected
    else Add(selected.value.id, MaintenancePayload(form.date, form.kind,
      ParsedOrNull(form.cost, parseFloat), ParsedOrNull(form.engineHoursAtService, parseFloat),
      NonEmpty(form.description)))
  }

  /** `handleAddWorkLog`: needs a selected machine, a date and an operation. */
  function HandleAddWorkLog(selected: Option<Machine>, form: WorkLogForm,
                            parseInt: string -> int, parseFloat: string -> real): AddRequest<WorkLogPayload>
  {
    if selected.None? || form.date == "" || form.operation == "" then Rejected
    else Add(selected.value.id, WorkLogPayload(parseInt(form.farmId),
      if form.fieldId != "" then Some(parseInt(form.fieldId)) else None,
      form.date, form.operation,
      ParsedOrNull(form.hours, parseFloat), ParsedOrNull(form.areaHa, parseFloat),
      ParsedOrNull(form.fuelLiters, parseFloat)))
  }

  // ---------------------------------------------------------------------------
  // Properties

  /** The due list holds exactly the machines that need maintenance, in their list order. */
  lemma {:induction false} DueMachinesMembers(machines: seq<Machine>)
    ensures forall m :: m in DueMachines(machines) <==> m in machines && NeedsMaintenance(m)
    ensures MaintenanceDue(machines) <= |machines|
    decreases |machines|
  {
    if machines != [] {
      var init := machines[..|machines| - 1];
      DueMachinesMembers(init);
      assert machines == init + [machines[|machines| - 1]];
    }
  }

  /** A machine whose last service is at 0 hours or unknown, or whose interval is 0 or unknown, is never due. */
  lemma NoServiceDataNeverDue(m: Machine)
    requires !Truthy(m.lastServiceHours) || !Truthy(m.serviceIntervalHours)
    ensures !NeedsMaintenance(m)
    ensures forall ms :: m !in DueMachines(ms)
  {
    forall ms ensures m !in DueMachines(ms) {
      DueMachinesMembers(ms);
    }
  }

  /** The number of flagged rows equals `maintenanceDue`. */
  lemma {:induction false} FlagsMatchCount(machines: seq<Machine>)
    ensures CountSet(RowFlags(machines)) == MaintenanceDue(machines)
    decreases |machines|
  {
    if machines != [] {
      var init := machines[..|machines| - 1];
      FlagsMatchCount(init);
      assert RowFlags(machines)[..|machines| - 1] == RowFlags(init);
    }
  }

  /** A found value gives its label; an unknown value gives itself back. */
  lemma LabelLookup(table: seq<Entry>, value: string, i: int)
    requires WellFormed(table)
    requires 0 <= i < |table| && table[i].value == value
    ensures Label(table, value) == table[i].caption
  {
    FindFirst(table, value, i);
  }

  lemma UnknownLabel(table: seq<Entry>, value: string)
    requires forall i :: 0 <= i < |table| ==> table[i].value != value
    ensures Label(table, value) == value
  {
  }

  /** With distinct values, `find` returns the one entry holding the value. */
  lemma {:induction false} FindFirst(table: seq<Entry>, value: string, i: int)
    requires forall a, b :: 0 <= a < b < |table| ==> table[a].value != table[b].value
    requires 0 <= i < |table| && table[i].value == value
    ensures Find(table, value) == Some(table[i])
    decreases |table|
  {
    if i > 0 {
      assert table[0].value != value;
      FindFirst(table[1..], value, i - 1);
    }
  }

  /** The three page tables are well formed, so every label lookup is exact. */
  lemma MachineTypesWellFormed()
    ensures WellFormed(MachineTypes)
  {
  }

  lemma MaintenanceTypesWellFormed()
    ensures WellFormed(MaintenanceTypes)
  {
  }

  lemma OperationTypesWellFormed()
    ensures WellFormed(OperationTypes)
  {
  }

  /** A known machine type gets its label. */
  lemma CombineLabel()
    ensures TypeLabel("combine") == "Kombayn"
  {
    MachineTypesWellFormed();
    LabelLookup(MachineTypes, "combine", 1);
  }

  /** "other" is "Boshqa" in every table. */
  lemma OtherLabel()
    ensures TypeLabel("other") == "Boshqa" && MaintenanceTypeLabel("other") == "Boshqa"
    ensures OperationTypeLabel("other") == "Boshqa"
  {
    MachineTypesWellFormed();
    MaintenanceTypesWellFormed();
    OperationTypesWellFormed();
    LabelLookup(MachineTypes, "other", 3);
    LabelLookup(MaintenanceTypes, "other", 5);
    LabelLookup(OperationTypes, "other", 6);
  }

  /** An operation outside the table is shown as its raw value. */
  lemma UnknownOperationLabel()
    ensures OperationTypeLabel("mow") == "mow"
  {
    forall i | 0 <= i < |OperationTypes| ensures OperationTypes[i].value != "mow" {
      assert |OperationTypes[i].value| >= 5;
    }
    UnknownLabel(OperationTypes, "mow");
  }

  /**
   * `handleSave` refuses exactly an empty name or type. Otherwise it sends one
   * request whose payload copies the name and type, turns a blank brand,
   * model, year or interval into `null` and a blank engine-hours field into 0.
   */
  lemma SaveRules(form: MachineForm, editing: Option<Machine>,
                  parseInt: string -> int, parseFloat: string -> real)
    ensures var r := HandleSave(form, editing, parseInt, parseFloat);
      && (r.Refused? <==> form.name == "" || form.kind == "")
      && (!r.Refused? ==>
        && (r.Update? <==> editing.Some?)
        && (r.Update? ==> r.id == editing.value.id)
        && r.payload.name == form.name && r.payload.kind == form.kind
        && (r.payload.brand.None? <==> form.brand == "")
        && (r.payload.model.None? <==> form.model == "")
        && (r.payload.year.None? <==> form.year == "")
        && (form.engineHours == "" ==> r.payload.engineHours == 0.0)
        && (form.engineHours != "" ==> r.payload.engineHours == parseFloat(form.engineHours))
        && (r.payload.serviceIntervalHours.None? <==> form.serviceIntervalHours == ""))
  {
  }

  /** Both add handlers refuse without a selected machine, a date, or a type or operation; otherwise they target the selected machine. */
  lemma AddRules(selected: Option<Machine>, mform: MaintenanceForm, wform: WorkLogForm,
                 parseInt: string -> int, parseFloat: string -> real)
    ensures var r := HandleAddMaintenance(selected, mform, parseFloat);
      && (r.Rejected? <==> selected.None? || mform.date == "" || mform.kind == "")
      && (r.Add? ==>
            && r.machineId == selected.value.id && r.payload.date == mform.date && r.payload.kind == mform.kind
            && (r.payload.cost.None? <==> mform.cost == ""))
    ensures var w := HandleAddWorkLog(selected, wform, parseInt, parseFloat);
      && (w.Rejected? <==> selected.None? || wform.date == "" || wform.operation == "")
      && (w.Add? ==>
            && w.machineId == selected.value.id && w.payload.date == wform.date
            && w.payload.operation == wform.operation && (w.payload.fieldId.None? <==> wform.fieldId == ""))
  {
  }
}
