/**
 * The configuration console: staff accounts (create with a username check, edit, toggle,
 * delete), replacing the database from a backup inside one transaction, and the guarded
 * reset.
 */
module SettingsScreen {
  import opened Wrappers
  import opened Types
  import opened Seqs
  import opened LocalDb

  /** The fields of the staff form. */
  datatype StaffForm = StaffForm(name: string, username: string, accessCode: string, role: string)

  datatype StaffError = UsernameInUse

  /** `staff.some(s => s.username === username)`. */
  predicate UsernameTaken(staff: seq<StaffMember>, username: string)
  {
    exists i :: 0 <= i < |staff| && staff[i].username == username
  }

  /** The ratings and counters a new member starts with. */
  function DefaultPerformance(now: string): StaffPerformance
  {
    StaffPerformance(5, 5, 5, 5, now, 0)
  }

  /** `staffData`: an edit keeps the member's status, sales and ratings; a new member gets the defaults. */
  function StaffFromForm(editing: Option<StaffMember>, form: StaffForm, freshId: string, now: string): (r: StaffMember)
    ensures r.id == if editing.Some? && editing.value.id != "" then editing.value.id else freshId
    ensures r.name == form.name && r.username == form.username
    ensures r.accessCode == form.accessCode && r.role == form.role
    ensures editing.Some? ==>
              && r.isActive == editing.value.isActive
              && r.totalSalesGenerated == editing.value.totalSalesGenerated
              && r.performance == editing.value.performance
    ensures editing.None? ==>
              && r.isActive && r.totalSalesGenerated == 0
              && r.performance.attendance == 5 && r.performance.salesSkills == 5
              && r.performance.clientSatisfaction == 5 && r.performance.honesty == 5
              && r.performance.complaints == 0
  {
    match editing
    case Some(e) =>
      StaffMember(if e.id != "" then e.id else freshId, form.name, form.username, form.accessCode,
                  form.role, e.performance, e.totalSalesGenerated, e.isActive)
    case None =>
      StaffMember(freshId, form.name, form.username, form.accessCode, form.role,
                  DefaultPerformance(now), 0, true)
  }

  /**
   * `handleStaffSave`: creating is refused when the username is taken (exact match); an
   * edit replaces the member with the edited id and checks nothing.
   */
  function SaveStaff(staff: seq<StaffMember>, editing: Option<StaffMember>, form: StaffForm,
                     freshId: string, now: string): (r: Result<seq<StaffMember>, StaffError>)
    ensures r.Err? <==> editing.None? && exists i :: 0 <= i < |staff| && staff[i].username == form.username
    ensures r.Ok? && editing.None? ==> r.value == staff + [StaffFromForm(None, form, freshId, now)]
    ensures r.Ok? && editing.Some? ==>
              |r.value| == |staff| &&
              forall i :: 0 <= i < |staff| ==>
                r.value[i] == if staff[i].id == editing.value.id then StaffFromForm(editing, form, freshId, now)
                              else staff[i]
  {
    if editing.None? && UsernameTaken(staff, form.username) then Err(UsernameInUse)
    else
      var data := StaffFromForm(editing, form, freshId, now);
      if editing.Some? then Ok(ReplaceWhere(staff, (m: StaffMember) => m.id == editing.value.id, data)) else Ok(staff + [data])
  }

  /** `toggleStaffStatus`: flips `isActive` of the members with that id. */
  function ToggleStatus(staff: seq<StaffMember>, id: string): (r: seq<StaffMember>)
    ensures |r| == |staff|
    ensures forall i :: 0 <= i < |staff| ==> r[i].isActive == (if staff[i].id == id then !staff[i].isActive else staff[i].isActive)
    ensures forall i :: 0 <= i < |staff| ==> r[i] == staff[i].(isActive := r[i].isActive)
  {
    seq(|staff|, i requires 0 <= i < |staff| =>
      if staff[i].id == id then staff[i].(isActive := !staff[i].isActive) else staff[i])
  }

  /** Toggling twice restores the list. */
  lemma ToggleTwice(staff: seq<StaffMember>, id: string)
    ensures ToggleStatus(ToggleStatus(staff, id), id) == staff
  {
    var r := ToggleStatus(ToggleStatus(staff, id), id);
    assert forall i :: 0 <= i < |staff| ==> r[i] == staff[i];
  }

  /** The filter of `deleteStaff`. */
  function WithoutMember(staff: seq<StaffMember>, id: string): (r: seq<StaffMember>)
    ensures forall s :: s in r <==> s in staff && s.id != id
    ensures forall i :: 0 <= i < |r| ==> r[i].id != id
    ensures IsSubsequence(r, staff)
  {
    Filter(staff, (s: StaffMember) => s.id != id)
  }

  /** A parsed backup file; a `None` array is a field missing from the file. */
  datatype Backup = Backup(
    products: Option<seq<Product>>,
    sales: Option<seq<Sale>>,
    staff: Option<seq<StaffMember>>,
    pendingOrders: Option<seq<PendingOrder>>,
    metadata: Option<seq<MetaEntry>>)

  /** `data.x || []`. */
  function OrEmpty<T>(xs: Option<seq<T>>): seq<T>
  {
    if xs.Some? then xs.value else []
  }

  /** Every array of the backup goes into an emptied table without a key conflict. */
  predicate BackupFits(b: Backup)
  {
    && Fits(map[], OrEmpty(b.products), ProductKey)
    && Fits(map[], OrEmpty(b.sales), SaleKey)
    && Fits(map[], OrEmpty(b.staff), StaffKey)
    && Fits(map[], OrEmpty(b.pendingOrders), PendingKey)
    && Fits(map[], OrEmpty(b.metadata), MetaKey)
  }

  /** One step of the import: `clear()` then `bulkAdd(xs)`. */
  method ReplaceRows<T>(t: Table<T>, xs: seq<T>) returns (ok: bool)
    modifies t
    ensures t.rows == TableOf(xs, t.key)
    ensures ok == Fits(map[], xs, t.key)
  {
    t.Clear();
    ok := t.BulkAdd(xs);
  }

  /** The clear-and-fill steps of the import transaction, stopping at the first refused table. */
  method ReplaceAll(db: Db, b: Backup) returns (ok: bool)
    requires db.Valid()
    modifies db.products, db.sales, db.staff, db.pendingOrders, db.metadata
    ensures ok == BackupFits(b)
    ensures ok ==>
              && db.products.rows == TableOf(OrEmpty(b.products), ProductKey)
              && db.sales.rows == TableOf(OrEmpty(b.sales), SaleKey)
              && db.staff.rows == TableOf(OrEmpty(b.staff), StaffKey)
              && db.pendingOrders.rows == TableOf(OrEmpty(b.pendingOrders), PendingKey)
              && db.metadata.rows == TableOf(OrEmpty(b.metadata), MetaKey)
  {
    ok := ReplaceRows(db.products, OrEmpty(b.products));
    if !ok {
      return;
    }
    ok := ReplaceRows(db.sales, OrEmpty(b.sales));
    if !ok {
      return;
    }
    ok := ReplaceRows(db.staff, OrEmpty(b.staff));
    if !ok {
      return;
    }
    ok := ReplaceRows(db.pendingOrders, OrEmpty(b.pendingOrders));
    if !ok {
      return;
    }
    ok := ReplaceRows(db.metadata, OrEmpty(b.metadata));
  }

  /**
   * `handleImportData` once the file is read: `parsed` is None when it is not valid JSON.
   * Inside one transaction each table is cleared and bulk-filled in turn; a refused record
   * aborts the transaction and every table keeps its previous rows.
   */
  method ImportData(db: Db, parsed: Option<Backup>, confirmed: bool) returns (imported: bool)
    requires db.Valid()
    modifies db.products, db.sales, db.staff, db.pendingOrders, db.metadata
    ensures imported <==> parsed.Some? && confirmed && BackupFits(parsed.value)
    ensures imported ==>
              && db.products.rows == TableOf(OrEmpty(parsed.value.products), ProductKey)
              && db.sales.rows == TableOf(OrEmpty(parsed.value.sales), SaleKey)
              && db.staff.rows == TableOf(OrEmpty(parsed.value.staff), StaffKey)
              && db.pendingOrders.rows == TableOf(OrEmpty(parsed.value.pendingOrders), PendingKey)
              && db.metadata.rows == TableOf(OrEmpty(parsed.value.metadata), MetaKey)
    ensures !imported ==>
              && db.products.rows == old(db.products.rows) && db.sales.rows == old(db.sales.rows)
              && db.staff.rows == old(db.staff.rows) && db.pendingOrders.rows == old(db.pendingOrders.rows)
              && db.metadata.rows == old(db.metadata.rows)
  {
    if parsed.None? || !confirmed {
      return false;
    }
    var products0, sales0, staff0 := db.products.rows, db.sales.rows, db.staff.rows;
    var pending0, metadata0 := db.pendingOrders.rows, db.metadata.rows;
    imported := ReplaceAll(db, parsed.value);
    if !imported {
      // the transaction aborts
      db.products.rows, db.sales.rows, db.staff.rows := products0, sales0, staff0;
      db.pendingOrders.rows, db.metadata.rows := pending0, metadata0;
    }
  }

  /** `handleResetApp`: only the exact text `EFFACER` deletes the database. */
  method ResetApp(db: Db, typed: Option<string>) returns (reset: bool)
    requires db.Valid()
    modifies db.products, db.sales, db.staff, db.pendingOrders, db.metadata
    ensures reset <==> typed == Some("EFFACER")
    ensures reset ==>
              && db.products.rows == map[] && db.sales.rows == map[] && db.staff.rows == map[]
              && db.pendingOrders.rows == map[] && db.metadata.rows == map[]
    ensures !reset ==>
              && db.products.rows == old(db.products.rows) && db.sales.rows == old(db.sales.rows)
              && db.staff.rows == old(db.staff.rows) && db.pendingOrders.rows == old(db.pendingOrders.rows)
              && db.metadata.rows == old(db.metadata.rows)
  {
    reset := typed == Some("EFFACER");
    if reset {
      db.products.Clear();
      db.sales.Clear();
      db.staff.Clear();
      db.pendingOrders.Clear();
      db.metadata.Clear();
    }
  }
}
