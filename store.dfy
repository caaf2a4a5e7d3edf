/**
 * The client-side data layer of lib/store.tsx: the row mappers run by the
 * fetchers, the pure queries over the cached collections (getShift,
 * getTasksForDate, currentProfile), the field-presence-aware patch that
 * updateTask sends, and the provider object that holds the session and the
 * three cached collections and coordinates every write (remote call first;
 * only on success, refetch of the written collection).
 */
module Store {
  import opened Wrappers
  import opened Types
  import opened Seqs
  import opened Remote

  /** The authenticated identity; only its id is read. */
  datatype User = User(id: string)

  // ─── Row mappers (fetchProfiles, fetchShifts, fetchTasks) ───

  function ProfileFromRow(row: ProfileRow): Profile {
    Profile(row.id, row.user_id, row.name, row.role)
  }

  function ShiftFromRow(row: ShiftRow): Shift {
    Shift(row.id, row.user_id, row.date, row.shift_type)
  }

  /** A NULL optional column becomes an absent field. */
  function TaskFromRow(row: TaskRow): Task {
    Task(row.id, row.assignee_id, row.title, row.category, row.duration_minutes,
         row.date, row.is_completed, row.frequency)
  }

  function FetchProfiles(rows: seq<ProfileRow>): (r: seq<Profile>)
    ensures |r| == |rows| && forall i :: 0 <= i < |rows| ==> r[i] == ProfileFromRow(rows[i])
  {
    seq(|rows|, i requires 0 <= i < |rows| => ProfileFromRow(rows[i]))
  }

  function FetchShifts(rows: seq<ShiftRow>): (r: seq<Shift>)
    ensures |r| == |rows| && forall i :: 0 <= i < |rows| ==> r[i] == ShiftFromRow(rows[i])
  {
    seq(|rows|, i requires 0 <= i < |rows| => ShiftFromRow(rows[i]))
  }

  function FetchTasks(rows: seq<TaskRow>): (r: seq<Task>)
    ensures |r| == |rows| && forall i :: 0 <= i < |rows| ==> r[i] == TaskFromRow(rows[i])
  {
    seq(|rows|, i requires 0 <= i < |rows| => TaskFromRow(rows[i]))
  }

  /** The row addTask inserts (`x ?? null` for each optional field), once the remote store gives it `id`. */
  function NewTaskRow(id: string, draft: TaskDraft): TaskRow {
    TaskRow(id, draft.assigneeId, draft.title, draft.category, draft.durationMinutes,
            draft.date, draft.isCompleted, draft.frequency)
  }

  /** Reading back an inserted row gives the draft with its id; omitted optional fields stay absent. */
  lemma NewTaskRowRoundTrip(id: string, draft: TaskDraft)
    ensures TaskFromRow(NewTaskRow(id, draft)) == WithId(draft, id)
    ensures draft.category.None? ==> TaskFromRow(NewTaskRow(id, draft)).category.None?
    ensures draft.durationMinutes.None? ==> TaskFromRow(NewTaskRow(id, draft)).durationMinutes.None?
    ensures draft.frequency.None? ==> TaskFromRow(NewTaskRow(id, draft)).frequency.None?
  {
  }

  lemma {:induction false} FetchTasksAppend(rows: seq<TaskRow>, row: TaskRow)
    ensures FetchTasks(rows + [row]) == FetchTasks(rows) + [TaskFromRow(row)]
  {
  }

  // ─── Queries ───

  function ShiftKeyIs(userId: string, date: string): Shift -> bool {
    (s: Shift) => s.userId == userId && s.date == date
  }

  /** `shifts.find(s => s.userId === userId && s.date === date)`. */
  function GetShift(shifts: seq<Shift>, userId: string, date: string): (r: Option<Shift>)
    ensures r.Some? ==> r.value.userId == userId && r.value.date == date
    ensures r.None? <==> forall i :: 0 <= i < |shifts| ==> !(shifts[i].userId == userId && shifts[i].date == date)
    ensures r.Some? ==> exists i :: (0 <= i < |shifts| && shifts[i] == r.value
      && forall j :: 0 <= j < i ==> !(shifts[j].userId == userId && shifts[j].date == date))
  {
    Find(shifts, ShiftKeyIs(userId, date))
  }

  function DateIs(date: string): Task -> bool {
    (t: Task) => t.date == date
  }

  /** `tasks.filter(t => t.date === date)`: exactly the tasks of that date, in cache order. */
  function GetTasksForDate(tasks: seq<Task>, date: string): (r: seq<Task>)
    ensures forall t :: t in r <==> t in tasks && t.date == date
    ensures forall t :: multiset(r)[t] == if t.date == date then multiset(tasks)[t] else 0
    ensures IsSubseq(r, tasks)
  {
    Filter(tasks, DateIs(date))
  }

  /** `profiles.find(p => p.userId === user?.id) ?? null`. */
  function CurrentProfile(profiles: seq<Profile>, user: Option<User>): (r: Option<Profile>)
    ensures user.None? ==> r.None?
    ensures user.Some? ==> (r.None? <==> forall i :: 0 <= i < |profiles| ==> profiles[i].userId != user.value.id)
    ensures r.Some? ==> user.Some? && r.value.userId == user.value.id
    ensures r.Some? ==> exists i :: (0 <= i < |profiles| && profiles[i] == r.value
      && forall j :: 0 <= j < i ==> profiles[j].userId != user.value.id)
  {
    match user
    case None => None
    case Some(u) => Find(profiles, (p: Profile) => p.userId == u.id)
  }

  /**
   * After an upsert and the refetch, the pair `(userId, date)` resolves to a
   * shift of the kind written, and every other pair resolves as before.
   */
  lemma UpsertThenGetShift(rows: seq<ShiftRow>, newId: string, userId: string, date: string, kind: ShiftType)
    requires UniqueShiftKeys(rows)
    ensures var after := FetchShifts(UpsertShiftRows(rows, newId, userId, date, kind));
      && GetShift(after, userId, date).Some?
      && GetShift(after, userId, date).value.shiftType == kind
      && forall u, d :: !(u == userId && d == date) ==> GetShift(after, u, d) == GetShift(FetchShifts(rows), u, d)
  {
    var r := UpsertShiftRows(rows, newId, userId, date, kind);
    var after := FetchShifts(r);
    UpsertWritesKey(rows, newId, userId, date, kind);
    UpsertKeepsOtherRows(rows, newId, userId, date, kind);
    var i :| 0 <= i < |r| && r[i].user_id == userId && r[i].date == date && r[i].shift_type == kind;
    FindSole(after, ShiftKeyIs(userId, date), i);
    forall u, d | !(u == userId && d == date)
      ensures GetShift(after, u, d) == GetShift(FetchShifts(rows), u, d)
    {
      UpsertKeepsOtherShift(rows, newId, userId, date, kind, u, d);
    }
  }

  /** The upsert of one (user, date) pair leaves the shift of every other pair as it was. */
  lemma UpsertKeepsOtherShift(rows: seq<ShiftRow>, newId: string, userId: string, date: string, kind: ShiftType, u: string, d: string)
    requires !(u == userId && d == date)
    ensures GetShift(FetchShifts(UpsertShiftRows(rows, newId, userId, date, kind)), u, d) == GetShift(FetchShifts(rows), u, d)
  {
    UpsertKeepsOtherRows(rows, newId, userId, date, kind);
    FindAgrees(FetchShifts(rows), FetchShifts(UpsertShiftRows(rows, newId, userId, date, kind)), ShiftKeyIs(u, d));
  }

  /** Two upserts of the same pair: the second kind wins and the pair still has one row. */
  lemma SecondUpsertWins(rows: seq<ShiftRow>, id1: string, id2: string, userId: string, date: string, k1: ShiftType, k2: ShiftType)
    requires UniqueShiftKeys(rows)
    ensures var r := UpsertShiftRows(UpsertShiftRows(rows, id1, userId, date, k1), id2, userId, date, k2);
      UniqueShiftKeys(r)
      && GetShift(FetchShifts(r), userId, date).Some? && GetShift(FetchShifts(r), userId, date).value.shiftType == k2
  {
    UpsertTwice(rows, id1, id2, userId, date, k1, k2);
    UpsertThenGetShift(rows, id1, userId, date, k2);
    UpsertWritesKey(rows, id1, userId, date, k2);
  }

  /** After addTask and the refetch, the new task is the last of its date, unchanged, with isCompleted as drafted. */
  lemma AddThenTasksForDate(rows: seq<TaskRow>, id: string, draft: TaskDraft)
    ensures GetTasksForDate(FetchTasks(rows + [NewTaskRow(id, draft)]), draft.date)
         == GetTasksForDate(FetchTasks(rows), draft.date) + [WithId(draft, id)]
  {
    FetchTasksAppend(rows, NewTaskRow(id, draft));
    FilterAppend(FetchTasks(rows), TaskFromRow(NewTaskRow(id, draft)), DateIs(draft.date));
  }

  /** After deleteTask(id) and the refetch, no task has that id, so no date's task list holds one. */
  lemma DeleteThenTasksForDate(rows: seq<TaskRow>, id: string)
    ensures forall t :: t in FetchTasks(DeleteTaskRows(rows, id)) ==> t.id != id
    ensures forall d, t :: t in GetTasksForDate(FetchTasks(DeleteTaskRows(rows, id)), d) ==> t.id != id
  {
    var r := DeleteTaskRows(rows, id);
    forall t | t in FetchTasks(r) ensures t.id != id {
      var i :| 0 <= i < |r| && FetchTasks(r)[i] == t;
      assert r[i] in r;
    }
  }

  // ─── updateTask's patch ───

  /** Every column of the tasks table; the patch updateTask builds is drawn from these, never with `id`. */
  const TaskColumns: set<TaskColumn> := {
    IdColumn, AssigneeIdColumn, TitleColumn, CategoryColumn,
    DurationMinutesColumn, DateColumn, IsCompletedColumn, FrequencyColumn
  }

  lemma TaskColumnsComplete(c: TaskColumn)
    ensures c in TaskColumns
  {
    match c
    case IdColumn =>
    case AssigneeIdColumn =>
    case TitleColumn =>
    case CategoryColumn =>
    case DurationMinutesColumn =>
    case DateColumn =>
    case IsCompletedColumn =>
    case FrequencyColumn =>
  }

  /** What `updates` asks column `c` to become, when that field is defined; `id` is never sent. */
  function UpdateOf(u: TaskUpdates, c: TaskColumn): Option<ColumnValue> {
    match c
    case IdColumn => None
    case AssigneeIdColumn => if u.assigneeId.Some? then Some(TextValue(u.assigneeId.value)) else None
    case TitleColumn => if u.title.Some? then Some(TextValue(u.title.value)) else None
    case CategoryColumn => if u.category.Some? then Some(CategoryValue(u.category.value)) else None
    case DurationMinutesColumn => if u.durationMinutes.Some? then Some(IntValue(u.durationMinutes.value)) else None
    case DateColumn => if u.date.Some? then Some(TextValue(u.date.value)) else None
    case IsCompletedColumn => if u.isCompleted.Some? then Some(BoolValue(u.isCompleted.value)) else None
    case FrequencyColumn => if u.frequency.Some? then Some(FrequencyValue(u.frequency.value)) else None
  }

  /** The entries of the patch for `updates` among the columns `cols`. */
  function PatchOn(u: TaskUpdates, cols: set<TaskColumn>): Patch {
    map c | c in cols && UpdateOf(u, c).Some? :: UpdateOf(u, c).value
  }

  /** The patch for `updates`: one entry per defined field other than `id`, and nothing else. */
  function PatchOf(u: TaskUpdates): (patch: Patch)
    ensures IdColumn !in patch
    ensures AssigneeIdColumn in patch <==> u.assigneeId.Some?
    ensures TitleColumn in patch <==> u.title.Some?
    ensures CategoryColumn in patch <==> u.category.Some?
    ensures DurationMinutesColumn in patch <==> u.durationMinutes.Some?
    ensures DateColumn in patch <==> u.date.Some?
    ensures IsCompletedColumn in patch <==> u.isCompleted.Some?
    ensures FrequencyColumn in patch <==> u.frequency.Some?
  {
    PatchOn(u, TaskColumns)
  }

  /** One `if (updates.f !== undefined) dbUpdates.column = updates.f` step. */
  function Put(m: Patch, u: TaskUpdates, c: TaskColumn): Patch {
    if UpdateOf(u, c).Some? then m[c := UpdateOf(u, c).value] else m
  }

  /** The seven steps of updateTask, in the order the source makes them. */
  function FillInSourceOrder(u: TaskUpdates): Patch {
    var m1 := Put(map[], u, TitleColumn);
    var m2 := Put(m1, u, CategoryColumn);
    var m3 := Put(m2, u, DurationMinutesColumn);
    var m4 := Put(m3, u, AssigneeIdColumn);
    var m5 := Put(m4, u, IsCompletedColumn);
    var m6 := Put(m5, u, FrequencyColumn);
    Put(m6, u, DateColumn)
  }

  /** The order of the steps does not matter: they fill in exactly the patch of `updates`. */
  lemma FillInSourceOrderIsPatch(u: TaskUpdates)
    ensures FillInSourceOrder(u) == PatchOf(u)
  {
    var m, p := FillInSourceOrder(u), PatchOf(u);
    forall c ensures (c in m <==> c in p) && (c in m ==> m[c] == p[c]) {
      TaskColumnsComplete(c);
    }
  }

  /** The dictionary `dbUpdates`, filled one defined field at a time. */
  method BuildPatch(updates: TaskUpdates) returns (dbUpdates: Patch)
    ensures dbUpdates == PatchOf(updates)
  {
    dbUpdates := map[];
    if updates.title.Some? { dbUpdates := dbUpdates[TitleColumn := TextValue(updates.title.value)]; }
    ghost var m1 := dbUpdates;
    assert m1 == Put(map[], updates, TitleColumn);
    if updates.category.Some? { dbUpdates := dbUpdates[CategoryColumn := CategoryValue(updates.category.value)]; }
    ghost var m2 := dbUpdates;
    assert m2 == Put(m1, updates, CategoryColumn);
    if updates.durationMinutes.Some? { dbUpdates := dbUpdates[DurationMinutesColumn := IntValue(updates.durationMinutes.value)]; }
    ghost var m3 := dbUpdates;
    assert m3 == Put(m2, updates, DurationMinutesColumn);
    if updates.assigneeId.Some? { dbUpdates := dbUpdates[AssigneeIdColumn := TextValue(updates.assigneeId.value)]; }
    ghost var m4 := dbUpdates;
    assert m4 == Put(m3, updates, AssigneeIdColumn);
    if updates.isCompleted.Some? { dbUpdates := dbUpdates[IsCompletedColumn := BoolValue(updates.isCompleted.value)]; }
    ghost var m5 := dbUpdates;
    assert m5 == Put(m4, updates, IsCompletedColumn);
    if updates.frequency.Some? { dbUpdates := dbUpdates[FrequencyColumn := FrequencyValue(updates.frequency.value)]; }
    ghost var m6 := dbUpdates;
    assert m6 == Put(m5, updates, FrequencyColumn);
    if updates.date.Some? { dbUpdates := dbUpdates[DateColumn := TextValue(updates.date.value)]; }
    assert dbUpdates == Put(m6, updates, DateColumn);
    FillInSourceOrderIsPatch(updates);
  }

  /**
   * What a caller of `updateTask(id, updates)` means: the task with each defined
   * field of `updates` other than `id` taken over, every other field kept.
   */
  function Merge(t: Task, u: TaskUpdates): (r: Task)
    ensures r.id == t.id
    ensures u == NoUpdates ==> r == t
  {
    Task(t.id,
         u.assigneeId.GetOr(t.assigneeId),
         u.title.GetOr(t.title),
         if u.category.Some? then u.category else t.category,
         if u.durationMinutes.Some? then u.durationMinutes else t.durationMinutes,
         u.date.GetOr(t.date),
         u.isCompleted.GetOr(t.isCompleted),
         if u.frequency.Some? then u.frequency else t.frequency)
  }

  /** Each entry of the patch carries the field's value. */
  lemma PatchOfValues(u: TaskUpdates)
    ensures var patch := PatchOf(u);
      && (AssigneeIdColumn in patch ==> patch[AssigneeIdColumn] == TextValue(u.assigneeId.value))
      && (TitleColumn in patch ==> patch[TitleColumn] == TextValue(u.title.value))
      && (CategoryColumn in patch ==> patch[CategoryColumn] == CategoryValue(u.category.value))
      && (DurationMinutesColumn in patch ==> patch[DurationMinutesColumn] == IntValue(u.durationMinutes.value))
      && (DateColumn in patch ==> patch[DateColumn] == TextValue(u.date.value))
      && (IsCompletedColumn in patch ==> patch[IsCompletedColumn] == BoolValue(u.isCompleted.value))
      && (FrequencyColumn in patch ==> patch[FrequencyColumn] == FrequencyValue(u.frequency.value))
  {
  }

  /** Applying the patch of `updates` to a row is merging `updates` into its task. */
  lemma PatchMeansMerge(row: TaskRow, u: TaskUpdates)
    ensures TaskFromRow(ApplyPatch(row, PatchOf(u))) == Merge(TaskFromRow(row), u)
  {
    PatchOfValues(u);
  }

  /**
   * Sending `PatchOf(updates)` for `id` and refetching gives, for the task with
   * that id, exactly `Merge(task, updates)`, and every other task unchanged:
   * an undefined field is never written, so nothing is erased.
   */
  lemma UpdateMeansMerge(rows: seq<TaskRow>, id: string, u: TaskUpdates)
    ensures var after := FetchTasks(UpdateTaskRows(rows, id, PatchOf(u)));
      forall i :: 0 <= i < |rows| ==>
        after[i] == if rows[i].id == id then Merge(TaskFromRow(rows[i]), u) else TaskFromRow(rows[i])
  {
    forall i | 0 <= i < |rows| && rows[i].id == id
      ensures TaskFromRow(ApplyPatch(rows[i], PatchOf(u))) == Merge(TaskFromRow(rows[i]), u)
    {
      PatchMeansMerge(rows[i], u);
    }
  }

  // ─── toggleTask ───

  function IdIs(id: string): Task -> bool {
    (t: Task) => t.id == id
  }

  /** The only update toggleTask sends: `{ isCompleted: !task.isCompleted }`. */
  function ToggleUpdates(isCompleted: bool): (u: TaskUpdates)
    ensures u.isCompleted == Some(!isCompleted)
    ensures u.(isCompleted := None) == NoUpdates
  {
    NoUpdates.(isCompleted := Some(!isCompleted))
  }

  /** The patch toggleTask sends names one column, `is_completed`. */
  lemma TogglePatch(isCompleted: bool)
    ensures PatchOf(ToggleUpdates(isCompleted)) == map[IsCompletedColumn := BoolValue(!isCompleted)]
  {
    var patch := PatchOf(ToggleUpdates(isCompleted));
    forall c ensures (c in patch) == (c == IsCompletedColumn) {
      TaskColumnsComplete(c);
    }
  }

  /** The tasks table after toggleTask(id), when the cache mirrors the table. */
  function ToggleRows(rows: seq<TaskRow>, id: string): (r: seq<TaskRow>)
    ensures |r| == |rows|
    ensures forall i :: 0 <= i < |rows| ==> r[i].id == rows[i].id
    ensures Find(FetchTasks(rows), IdIs(id)).None? ==> r == rows
  {
    match Find(FetchTasks(rows), IdIs(id))
    case None => rows
    case Some(t) =>
      UpdateKeepsIds(rows, id, PatchOf(ToggleUpdates(t.isCompleted)));
      UpdateTaskRows(rows, id, PatchOf(ToggleUpdates(t.isCompleted)))
  }

  /** toggleTask flips `is_completed` of the row with the id, and changes nothing else; an unknown id changes nothing. */
  lemma ToggleFlipsOnlyFlag(rows: seq<TaskRow>, id: string)
    requires UniqueTaskIds(rows)
    ensures var r := ToggleRows(rows, id);
      && UniqueTaskIds(r)
      && |r| == |rows|
      && forall i :: 0 <= i < |rows| ==>
           r[i] == if rows[i].id == id then rows[i].(is_completed := !rows[i].is_completed) else rows[i]
  {
    var tasks := FetchTasks(rows);
    match Find(tasks, IdIs(id))
    case None =>
      forall i | 0 <= i < |rows| ensures rows[i].id != id {
        assert !IdIs(id)(tasks[i]);
      }
    case Some(t) =>
      var k :| 0 <= k < |tasks| && tasks[k] == t;
      assert rows[k].id == id;
      var patch := PatchOf(ToggleUpdates(t.isCompleted));
      TogglePatch(t.isCompleted);
      forall i | 0 <= i < |rows| && rows[i].id == id
        ensures ApplyPatch(rows[i], patch) == rows[i].(is_completed := !rows[i].is_completed)
      {
        assert i == k;
      }
  }

  /** toggleTask is an involution: toggling twice restores the table, hence the original flag. */
  lemma ToggleTwice(rows: seq<TaskRow>, id: string)
    requires UniqueTaskIds(rows)
    ensures ToggleRows(ToggleRows(rows, id), id) == rows
  {
    ToggleFlipsOnlyFlag(rows, id);
    ToggleFlipsOnlyFlag(ToggleRows(rows, id), id);
  }

  // ─── The provider ───

  /**
   * AppProvider's state: the session (`user`, `authReady`), the remote store
   * and the SWR cache entry of each collection (`None` until first fetched).
   * Readers see a collection only while its SWR key is non-null.
   */
  class AppProvider {
    const db: Database
    var user: Option<User>
    var authReady: bool
    var profileData: Option<seq<Profile>>
    var shiftData: Option<seq<Shift>>
    var taskData: Option<seq<Task>>

    /** `authReady && user`: the SWR keys are non-null and the collections are fetched. */
    predicate KeysActive()
      reads this
    {
      authReady && user.Some?
    }

    /** `profiles` as readers see it: `[]` until fetched and while no key is active. */
    function Profiles(): (r: seq<Profile>)
      reads this
      ensures !KeysActive() ==> r == []
      ensures KeysActive() && profileData.Some? ==> r == profileData.value
      ensures KeysActive() && profileData.None? ==> r == []
    {
      if KeysActive() && profileData.Some? then profileData.value else []
    }

    function Shifts(): (r: seq<Shift>)
      reads this
      ensures !KeysActive() ==> r == []
      ensures KeysActive() && shiftData.Some? ==> r == shiftData.value
      ensures KeysActive() && shiftData.None? ==> r == []
    {
      if KeysActive() && shiftData.Some? then shiftData.value else []
    }

    function Tasks(): (r: seq<Task>)
      reads this
      ensures !KeysActive() ==> r == []
      ensures KeysActive() && taskData.Some? ==> r == taskData.value
      ensures KeysActive() && taskData.None? ==> r == []
    {
      if KeysActive() && taskData.Some? then taskData.value else []
    }

    /** `!authReady || profilesLoading || shiftsLoading || tasksLoading`; a null key is never loading. */
    function IsLoading(): (r: bool)
      reads this
      ensures !authReady ==> r
      ensures authReady && user.None? ==> !r
      ensures KeysActive() ==> (r <==> profileData.None? || shiftData.None? || taskData.None?)
    {
      !authReady || (KeysActive() && (profileData.None? || shiftData.None? || taskData.None?))
    }

    /** The cached tasks are what the tasks table holds. */
    predicate TasksMirrorTable()
      reads this, db
    {
      KeysActive() && taskData == Some(FetchTasks(db.tasks))
    }

    constructor (db: Database)
      ensures this.db == db
      ensures user.None? && !authReady
      ensures profileData.None? && shiftData.None? && taskData.None?
    {
      this.db := db;
      user, authReady := None, false;
      profileData, shiftData, taskData := None, None, None;
    }

    /** The initial `getUser()` resolves: the identity is recorded and readiness becomes true. */
    method ResolveSession(u: Option<User>)
      modifies this
      ensures user == u && authReady
      ensures profileData == old(profileData) && shiftData == old(shiftData) && taskData == old(taskData)
    {
      user := u;
      authReady := true;
    }

    /** SWR runs the fetcher of every non-null key; with no key active nothing is fetched. */
    method Revalidate()
      modifies this
      ensures user == old(user) && authReady == old(authReady)
      ensures KeysActive() ==>
        (profileData == Some(FetchProfiles(db.profiles))
         && shiftData == Some(FetchShifts(db.shifts)) && taskData == Some(FetchTasks(db.tasks)))
      ensures !KeysActive() ==> profileData == old(profileData) && shiftData == old(shiftData) && taskData == old(taskData)
    {
      if KeysActive() {
        profileData := Some(FetchProfiles(db.profiles));
        shiftData := Some(FetchShifts(db.shifts));
        taskData := Some(FetchTasks(db.tasks));
      }
    }

    /** `logout`: the session is cleared (the redirect is not modelled). */
    method Logout()
      modifies this
      ensures user.None? && authReady == old(authReady)
      ensures profileData == old(profileData) && shiftData == old(shiftData) && taskData == old(taskData)
    {
      user := None;
    }

    /** `globalMutate("shifts")`: refetch, if the key is active. */
    method RefreshShifts()
      modifies this
      ensures user == old(user) && authReady == old(authReady)
      ensures profileData == old(profileData) && taskData == old(taskData)
      ensures shiftData == if KeysActive() then Some(FetchShifts(db.shifts)) else old(shiftData)
    {
      if KeysActive() {
        shiftData := Some(FetchShifts(db.shifts));
      }
    }

    /** `globalMutate("tasks")`: refetch, if the key is active. */
    method RefreshTasks()
      modifies this
      ensures user == old(user) && authReady == old(authReady)
      ensures profileData == old(profileData) && shiftData == old(shiftData)
      ensures taskData == if KeysActive() then Some(FetchTasks(db.tasks)) else old(taskData)
    {
      if KeysActive() {
        taskData := Some(FetchTasks(db.tasks));
      }
    }

    /**
     * `upsertShift`: on success the cached shifts are refetched and the pair
     * resolves to the kind written; on failure nothing changes.
     */
    method UpsertShift(userId: string, date: string, kind: ShiftType, newId: string, rejected: bool) returns (ok: bool)
      requires db.Valid()
      modifies this, db
      ensures db.Valid() && ok == !rejected
      ensures db.shifts == if ok then UpsertShiftRows(old(db.shifts), newId, userId, date, kind) else old(db.shifts)
      ensures db.profiles == old(db.profiles) && db.tasks == old(db.tasks)
      ensures user == old(user) && authReady == old(authReady)
      ensures profileData == old(profileData) && taskData == old(taskData)
      ensures shiftData == if ok && KeysActive() then Some(FetchShifts(db.shifts)) else old(shiftData)
      ensures ok && KeysActive() ==>
        GetShift(Shifts(), userId, date).Some? && GetShift(Shifts(), userId, date).value.shiftType == kind
    {
      ghost var before := db.shifts;
      ok := db.UpsertShift(userId, date, kind, newId, rejected);
      if !ok {
        return;
      }
      RefreshShifts();
      UpsertThenGetShift(before, newId, userId, date, kind);
    }

    /** `addTask`: the remote store assigns `newId`; on success the cached tasks are refetched. */
    method AddTask(draft: TaskDraft, newId: string, rejected: bool) returns (ok: bool)
      requires db.Valid() && FreshTaskId(db.tasks, newId)
      modifies this, db
      ensures db.Valid() && ok == !rejected
      ensures db.tasks == if ok then old(db.tasks) + [NewTaskRow(newId, draft)] else old(db.tasks)
      ensures db.profiles == old(db.profiles) && db.shifts == old(db.shifts)
      ensures user == old(user) && authReady == old(authReady)
      ensures profileData == old(profileData) && shiftData == old(shiftData)
      ensures taskData == if ok && KeysActive() then Some(FetchTasks(db.tasks)) else old(taskData)
      ensures ok && KeysActive() ==>
        GetTasksForDate(Tasks(), draft.date) == GetTasksForDate(FetchTasks(old(db.tasks)), draft.date) + [WithId(draft, newId)]
    {
      ghost var before := db.tasks;
      ok := db.InsertTask(NewTaskRow(newId, draft), rejected);
      if !ok {
        return;
      }
      RefreshTasks();
      AddThenTasksForDate(before, newId, draft);
    }

    /** `updateTask`: only the defined fields are sent; on success the cached tasks are refetched. */
    method UpdateTask(id: string, updates: TaskUpdates, rejected: bool) returns (ok: bool)
      requires db.Valid()
      modifies this, db
      ensures db.Valid() && ok == !rejected
      ensures db.tasks == if ok then UpdateTaskRows(old(db.tasks), id, PatchOf(updates)) else old(db.tasks)
      ensures db.profiles == old(db.profiles) && db.shifts == old(db.shifts)
      ensures user == old(user) && authReady == old(authReady)
      ensures profileData == old(profileData) && shiftData == old(shiftData)
      ensures taskData == if ok && KeysActive() then Some(FetchTasks(db.tasks)) else old(taskData)
    {
      var dbUpdates := BuildPatch(updates);
      ok := db.UpdateTask(id, dbUpdates, rejected);
      if !ok {
        return;
      }
      RefreshTasks();
    }

    /** `deleteTask`: on success the cached tasks are refetched and hold no task with the id. */
    method DeleteTask(id: string, rejected: bool) returns (ok: bool)
      requires db.Valid()
      modifies this, db
      ensures db.Valid() && ok == !rejected
      ensures db.tasks == if ok then DeleteTaskRows(old(db.tasks), id) else old(db.tasks)
      ensures db.profiles == old(db.profiles) && db.shifts == old(db.shifts)
      ensures user == old(user) && authReady == old(authReady)
      ensures profileData == old(profileData) && shiftData == old(shiftData)
      ensures taskData == if ok && KeysActive() then Some(FetchTasks(db.tasks)) else old(taskData)
      ensures ok && KeysActive() ==> forall t :: t in Tasks() ==> t.id != id
    {
      ghost var before := db.tasks;
      ok := db.DeleteTask(id, rejected);
      if !ok {
        return;
      }
      RefreshTasks();
      DeleteThenTasksForDate(before, id);
    }

    /**
     * `toggleTask`: an id missing from the cache resolves without any write;
     * otherwise only `isCompleted := !isCompleted` is sent.
     */
    method ToggleTask(id: string, rejected: bool) returns (ok: bool)
      requires db.Valid()
      modifies this, db
      ensures db.Valid()
      ensures db.profiles == old(db.profiles) && db.shifts == old(db.shifts)
      ensures user == old(user) && authReady == old(authReady)
      ensures profileData == old(profileData) && shiftData == old(shiftData)
      ensures Find(old(Tasks()), IdIs(id)).None? ==> ok && db.tasks == old(db.tasks) && taskData == old(taskData)
      ensures Find(old(Tasks()), IdIs(id)).Some? ==>
        ok == !rejected
        && db.tasks == (if ok then UpdateTaskRows(old(db.tasks), id, PatchOf(ToggleUpdates(Find(old(Tasks()), IdIs(id)).value.isCompleted)))
                        else old(db.tasks))
        && taskData == if ok && KeysActive() then Some(FetchTasks(db.tasks)) else old(taskData)
      ensures old(TasksMirrorTable()) ==> db.tasks == if ok then ToggleRows(old(db.tasks), id) else old(db.tasks)
      ensures old(TasksMirrorTable()) && ok ==> TasksMirrorTable()
    {
      var task := Find(Tasks(), IdIs(id));
      if task.None? {
        return true;
      }
      ok := UpdateTask(id, ToggleUpdates(task.value.isCompleted), rejected);
    }
  }

  /** Two toggles of the same task, both accepted, leave the table as it was. */
  method ToggleTwiceRestores(store: AppProvider, id: string)
    requires store.db.Valid() && store.TasksMirrorTable()
    modifies store, store.db
    ensures store.db.tasks == old(store.db.tasks)
  {
    ghost var before := store.db.tasks;
    var ok := store.ToggleTask(id, false);
    ok := store.ToggleTask(id, false);
    ToggleTwice(before, id);
  }
}
