/**
 * The remote relational store as the application sees it: three tables of
 * rows with the database's own column names, and the five calls the store
 * makes on them (list, upsert on a conflict key, insert, update by id with a
 * column patch, delete by id). Whether a call is rejected (network error,
 * constraint violation) is decided outside the application, so every call takes
 * that outcome as its `rejected` parameter; the identifier of a new row is
 * likewise chosen by the remote side and passed in as `newId`.
 */
module Remote {
  import opened Wrappers
  import opened Types
  import opened Seqs

  // Rows as the remote tables hold them; NULL columns are `None`.
  datatype ProfileRow = ProfileRow(id: string, user_id: string, name: string, role: Role)
  datatype ShiftRow = ShiftRow(id: string, user_id: string, date: string, shift_type: ShiftType)
  datatype TaskRow = TaskRow(
    id: string,
    assignee_id: string,
    title: string,
    category: Option<TaskCategory>,
    duration_minutes: Option<int>,
    date: string,
    is_completed: bool,
    frequency: Option<TaskFrequency>)

  /** The columns of the tasks table. */
  datatype TaskColumn =
    | IdColumn | AssigneeIdColumn | TitleColumn | CategoryColumn
    | DurationMinutesColumn | DateColumn | IsCompletedColumn | FrequencyColumn

  datatype ColumnValue =
    | TextValue(text: string)
    | CategoryValue(category: TaskCategory)
    | IntValue(n: int)
    | BoolValue(b: bool)
    | FrequencyValue(frequency: TaskFrequency)

  /** The body of an `update ... eq("id", id)` call: the columns to overwrite. */
  type Patch = map<TaskColumn, ColumnValue>

  // The value a patch gives one column, or the current value when the column is
  // missing from the patch or holds a value of another kind.

  function TextAt(patch: Patch, c: TaskColumn, current: string): string {
    if c in patch && patch[c].TextValue? then patch[c].text else current
  }

  function BoolAt(patch: Patch, c: TaskColumn, current: bool): bool {
    if c in patch && patch[c].BoolValue? then patch[c].b else current
  }

  function IntAt(patch: Patch, c: TaskColumn, current: Option<int>): Option<int> {
    if c in patch && patch[c].IntValue? then Some(patch[c].n) else current
  }

  function CategoryAt(patch: Patch, c: TaskColumn, current: Option<TaskCategory>): Option<TaskCategory> {
    if c in patch && patch[c].CategoryValue? then Some(patch[c].category) else current
  }

  function FrequencyAt(patch: Patch, c: TaskColumn, current: Option<TaskFrequency>): Option<TaskFrequency> {
    if c in patch && patch[c].FrequencyValue? then Some(patch[c].frequency) else current
  }

  /** The row after the columns named in `patch` are overwritten; a value of the wrong kind is ignored. */
  function ApplyPatch(row: TaskRow, patch: Patch): (r: TaskRow)
    ensures IdColumn !in patch ==> r.id == row.id
    ensures AssigneeIdColumn !in patch ==> r.assignee_id == row.assignee_id
    ensures TitleColumn !in patch ==> r.title == row.title
    ensures CategoryColumn !in patch ==> r.category == row.category
    ensures DurationMinutesColumn !in patch ==> r.duration_minutes == row.duration_minutes
    ensures DateColumn !in patch ==> r.date == row.date
    ensures IsCompletedColumn !in patch ==> r.is_completed == row.is_completed
    ensures FrequencyColumn !in patch ==> r.frequency == row.frequency
  {
    TaskRow(
      TextAt(patch, IdColumn, row.id),
      TextAt(patch, AssigneeIdColumn, row.assignee_id),
      TextAt(patch, TitleColumn, row.title),
      CategoryAt(patch, CategoryColumn, row.category),
      IntAt(patch, DurationMinutesColumn, row.duration_minutes),
      TextAt(patch, DateColumn, row.date),
      BoolAt(patch, IsCompletedColumn, row.is_completed),
      FrequencyAt(patch, FrequencyColumn, row.frequency))
  }

  /** The conflict key of the shifts table is `(user_id, date)`. */
  function HasShiftKey(userId: string, date: string): ShiftRow -> bool {
    (row: ShiftRow) => row.user_id == userId && row.date == date
  }

  /** At most one shift row per `(user_id, date)`: the table's unique constraint. */
  predicate UniqueShiftKeys(rows: seq<ShiftRow>) {
    forall i, j :: 0 <= i < j < |rows| ==> !(rows[i].user_id == rows[j].user_id && rows[i].date == rows[j].date)
  }

  function LacksTaskId(id: string): TaskRow -> bool {
    (row: TaskRow) => row.id != id
  }

  /** The tasks table's primary key. */
  predicate UniqueTaskIds(rows: seq<TaskRow>) {
    forall i, j :: 0 <= i < j < |rows| ==> rows[i].id != rows[j].id
  }

  predicate FreshTaskId(rows: seq<TaskRow>, id: string) {
    forall i :: 0 <= i < |rows| ==> rows[i].id != id
  }

  /**
   * `upsert({user_id, date, shift_type}, {onConflict: "user_id,date"})`: the row
   * holding the key gets the new kind and keeps its id; without one, a new row is added.
   */
  function UpsertShiftRows(rows: seq<ShiftRow>, newId: string, userId: string, date: string, kind: ShiftType): (r: seq<ShiftRow>)
    ensures |rows| <= |r| <= |rows| + 1
    ensures forall j :: 0 <= j < |rows| && !(rows[j].user_id == userId && rows[j].date == date) ==> r[j] == rows[j]
    ensures exists i :: 0 <= i < |r| && r[i].user_id == userId && r[i].date == date && r[i].shift_type == kind
  {
    match FindIndex(rows, HasShiftKey(userId, date))
    case Some(i) =>
      var r := rows[i := rows[i].(shift_type := kind)];
      assert r[i].user_id == userId && r[i].date == date;
      r
    case None =>
      var r := rows + [ShiftRow(newId, userId, date, kind)];
      assert r[|rows|].user_id == userId && r[|rows|].date == date;
      r
  }

  /** `update(patch).eq("id", id)`: every row with that id is patched; no matching row is not an error. */
  function UpdateTaskRows(rows: seq<TaskRow>, id: string, patch: Patch): (r: seq<TaskRow>)
    ensures |r| == |rows|
    ensures forall i :: 0 <= i < |rows| ==> r[i] == if rows[i].id == id then ApplyPatch(rows[i], patch) else rows[i]
  {
    seq(|rows|, i requires 0 <= i < |rows| => if rows[i].id == id then ApplyPatch(rows[i], patch) else rows[i])
  }

  /** `delete().eq("id", id)`. */
  function DeleteTaskRows(rows: seq<TaskRow>, id: string): (r: seq<TaskRow>)
    ensures forall row :: row in r <==> row in rows && row.id != id
    ensures forall row :: multiset(r)[row] == if row.id != id then multiset(rows)[row] else 0
    ensures IsSubseq(r, rows)
  {
    Filter(rows, LacksTaskId(id))
  }

  /** After an upsert the key is held by exactly one row, which carries the kind written. */
  lemma UpsertWritesKey(rows: seq<ShiftRow>, newId: string, userId: string, date: string, kind: ShiftType)
    requires UniqueShiftKeys(rows)
    ensures var r := UpsertShiftRows(rows, newId, userId, date, kind);
      UniqueShiftKeys(r)
      && (exists i :: 0 <= i < |r| && r[i].user_id == userId && r[i].date == date && r[i].shift_type == kind)
  {
    var r := UpsertShiftRows(rows, newId, userId, date, kind);
    match FindIndex(rows, HasShiftKey(userId, date))
    case Some(i) =>
      assert r[i].user_id == userId && r[i].date == date;
    case None =>
      assert r[|rows|].user_id == userId && r[|rows|].date == date;
  }

  /** Row `i` of the upserted table is row `i` before, unless it holds the key written. */
  lemma UpsertKeepsOtherRows(rows: seq<ShiftRow>, newId: string, userId: string, date: string, kind: ShiftType)
    ensures var r := UpsertShiftRows(rows, newId, userId, date, kind);
      |rows| <= |r| <= |rows| + 1
      && (forall j :: 0 <= j < |rows| && !(rows[j].user_id == userId && rows[j].date == date) ==> r[j] == rows[j])
      && (forall j :: 0 <= j < |r| ==> (r[j].user_id == userId && r[j].date == date) == (j < |rows| && rows[j].user_id == userId && rows[j].date == date) || j == |rows|)
      && (forall j :: |rows| <= j < |r| ==> r[j].user_id == userId && r[j].date == date)
  {
  }

  /** Upserting the same key twice leaves what the second write says. */
  lemma {:induction false} UpsertTwice(rows: seq<ShiftRow>, id1: string, id2: string, userId: string, date: string, k1: ShiftType, k2: ShiftType)
    requires UniqueShiftKeys(rows)
    ensures UpsertShiftRows(UpsertShiftRows(rows, id1, userId, date, k1), id2, userId, date, k2)
         == UpsertShiftRows(rows, id1, userId, date, k2)
  {
    var p := HasShiftKey(userId, date);
    var once := UpsertShiftRows(rows, id1, userId, date, k1);
    match FindIndex(rows, p)
    case Some(i) =>
      assert FindIndex(once, p) == Some(i) by {
        var k := FindIndex(once, p);
        assert p(once[i]);
        assert k.Some? && k.value <= i;
      }
    case None =>
      assert FindIndex(once, p) == Some(|rows|) by {
        var k := FindIndex(once, p);
        assert p(once[|rows|]);
        assert k.Some? && k.value <= |rows|;
      }
      assert once[|rows| := once[|rows|].(shift_type := k2)] == rows + [ShiftRow(id1, userId, date, k2)];
  }

  /** Deleting keeps the primary key unique and removes every row with the id. */
  lemma DeleteRemovesId(rows: seq<TaskRow>, id: string)
    requires UniqueTaskIds(rows)
    ensures var r := DeleteTaskRows(rows, id);
      UniqueTaskIds(r) && FreshTaskId(r, id) && IsSubseq(r, rows)
  {
    var r := DeleteTaskRows(rows, id);
    UniqueIdsOfSubseq(r, rows);
    forall i | 0 <= i < |r| ensures r[i].id != id {
      assert r[i] in r;
    }
  }

  lemma {:induction false} UniqueIdsOfSubseq(xs: seq<TaskRow>, ys: seq<TaskRow>)
    requires IsSubseq(xs, ys) && UniqueTaskIds(ys)
    ensures UniqueTaskIds(xs)
    decreases |ys|
  {
    if xs != [] {
      assert UniqueTaskIds(ys[1..]) by {
        forall i, j | 0 <= i < j < |ys| - 1 ensures ys[1..][i].id != ys[1..][j].id {
          assert ys[1..][i] == ys[i + 1] && ys[1..][j] == ys[j + 1];
        }
      }
      if xs[0] == ys[0] && IsSubseq(xs[1..], ys[1..]) {
        UniqueIdsOfSubseq(xs[1..], ys[1..]);
        SubseqMembers(xs[1..], ys[1..]);
        forall j | 0 < j < |xs| ensures xs[0].id != xs[j].id {
          assert xs[1..][j - 1] == xs[j];
          assert xs[j] in ys[1..];
          var k :| 0 <= k < |ys[1..]| && ys[1..][k] == xs[j];
          assert ys[k + 1] == xs[j];
        }
      } else {
        UniqueIdsOfSubseq(xs, ys[1..]);
      }
    }
  }

  lemma {:induction false} SubseqMembers<T>(xs: seq<T>, ys: seq<T>)
    requires IsSubseq(xs, ys)
    ensures forall x :: x in xs ==> x in ys
    decreases |ys|
  {
    if xs != [] {
      if xs[0] == ys[0] && IsSubseq(xs[1..], ys[1..]) {
        SubseqMembers(xs[1..], ys[1..]);
        assert xs == [xs[0]] + xs[1..];
        assert ys == [ys[0]] + ys[1..];
      } else {
        SubseqMembers(xs, ys[1..]);
        assert ys == [ys[0]] + ys[1..];
      }
    }
  }

  /** A patch that does not touch `id` keeps the primary key unique. */
  lemma UpdateKeepsIds(rows: seq<TaskRow>, id: string, patch: Patch)
    requires IdColumn !in patch
    ensures var r := UpdateTaskRows(rows, id, patch);
      forall i :: 0 <= i < |rows| ==> r[i].id == rows[i].id
  {
  }

  /**
   * The remote store: the three tables, with the constraints the database
   * enforces (the shifts conflict key and the tasks primary key).
   */
  class Database {
    var profiles: seq<ProfileRow>
    var shifts: seq<ShiftRow>
    var tasks: seq<TaskRow>

    ghost predicate Valid()
      reads this
    {
      UniqueShiftKeys(shifts) && UniqueTaskIds(tasks)
    }

    constructor (profiles: seq<ProfileRow>, shifts: seq<ShiftRow>, tasks: seq<TaskRow>)
      requires UniqueShiftKeys(shifts) && UniqueTaskIds(tasks)
      ensures Valid()
      ensures this.profiles == profiles && this.shifts == shifts && this.tasks == tasks
    {
      this.profiles, this.shifts, this.tasks := profiles, shifts, tasks;
    }

    method UpsertShift(userId: string, date: string, kind: ShiftType, newId: string, rejected: bool) returns (ok: bool)
      requires Valid()
      modifies this
      ensures Valid() && ok == !rejected
      ensures shifts == if ok then UpsertShiftRows(old(shifts), newId, userId, date, kind) else old(shifts)
      ensures profiles == old(profiles) && tasks == old(tasks)
    {
      ok := !rejected;
      if ok {
        UpsertWritesKey(shifts, newId, userId, date, kind);
        shifts := UpsertShiftRows(shifts, newId, userId, date, kind);
      }
    }

    method InsertTask(row: TaskRow, rejected: bool) returns (ok: bool)
      requires Valid() && FreshTaskId(tasks, row.id)
      modifies this
      ensures Valid() && ok == !rejected
      ensures tasks == if ok then old(tasks) + [row] else old(tasks)
      ensures profiles == old(profiles) && shifts == old(shifts)
    {
      ok := !rejected;
      if ok {
        tasks := tasks + [row];
      }
    }

    method UpdateTask(id: string, patch: Patch, rejected: bool) returns (ok: bool)
      requires Valid() && IdColumn !in patch
      modifies this
      ensures Valid() && ok == !rejected
      ensures tasks == if ok then UpdateTaskRows(old(tasks), id, patch) else old(tasks)
      ensures profiles == old(profiles) && shifts == old(shifts)
    {
      ok := !rejected;
      if ok {
        UpdateKeepsIds(tasks, id, patch);
        tasks := UpdateTaskRows(tasks, id, patch);
      }
    }

    method DeleteTask(id: string, rejected: bool) returns (ok: bool)
      requires Valid()
      modifies this
      ensures Valid() && ok == !rejected
      ensures tasks == if ok then DeleteTaskRows(old(tasks), id) else old(tasks)
      ensures profiles == old(profiles) && shifts == old(shifts)
    {
      ok := !rejected;
      if ok {
        DeleteRemovesId(tasks, id);
        tasks := DeleteTaskRows(tasks, id);
      }
    }
  }
}
