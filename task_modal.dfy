/**
 * components/task-modal.tsx: the add/edit dialog. Its form state is a small
 * object updated step by step; `handleSubmit` validates the title, translates
 * the form into an `addTask` draft or an `updateTask` partial, and sets the
 * `error`, `saving` and dialog-open flags around the store call.
 */
module TaskModal {
  import opened Wrappers
  import opened Types
  import opened Text
  import opened Remote
  import opened Store

  const TitleRequired := "タスク名を入力してください"
  const SaveFailed := "保存に失敗しました。もう一度お試しください。"

  /** The form's field values; an empty select is `None`, the duration is the text typed. */
  datatype Form = Form(
    title: string,
    category: Option<TaskCategory>,
    durationMinutes: string,
    assigneeId: string,
    frequency: Option<TaskFrequency>)

  /** `profiles[0]?.id ?? ""`. */
  function DefaultAssigneeId(profiles: seq<Profile>): (id: string)
    ensures profiles == [] ==> id == ""
    ensures profiles != [] ==> id == profiles[0].id
  {
    if profiles == [] then "" else profiles[0].id
  }

  /** What the reset effect loads: the edited task's fields, or an empty form assigned to the first profile. */
  function FormFor(task: Option<Task>, profiles: seq<Profile>): (f: Form)
    ensures task.None? ==> f == Form("", None, "", DefaultAssigneeId(profiles), None)
    ensures task.Some? ==> f.title == task.value.title && f.category == task.value.category
    ensures task.Some? ==> f.assigneeId == task.value.assigneeId && f.frequency == task.value.frequency
    ensures task.Some? ==> DurationOf(f.durationMinutes) == task.value.durationMinutes
  {
    match task
    case Some(t) =>
      var text := if t.durationMinutes.Some? then IntToString(t.durationMinutes.value) else "";
      assert DurationOf(text) == t.durationMinutes by {
        if t.durationMinutes.Some? {
          ParseIntOfIntToString(t.durationMinutes.value);
        }
      }
      Form(t.title, t.category, text, t.assigneeId, t.frequency)
    case None => Form("", None, "", DefaultAssigneeId(profiles), None)
  }

  /** `durationMinutes ? parseInt(durationMinutes) : undefined`. */
  function DurationOf(text: string): (r: Option<int>)
    ensures text == "" ==> r.None?
    ensures text != "" ==> r == ParseInt(text)
  {
    if text == "" then None else ParseInt(text)
  }

  /** The `addTask` argument: trimmed title, not completed, dated today. */
  function DraftOf(form: Form, today: string): (d: TaskDraft)
    ensures d.title == Trim(form.title) && !d.isCompleted && d.date == today
    ensures d.assigneeId == form.assigneeId
    ensures d.category == form.category && d.frequency == form.frequency
    ensures d.durationMinutes == DurationOf(form.durationMinutes)
  {
    TaskDraft(form.assigneeId, Trim(form.title), form.category, DurationOf(form.durationMinutes),
              today, false, form.frequency)
  }

  /** The `updateTask` argument: never `id`, `date` or `isCompleted`. */
  function UpdatesOf(form: Form): (u: TaskUpdates)
    ensures u.id.None? && u.date.None? && u.isCompleted.None?
    ensures u.title == Some(Trim(form.title)) && u.assigneeId == Some(form.assigneeId)
    ensures u.category == form.category && u.frequency == form.frequency
    ensures u.durationMinutes == DurationOf(form.durationMinutes)
  {
    TaskUpdates(None, Some(form.assigneeId), Some(Trim(form.title)), form.category,
                DurationOf(form.durationMinutes), None, None, form.frequency)
  }

  /**
   * Saving an edit keeps the task's date and completion flag, and a cleared
   * category, duration or frequency keeps the stored value (it is sent as
   * `undefined`, which updateTask skips).
   */
  lemma EditKeepsUnsentFields(t: Task, form: Form)
    ensures var after := Merge(t, UpdatesOf(form));
      && after.id == t.id && after.date == t.date && after.isCompleted == t.isCompleted
      && after.title == Trim(form.title) && after.assigneeId == form.assigneeId
      && (form.category.None? ==> after.category == t.category)
      && (form.durationMinutes == "" ==> after.durationMinutes == t.durationMinutes)
      && (form.frequency.None? ==> after.frequency == t.frequency)
  {
  }

  /** Opening a task whose title is already trimmed and saving without changes sends a patch that changes nothing. */
  lemma UnchangedEditIsIdentity(t: Task, profiles: seq<Profile>)
    requires Trim(t.title) == t.title
    ensures Merge(t, UpdatesOf(FormFor(Some(t), profiles))) == t
  {
    if t.durationMinutes.Some? {
      ParseIntOfIntToString(t.durationMinutes.value);
    }
  }

  /** A new task is stored, and read back, with the trimmed title, today's date and not completed. */
  lemma NewTaskFromForm(id: string, form: Form, today: string)
    ensures var added := TaskFromRow(NewTaskRow(id, DraftOf(form, today)));
      && added.id == id && added.title == Trim(form.title) && added.date == today && !added.isCompleted
      && (form.category.None? ==> added.category.None?)
      && (form.durationMinutes == "" ==> added.durationMinutes.None?)
      && (form.frequency.None? ==> added.frequency.None?)
  {
    NewTaskRowRoundTrip(id, DraftOf(form, today));
  }

  /**
   * The tasks table after a save: unchanged when the write is rejected, the edited
   * task patched with the form's fields when editing, the new task appended otherwise.
   */
  function SavedTasks(rows: seq<TaskRow>, task: Option<Task>, form: Form, today: string, newId: string, rejected: bool): (r: seq<TaskRow>)
    ensures rejected ==> r == rows
    ensures !rejected && task.None? ==>
      |r| == |rows| + 1 && r[..|rows|] == rows && TaskFromRow(r[|rows|]) == WithId(DraftOf(form, today), newId)
    ensures !rejected && task.Some? ==> |r| == |rows| && forall i :: 0 <= i < |rows| ==>
      TaskFromRow(r[i]) == if rows[i].id == task.value.id then Merge(TaskFromRow(rows[i]), UpdatesOf(form)) else TaskFromRow(rows[i])
  {
    if rejected then rows
    else if task.Some? then
      UpdateMeansMerge(rows, task.value.id, UpdatesOf(form));
      UpdateTaskRows(rows, task.value.id, PatchOf(UpdatesOf(form)))
    else
      NewTaskRowRoundTrip(newId, DraftOf(form, today));
      var r := rows + [NewTaskRow(newId, DraftOf(form, today))];
      assert r[..|rows|] == rows;
      r
  }

  /** The `try` block of handleSubmit: `updateTask` when editing, `addTask` otherwise. */
  method Save(store: AppProvider, task: Option<Task>, form: Form, today: string, newId: string, rejected: bool)
    returns (ok: bool)
    requires store.db.Valid() && FreshTaskId(store.db.tasks, newId)
    modifies store, store.db
    ensures store.db.Valid() && ok == !rejected
    ensures store.user == old(store.user) && store.authReady == old(store.authReady)
    ensures store.db.profiles == old(store.db.profiles) && store.db.shifts == old(store.db.shifts)
    ensures store.db.tasks == SavedTasks(old(store.db.tasks), task, form, today, newId, rejected)
    ensures store.profileData == old(store.profileData) && store.shiftData == old(store.shiftData)
    ensures store.taskData == if ok && store.KeysActive() then Some(FetchTasks(store.db.tasks)) else old(store.taskData)
  {
    if task.Some? {
      ok := store.UpdateTask(task.value.id, UpdatesOf(form), rejected);
    } else {
      ok := store.AddTask(DraftOf(form, today), newId, rejected);
    }
  }

  /** The dialog's state. */
  class TaskDialog {
    var title: string
    var category: Option<TaskCategory>
    var durationMinutes: string
    var assigneeId: string
    var frequency: Option<TaskFrequency>
    var error: string
    var saving: bool
    var open: bool

    function Fields(): Form
      reads this
    {
      Form(title, category, durationMinutes, assigneeId, frequency)
    }

    constructor (profiles: seq<Profile>, open: bool)
      ensures Fields() == FormFor(None, profiles) && error == "" && !saving && this.open == open
    {
      title, category, durationMinutes := "", None, "";
      assigneeId := DefaultAssigneeId(profiles);
      frequency := None;
      error, saving := "", false;
      this.open := open;
    }

    /** The reset effect, run when the dialog opens or the edited task changes. */
    method Reset(task: Option<Task>, profiles: seq<Profile>)
      modifies this
      ensures Fields() == FormFor(task, profiles) && error == ""
      ensures saving == old(saving) && open == old(open)
    {
      match task {
        case Some(t) =>
          title := t.title;
          category := t.category;
          durationMinutes := if t.durationMinutes.Some? then IntToString(t.durationMinutes.value) else "";
          assigneeId := t.assigneeId;
          frequency := t.frequency;
        case None =>
          title := "";
          category := None;
          durationMinutes := "";
          assigneeId := DefaultAssigneeId(profiles);
          frequency := None;
      }
      error := "";
    }

    /**
     * `handleSubmit`: a blank title sets the error and calls nothing; otherwise
     * `updateTask` (editing) or `addTask` is called, the dialog closes on
     * success, shows the save error on failure, and `saving` ends false.
     */
    method HandleSubmit(store: AppProvider, task: Option<Task>, today: string, newId: string, rejected: bool)
      requires store.db.Valid() && FreshTaskId(store.db.tasks, newId)
      modifies this, store, store.db
      ensures store.db.Valid()
      ensures Fields() == old(Fields())
      ensures store.user == old(store.user) && store.authReady == old(store.authReady)
      ensures store.db.profiles == old(store.db.profiles) && store.db.shifts == old(store.db.shifts)
      ensures store.profileData == old(store.profileData) && store.shiftData == old(store.shiftData)
      ensures IsBlank(old(title)) ==>
        error == TitleRequired && open == old(open) && saving == old(saving)
        && store.db.tasks == old(store.db.tasks) && store.taskData == old(store.taskData)
      ensures !IsBlank(old(title)) ==>
        error == (if rejected then SaveFailed else "") && open == (old(open) && rejected) && !saving
      ensures !IsBlank(old(title)) ==>
        store.db.tasks == SavedTasks(old(store.db.tasks), task, old(Fields()), today, newId, rejected)
        && store.taskData == if !rejected && store.KeysActive() then Some(FetchTasks(store.db.tasks)) else old(store.taskData)
    {
      error := "";
      if Trim(title) == "" {
        error := TitleRequired;
        return;
      }
      saving := true;
      var ok := Save(store, task, Fields(), today, newId, rejected);
      if ok {
        open := false;
      } else {
        error := SaveFailed;
      }
      saving := false;
    }
  }
}
