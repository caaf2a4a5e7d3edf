/**
 * The task list page: today's tasks, the four filter tabs over them, and the
 * assignee lookups shown on each card.
 */
module TasksContent {
  import opened Wrappers
  import opened Seqs
  import opened Types
  import opened Remote
  import opened Store

  /** The filter tabs. */
  datatype TaskFilter = AllTasks | HusbandTasks | WifeTasks | CompletedTasks {
    /** The role a tab narrows to, for the two assignee tabs. */
    function FilterRole(): Option<Role> {
      match this
      case HusbandTasks => Some(Husband)
      case WifeTasks => Some(Wife)
      case _ => None
    }
  }

  /** Shown when no profile has the task's assignee id. */
  const Unknown := "不明"

  function RoleIs(role: Role): Profile -> bool {
    (p: Profile) => p.role == role
  }

  /** `profiles.find(p => p.role === role)`: the first profile holding the role. */
  function RoleHolder(profiles: seq<Profile>, role: Role): (r: Option<Profile>)
    ensures r.Some? ==> r.value.role == role && r.value in profiles
    ensures r.None? <==> forall i :: 0 <= i < |profiles| ==> profiles[i].role != role
    ensures r.Some? ==> exists i :: (0 <= i < |profiles| && profiles[i] == r.value
      && forall j :: 0 <= j < i ==> profiles[j].role != role)
  {
    Find(profiles, RoleIs(role))
  }

  /** The task is assigned to the first profile holding `role`. */
  predicate AssignedToRole(t: Task, profiles: seq<Profile>, role: Role) {
    RoleHolder(profiles, role).Some? && t.assigneeId == RoleHolder(profiles, role).value.id
  }

  function AssigneeIs(id: string): Task -> bool {
    (t: Task) => t.assigneeId == id
  }

  function Completed(): Task -> bool {
    (t: Task) => t.isCompleted
  }

  /**
   * `holder ? tasks.filter(t => t.assigneeId === holder.id) : []`: the tasks of
   * the first profile holding `role`, none when nobody holds it.
   */
  function RoleTasks(tasks: seq<Task>, profiles: seq<Profile>, role: Role): (r: seq<Task>)
    ensures IsSubseq(r, tasks)
    ensures RoleHolder(profiles, role).None? ==> r == []
    ensures forall t :: t in r <==> t in tasks && AssignedToRole(t, profiles, role)
    ensures forall t :: multiset(r)[t] == if AssignedToRole(t, profiles, role) then multiset(tasks)[t] else 0
  {
    match RoleHolder(profiles, role)
    case None => []
    case Some(holder) => Filter(tasks, AssigneeIs(holder.id))
  }

  /** The tasks a tab shows, out of today's tasks. */
  function FilteredTasks(todayTasks: seq<Task>, filter: TaskFilter, profiles: seq<Profile>): (r: seq<Task>)
    ensures IsSubseq(r, todayTasks)
    ensures filter == AllTasks ==> r == todayTasks
    ensures filter == CompletedTasks ==> forall t :: t in r <==> t in todayTasks && t.isCompleted
    ensures filter == CompletedTasks ==>
      forall t :: multiset(r)[t] == if t.isCompleted then multiset(todayTasks)[t] else 0
    ensures filter.FilterRole().Some? ==>
      forall t :: t in r <==> t in todayTasks && AssignedToRole(t, profiles, filter.FilterRole().value)
    ensures filter.FilterRole().Some? ==>
      forall t :: multiset(r)[t] == if AssignedToRole(t, profiles, filter.FilterRole().value) then multiset(todayTasks)[t] else 0
    ensures filter.FilterRole().Some? && RoleHolder(profiles, filter.FilterRole().value).None? ==> r == []
  {
    match filter
    case HusbandTasks => RoleTasks(todayTasks, profiles, Husband)
    case WifeTasks => RoleTasks(todayTasks, profiles, Wife)
    case CompletedTasks => Filter(todayTasks, Completed())
    case AllTasks => SubseqRefl(todayTasks); todayTasks
  }

  /** The tab shown for today's tasks of the cache. */
  function VisibleTasks(tasks: seq<Task>, today: string, filter: TaskFilter, profiles: seq<Profile>): (r: seq<Task>)
    ensures IsSubseq(r, tasks)
    ensures forall t :: t in r ==> t in tasks && t.date == today
  {
    var todayTasks := GetTasksForDate(tasks, today);
    var r := FilteredTasks(todayTasks, filter, profiles);
    SubseqTransitive(r, todayTasks, tasks);
    r
  }

  /**
   * When the profiles have distinct ids, no task shows in both the husband and
   * the wife tab.
   */
  lemma RoleTabsDisjoint(todayTasks: seq<Task>, profiles: seq<Profile>, t: Task)
    requires forall i, j :: 0 <= i < j < |profiles| ==> profiles[i].id != profiles[j].id
    ensures !(t in FilteredTasks(todayTasks, HusbandTasks, profiles) && t in FilteredTasks(todayTasks, WifeTasks, profiles))
  {
    var h, w := RoleHolder(profiles, Husband), RoleHolder(profiles, Wife);
    if h.Some? && w.Some? {
      var i :| 0 <= i < |profiles| && profiles[i] == h.value;
      var j :| 0 <= j < |profiles| && profiles[j] == w.value;
      assert i != j;
      assert h.value.id != w.value.id;
    }
  }

  function ProfileIdIs(id: string): Profile -> bool {
    (p: Profile) => p.id == id
  }

  /** Position `i` holds the first profile with the given id. */
  predicate FirstWithId(profiles: seq<Profile>, id: string, i: int) {
    0 <= i < |profiles| && profiles[i].id == id && forall j :: 0 <= j < i ==> profiles[j].id != id
  }

  /** `profiles.find(p => p.id === assigneeId)?.name ?? "不明"`. */
  function AssigneeName(profiles: seq<Profile>, assigneeId: string): (r: string)
    ensures (forall i :: 0 <= i < |profiles| ==> profiles[i].id != assigneeId) ==> r == Unknown
    ensures forall i :: FirstWithId(profiles, assigneeId, i) ==> r == profiles[i].name
  {
    match Find(profiles, ProfileIdIs(assigneeId))
    case Some(p) => p.name
    case None => Unknown
  }

  /** `profiles.find(p => p.id === assigneeId)?.role ?? "不明"`, the role written out. */
  function AssigneeRole(profiles: seq<Profile>, assigneeId: string): (r: string)
    ensures (forall i :: 0 <= i < |profiles| ==> profiles[i].id != assigneeId) ==> r == Unknown
    ensures forall i :: FirstWithId(profiles, assigneeId, i) ==> r == profiles[i].role.Name()
  {
    match Find(profiles, ProfileIdIs(assigneeId))
    case Some(p) => p.role.Name()
    case None => Unknown
  }

  /** `handleDelete`: `deleteTask(id)` with a rejection swallowed. */
  method HandleDelete(store: AppProvider, id: string, rejected: bool)
    requires store.db.Valid()
    modifies store, store.db
    ensures store.db.Valid()
    ensures store.db.tasks == if rejected then old(store.db.tasks) else DeleteTaskRows(old(store.db.tasks), id)
    ensures store.db.profiles == old(store.db.profiles) && store.db.shifts == old(store.db.shifts)
    ensures store.user == old(store.user) && store.authReady == old(store.authReady)
    ensures store.profileData == old(store.profileData) && store.shiftData == old(store.shiftData)
    ensures store.taskData == if !rejected && store.KeysActive() then Some(FetchTasks(store.db.tasks)) else old(store.taskData)
    ensures !rejected && store.KeysActive() ==> forall t :: t in store.Tasks() ==> t.id != id
  {
    var _ := store.DeleteTask(id, rejected);
  }
}
