/**
 * The home page: the greeting, today's shift card, and one card per partner
 * with that partner's tasks for today and how many of them are done.
 */
module DashboardContent {
  import opened Wrappers
  import opened Seqs
  import opened Types
  import opened Store
  import opened TasksContent

  /** The greeting's name when there is no current profile. */
  const DefaultName := "ユーザー"
  /** The shift card's label and icon when today has no shift. */
  const Unregistered := "未登録"
  const NoShiftIcon := "?"
  /** The shift card's button: change an existing shift, or register one. */
  const ChangeShift := "変更する"
  const RegisterShift := "登録する"

  /** `user ? getShift(user.id, today) : undefined`. */
  function TodayShift(user: Option<User>, shifts: seq<Shift>, today: string): (r: Option<Shift>)
    ensures user.None? ==> r.None?
    ensures r.Some? ==> user.Some? && r.value.userId == user.value.id && r.value.date == today && r.value in shifts
    ensures user.Some? && r.None? ==> forall i :: 0 <= i < |shifts| ==> !(shifts[i].userId == user.value.id && shifts[i].date == today)
  {
    match user
    case None => None
    case Some(u) => GetShift(shifts, u.id, today)
  }

  function KindIs(kind: ShiftType): ShiftTypeInfo -> bool {
    (info: ShiftTypeInfo) => info.kind == kind
  }

  /** `SHIFT_TYPES.find(s => s.type === todayShift.shiftType)`, or none without a shift. */
  function ShiftInfo(todayShift: Option<Shift>): (r: Option<ShiftTypeInfo>)
    ensures todayShift.None? <==> r.None?
    ensures r.Some? ==> r.value in ShiftTypes && r.value.kind == todayShift.value.shiftType
    ensures r.Some? ==> r.value.labelText == todayShift.value.shiftType.Name()
  {
    match todayShift
    case None => None
    case Some(s) =>
      ShiftTypesComplete();
      assert s.shiftType in Kinds(ShiftTypes);
      var i :| 0 <= i < |ShiftTypes| && Kinds(ShiftTypes)[i] == s.shiftType;
      assert KindIs(s.shiftType)(ShiftTypes[i]);
      Find(ShiftTypes, KindIs(s.shiftType))
  }

  /** The label on the shift card: the kind's own literal, or 未登録 without a shift. */
  function ShiftLabel(todayShift: Option<Shift>): (r: string)
    ensures todayShift.None? ==> r == Unregistered
    ensures todayShift.Some? ==> r == todayShift.value.shiftType.Name()
  {
    match ShiftInfo(todayShift)
    case Some(info) => info.labelText
    case None => Unregistered
  }

  /** The icon on the shift card: the kind's emoji from SHIFT_TYPES, or "?" without a shift. */
  function ShiftIcon(todayShift: Option<Shift>): (r: string)
    ensures todayShift.None? ==> r == NoShiftIcon
    ensures todayShift.Some? ==>
      exists i :: 0 <= i < |ShiftTypes| && ShiftTypes[i].kind == todayShift.value.shiftType && r == ShiftTypes[i].icon
  {
    match ShiftInfo(todayShift)
    case Some(info) => info.icon
    case None => NoShiftIcon
  }

  /** The shift card's button. */
  function ShiftButtonLabel(todayShift: Option<Shift>): (r: string)
    ensures r == RegisterShift <==> todayShift.None?
    ensures r == ChangeShift <==> todayShift.Some?
  {
    if todayShift.Some? then ChangeShift else RegisterShift
  }

  /** The card says 未登録 exactly when its button offers to register a shift. */
  lemma UnregisteredIffRegister(todayShift: Option<Shift>)
    ensures ShiftLabel(todayShift) == Unregistered <==> ShiftButtonLabel(todayShift) == RegisterShift
    ensures ShiftIcon(todayShift) == NoShiftIcon <==> todayShift.None?
  {
    if todayShift.Some? {
      var kind := todayShift.value.shiftType;
      match kind
      case DayShift => assert kind.Name() != Unregistered;
      case NightShift => assert kind.Name() != Unregistered;
      case AfterNight => assert kind.Name() != Unregistered;
      case DayOff => assert kind.Name() != Unregistered;
      var i :| 0 <= i < |ShiftTypes| && ShiftTypes[i].kind == kind && ShiftIcon(todayShift) == ShiftTypes[i].icon;
      assert ShiftTypes[i].icon != NoShiftIcon;
    }
  }

  /** `currentProfile?.name ?? "ユーザー"`. */
  function GreetingName(currentProfile: Option<Profile>): (r: string)
    ensures currentProfile.None? ==> r == DefaultName
    ensures currentProfile.Some? ==> r == currentProfile.value.name
  {
    match currentProfile
    case Some(p) => p.name
    case None => DefaultName
  }

  /** `husbandTasks` / `wifeTasks`: today's tasks of the first profile holding `role`. */
  function Group(tasks: seq<Task>, profiles: seq<Profile>, today: string, role: Role): (r: seq<Task>)
    ensures IsSubseq(r, tasks)
    ensures RoleHolder(profiles, role).None? ==> r == []
    ensures forall t :: t in r <==> t in tasks && t.date == today && AssignedToRole(t, profiles, role)
    ensures forall t :: multiset(r)[t] == if t.date == today && AssignedToRole(t, profiles, role) then multiset(tasks)[t] else 0
  {
    var todayTasks := GetTasksForDate(tasks, today);
    var r := RoleTasks(todayTasks, profiles, role);
    SubseqTransitive(r, todayTasks, tasks);
    r
  }

  /** `group.filter(t => t.isCompleted).length`. */
  function CompletedCount(group: seq<Task>): (r: nat)
    ensures r <= |group|
    ensures r == 0 <==> forall i :: 0 <= i < |group| ==> !group[i].isCompleted
  {
    var done := Filter(group, Completed());
    assert done != [] ==> done[0] in group;
    assert forall i :: 0 <= i < |group| && group[i].isCompleted ==> Completed()(group[i]) && group[i] in done;
    |done|
  }

  /** The number of completed tasks in `group`, counted one task at a time. */
  function CountDone(group: seq<Task>): nat {
    if group == [] then 0
    else (if group[0].isCompleted then 1 else 0) + CountDone(group[1..])
  }

  /** The completed count is the number of completed tasks in the group. */
  lemma {:induction false} CompletedCountIsCountDone(group: seq<Task>)
    ensures CompletedCount(group) == CountDone(group)
  {
    if group != [] {
      CompletedCountIsCountDone(group[1..]);
      assert |Filter(group, Completed())| == (if group[0].isCompleted then 1 else 0) + |Filter(group[1..], Completed())|;
    }
  }

  /** Every task of the group is done exactly when the count reaches the group size. */
  lemma {:induction false} CountDoneAll(group: seq<Task>)
    ensures CountDone(group) <= |group|
    ensures CountDone(group) == |group| <==> forall i :: 0 <= i < |group| ==> group[i].isCompleted
  {
    if group != [] {
      CountDoneAll(group[1..]);
      assert forall i :: 1 <= i < |group| ==> group[1..][i - 1] == group[i];
    }
  }

  /** The badge `completed/total` shows total/total exactly when every task of the group is done. */
  lemma CompletedCountFull(group: seq<Task>)
    ensures CompletedCount(group) == |group| <==> forall i :: 0 <= i < |group| ==> group[i].isCompleted
  {
    CompletedCountIsCountDone(group);
    CountDoneAll(group);
  }
}
