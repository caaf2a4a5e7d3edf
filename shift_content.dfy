/**
 * The shift page: a Monday-first week strip that can be moved a week at a
 * time, a selected date, the shift kind picked for it, and the save button.
 *
 * Calendar dates are day numbers counted from 1970-01-01, a Thursday; the
 * selected date is held as the date string the store is keyed on.
 */
module ShiftContent {
  import opened Wrappers
  import opened Types
  import opened Remote
  import opened Store

  /** `Date.prototype.getDay()`: 0 for Sunday through 6 for Saturday. */
  function Weekday(day: int): (r: int)
    ensures 0 <= r < 7
  {
    (day + 4) % 7
  }

  const Monday := 1

  /** `(getDay() + 6) % 7`: how many days back the week's Monday lies. */
  function MondayOffset(day: int): (r: int)
    ensures 0 <= r < 7
    ensures Weekday(day - r) == Monday
  {
    (Weekday(day) + 6) % 7
  }

  /** The Monday on or before `day`. */
  function WeekStart(day: int): (r: int)
    ensures r <= day < r + 7
    ensures Weekday(r) == Monday
  {
    day - MondayOffset(day)
  }

  /** No other Monday lies within the six days before `day`. */
  lemma WeekStartUnique(day: int, m: int)
    requires Weekday(m) == Monday && m <= day < m + 7
    ensures m == WeekStart(day)
  {
    var w := WeekStart(day);
    assert (m + 4) % 7 == (w + 4) % 7;
    assert -7 < m - w < 7;
    assert (m - w) % 7 == 0 by {
      ModDiff(m + 4, w + 4);
    }
  }

  /** Two numbers with the same remainder differ by a multiple of 7. */
  lemma ModDiff(a: int, b: int)
    requires a % 7 == b % 7
    ensures (a - b) % 7 == 0
  {
    assert a == 7 * (a / 7) + a % 7;
    assert b == 7 * (b / 7) + b % 7;
    assert a - b == 7 * (a / 7 - b / 7);
  }

  /** `getWeekDates(baseDate)`: the seven days of the week holding `baseDate`, Monday first. */
  method GetWeekDates(baseDate: int) returns (dates: seq<int>)
    ensures |dates| == 7
    ensures dates[0] == WeekStart(baseDate)
    ensures Weekday(dates[0]) == Monday && dates[0] <= baseDate <= dates[6]
    ensures forall i :: 0 < i < 7 ==> dates[i] == dates[i - 1] + 1
    ensures baseDate in dates
  {
    var day := Weekday(baseDate);
    var monday := baseDate - (day + 6) % 7;
    dates := [];
    for i := 0 to 7
      invariant |dates| == i
      invariant forall j :: 0 <= j < i ==> dates[j] == monday + j
    {
      dates := dates + [monday + i];
    }
    assert dates[baseDate - monday] == baseDate;
  }

  /** `baseDate`: today moved by `weekOffset` whole weeks. */
  function BaseDate(today: int, weekOffset: int): (r: int)
    ensures Weekday(r) == Weekday(today)
  {
    ModShift(today + 4, weekOffset);
    today + weekOffset * 7
  }

  /** Adding a multiple of 7 keeps the remainder. */
  lemma ModShift(a: int, k: int)
    ensures (a + k * 7) % 7 == a % 7
  {
    assert a == 7 * (a / 7) + a % 7;
    assert a + k * 7 == 7 * (a / 7 + k) + a % 7;
  }

  /** Moving `k` weeks moves the shown week by exactly `7 * k` days. */
  lemma WeekOfOffset(today: int, k: int)
    ensures WeekStart(BaseDate(today, k)) == WeekStart(today) + 7 * k
  {
    var b := BaseDate(today, k);
    var m := WeekStart(today) + 7 * k;
    ModShift(WeekStart(today) + 4, k);
    assert Weekday(m) == Monday;
    WeekStartUnique(b, m);
  }

  /** `user?.id ?? ""`. */
  function UserId(user: Option<User>): (r: string)
    ensures user.Some? ==> r == user.value.id
    ensures user.None? ==> r == ""
  {
    match user
    case Some(u) => u.id
    case None => ""
  }

  /** `getShift(userId, date)?.shiftType ?? null`: the kind stored for the date, if any. */
  function StoredKind(shifts: seq<Shift>, userId: string, date: string): (r: Option<ShiftType>)
    ensures r.Some? <==> exists i :: 0 <= i < |shifts| && shifts[i].userId == userId && shifts[i].date == date
    ensures r.Some? ==> exists i :: (0 <= i < |shifts| && shifts[i].userId == userId && shifts[i].date == date
      && shifts[i].shiftType == r.value)
  {
    match GetShift(shifts, userId, date)
    case Some(s) => Some(s.shiftType)
    case None => None
  }

  /** The page's state. */
  class ShiftPage {
    var weekOffset: int
    var selectedDate: string
    var localShift: Option<ShiftType>
    var saved: bool
    var saving: bool

    /** A fresh page: this week, today selected, and today's stored kind picked. */
    constructor (store: AppProvider, today: string)
      ensures weekOffset == 0 && selectedDate == today && !saved && !saving
      ensures localShift == StoredKind(store.Shifts(), UserId(store.user), today)
    {
      weekOffset := 0;
      selectedDate := today;
      localShift := StoredKind(store.Shifts(), UserId(store.user), today);
      saved := false;
      saving := false;
    }

    /** The previous-week and next-week arrows. */
    method MoveWeek(delta: int)
      requires delta == -1 || delta == 1
      modifies this
      ensures weekOffset == old(weekOffset) + delta
      ensures selectedDate == old(selectedDate) && localShift == old(localShift)
      ensures saved == old(saved) && saving == old(saving)
    {
      weekOffset := weekOffset + delta;
    }

    /**
     * The sync memo: the picked kind follows the stored one and `saved` is
     * cleared. React runs it whenever the selected date, the user id or
     * `getShift` (rebuilt on every refetch of the shifts) changes.
     */
    method Sync(store: AppProvider)
      modifies this
      ensures localShift == StoredKind(store.Shifts(), UserId(store.user), selectedDate) && !saved
      ensures selectedDate == old(selectedDate) && weekOffset == old(weekOffset) && saving == old(saving)
    {
      localShift := StoredKind(store.Shifts(), UserId(store.user), selectedDate);
      saved := false;
    }

    /** Clicking a day of the strip; the memo runs only when the date actually changes. */
    method SelectDate(store: AppProvider, date: string)
      modifies this
      ensures selectedDate == date && weekOffset == old(weekOffset) && saving == old(saving)
      ensures date != old(selectedDate) ==>
        localShift == StoredKind(store.Shifts(), UserId(store.user), date) && !saved
      ensures date == old(selectedDate) ==> localShift == old(localShift) && saved == old(saved)
    {
      if date != selectedDate {
        selectedDate := date;
        Sync(store);
      }
    }

    /** Clicking one of the four kind buttons. */
    method PickShift(kind: ShiftType)
      modifies this
      ensures localShift == Some(kind)
      ensures selectedDate == old(selectedDate) && weekOffset == old(weekOffset)
      ensures saved == old(saved) && saving == old(saving)
    {
      localShift := Some(kind);
    }

    /**
     * `handleSave`: nothing happens without a picked kind or a signed-in user;
     * otherwise the pair is upserted. On success the refetched shifts re-run the
     * sync memo, which finds the kind just written, and then `saved` is set;
     * `saving` is cleared whatever the outcome.
     */
    method HandleSave(store: AppProvider, newId: string, rejected: bool)
      requires store.db.Valid()
      modifies this, store, store.db
      ensures store.db.Valid()
      ensures weekOffset == old(weekOffset) && selectedDate == old(selectedDate) && localShift == old(localShift)
      ensures store.user == old(store.user) && store.authReady == old(store.authReady)
      ensures store.db.tasks == old(store.db.tasks) && store.db.profiles == old(store.db.profiles)
      ensures store.profileData == old(store.profileData) && store.taskData == old(store.taskData)
      ensures old(localShift).None? || UserId(old(store.user)) == "" ==>
        saved == old(saved) && saving == old(saving) && store.db.shifts == old(store.db.shifts)
        && store.shiftData == old(store.shiftData)
      ensures old(localShift).Some? && UserId(old(store.user)) != "" ==>
        !saving && saved == (old(saved) || !rejected)
        && store.db.shifts == (if rejected then old(store.db.shifts)
           else UpsertShiftRows(old(store.db.shifts), newId, UserId(old(store.user)), selectedDate, localShift.value))
        && store.shiftData == if !rejected && store.KeysActive() then Some(FetchShifts(store.db.shifts)) else old(store.shiftData)
      ensures old(localShift).Some? && UserId(old(store.user)) != "" && !rejected && store.KeysActive() ==>
        StoredKind(store.Shifts(), UserId(store.user), selectedDate) == localShift
    {
      var userId := UserId(store.user);
      if localShift.None? || userId == "" {
        return;
      }
      saving := true;
      var ok := store.UpsertShift(userId, selectedDate, localShift.value, newId, rejected);
      if ok {
        if store.KeysActive() {
          Sync(store);
        }
        saved := true;
      }
      saving := false;
    }
  }
}
