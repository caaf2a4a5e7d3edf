/**
 * The shared vocabulary of lib/types.ts: the four enumerations as closed
 * datatypes (each value knows the exact string literal the application stores
 * and displays), the three persisted records, the two derived input shapes the
 * store accepts (`Omit<Task, "id">` and `Partial<Task>`), and the option tables
 * the forms render.
 */
module Types {
  import opened Wrappers

  /** "日勤" | "夜勤" | "明け" | "休日": day shift, night shift, the day after a night shift, day off. */
  datatype ShiftType = DayShift | NightShift | AfterNight | DayOff {
    function Name(): string {
      match this
      case DayShift => "日勤"
      case NightShift => "夜勤"
      case AfterNight => "明け"
      case DayOff => "休日"
    }
  }

  /** "夫" | "妻": the two partners. */
  datatype Role = Husband | Wife {
    function Name(): string {
      match this
      case Husband => "夫"
      case Wife => "妻"
    }
  }

  /** "料理" | "洗濯" | "掃除" | "育児" | "買い物" | "その他". */
  datatype TaskCategory = Cooking | Laundry | Cleaning | Childcare | Shopping | OtherChore {
    function Name(): string {
      match this
      case Cooking => "料理"
      case Laundry => "洗濯"
      case Cleaning => "掃除"
      case Childcare => "育児"
      case Shopping => "買い物"
      case OtherChore => "その他"
    }
  }

  /** "毎日" | "週2回" | "週3回" | "隔週" | "週1回": a descriptive label only, never expanded into dates. */
  datatype TaskFrequency = Daily | TwiceAWeek | ThreeTimesAWeek | EveryOtherWeek | OnceAWeek {
    function Name(): string {
      match this
      case Daily => "毎日"
      case TwiceAWeek => "週2回"
      case ThreeTimesAWeek => "週3回"
      case EveryOtherWeek => "隔週"
      case OnceAWeek => "週1回"
    }
  }

  datatype Profile = Profile(id: string, userId: string, name: string, role: Role)

  datatype Shift = Shift(id: string, userId: string, date: string, shiftType: ShiftType)

  /** Only `category`, `durationMinutes` and `frequency` are optional. */
  datatype Task = Task(
    id: string,
    assigneeId: string,
    title: string,
    category: Option<TaskCategory>,
    durationMinutes: Option<int>,
    date: string,
    isCompleted: bool,
    frequency: Option<TaskFrequency>)

  /** `Omit<Task, "id">`: what `addTask` takes; the remote store assigns the id. */
  datatype TaskDraft = TaskDraft(
    assigneeId: string,
    title: string,
    category: Option<TaskCategory>,
    durationMinutes: Option<int>,
    date: string,
    isCompleted: bool,
    frequency: Option<TaskFrequency>)

  /** `Partial<Task>`: what `updateTask` takes; `None` is a field left `undefined`. */
  datatype TaskUpdates = TaskUpdates(
    id: Option<string>,
    assigneeId: Option<string>,
    title: Option<string>,
    category: Option<TaskCategory>,
    durationMinutes: Option<int>,
    date: Option<string>,
    isCompleted: Option<bool>,
    frequency: Option<TaskFrequency>)

  /** An update that sets no field. */
  const NoUpdates := TaskUpdates(None, None, None, None, None, None, None, None)

  /** The task `addTask(draft)` stores once the remote store has given it `id`. */
  function WithId(draft: TaskDraft, id: string): (t: Task)
    ensures t.id == id && t.title == draft.title && t.date == draft.date && t.isCompleted == draft.isCompleted
    ensures t.assigneeId == draft.assigneeId && t.category == draft.category
    ensures t.durationMinutes == draft.durationMinutes && t.frequency == draft.frequency
  {
    Task(id, draft.assigneeId, draft.title, draft.category, draft.durationMinutes,
         draft.date, draft.isCompleted, draft.frequency)
  }

  /** One entry of SHIFT_TYPES: the kind, its emoji and its label (`labelText`, as `label` is a Dafny keyword). */
  datatype ShiftTypeInfo = ShiftTypeInfo(kind: ShiftType, icon: string, labelText: string)

  /** SHIFT_TYPES, in the order the shift picker shows them. */
  const ShiftTypes: seq<ShiftTypeInfo> := [
    ShiftTypeInfo(DayShift, "\U{1F305}", "日勤"),
    ShiftTypeInfo(NightShift, "\U{1F319}", "夜勤"),
    ShiftTypeInfo(AfterNight, "\U{1F634}", "明け"),
    ShiftTypeInfo(DayOff, "\U{1F3E0}", "休日")
  ]

  /** CATEGORIES, the category picker's options. */
  const Categories: seq<TaskCategory> := [Cooking, Laundry, Cleaning, Childcare, Shopping, OtherChore]

  /** FREQUENCIES, the frequency picker's options. */
  const Frequencies: seq<TaskFrequency> := [Daily, TwiceAWeek, ThreeTimesAWeek, EveryOtherWeek, OnceAWeek]

  /** No value of `s` occurs twice. */
  predicate Distinct<T(==)>(s: seq<T>) {
    forall i, j :: 0 <= i < j < |s| ==> s[i] != s[j]
  }

  function Kinds(table: seq<ShiftTypeInfo>): (r: seq<ShiftType>)
    ensures |r| == |table| && forall i :: 0 <= i < |r| ==> r[i] == table[i].kind
  {
    seq(|table|, i requires 0 <= i < |table| => table[i].kind)
  }

  /**
   * SHIFT_TYPES lists each of the four shift kinds exactly once, in the order
   * 日勤, 夜勤, 明け, 休日, and labels each with its own literal; so ShiftType has
   * exactly four values.
   */
  lemma ShiftTypesComplete()
    ensures Kinds(ShiftTypes) == [DayShift, NightShift, AfterNight, DayOff]
    ensures Distinct(Kinds(ShiftTypes))
    ensures forall st: ShiftType :: st in Kinds(ShiftTypes)
    ensures forall i :: 0 <= i < |ShiftTypes| ==> ShiftTypes[i].labelText == ShiftTypes[i].kind.Name()
  {
    var kinds := Kinds(ShiftTypes);
    assert kinds == [DayShift, NightShift, AfterNight, DayOff];
    forall st: ShiftType ensures st in kinds {
      match st
      case DayShift => assert kinds[0] == st;
      case NightShift => assert kinds[1] == st;
      case AfterNight => assert kinds[2] == st;
      case DayOff => assert kinds[3] == st;
    }
  }

  /** CATEGORIES lists each of the six categories exactly once; so TaskCategory has exactly six values. */
  lemma CategoriesComplete()
    ensures |Categories| == 6 && Distinct(Categories)
    ensures forall c: TaskCategory :: c in Categories
  {
    forall c: TaskCategory ensures c in Categories {
      match c
      case Cooking => assert Categories[0] == c;
      case Laundry => assert Categories[1] == c;
      case Cleaning => assert Categories[2] == c;
      case Childcare => assert Categories[3] == c;
      case Shopping => assert Categories[4] == c;
      case OtherChore => assert Categories[5] == c;
    }
  }

  /** FREQUENCIES lists each of the five frequencies exactly once; so TaskFrequency has exactly five values. */
  lemma FrequenciesComplete()
    ensures |Frequencies| == 5 && Distinct(Frequencies)
    ensures forall f: TaskFrequency :: f in Frequencies
  {
    forall f: TaskFrequency ensures f in Frequencies {
      match f
      case Daily => assert Frequencies[0] == f;
      case TwiceAWeek => assert Frequencies[1] == f;
      case ThreeTimesAWeek => assert Frequencies[2] == f;
      case EveryOtherWeek => assert Frequencies[3] == f;
      case OnceAWeek => assert Frequencies[4] == f;
    }
  }

  /** Distinct kinds have distinct literals, so the stored string identifies the kind. */
  lemma NamesInjective()
    ensures forall a: ShiftType, b: ShiftType :: a.Name() == b.Name() ==> a == b
    ensures forall a: TaskCategory, b: TaskCategory :: a.Name() == b.Name() ==> a == b
    ensures forall a: TaskFrequency, b: TaskFrequency :: a.Name() == b.Name() ==> a == b
  {
  }
}
