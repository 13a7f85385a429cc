/** The tasks page: the statistics cards, the overdue classification, the
    query each tab issues, the required-field gate, the task form and its
    defaults, and the priority badges. */
module TasksPage {
  import opened Text
  import opened Js
  import opened RecordStore
  import opened TaskService

  // ---------------------------------------------------------------------------
  // Overdue tasks and the statistics cards

  /** The calendar the page reads dates with: the current instant and a
      parser of ISO date strings (`None` for an invalid date), both as time
      values, and the local calendar day an instant falls on. */
  datatype Calendar = Calendar(now: int, parseIso: string -> Option<int>, dayOf: int -> int)

  /** `isOverdue(dueDate)`: a missing or unparsable date is never overdue;
      otherwise the date is in the past and not today. */
  predicate IsOverdue(due: Value, cal: Calendar) {
    if !Truthy(due) || !due.Str? then false
    else match cal.parseIso(due.s)
      case None => false
      case Some(t) => t < cal.now && cal.dayOf(t) != cal.dayOf(cal.now)
  }

  /** Later instants never fall on earlier days. */
  ghost predicate MonotoneDays(cal: Calendar) {
    forall t1, t2 :: t1 <= t2 ==> cal.dayOf(t1) <= cal.dayOf(t2)
  }

  /** With a calendar whose days follow time, a task is overdue exactly when
      its due date parses and falls on a day before today. */
  lemma OverdueMeansEarlierDay(due: Value, cal: Calendar)
    requires MonotoneDays(cal)
    ensures IsOverdue(due, cal) <==>
      Truthy(due) && due.Str? && cal.parseIso(due.s).Some?
      && cal.dayOf(cal.parseIso(due.s).value) < cal.dayOf(cal.now)
  {
    if Truthy(due) && due.Str? && cal.parseIso(due.s).Some? {
      var t := cal.parseIso(due.s).value;
      if t < cal.now {
        assert cal.dayOf(t) <= cal.dayOf(cal.now);
      } else {
        assert cal.dayOf(cal.now) <= cal.dayOf(t);
      }
    }
  }

  predicate HasStatus(t: Obj, status: string) {
    StrictEquals(Get(t, "status_c"), Str(status))
  }

  /** `tasks.filter(t => t.status_c === status).length`. */
  function CountStatus(tasks: seq<Obj>, status: string): nat {
    if tasks == [] then 0 else (if HasStatus(tasks[0], status) then 1 else 0) + CountStatus(tasks[1..], status)
  }

  /** `tasks.filter(t => t.status_c === "Open" && isOverdue(t.due_date_c)).length`. */
  function CountOverdue(tasks: seq<Obj>, cal: Calendar): nat {
    if tasks == [] then 0
    else
      var here := if HasStatus(tasks[0], "Open") && IsOverdue(Get(tasks[0], "due_date_c"), cal) then 1 else 0;
      here + CountOverdue(tasks[1..], cal)
  }

  /** The four statistics cards. */
  datatype Stats = Stats(total: nat, completed: nat, open: nat, overdue: nat)

  /** `getTaskStats()`. */
  function TaskStats(tasks: seq<Obj>, cal: Calendar): Stats {
    Stats(|tasks|, CountStatus(tasks, "Completed"), CountStatus(tasks, "Open"), CountOverdue(tasks, cal))
  }

  /** Overdue tasks are among the open ones, and no task counts both as
      completed and as open. */
  lemma {:induction false} StatsBounds(tasks: seq<Obj>, cal: Calendar)
    ensures var s := TaskStats(tasks, cal);
      s.overdue <= s.open && s.completed + s.open <= s.total
  {
    if tasks != [] {
      StatsBounds(tasks[1..], cal);
    }
  }

  /** Counting over a concatenation adds the counts: the cards of a list
      are the sums of the cards of its parts. */
  lemma {:induction false} StatsAppend(a: seq<Obj>, b: seq<Obj>, cal: Calendar)
    ensures CountStatus(a + b, "Open") == CountStatus(a, "Open") + CountStatus(b, "Open")
    ensures CountStatus(a + b, "Completed") == CountStatus(a, "Completed") + CountStatus(b, "Completed")
    ensures CountOverdue(a + b, cal) == CountOverdue(a, cal) + CountOverdue(b, cal)
  {
    if a != [] {
      assert (a + b)[1..] == a[1..] + b;
      StatsAppend(a[1..], b, cal);
    } else {
      assert a + b == b;
    }
  }

  // ---------------------------------------------------------------------------
  // The query of each tab

  /** The parameters `loadTasks` fetches with on tab `tab`: the three bucket
      tabs call their getters without filters, "all-tasks" and any other tab
      call `getAll(filters)`. */
  function TabQuery(tab: string, filters: Obj, clock: Clock): FetchParams {
    match tab
    case "due-today" => BucketParams(DueToday, map[], clock)
    case "upcoming" => BucketParams(Upcoming, map[], clock)
    case "completed" => BucketParams(Completed, map[], clock)
    case _ => AllTasksParams(filters)
  }

  /** The bucket tabs fetch exactly the fixed prefix of their bucket, so the
      page's filters never narrow them; every other tab fetches the
      all-tasks query of the page's filters. */
  lemma TabQueryMeaning(tab: string, filters: Obj, clock: Clock)
    ensures tab == "due-today" ==> TabQuery(tab, filters, clock).where == Some(BucketPrefix(DueToday, clock))
    ensures tab == "upcoming" ==> TabQuery(tab, filters, clock).where == Some(BucketPrefix(Upcoming, clock))
    ensures tab == "completed" ==> TabQuery(tab, filters, clock).where == Some(BucketPrefix(Completed, clock))
    ensures tab !in {"due-today", "upcoming", "completed"} ==> TabQuery(tab, filters, clock) == AllTasksParams(filters)
  {
    BucketConditionsSteps(map[]);
    assert BucketPrefix(DueToday, clock) + [] == BucketPrefix(DueToday, clock);
    assert BucketPrefix(Upcoming, clock) + [] == BucketPrefix(Upcoming, clock);
    assert BucketPrefix(Completed, clock) + [] == BucketPrefix(Completed, clock);
  }

  /** The page's "type" filter has no effect on the all-tasks query. */
  lemma TypeFilterIgnored(filters: Obj, v: Value)
    ensures AllTasksParams(filters["type" := v]) == AllTasksParams(filters)
  {
    var g := filters["type" := v];
    AllTasksWhereSteps(filters);
    AllTasksWhereSteps(g);
    assert Get(g, "status") == Get(filters, "status");
    assert Get(g, "priority") == Get(filters, "priority");
    assert Get(g, "contact") == Get(filters, "contact");
    assert Get(g, "deal") == Get(filters, "deal");
  }

  // ---------------------------------------------------------------------------
  // The task form

  /** The task form's values. */
  datatype TaskForm = TaskForm(
    name: Value, description: Value, priority: Value, dueDate: Value,
    contact: Value, deal: Value, taskType: Value, notes: Value)

  /** The form as the record handed to the service. */
  function FormRecord(form: TaskForm): Obj {
    map[
      "Name" := form.name, "description_c" := form.description, "priority_c" := form.priority,
      "due_date_c" := form.dueDate, "contact_c" := form.contact, "deal_c" := form.deal,
      "type_c" := form.taskType, "notes_c" := form.notes
    ]
  }

  /** The empty form: priority Medium, type Follow-up Call, everything else "". */
  const DefaultTaskForm: TaskForm :=
    TaskForm(Str(""), Str(""), Str("Medium"), Str(""), Str(""), Str(""), Str("Follow-up Call"), Str(""))

  /** The gate of create and update: name, description and due date set. */
  predicate HasRequiredFields(form: TaskForm) {
    Truthy(form.name) && Truthy(form.description) && Truthy(form.dueDate)
  }

  /** A freshly reset form cannot be saved. */
  lemma DefaultFormBlocked()
    ensures !HasRequiredFields(DefaultTaskForm)
    ensures DefaultTaskForm.priority == Str("Medium") && DefaultTaskForm.taskType == Str("Follow-up Call")
  {
  }

  /** `prefix` starts `s`, and `s` starts `t`. */
  lemma StartsWithTrans(t: string, s: string, prefix: string)
    requires StartsWith(t, s) && StartsWith(s, prefix)
    ensures StartsWith(t, prefix)
  {
    assert t[..|prefix|] == s[..|prefix|];
  }

  /** The due date of the edit form as written: the date, a `T`, and the
      first five characters of the second piece; `+` binds tighter than
      `||`, so a missing time piece is concatenated as the text "undefined"
      and the `|| ''` never applies. */
  function DueDateForEditAsWritten(s: string): string {
    var parts := Split(s, 'T');
    var time := if |parts| > 1 then Take(parts[1], 5) else "undefined";
    var joined := parts[0] + "T" + time;
    if joined != "" then joined else ""
  }

  /** A stored date without a time part opens as that date followed by
      "Tundefined", which is not a date-time at all; with the intended
      reading it would open as the date followed by "T". */
  lemma DueDateForEditAsWrittenNoTime(s: string)
    requires 'T' !in s
    ensures DueDateForEditAsWritten(s) == s + "Tundefined"
    ensures DueDateForEditAsWritten(s) != DueDateForEdit(s)
  {
    SplitFirstPieces(s, 'T');
    assert (s + "Tundefined")[|s| + 1] == 'u';
  }

  /** The time piece, cut to five characters; "" when there is none. */
  function TimePiece(parts: seq<string>): string {
    if |parts| > 1 then Take(parts[1], 5) else ""
  }

  /** For a date with a time part, the date, `T` and the cut time piece start the date. */
  lemma TimePieceStarts(s: string)
    ensures var parts := Split(s, 'T');
      'T' in s ==> StartsWith(s, parts[0] + "T" + TimePiece(parts))
  {
    var parts := Split(s, 'T');
    SplitFirstPieces(s, 'T');
    if 'T' in s {
      var time := TimePiece(parts);
      assert StartsWith(parts[0] + "T" + parts[1], parts[0] + "T" + time) by {
        assert (parts[0] + "T" + parts[1])[..|parts[0]| + 1 + |time|] == parts[0] + "T" + time;
      }
      StartsWithTrans(s, parts[0] + "T" + parts[1], parts[0] + "T" + time);
    }
  }

  /** The due date of the edit form, with the `|| ''` applied to the time
      piece as intended: the date, a `T`, and at most five characters of
      time. */
  function DueDateForEdit(s: string): (r: string)
    ensures 'T' in s ==> StartsWith(s, r) && |r| <= |DatePart(s)| + 6
    ensures StartsWith(r, DatePart(s) + "T")
    ensures 'T' !in s ==> r == s + "T"
  {
    var parts := Split(s, 'T');
    SplitFirstPieces(s, 'T');
    TimePieceStarts(s);
    assert (parts[0] + "T" + TimePiece(parts))[..|parts[0]| + 1] == parts[0] + "T";
    parts[0] + "T" + TimePiece(parts)
  }

  /** When the stored date has a time part, both readings give the same text. */
  lemma DueDateForEditAgrees(s: string)
    requires 'T' in s
    ensures DueDateForEditAsWritten(s) == DueDateForEdit(s)
  {
    SplitFirstPieces(s, 'T');
  }

  /** `task.due_date_c ? … : ''`. */
  function DueDateField(v: Value): string {
    if Truthy(v) && v.Str? then DueDateForEdit(v.s) else ""
  }

  /** `x?.Id || ""`: the id of a linked record. */
  function LinkedId(v: Value): Value {
    Or(Prop(v, "Id"), Str(""))
  }

  /** The form `openEditModal(task)` fills in. */
  function EditForm(task: Obj): TaskForm {
    TaskForm(
      Get(task, "Name"), Get(task, "description_c"), Get(task, "priority_c"),
      Str(DueDateField(Get(task, "due_date_c"))),
      LinkedId(Get(task, "contact_c")), LinkedId(Get(task, "deal_c")),
      Get(task, "type_c"), Or(Get(task, "notes_c"), Str("")))
  }

  /** Saving the edit form unchanged sends the task's own name, description,
      priority and type, the linked contact and deal as parsed ids (or
      `null` when there is no link), and no status: the form has none. */
  lemma EditThenUpdate(id: Value, task: Obj)
    ensures var r := TaskService.UpdateRecord(id, FormRecord(EditForm(task)));
      && r["Name"] == Get(task, "Name") && r["description_c"] == Get(task, "description_c")
      && r["priority_c"] == Get(task, "priority_c") && r["type_c"] == Get(task, "type_c")
      && r["contact_c"] == (if Truthy(Prop(Get(task, "contact_c"), "Id")) then ParsedInt(Prop(Get(task, "contact_c"), "Id")) else Null)
      && r["deal_c"] == (if Truthy(Prop(Get(task, "deal_c"), "Id")) then ParsedInt(Prop(Get(task, "deal_c"), "Id")) else Null)
      && r["status_c"] == Undefined
  {
    var d := FormRecord(EditForm(task));
    assert Get(d, "Name") == Get(task, "Name");
    assert Get(d, "description_c") == Get(task, "description_c");
    assert Get(d, "priority_c") == Get(task, "priority_c");
    assert Get(d, "type_c") == Get(task, "type_c");
    assert Get(d, "contact_c") == LinkedId(Get(task, "contact_c"));
    assert Get(d, "deal_c") == LinkedId(Get(task, "deal_c"));
    assert Get(d, "status_c") == Undefined;
  }

  // ---------------------------------------------------------------------------
  // Priority badges

  /** A badge: its variant and its text. */
  datatype Badge = Badge(variant: string, text: string)

  /** `getPriorityBadge(priority)`. */
  function PriorityBadge(p: Value): (b: Badge)
    ensures p == Str("High") ==> b == Badge("error", "High")
    ensures p == Str("Medium") ==> b == Badge("warning", "Medium")
    ensures p == Str("Low") ==> b == Badge("secondary", "Low")
    ensures p !in {Str("High"), Str("Medium"), Str("Low")} ==> b == Badge("default", "Normal")
  {
    match p
    case Str("High") => Badge("error", "High")
    case Str("Medium") => Badge("warning", "Medium")
    case Str("Low") => Badge("secondary", "Low")
    case _ => Badge("default", "Normal")
  }

  /** The three known priorities get three different variants, and each
      shows its own name. */
  lemma PriorityBadgesDistinct(p: Value, q: Value)
    requires p in {Str("High"), Str("Medium"), Str("Low")} && q in {Str("High"), Str("Medium"), Str("Low")}
    ensures PriorityBadge(p).text == p.s
    ensures p != q ==> PriorityBadge(p).variant != PriorityBadge(q).variant
  {
  }

  // ---------------------------------------------------------------------------
  // The page state

  class Page {
    var tasks: seq<Obj>
    var loading: bool
    var error: Option<string>
    var activeTab: string
    var showTaskModal: bool
    var editingTask: Option<Obj>
    var taskForm: TaskForm
    var filters: Obj

    constructor ()
      ensures tasks == [] && loading && error == None && activeTab == "due-today"
      ensures !showTaskModal && editingTask == None && taskForm == DefaultTaskForm
      ensures filters == map["priority" := Str(""), "contact" := Str(""), "deal" := Str(""), "type" := Str("")]
    {
      tasks := [];
      loading := true;
      error := None;
      activeTab := "due-today";
      showTaskModal := false;
      editingTask := None;
      taskForm := DefaultTaskForm;
      filters := map["priority" := Str(""), "contact" := Str(""), "deal" := Str(""), "type" := Str("")];
    }

    /** The statistics cards of the loaded tasks. */
    function Stats(cal: Calendar): (s: Stats)
      reads this
      ensures s.total == |tasks| && s.overdue <= s.open && s.completed + s.open <= s.total
    {
      StatsBounds(tasks, cal);
      TaskStats(tasks, cal)
    }

    /** `loadTasks()`: fetches with the query of the active tab and shows
        what the getter returns; the getters report their own failures and
        return an empty list, so the page's error is cleared. */
    method LoadTasks(clock: Clock, reply: Response) returns (query: FetchParams)
      modifies this
      ensures query == TabQuery(activeTab, filters, clock)
      ensures tasks == ReadTaskList(reply) && error == None && !loading
      ensures activeTab == old(activeTab) && filters == old(filters) && taskForm == old(taskForm)
      ensures showTaskModal == old(showTaskModal) && editingTask == old(editingTask)
    {
      loading := true;
      query := TabQuery(activeTab, filters, clock);
      tasks := ReadTaskList(reply);
      error := None;
      loading := false;
    }

    /** `resetTaskForm()`. */
    method ResetTaskForm()
      modifies this
      ensures taskForm == DefaultTaskForm
      ensures tasks == old(tasks) && loading == old(loading) && error == old(error)
      ensures activeTab == old(activeTab) && filters == old(filters)
      ensures showTaskModal == old(showTaskModal) && editingTask == old(editingTask)
    {
      taskForm := DefaultTaskForm;
    }

    /** `handleCreateTask()`: a form without name, description or due date
        is refused and nothing is sent; otherwise the form's create record is
        sent, and a returned task closes the modal, resets the form and asks
        for a reload. */
    method HandleCreateTask(reply: Response) returns (sent: Option<Obj>, reload: bool)
      modifies this
      ensures !HasRequiredFields(old(taskForm)) ==> sent == None && !reload && unchanged(this)
      ensures HasRequiredFields(old(taskForm)) ==> sent == Some(TaskService.CreateRecord(FormRecord(old(taskForm))))
      ensures reload <==> HasRequiredFields(old(taskForm)) && Saved(reply)
      ensures reload ==> !showTaskModal && taskForm == DefaultTaskForm
      ensures !reload ==> showTaskModal == old(showTaskModal) && taskForm == old(taskForm)
      ensures tasks == old(tasks) && editingTask == old(editingTask) && activeTab == old(activeTab)
      ensures filters == old(filters) && loading == old(loading) && error == old(error)
    {
      if !HasRequiredFields(taskForm) {
        return None, false;
      }
      sent := Some(TaskService.CreateRecord(FormRecord(taskForm)));
      reload := Saved(reply);
      if reload {
        showTaskModal := false;
        ResetTaskForm();
      }
    }

    /** `handleUpdateTask()`: the same gate; the update record of the task
        being edited is sent, and a returned task also ends the editing.
        Without a task being edited, reading its Id throws and nothing is sent. */
    method HandleUpdateTask(reply: Response) returns (sent: Option<Obj>, reload: bool)
      modifies this
      ensures !HasRequiredFields(old(taskForm)) || old(editingTask) == None ==> sent == None && !reload && unchanged(this)
      ensures HasRequiredFields(old(taskForm)) && old(editingTask).Some? ==>
        sent == Some(TaskService.UpdateRecord(Get(old(editingTask).value, "Id"), FormRecord(old(taskForm))))
      ensures reload <==> HasRequiredFields(old(taskForm)) && old(editingTask).Some? && Saved(reply)
      ensures reload ==> !showTaskModal && taskForm == DefaultTaskForm && editingTask == None
      ensures !reload ==> showTaskModal == old(showTaskModal) && taskForm == old(taskForm) && editingTask == old(editingTask)
      ensures tasks == old(tasks) && activeTab == old(activeTab)
      ensures filters == old(filters) && loading == old(loading) && error == old(error)
    {
      if !HasRequiredFields(taskForm) || editingTask == None {
        return None, false;
      }
      sent := Some(TaskService.UpdateRecord(Get(editingTask.value, "Id"), FormRecord(taskForm)));
      reload := Saved(reply);
      if reload {
        showTaskModal := false;
        editingTask := None;
        ResetTaskForm();
      }
    }

    /** `openEditModal(task)`. */
    method OpenEditModal(task: Obj)
      modifies this
      ensures editingTask == Some(task) && taskForm == EditForm(task) && showTaskModal
      ensures tasks == old(tasks) && activeTab == old(activeTab) && filters == old(filters)
      ensures loading == old(loading) && error == old(error)
    {
      editingTask := Some(task);
      taskForm := EditForm(task);
      showTaskModal := true;
    }
  }

  /** The service returned a task: `if (result)` on what `create` or `update` returned. */
  predicate Saved(reply: Response) {
    var result := ReadTaskSave(reply);
    result.Some? && Truthy(result.value)
  }
}
