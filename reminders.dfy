/** The household tasks page (src/app/reminders/page.tsx): the upcoming and
    done lists, the overdue marker, the task form and the buttons that tick
    off or delete a task. */
module RemindersPage {
  import opened Wrappers
  import opened Types
  import opened Seqs
  import opened Text
  import opened Store

  function InTasksOf(h: Id): Reminder -> bool {
    (r: Reminder) => r.householdId == h
  }

  function DueDate(r: Reminder): int {
    r.dueDate
  }

  /** `loadData`: the household's tasks, ascending by due date. */
  function LoadTasks(rs: seq<Reminder>, h: Id): (tasks: seq<Reminder>)
    ensures SortedBy(tasks, DueDate)
    ensures multiset(tasks) == multiset(Filter(rs, InTasksOf(h)))
    ensures forall i :: 0 <= i < |tasks| ==> tasks[i].householdId == h
  {
    var mine := Filter(rs, InTasksOf(h));
    var r := SortBy(mine, DueDate);
    assert forall i :: 0 <= i < |r| ==> r[i].householdId == h by {
      forall i | 0 <= i < |r| ensures r[i].householdId == h {
        assert r[i] in multiset(r);
        var j :| 0 <= j < |mine| && mine[j] == r[i];
        assert InTasksOf(h)(mine[j]);
      }
    }
    r
  }

  function IsPending(r: Reminder): bool {
    !r.isDone
  }

  function IsDone(r: Reminder): bool {
    r.isDone
  }

  /** `upcoming`: the tasks not yet done, in the loaded order. */
  function Upcoming(tasks: seq<Reminder>): (r: seq<Reminder>)
    ensures forall x :: x in r <==> x in tasks && !x.isDone
    ensures SortedBy(tasks, DueDate) ==> SortedBy(r, DueDate)
    ensures Subseq(r, tasks)
  {
    FilterIsSubsequence(tasks, IsPending);
    assert SortedBy(tasks, DueDate) ==> SortedBy(Filter(tasks, IsPending), DueDate) by {
      if SortedBy(tasks, DueDate) {
        FilterSorted(tasks, IsPending, DueDate);
      }
    }
    Filter(tasks, IsPending)
  }

  /** `done`: the tasks ticked off, in the loaded order. */
  function Done(tasks: seq<Reminder>): (r: seq<Reminder>)
    ensures forall x :: x in r <==> x in tasks && x.isDone
    ensures SortedBy(tasks, DueDate) ==> SortedBy(r, DueDate)
    ensures Subseq(r, tasks)
  {
    FilterIsSubsequence(tasks, IsDone);
    assert SortedBy(tasks, DueDate) ==> SortedBy(Filter(tasks, IsDone), DueDate) by {
      if SortedBy(tasks, DueDate) {
        FilterSorted(tasks, IsDone, DueDate);
      }
    }
    Filter(tasks, IsDone)
  }

  /** Every loaded task is on exactly one of the two lists. */
  lemma {:induction false} UpcomingDonePartition(tasks: seq<Reminder>)
    ensures forall x :: !(x in Upcoming(tasks) && x in Done(tasks))
    ensures multiset(Upcoming(tasks)) + multiset(Done(tasks)) == multiset(tasks)
  {
    FilterSplit(tasks, IsPending, IsDone);
  }

  /** The calendar day (UTC) an instant falls on, as the `YYYY-MM-DD` part
      of its ISO rendering names it. */
  function DayOf(t: Instant): int {
    t / MsPerDay
  }

  /** `isOverdue`: the due date's day comes before today's. Comparing the
      `YYYY-MM-DD` strings is comparing the days they name; the check comes
      down to the task being due before today started. */
  function IsOverdue(due: Instant, now: Instant): (b: bool)
    ensures b <==> due < DayOf(now) * MsPerDay
  {
    DayOf(due) < DayOf(now)
  }

  /** Only the day of the due date counts, not its time of day. */
  lemma {:induction false} OverdueIgnoresTimeOfDay(day: int, offset: int, now: Instant)
    requires 0 <= offset < MsPerDay
    ensures IsOverdue(day * MsPerDay + offset, now) == IsOverdue(day * MsPerDay, now)
  {
    assert DayOf(day * MsPerDay + offset) == day;
    assert DayOf(day * MsPerDay) == day;
  }

  /** A task due at the start of today is already due for the reminder scan
      (due date at or before now) but is not yet shown as overdue here. */
  lemma {:induction false} DueTodayIsNotOverdue(now: Instant)
    ensures DayOf(now) * MsPerDay <= now
    ensures !IsOverdue(DayOf(now) * MsPerDay, now)
  {
  }

  /** `repeat_days` is truthy: set and not zero. */
  predicate Repeats(r: Reminder) {
    r.repeatDays.Some? && r.repeatDays.value != 0
  }

  /** `toggleDone`: a pending repeating task moves its due date on by its
      period and stays pending; every other toggle flips `is_done`. */
  function TogglePatch(r: Reminder): (patch: ReminderPatch)
    ensures !r.isDone && Repeats(r) ==>
              ApplyToReminder(r, patch) == r.(dueDate := r.dueDate + r.repeatDays.value * MsPerDay)
    ensures r.isDone || !Repeats(r) ==> ApplyToReminder(r, patch) == r.(isDone := !r.isDone)
  {
    if !r.isDone && Repeats(r) then
      NoReminderChange.(dueDate := Some(r.dueDate + r.repeatDays.value * MsPerDay))
    else
      NoReminderChange.(isDone := Some(!r.isDone))
  }

  /** A task that does not repeat comes back to where it was after two
      toggles. */
  lemma {:induction false} ToggleTwiceRestores(r: Reminder)
    requires !Repeats(r)
    ensures var once := ApplyToReminder(r, TogglePatch(r));
            ApplyToReminder(once, TogglePatch(once)) == r
  {
    var once := ApplyToReminder(r, TogglePatch(r));
    assert once == r.(isDone := !r.isDone);
    assert !Repeats(once);
  }

  /** A pending task that repeats every `n > 0` days is never ticked off:
      each toggle moves it `n` days later. */
  lemma {:induction false} RepeatingTaskAdvances(r: Reminder)
    requires !r.isDone && r.repeatDays.Some? && r.repeatDays.value > 0
    ensures var next := ApplyToReminder(r, TogglePatch(r));
            !next.isDone && next.dueDate > r.dueDate && next.repeatDays == r.repeatDays
  {
    assert Repeats(r);
  }

  /** The task form's inputs: the date input holds a day or nothing, the
      repeat input the digits typed into it. */
  datatype TaskForm = TaskForm(title: string, description: string, dueDay: Option<int>, repeatDays: string)

  /** The columns a submitted form writes. */
  datatype TaskFields = TaskFields(title: string, description: Option<string>, dueDate: Instant, repeatDays: Option<int>)

  /** `openForm`: empty for a new task, the task's own values for an edit. */
  function OpenForm(existing: Option<Reminder>): (f: TaskForm)
    ensures existing.None? ==> f == TaskForm("", "", None, "")
    ensures existing.Some? ==> f.title == existing.value.title && f.dueDay == Some(DayOf(existing.value.dueDate))
  {
    match existing
    case None => TaskForm("", "", None, "")
    case Some(r) =>
      TaskForm(r.title, Or(r.description, ""), Some(DayOf(r.dueDate)),
               if r.repeatDays.Some? then IntToString(r.repeatDays.value) else "")
  }

  /** The validation and normalisation of `handleSubmit`: nothing is
      written without a title or a date; the title and description are
      trimmed, a blank description and an empty repeat field become null,
      and the day becomes midnight (UTC) of that day. The number input lets
      only digits through. */
  function FormFields(form: TaskForm): (r: Option<TaskFields>)
    requires form.repeatDays == [] || IsNumeric(form.repeatDays)
    ensures r.None? <==> Trim(form.title) == [] || form.dueDay.None?
    ensures r.Some? ==> && r.value.title == Trim(form.title) && r.value.title != []
                        && r.value.dueDate == form.dueDay.value * MsPerDay
    ensures r.Some? ==> (r.value.description.None? <==> Trim(form.description) == [])
    ensures r.Some? && r.value.description.Some? ==> r.value.description.value == Trim(form.description)
    ensures r.Some? ==> (r.value.repeatDays.None? <==> form.repeatDays == [])
    ensures r.Some? && form.repeatDays != [] ==> r.value.repeatDays == Some(DecimalValue(form.repeatDays))
  {
    var title := Trim(form.title);
    if title == [] || form.dueDay.None? then None
    else
      var description := Trim(form.description);
      Some(TaskFields(title,
                      if description == [] then None else Some(description),
                      form.dueDay.value * MsPerDay,
                      if form.repeatDays == [] then None else Some(DecimalValue(form.repeatDays))))
  }

  /** A task written by the form (trimmed title and description, midnight
      due date, a non-negative period) opens into a form that saves the same
      columns again. */
  lemma {:induction false} OpenThenSaveKeepsTask(r: Reminder)
    requires Trim(r.title) == r.title && r.title != []
    requires r.description.Some? ==> Trim(r.description.value) == r.description.value && r.description.value != []
    requires r.dueDate % MsPerDay == 0
    requires r.repeatDays.Some? ==> r.repeatDays.value >= 0
    ensures OpenForm(Some(r)).repeatDays == [] || IsNumeric(OpenForm(Some(r)).repeatDays)
    ensures FormFields(OpenForm(Some(r))) == Some(TaskFields(r.title, r.description, r.dueDate, r.repeatDays))
  {
    var f := OpenForm(Some(r));
    assert DayOf(r.dueDate) * MsPerDay == r.dueDate;
    if r.repeatDays.Some? {
      NatToStringRoundTrip(r.repeatDays.value);
    }
    if r.description.None? {
      assert f.description == "";
    }
  }

  /** The update an edit sends: the four form columns; `is_done` is kept. */
  function EditPatch(fields: TaskFields): (patch: ReminderPatch)
    ensures forall q :: ApplyToReminder(q, patch) == q.(title := fields.title, description := fields.description,
                                                         dueDate := fields.dueDate, repeatDays := fields.repeatDays)
    ensures forall q :: ApplyToReminder(q, patch).isDone == q.isDone
  {
    ReminderPatch(Some(fields.title), Some(fields.description), Some(fields.dueDate), Some(fields.repeatDays), None)
  }

  /** The row a create inserts: the form columns, the household, not done. */
  function NewTask(householdId: Id, fields: TaskFields, now: Instant): (r: Reminder)
    ensures r.householdId == householdId && !r.isDone
    ensures r.title == fields.title && r.description == fields.description
    ensures r.dueDate == fields.dueDate && r.repeatDays == fields.repeatDays
  {
    Reminder(0, householdId, fields.title, fields.description, fields.dueDate, fields.repeatDays, false, now)
  }

  /** `handleSubmit`: an invalid form writes nothing; otherwise an edit
      updates the task being edited and a create inserts a new one. */
  method Submit(db: Database, householdId: Id, editing: Option<Reminder>, form: TaskForm, now: Instant)
    returns (written: bool)
    requires db.Valid()
    requires form.repeatDays == [] || IsNumeric(form.repeatDays)
    modifies db
    ensures db.Valid()
    ensures written <==> FormFields(form).Some?
    ensures !written ==> db.reminders == old(db.reminders) && db.nextId == old(db.nextId)
    ensures written && editing.Some? ==>
              && db.reminders == PatchedReminders(old(db.reminders), editing.value.id, EditPatch(FormFields(form).value))
              && db.nextId == old(db.nextId)
    ensures written && editing.None? ==>
              && db.reminders == old(db.reminders) + [NewTask(householdId, FormFields(form).value, now).(id := old(db.nextId))]
              && db.nextId == old(db.nextId) + 1
    ensures db.households == old(db.households) && db.products == old(db.products) && db.log == old(db.log)
  {
    var fields := FormFields(form);
    if fields.None? {
      return false;
    }
    var data := fields.value;
    if editing.Some? {
      db.UpdateReminder(editing.value.id,
        ReminderPatch(Some(data.title), Some(data.description), Some(data.dueDate), Some(data.repeatDays), None));
    } else {
      var _ := db.InsertReminder(Reminder(0, householdId, data.title, data.description, data.dueDate,
                                          data.repeatDays, false, now));
    }
    written := true;
  }

  /** `toggleDone`: the update is computed from the page's copy of the task
      and sent to the row with its id. */
  method ToggleDone(db: Database, task: Reminder)
    requires db.Valid()
    modifies db
    ensures db.Valid()
    ensures db.reminders == PatchedReminders(old(db.reminders), task.id, TogglePatch(task))
    ensures db.households == old(db.households) && db.products == old(db.products)
    ensures db.log == old(db.log) && db.nextId == old(db.nextId)
  {
    var patch;
    if !task.isDone && task.repeatDays.Some? && task.repeatDays.value != 0 {
      patch := NoReminderChange.(dueDate := Some(task.dueDate + task.repeatDays.value * MsPerDay));
    } else {
      patch := NoReminderChange.(isDone := Some(!task.isDone));
    }
    assert patch == TogglePatch(task);
    db.UpdateReminder(task.id, patch);
  }

  /** `deleteReminder`: a hard delete. */
  method DeleteTask(db: Database, id: Id)
    requires db.Valid()
    modifies db
    ensures db.Valid()
    ensures db.reminders == Filter(old(db.reminders), IdIsNot(id))
    ensures forall r :: r in db.reminders <==> r in old(db.reminders) && r.id != id
    ensures |db.reminders| <= |old(db.reminders)|
    ensures db.households == old(db.households) && db.products == old(db.products)
    ensures db.log == old(db.log) && db.nextId == old(db.nextId)
  {
    db.DeleteReminder(id);
  }
}
