/** The create/edit dialog of src/components/features/TaskModal.tsx: the form schema,
    the form's default values, and the submit flow, which saves through the task
    service and only then touches the task store. */
module TaskModal {
  import opened Wrappers
  import opened Dates
  import opened Json
  import opened Http
  import opened TaskModel
  import opened TaskStore
  import opened TaskRoute
  import opened TaskService

  /** The form's fields as the inputs hold them: text, and the selects' values. */
  datatype FormValues = FormValues(
    title: string, description: Option<string>, status: string, priority: string,
    dueDate: Option<string>)

  /** `taskFormSchema`: a non-empty title, and a status and priority from their
      enumerations. `handleSubmit` calls `onSubmit` only when it holds. */
  predicate FormAccepts(v: FormValues) {
    |v.title| >= 1 && ParseStatus(v.status).Some? && ParsePriority(v.priority).Some?
  }

  /** `{ ...values, dueDate: values.dueDate ? new Date(values.dueDate) : undefined }` */
  function TaskData(v: FormValues): (p: TaskPatch)
    requires FormAccepts(v)
    ensures p.title == Some(v.title) && p.description == Some(v.description)
    ensures p.status.Some? && StatusName(p.status.value) == v.status
    ensures p.priority.Some? && PriorityName(p.priority.value) == v.priority
    ensures p.dueDate.Some? && (Read(p.dueDate).Some? <==> Truthy(v.dueDate))
    ensures Read(p.dueDate).Some? ==> Read(p.dueDate).value == ParseDate(v.dueDate.value)
    ensures p.id.None? && p.createdAt.None? && p.updatedAt.None? && p.metadata.None?
  {
    NoFields.(
      title := Some(v.title),
      description := Some(v.description),
      status := ParseStatus(v.status),
      priority := ParsePriority(v.priority),
      dueDate := Some(if Truthy(v.dueDate) then Some(ParseDate(v.dueDate.value)) else None))
  }

  /** `d.toISOString().split('T')[0]`: the `YYYY-MM-DD` text of the day. */
  function DatePart(d: Date): (r: Result<string>)
    ensures r.Ok? <==> d.At?
    ensures r.Ok? ==> r.value == DateText(d.instant)
  {
    match d
    case Invalid => Err("Invalid time value")
    case At(t) =>
      DatePartOfIsoString(t);
      Ok(BeforeFirst(ToIsoString(d).value, 'T'))
  }

  /** `defaultValues`: the selected task's values, or the empty form. The due date is
      the part of its ISO text before the `T`; `toISOString` throws on an Invalid
      Date. */
  function DefaultValues(selected: Option<Task>): (r: Result<FormValues>)
    ensures selected.None? ==> r == Ok(FormValues("", Some(""), "TODO", "MEDIUM", Some("")))
    ensures r.Err? <==> selected.Some? && selected.value.dueDate.Some? && selected.value.dueDate.value.Invalid?
    ensures r.Ok? && selected.Some? ==>
              r.value.title == selected.value.title &&
              r.value.description == Some(selected.value.description.GetOr("")) &&
              r.value.status == StatusName(selected.value.status) &&
              r.value.priority == PriorityName(selected.value.priority)
    ensures r.Ok? && selected.Some? && selected.value.dueDate.Some? ==>
              r.value.dueDate == Some(DateText(selected.value.dueDate.value.instant))
    ensures r.Ok? && selected.Some? && selected.value.dueDate.None? ==> r.value.dueDate == Some("")
  {
    match selected
    case None => Ok(FormValues("", Some(""), "TODO", "MEDIUM", Some("")))
    case Some(t) =>
      var due := if t.dueDate.Some? then DatePart(t.dueDate.value) else Ok("");
      if due.Err? then Err(due.message)
      else
        Ok(FormValues(t.title, Some(t.description.GetOr("")), StatusName(t.status),
                      PriorityName(t.priority), Some(due.value)))
  }

  /** A form that still holds the default values derived from task `t` submits the
      task's title, status and priority, and moves its due date to midnight UTC of the
      same day. */
  lemma UnchangedEditKeepsDay(t: Task)
    requires t.dueDate.Some? && t.dueDate.value.At? && |t.title| >= 1
    ensures DefaultValues(Some(t)).Ok? && FormAccepts(DefaultValues(Some(t)).value)
    ensures var p := TaskData(DefaultValues(Some(t)).value);
            p.title == Some(t.title) && p.status == Some(t.status) && p.priority == Some(t.priority) &&
            Read(p.dueDate) == Some(At(StartOfDay(t.dueDate.value.instant)))
  {
    StatusNameRoundTrip(t.status);
    PriorityNameRoundTrip(t.priority);
    DateTextParsesToStartOfDay(t.dueDate.value.instant);
    var v := DefaultValues(Some(t)).value;
    assert |DateText(t.dueDate.value.instant)| >= 4;
    assert Truthy(v.dueDate);
  }

  /** The body a valid form sends passes the server's `taskSchema`, which reads back
      the title, status and priority the form held. (A due date that names no day
      makes `toISOString` throw before anything is sent.) */
  lemma FormBodyPassesTaskSchema(v: FormValues)
    requires FormAccepts(v)
    requires Truthy(v.dueDate) ==> ParseDate(v.dueDate.value).At?
    ensures RequestBody(TaskData(v)).Ok?
    ensures Accepts(RequestBody(TaskData(v)).value)
    ensures var parsed := ParseTask(RequestBody(TaskData(v)).value).value;
            parsed.title == v.title && StatusName(parsed.status) == v.status &&
            PriorityName(parsed.priority) == v.priority
  {
    var p := TaskData(v);
    BodyField(p, "title");
    BodyField(p, "status");
    BodyField(p, "priority");
    BodyField(p, "description");
    BodyField(p, "metadata");
  }

  const SaveFailed := "Failed to save task. Please try again."

  /** The dialog's own state, over the shared task store. */
  class TaskModalView {
    const store: TaskStore
    var isSubmitting: bool
    var error: Option<string>
    /** Every value `setIsSubmitting` has published, in order. */
    ghost var busyLog: seq<bool>

    constructor (store: TaskStore)
      ensures this.store == store && !isSubmitting && error == None && busyLog == []
    {
      this.store := store;
      isSubmitting := false;
      error := None;
      busyLog := [];
    }

    /** The service call `onSubmit` makes for this form. */
    function SaveCall(v: FormValues, reply: HttpOutcome<WireTask>): Call<Task>
      requires FormAccepts(v)
      reads this, store
    {
      if store.selectedTask.Some? then UpdateTask(store.selectedTask.value.id, TaskData(v), reply)
      else CreateTask(TaskData(v), reply)
    }

    /** `onSubmit` once the service `call` has settled: on success the store takes
        the saved task (replacing the selected one, or appended) and the dialog
        closes; on failure the error is shown. `isSubmitting` is true only meanwhile. */
    method Save(call: Call<Task>, now: Instant) returns (sent: Option<Request>)
      modifies this`isSubmitting, this`error, this`busyLog, store`tasks, store`isTaskModalOpen
      ensures busyLog == old(busyLog) + [true, false] && !isSubmitting
      ensures sent == call.sent
      ensures call.result.Ok? ==>
                error == None && !store.isTaskModalOpen &&
                store.tasks == (if store.selectedTask.Some?
                                then UpdateMatching(old(store.tasks), store.selectedTask.value.id,
                                                    Whole(call.result.value), now)
                                else old(store.tasks) + [call.result.value])
      ensures call.result.Err? ==>
                error == Some(SaveFailed) && store.tasks == old(store.tasks) &&
                store.isTaskModalOpen == old(store.isTaskModalOpen)
      ensures store.selectedTask == old(store.selectedTask)
    {
      isSubmitting := true;
      busyLog := busyLog + [true];
      error := None;
      sent := call.sent;
      if call.result.Ok? {
        if store.selectedTask.Some? {
          store.UpdateTask(store.selectedTask.value.id, Whole(call.result.value), now);
        } else {
          store.AddTask(call.result.value);
        }
        store.SetTaskModalOpen(false);
      } else {
        error := Some(SaveFailed);
      }
      isSubmitting := false;
      busyLog := busyLog + [false];
    }

    /** `form.handleSubmit(onSubmit)`, with the service's reply and the clock as
        parameters. The submit button is disabled while a save is under way, so a
        submission starts idle. An invalid form changes nothing. */
    method Submit(v: FormValues, reply: HttpOutcome<WireTask>, now: Instant) returns (sent: Option<Request>)
      requires !isSubmitting
      modifies this`isSubmitting, this`error, this`busyLog, store`tasks, store`isTaskModalOpen
      ensures !isSubmitting
      ensures !FormAccepts(v) ==>
                sent.None? && error == old(error) && busyLog == old(busyLog) &&
                store.tasks == old(store.tasks) && store.isTaskModalOpen == old(store.isTaskModalOpen)
      ensures FormAccepts(v) ==> busyLog == old(busyLog) + [true, false] && !isSubmitting
      ensures FormAccepts(v) ==> sent == old(SaveCall(v, reply)).sent
      ensures FormAccepts(v) && old(SaveCall(v, reply)).result.Ok? ==>
                error == None && !store.isTaskModalOpen &&
                store.tasks == (if old(store.selectedTask).Some?
                                then UpdateMatching(old(store.tasks), old(store.selectedTask).value.id,
                                                    Whole(old(SaveCall(v, reply)).result.value), now)
                                else old(store.tasks) + [old(SaveCall(v, reply)).result.value])
      ensures FormAccepts(v) && old(SaveCall(v, reply)).result.Err? ==>
                error == Some(SaveFailed) && store.tasks == old(store.tasks) &&
                store.isTaskModalOpen == old(store.isTaskModalOpen)
      ensures store.selectedTask == old(store.selectedTask)
    {
      if !FormAccepts(v) {
        return None;
      }
      sent := Save(SaveCall(v, reply), now);
    }
  }
}
