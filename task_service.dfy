/** The client's task transport, src/services/taskService.ts: each call sends one
    request and turns the reply into tasks or into the message it throws. The reply is
    a parameter. A call that throws before sending (`toISOString` on an Invalid Date)
    sends nothing. */
module TaskService {
  import opened Wrappers
  import opened Dates
  import opened Json
  import opened Http
  import opened TaskModel
  import opened TaskRoute

  /** A task as it arrives in a response: dates are ISO text, and `null` columns read
      as absent. */
  datatype WireTask = WireTask(
    id: string, title: string, description: Option<string>,
    status: Status, priority: Priority, dueDate: Option<string>,
    createdAt: Option<string>, updatedAt: Option<string>, metadata: Option<Metadata>)

  /** The request a call sent, if it got that far, and what it returned or threw. */
  datatype Call<T> = Call(sent: Option<Request>, result: Result<T>)

  // ---- errors --------------------------------------------------------------------

  /** `error.error || fallback`, where an unreadable failure body reads as
      `{ error: fallback }`. */
  function ErrorMessage(payload: Parsed<ErrorPayload>, fallback: string): (m: string)
    ensures payload.Valid? && Truthy(payload.value.error) ==> m == payload.value.error.value
    ensures !(payload.Valid? && Truthy(payload.value.error)) ==> m == fallback
    ensures fallback != "" ==> m != ""
  {
    match payload
    case Valid(ErrorPayload(e)) => if Truthy(e) then e.value else fallback
    case Unreadable(_) => fallback
  }

  /** The body of an ok reply, or the message the call throws: `fetch`'s rejection,
      the failure payload's message, or the SyntaxError of an unreadable body. */
  function Settle<T>(reply: HttpOutcome<T>, fallback: string): (r: Result<T>)
    ensures r.Ok? <==> reply.Success? && reply.body.Valid?
    ensures r.Ok? ==> r.value == reply.body.value
    ensures reply.ErrorStatus? ==> r == Err(ErrorMessage(reply.payload, fallback))
    ensures reply.NetworkError? ==> r == Err(reply.reason)
  {
    match reply
    case NetworkError(reason) => Err(reason)
    case ErrorStatus(payload) => Err(ErrorMessage(payload, fallback))
    case Success(Unreadable(reason)) => Err(reason)
    case Success(Valid(v)) => Ok(v)
  }

  /** A failed call never throws an empty message when it falls back to the
      operation's own. */
  lemma StatusFailureMessage<T>(reply: HttpOutcome<T>, fallback: string)
    requires reply.ErrorStatus? && fallback != ""
    ensures Settle(reply, fallback).Err? && Settle(reply, fallback).message != ""
  {
  }

  // ---- normalisation -------------------------------------------------------------

  /** `{ ...task, dueDate: task.dueDate ? new Date(task.dueDate) : undefined,
      createdAt: new Date(task.createdAt), updatedAt: new Date(task.updatedAt) }` */
  function Normalize(w: WireTask): (t: Task)
    ensures t.dueDate.Some? <==> Truthy(w.dueDate)
    ensures t.dueDate.Some? ==> t.dueDate.value == ParseDate(w.dueDate.value)
    ensures t.createdAt == DateOf(w.createdAt) && t.updatedAt == DateOf(w.updatedAt)
    ensures t == Task(w.id, w.title, w.description, w.status, w.priority, t.dueDate,
                      t.createdAt, t.updatedAt, w.metadata)
  {
    Task(w.id, w.title, w.description, w.status, w.priority,
         if Truthy(w.dueDate) then Some(ParseDate(w.dueDate.value)) else None,
         DateOf(w.createdAt), DateOf(w.updatedAt), w.metadata)
  }

  /** `tasks.map(normalize)` */
  function NormalizeAll(ws: seq<WireTask>): (ts: seq<Task>)
    ensures |ts| == |ws|
    ensures forall i :: 0 <= i < |ws| ==> ts[i] == Normalize(ws[i])
  {
    seq(|ws|, i requires 0 <= i < |ws| => Normalize(ws[i]))
  }

  /** `instant.toISOString()` */
  function IsoOf(t: Instant): string {
    DateText(t) + TimeText(t)
  }

  /** A row as `NextResponse.json` writes it: dates become ISO text. */
  function RowAsSent(row: TaskRow): WireTask {
    WireTask(row.id, row.title, row.description, row.status, row.priority,
             if row.dueDate.Some? then Some(IsoOf(row.dueDate.value)) else None,
             Some(IsoOf(row.createdAt)), Some(IsoOf(row.updatedAt)), row.metadata)
  }

  /** The task a row stands for. */
  function RowTask(row: TaskRow): Task {
    Task(row.id, row.title, row.description, row.status, row.priority,
         if row.dueDate.Some? then Some(At(row.dueDate.value)) else None,
         At(row.createdAt), At(row.updatedAt), row.metadata)
  }

  /** What the server sends of a row, the client reads back as that row: every date
      survives the ISO text, and a null due date stays absent. */
  lemma NormalizeRowAsSent(row: TaskRow)
    ensures Normalize(RowAsSent(row)) == RowTask(row)
  {
    ParseIsoOf(At(row.createdAt));
    ParseIsoOf(At(row.updatedAt));
    if row.dueDate.Some? {
      ParseIsoOf(At(row.dueDate.value));
    }
  }

  // ---- outgoing bodies -----------------------------------------------------------

  function Entry(key: string, v: Option<JsonValue>): (m: map<string, JsonValue>)
    ensures m.Keys <= {key}
    ensures key in m <==> v.Some?
    ensures key in m ==> m[key] == v.value
  {
    if v.Some? then map[key := v.value] else map[]
  }

  /** `JSON.stringify` of a `Date` field other than `dueDate`: `toJSON` writes `null`
      for an Invalid Date. */
  function DateJson(d: Date): JsonValue {
    match d
    case At(t) => JString(IsoOf(t))
    case Invalid => JNull
  }

  /** The value `taskData` holds under `key`, as `JSON.stringify` writes it;
      `None` for an absent or `undefined` one. */
  function FieldJson(data: TaskPatch, key: string): Option<JsonValue> {
    if key == "id" then (if data.id.Some? then Some(JString(data.id.value)) else None)
    else if key == "title" then (if data.title.Some? then Some(JString(data.title.value)) else None)
    else if key == "description" then
      (if Read(data.description).Some? then Some(JString(Read(data.description).value)) else None)
    else if key == "status" then
      (if data.status.Some? then Some(JString(StatusName(data.status.value))) else None)
    else if key == "priority" then
      (if data.priority.Some? then Some(JString(PriorityName(data.priority.value))) else None)
    else if key == "createdAt" then
      (if data.createdAt.Some? then Some(DateJson(data.createdAt.value)) else None)
    else if key == "updatedAt" then
      (if data.updatedAt.Some? then Some(DateJson(data.updatedAt.value)) else None)
    else if key == "metadata" then
      (if Read(data.metadata).Some? then Some(MetadataJson(Read(data.metadata).value)) else None)
    else None
  }

  /** The keys of `Partial<Task>` other than `dueDate`. */
  const OtherKeys: set<string> :=
    {"id", "title", "description", "status", "priority", "createdAt", "updatedAt", "metadata"}

  /** The keys of `taskData` other than `dueDate`, as `JSON.stringify` writes them. */
  function OtherFields(data: TaskPatch): (f: map<string, JsonValue>)
    ensures "dueDate" !in f
    ensures forall k :: k in f <==> k in OtherKeys && FieldJson(data, k).Some?
  {
    map k | k in OtherKeys && FieldJson(data, k).Some? :: FieldJson(data, k).value
  }

  /** `JSON.stringify({ ...taskData, dueDate: taskData.dueDate?.toISOString() })`:
      `undefined` values leave their key out, and `toISOString` throws on an Invalid
      due date. */
  function RequestBody(data: TaskPatch): (r: Result<JsonValue>)
    ensures r.Err? <==> Read(data.dueDate).Some? && Read(data.dueDate).value.Invalid?
    ensures r.Ok? ==> r.value.JObject?
    ensures r.Ok? ==> ("dueDate" in r.value.fields <==> Read(data.dueDate).Some?)
    ensures r.Ok? && Read(data.dueDate).Some? ==>
              r.value.fields["dueDate"] == JString(ToIsoString(Read(data.dueDate).value).value)
  {
    var due := Read(data.dueDate);
    if due.Some? && due.value.Invalid? then Err("Invalid time value")
    else
      Ok(JObject(OtherFields(data) +
        Entry("dueDate", if due.Some? then Some(JString(ToIsoString(due.value).value)) else None)))
  }

  /** Every key other than `dueDate` is sent exactly when the data has a value for it,
      as that value. */
  lemma BodyField(data: TaskPatch, key: string)
    requires RequestBody(data).Ok? && key in OtherKeys
    ensures key in RequestBody(data).value.fields <==> FieldJson(data, key).Some?
    ensures FieldJson(data, key).Some? ==> RequestBody(data).value.fields[key] == FieldJson(data, key).value
  {
    assert key != "dueDate";
  }

  /** The due date sent is read back by `new Date(...)` as the same date. */
  lemma SentDueDateRoundTrip(data: TaskPatch)
    requires RequestBody(data).Ok? && Read(data.dueDate).Some?
    ensures RequestBody(data).value.fields["dueDate"].JString?
    ensures ParseDate(RequestBody(data).value.fields["dueDate"].s) == Read(data.dueDate).value
  {
    ParseIsoOf(Read(data.dueDate).value);
  }

  // ---- the four calls ------------------------------------------------------------

  const TasksUrl := "/api/tasks"

  function TaskUrl(id: string): (u: string)
    ensures u == TasksUrl + "/" + id
  {
    "/api/tasks/" + id
  }

  /** `TaskService.fetchTasks()` */
  function FetchTasks(reply: HttpOutcome<seq<WireTask>>): (c: Call<seq<Task>>)
    ensures c.sent == Some(Request("GET", TasksUrl, None))
    ensures c.result.Ok? <==> reply.Success? && reply.body.Valid?
    ensures c.result.Ok? ==> c.result.value == NormalizeAll(reply.body.value)
    ensures c.result.Err? ==> c.result.message == Settle(reply, "Failed to fetch tasks").message
  {
    var r := Settle(reply, "Failed to fetch tasks");
    Call(Some(Request("GET", TasksUrl, None)),
         if r.Ok? then Ok(NormalizeAll(r.value)) else Err(r.message))
  }

  /** The shared tail of create and update: send `body` and read one task back. */
  function SendTask(verb: string, url: string, data: TaskPatch, reply: HttpOutcome<WireTask>,
                    fallback: string): (c: Call<Task>)
    ensures c.sent.None? <==> RequestBody(data).Err?
    ensures c.sent.None? ==> c.result == Err("Invalid time value")
    ensures c.sent.Some? ==> c.sent.value == Request(verb, url, Some(RequestBody(data).value))
    ensures c.sent.Some? && c.result.Ok? <==> c.sent.Some? && reply.Success? && reply.body.Valid?
    ensures c.sent.Some? && c.result.Ok? ==> c.result.value == Normalize(reply.body.value)
    ensures c.sent.Some? && c.result.Err? ==> c.result.message == Settle(reply, fallback).message
  {
    match RequestBody(data)
    case Err(e) => Call(None, Err(e))
    case Ok(body) =>
      var r := Settle(reply, fallback);
      Call(Some(Request(verb, url, Some(body))),
           if r.Ok? then Ok(Normalize(r.value)) else Err(r.message))
  }

  /** `TaskService.createTask(taskData)` */
  function CreateTask(data: TaskPatch, reply: HttpOutcome<WireTask>): (c: Call<Task>)
    ensures c == SendTask("POST", TasksUrl, data, reply, "Failed to create task")
    ensures c.sent.Some? ==> c.sent.value.verb == "POST" && c.sent.value.url == TasksUrl
  {
    SendTask("POST", TasksUrl, data, reply, "Failed to create task")
  }

  /** `TaskService.updateTask(id, taskData)` */
  function UpdateTask(id: string, data: TaskPatch, reply: HttpOutcome<WireTask>): (c: Call<Task>)
    ensures c == SendTask("PATCH", TaskUrl(id), data, reply, "Failed to update task")
    ensures c.sent.Some? ==> c.sent.value.verb == "PATCH" && c.sent.value.url == TasksUrl + "/" + id
  {
    SendTask("PATCH", TaskUrl(id), data, reply, "Failed to update task")
  }

  /** `TaskService.deleteTask(id)`: an ok reply's body is never read. */
  function DeleteTask(id: string, reply: HttpOutcome<()>): (c: Call<()>)
    ensures c.sent == Some(Request("DELETE", TasksUrl + "/" + id, None))
    ensures c.result.Ok? <==> reply.Success?
    ensures reply.ErrorStatus? ==> c.result == Err(ErrorMessage(reply.payload, "Failed to delete task"))
    ensures reply.NetworkError? ==> c.result == Err(reply.reason)
  {
    Call(Some(Request("DELETE", TaskUrl(id), None)),
         match reply
         case NetworkError(reason) => Err(reason)
         case ErrorStatus(payload) => Err(ErrorMessage(payload, "Failed to delete task"))
         case Success(_) => Ok(()))
  }

  // ---- the service against the route ---------------------------------------------

  /** How a route's response reaches the client: a 2xx status is ok and its payload
      is read through `write`; any other status is a failure whose body carries the
      error. */
  function Delivered<T, U>(resp: Response<T>, write: T -> U): HttpOutcome<U> {
    if 200 <= resp.status < 300 && resp.body.Payload? then Success(Valid(write(resp.body.value)))
    else if resp.body.ErrorBody? then ErrorStatus(Valid(ErrorPayload(Some(resp.body.error))))
    else ErrorStatus(Valid(ErrorPayload(None)))
  }

  function RowsAsSent(rows: seq<TaskRow>): (ws: seq<WireTask>)
    ensures |ws| == |rows| && forall i :: 0 <= i < |rows| ==> ws[i] == RowAsSent(rows[i])
  {
    seq(|rows|, i requires 0 <= i < |rows| => RowAsSent(rows[i]))
  }

  /** Fetching from a reachable table yields every row exactly once, as the task it
      stands for, most recently updated first. */
  lemma FetchAfterGet(table: seq<TaskRow>)
    ensures var c := FetchTasks(Delivered(Get(Done(table)), RowsAsSent));
            c.result.Ok? &&
            exists rows :: NewestFirst(rows) && multiset(rows) == multiset(table) &&
                           c.result.value == seq(|rows|, i requires 0 <= i < |rows| => RowTask(rows[i]))
  {
    var rows := Get(Done(table)).body.value;
    var c := FetchTasks(Delivered(Get(Done(table)), RowsAsSent));
    forall i | 0 <= i < |rows| ensures c.result.value[i] == RowTask(rows[i]) {
      NormalizeRowAsSent(rows[i]);
    }
    assert c.result.value == seq(|rows|, i requires 0 <= i < |rows| => RowTask(rows[i]));
  }

  /** When the route fails, the client throws the route's own message. */
  lemma FetchAfterFailedGet()
    ensures FetchTasks(Delivered(Get(Failed), RowsAsSent)).result == Err("Failed to fetch tasks")
  {
  }

  /** A create the schema refuses reaches the client as 'Invalid task data'; one the
      database refuses as 'Failed to create task'; one that succeeds as the created
      row. */
  lemma CreateAgainstPost(data: TaskPatch, db: DbOutcome<TaskRow>)
    requires RequestBody(data).Ok?
    ensures var body := RequestBody(data).value;
            var c := CreateTask(data, Delivered(Post(Valid(body), db).response, RowAsSent));
            (!Accepts(body) ==> c.result == Err("Invalid task data")) &&
            (Accepts(body) && db.Failed? ==> c.result == Err("Failed to create task")) &&
            (Accepts(body) && db.Done? ==> c.result == Ok(RowTask(db.value)))
  {
    if db.Done? {
      NormalizeRowAsSent(db.value);
    }
  }
}
