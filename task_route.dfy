/** The task collection endpoint of src/app/api/tasks/route.ts: `taskSchema` as a
    validator, `POST` (validate, then create) and `GET` (all tasks, newest update
    first), each mapping the database's outcome to a JSON response. The database is a
    parameter: what a query reached, or that it failed. */
module TaskRoute {
  import opened Wrappers
  import opened Dates
  import opened Json
  import opened Http
  import opened TaskModel

  // ---- the database and the responses --------------------------------------------

  /** A row of the task table. Timestamps are set by the database and always valid;
      `dueDate`, `description` and `metadata` are nullable columns. */
  datatype TaskRow = TaskRow(
    id: string, title: string, description: Option<string>,
    status: Status, priority: Priority, dueDate: Option<Instant>,
    createdAt: Instant, updatedAt: Instant, metadata: Option<Metadata>)

  /** What a Prisma call came back with, or that it threw. */
  datatype DbOutcome<T> = Done(value: T) | Failed

  datatype Body<T> = Payload(value: T) | ErrorBody(error: string)

  /** `NextResponse.json(body, { status })` */
  datatype Response<T> = Response(status: int, body: Body<T>)

  // ---- taskSchema ----------------------------------------------------------------

  /** `z.string().optional()`: the key is absent or holds a string (`null` is refused). */
  predicate OptionalString(fields: map<string, JsonValue>, key: string) {
    key !in fields || fields[key].JString?
  }

  /** `z.union([z.string(), z.number(), z.boolean(), z.null()])` */
  predicate IsMetaValue(v: JsonValue) {
    v.JString? || v.JNumber? || v.JBool? || v.JNull?
  }

  predicate IsEnumString(v: JsonValue, names: set<string>) {
    v.JString? && v.s in names
  }

  /** `taskSchema` accepts the request body. */
  predicate Accepts(json: JsonValue) {
    json.JObject? &&
    var f := json.fields;
    "title" in f && f["title"].JString? && |f["title"].s| >= 1 &&
    OptionalString(f, "description") &&
    "status" in f && IsEnumString(f["status"], {"TODO", "IN_PROGRESS", "DONE"}) &&
    "priority" in f && IsEnumString(f["priority"], {"LOW", "MEDIUM", "HIGH"}) &&
    OptionalString(f, "dueDate") &&
    ("metadata" !in f ||
      (f["metadata"].JObject? &&
       forall k :: k in f["metadata"].fields ==> IsMetaValue(f["metadata"].fields[k])))
  }

  /** The object `taskSchema.parse` returns: the declared keys only. */
  datatype ValidTask = ValidTask(
    title: string, description: Option<string>, status: Status, priority: Priority,
    dueDate: Option<string>, metadata: Option<Metadata>)

  function ToMeta(v: JsonValue): MetaValue {
    match v
    case JString(s) => MetaString(s)
    case JNumber(n) => MetaNumber(n)
    case JBool(b) => MetaBool(b)
    case _ => MetaNull
  }

  function FromMeta(v: MetaValue): (j: JsonValue)
    ensures IsMetaValue(j) && ToMeta(j) == v
  {
    match v
    case MetaString(s) => JString(s)
    case MetaNumber(n) => JNumber(n)
    case MetaBool(b) => JBool(b)
    case MetaNull => JNull
  }

  /** Metadata as the JSON object it is sent as. */
  function MetadataJson(m: Metadata): (j: JsonValue)
    ensures j.JObject? && j.fields.Keys == m.Keys
    ensures forall k :: k in j.fields ==> IsMetaValue(j.fields[k]) && ToMeta(j.fields[k]) == m[k]
  {
    JObject(map k | k in m :: FromMeta(m[k]))
  }

  function OptionalText(f: map<string, JsonValue>, key: string): Option<string>
    requires OptionalString(f, key)
  {
    if key in f then Some(f[key].s) else None
  }

  /** `taskSchema.parse(json)`: the validated data, or `None` where it throws a ZodError. */
  function ParseTask(json: JsonValue): (r: Option<ValidTask>)
    ensures r.Some? <==> Accepts(json)
    ensures r.Some? ==> |r.value.title| >= 1 && r.value.title == json.fields["title"].s
    ensures r.Some? ==> StatusName(r.value.status) == json.fields["status"].s
    ensures r.Some? ==> PriorityName(r.value.priority) == json.fields["priority"].s
    ensures r.Some? ==> (r.value.description.Some? <==> "description" in json.fields)
    ensures r.Some? ==> (r.value.dueDate.Some? <==> "dueDate" in json.fields)
    ensures r.Some? ==> (r.value.metadata.Some? <==> "metadata" in json.fields)
  {
    if !Accepts(json) then None
    else
      var f := json.fields;
      Some(ValidTask(
        f["title"].s,
        OptionalText(f, "description"),
        ParseStatus(f["status"].s).value,
        ParsePriority(f["priority"].s).value,
        OptionalText(f, "dueDate"),
        if "metadata" in f then Some(map k | k in f["metadata"].fields :: ToMeta(f["metadata"].fields[k]))
        else None))
  }

  /** The keys `taskSchema` declares. */
  const SchemaKeys: set<string> := {"title", "description", "status", "priority", "dueDate", "metadata"}

  /** The value a validated task writes under `key`, if any. */
  function SchemaField(v: ValidTask, key: string): Option<JsonValue> {
    if key == "title" then Some(JString(v.title))
    else if key == "status" then Some(JString(StatusName(v.status)))
    else if key == "priority" then Some(JString(PriorityName(v.priority)))
    else if key == "description" then (if v.description.Some? then Some(JString(v.description.value)) else None)
    else if key == "dueDate" then (if v.dueDate.Some? then Some(JString(v.dueDate.value)) else None)
    else if key == "metadata" then (if v.metadata.Some? then Some(MetadataJson(v.metadata.value)) else None)
    else None
  }

  /** What a validated task looks like as a request body. */
  function ValidTaskJson(v: ValidTask): JsonValue {
    JObject(map k | k in SchemaKeys && SchemaField(v, k).Some? :: SchemaField(v, k).value)
  }

  /** The body holds the three required keys, and each optional key exactly when the
      task has that value. */
  lemma ValidTaskJsonFields(v: ValidTask)
    ensures var f := ValidTaskJson(v).fields;
            "title" in f && f["title"] == JString(v.title) &&
            "status" in f && f["status"] == JString(StatusName(v.status)) &&
            "priority" in f && f["priority"] == JString(PriorityName(v.priority)) &&
            ("description" in f <==> v.description.Some?) &&
            (v.description.Some? ==> f["description"] == JString(v.description.value)) &&
            ("dueDate" in f <==> v.dueDate.Some?) &&
            (v.dueDate.Some? ==> f["dueDate"] == JString(v.dueDate.value)) &&
            ("metadata" in f <==> v.metadata.Some?) &&
            (v.metadata.Some? ==> f["metadata"] == MetadataJson(v.metadata.value))
  {
    assert "title" in SchemaKeys && "status" in SchemaKeys && "priority" in SchemaKeys;
    assert "description" in SchemaKeys && "dueDate" in SchemaKeys && "metadata" in SchemaKeys;
  }

  /** The schema accepts every body written from a task with a non-empty title, and
      reads it back as that task. */
  lemma ParseValidTaskJson(v: ValidTask)
    requires |v.title| >= 1
    ensures ParseTask(ValidTaskJson(v)) == Some(v)
  {
    var json := ValidTaskJson(v);
    var f := json.fields;
    ValidTaskJsonFields(v);
    StatusNameRoundTrip(v.status);
    PriorityNameRoundTrip(v.priority);
    assert Accepts(json);
    assert OptionalText(f, "description") == v.description;
    assert OptionalText(f, "dueDate") == v.dueDate;
    if v.metadata.Some? {
      var m := v.metadata.value;
      var back := map k | k in f["metadata"].fields :: ToMeta(f["metadata"].fields[k]);
      assert back == m;
    }
  }

  // ---- POST ----------------------------------------------------------------------

  /** The `data` handed to `prisma.task.create`: a truthy `dueDate` becomes a date,
      anything else `null`. */
  datatype CreateData = CreateData(
    title: string, description: Option<string>, status: Status, priority: Priority,
    dueDate: Option<Date>, metadata: Option<Metadata>)

  function ToCreateData(v: ValidTask): (d: CreateData)
    ensures d.dueDate.Some? <==> Truthy(v.dueDate)
    ensures d.dueDate.Some? ==> d.dueDate.value == ParseDate(v.dueDate.value)
    ensures d == CreateData(v.title, v.description, v.status, v.priority, d.dueDate, v.metadata)
  {
    CreateData(v.title, v.description, v.status, v.priority,
               if Truthy(v.dueDate) then Some(ParseDate(v.dueDate.value)) else None,
               v.metadata)
  }

  /** What `POST` did: the create call it made, if any, and its response. */
  datatype PostResult = PostResult(created: Option<CreateData>, response: Response<TaskRow>)

  const InvalidTaskData := Response(400, ErrorBody("Invalid task data"))
  const CreateFailed := Response(500, ErrorBody("Failed to create task"))

  /** `POST(request)`: `body` is `request.json()` (which throws on a body that is not
      JSON), `db` the outcome of `prisma.task.create`. */
  function Post(body: Parsed<JsonValue>, db: DbOutcome<TaskRow>): (r: PostResult)
    ensures r.created.Some? <==> body.Valid? && Accepts(body.value)
    ensures r.created.Some? ==> r.created.value == ToCreateData(ParseTask(body.value).value)
    ensures body.Valid? && !Accepts(body.value) ==> r.response == InvalidTaskData
    ensures body.Unreadable? ==> r.response == CreateFailed
    ensures r.created.Some? && db.Done? ==> r.response == Response(201, Payload(db.value))
    ensures r.created.Some? && db.Failed? ==> r.response == CreateFailed
  {
    match body
    case Unreadable(_) => PostResult(None, CreateFailed)
    case Valid(json) =>
      match ParseTask(json)
      case None => PostResult(None, InvalidTaskData)
      case Some(v) =>
        PostResult(Some(ToCreateData(v)),
          match db
          case Done(row) => Response(201, Payload(row))
          case Failed => CreateFailed)
  }

  // ---- GET -----------------------------------------------------------------------

  /** No row was updated later than a row before it. */
  ghost predicate NewestFirst(rows: seq<TaskRow>) {
    forall i, j :: 0 <= i < j < |rows| ==> !Before(rows[i].updatedAt, rows[j].updatedAt)
  }

  lemma NotBeforeTransitive(a: Instant, b: Instant, c: Instant)
    requires !Before(a, b) && !Before(b, c)
    ensures !Before(a, c)
  {
    BeforeTotal(a, b);
    BeforeTotal(b, c);
    if Before(b, a) && Before(c, b) {
      BeforeTransitive(c, b, a);
    }
  }

  /** A row updated no earlier than every row of `tail` and than `r` is updated no
      earlier than any row of a rearrangement of `tail` with `r`. */
  lemma NoneNewerThan(x: TaskRow, r: TaskRow, tail: seq<TaskRow>, rest: seq<TaskRow>)
    requires forall k :: 0 <= k < |tail| ==> !Before(x.updatedAt, tail[k].updatedAt)
    requires !Before(x.updatedAt, r.updatedAt)
    requires multiset(rest) == multiset(tail) + multiset{r}
    ensures forall j :: 0 <= j < |rest| ==> !Before(x.updatedAt, rest[j].updatedAt)
  {
    forall j | 0 <= j < |rest| ensures !Before(x.updatedAt, rest[j].updatedAt) {
      assert rest[j] in multiset(rest);
      if rest[j] != r {
        assert rest[j] in multiset(tail);
        var k :| 0 <= k < |tail| && tail[k] == rest[j];
      }
    }
  }

  /** Puts `r` in front of the first row it was not updated before. */
  function InsertByUpdate(r: TaskRow, sorted: seq<TaskRow>): (s: seq<TaskRow>)
    requires NewestFirst(sorted)
    ensures NewestFirst(s)
    ensures multiset(s) == multiset(sorted) + multiset{r}
  {
    if sorted == [] then [r]
    else if !Before(r.updatedAt, sorted[0].updatedAt) then
      var s := [r] + sorted;
      forall j | 1 <= j < |s| ensures !Before(r.updatedAt, s[j].updatedAt) {
        if j > 1 { NotBeforeTransitive(r.updatedAt, sorted[0].updatedAt, sorted[j - 1].updatedAt); }
      }
      s
    else
      var rest := InsertByUpdate(r, sorted[1..]);
      assert sorted == [sorted[0]] + sorted[1..];
      BeforeTotal(r.updatedAt, sorted[0].updatedAt);
      NoneNewerThan(sorted[0], r, sorted[1..], rest);
      [sorted[0]] + rest
  }

  /** `findMany({ orderBy: { updatedAt: 'desc' } })` over the table's rows. */
  function NewestFirstOrder(table: seq<TaskRow>): (s: seq<TaskRow>)
    ensures NewestFirst(s)
    ensures multiset(s) == multiset(table)
  {
    if table == [] then []
    else
      assert table == [table[0]] + table[1..];
      InsertByUpdate(table[0], NewestFirstOrder(table[1..]))
  }

  const FetchFailed := Response(500, ErrorBody("Failed to fetch tasks"))

  /** `GET()`: `db` is the content of the task table, or the query's failure. */
  function Get(db: DbOutcome<seq<TaskRow>>): (r: Response<seq<TaskRow>>)
    ensures db.Done? ==> r.status == 200 && r.body.Payload?
    ensures db.Done? ==> NewestFirst(r.body.value) && multiset(r.body.value) == multiset(db.value)
    ensures db.Failed? ==> r == FetchFailed
  {
    match db
    case Done(table) => Response(200, Payload(NewestFirstOrder(table)))
    case Failed => FetchFailed
  }
}
