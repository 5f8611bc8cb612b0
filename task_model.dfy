/** The Task entity of src/models/task.ts: its value, the constructor's defaults,
    `toJSON`/`fromJSON` and the in-place `update`.

    `Partial<Task>` is a `TaskPatch`. For a field the entity always has, `None` means
    the key is absent; for an optional field there is one more level:
    `None` is an absent key, `Some(None)` a key present with value `undefined`, which
    object spread and `Object.assign` copy like any other value. */
module TaskModel {
  import opened Wrappers
  import opened Dates

  datatype Status = TODO | IN_PROGRESS | DONE
  datatype Priority = LOW | MEDIUM | HIGH

  /** The literal a status is written as, in JSON and in the schemas. */
  function StatusName(s: Status): string {
    match s
    case TODO => "TODO"
    case IN_PROGRESS => "IN_PROGRESS"
    case DONE => "DONE"
  }

  /** Membership in `['TODO', 'IN_PROGRESS', 'DONE']`, read back as a status. */
  function ParseStatus(s: string): (r: Option<Status>)
    ensures r.Some? ==> StatusName(r.value) == s
  {
    if s == "TODO" then Some(TODO)
    else if s == "IN_PROGRESS" then Some(IN_PROGRESS)
    else if s == "DONE" then Some(DONE)
    else None
  }

  /** Every status's literal is accepted and read back as that status. */
  lemma StatusNameRoundTrip(s: Status)
    ensures ParseStatus(StatusName(s)) == Some(s)
  {
  }

  function PriorityName(p: Priority): string {
    match p
    case LOW => "LOW"
    case MEDIUM => "MEDIUM"
    case HIGH => "HIGH"
  }

  /** Membership in `['LOW', 'MEDIUM', 'HIGH']`, read back as a priority. */
  function ParsePriority(s: string): (r: Option<Priority>)
    ensures r.Some? ==> PriorityName(r.value) == s
  {
    if s == "LOW" then Some(LOW)
    else if s == "MEDIUM" then Some(MEDIUM)
    else if s == "HIGH" then Some(HIGH)
    else None
  }

  lemma PriorityNameRoundTrip(p: Priority)
    ensures ParsePriority(PriorityName(p)) == Some(p)
  {
  }

  /** The value of a metadata entry: `string | number | boolean | null`. */
  datatype MetaValue = MetaString(s: string) | MetaNumber(n: real) | MetaBool(b: bool) | MetaNull

  type Metadata = map<string, MetaValue>

  datatype Task = Task(
    id: string,
    title: string,
    description: Option<string>,
    status: Status,
    priority: Priority,
    dueDate: Option<Date>,
    createdAt: Date,
    updatedAt: Date,
    metadata: Option<Metadata>)

  /** `Partial<Task>`. */
  datatype TaskPatch = TaskPatch(
    id: Option<string>,
    title: Option<string>,
    description: Option<Option<string>>,
    status: Option<Status>,
    priority: Option<Priority>,
    dueDate: Option<Option<Date>>,
    createdAt: Option<Date>,
    updatedAt: Option<Date>,
    metadata: Option<Option<Metadata>>)

  /** `{}` */
  const NoFields := TaskPatch(None, None, None, None, None, None, None, None, None)

  /** The value of an optional field read from a patch: an absent key reads as `undefined`. */
  function Read<T>(f: Option<Option<T>>): Option<T> {
    if f.Some? then f.value else None
  }

  /** `{ ...t }`: every field of the task, as a patch. */
  function Whole(t: Task): TaskPatch {
    TaskPatch(Some(t.id), Some(t.title), Some(t.description), Some(t.status), Some(t.priority),
              Some(t.dueDate), Some(t.createdAt), Some(t.updatedAt), Some(t.metadata))
  }

  /** `{ ...base, ...top }`: the keys of `top` override those of `base`. */
  function Spread(base: TaskPatch, top: TaskPatch): TaskPatch {
    TaskPatch(
      if top.id.Some? then top.id else base.id,
      if top.title.Some? then top.title else base.title,
      if top.description.Some? then top.description else base.description,
      if top.status.Some? then top.status else base.status,
      if top.priority.Some? then top.priority else base.priority,
      if top.dueDate.Some? then top.dueDate else base.dueDate,
      if top.createdAt.Some? then top.createdAt else base.createdAt,
      if top.updatedAt.Some? then top.updatedAt else base.updatedAt,
      if top.metadata.Some? then top.metadata else base.metadata)
  }

  /** `new Task(data)`, with `new Date()` read as `now`. `data.x || default` keeps a
      supplied value unless it is falsy; the only falsy values these fields can hold
      are the empty string and `undefined`, and a `Date` object is never falsy. */
  function Construct(data: TaskPatch, now: Instant): Task {
    Task(
      data.id.GetOr(""),
      data.title.GetOr(""),
      Read(data.description),
      data.status.GetOr(TODO),
      data.priority.GetOr(MEDIUM),
      Read(data.dueDate),
      data.createdAt.GetOr(At(now)),
      data.updatedAt.GetOr(At(now)),
      Read(data.metadata))
  }

  /** The constructor's defaults: id and title '', status TODO, priority MEDIUM,
      timestamps `now`, optional fields absent, when `data` supplies nothing. */
  lemma ConstructDefaults(now: Instant)
    ensures Construct(NoFields, now) ==
      Task("", "", None, TODO, MEDIUM, None, At(now), At(now), None)
  {
  }

  /** The constructor keeps every field a whole task supplies, so rebuilding a task
      from its own fields changes nothing, whatever the clock says. */
  lemma ConstructWhole(t: Task, now: Instant)
    ensures Construct(Whole(t), now) == t
  {
  }

  /** `Object.assign(t, p)`: every key present in `p` is written to `t`, the others
      keep their value. */
  function Assign(t: Task, p: TaskPatch): Task {
    Task(
      p.id.GetOr(t.id),
      p.title.GetOr(t.title),
      p.description.GetOr(t.description),
      p.status.GetOr(t.status),
      p.priority.GetOr(t.priority),
      p.dueDate.GetOr(t.dueDate),
      p.createdAt.GetOr(t.createdAt),
      p.updatedAt.GetOr(t.updatedAt),
      p.metadata.GetOr(t.metadata))
  }

  /** `{ updatedAt: now }` */
  function Stamp(now: Instant): TaskPatch {
    NoFields.(updatedAt := Some(At(now)))
  }

  /** The value `t.update(data)` leaves behind. */
  function Updated(t: Task, data: TaskPatch, now: Instant): Task {
    Assign(t, Spread(data, Stamp(now)))
  }

  /** `update` writes exactly the supplied fields, keeps the others, and stamps
      `updatedAt` with the current time even when `data` supplies an `updatedAt`. */
  lemma UpdatedFields(t: Task, data: TaskPatch, now: Instant)
    ensures Updated(t, data, now).updatedAt == At(now)
    ensures Updated(t, data, now) == Assign(t, data).(updatedAt := At(now))
    ensures data.title.None? ==> Updated(t, data, now).title == t.title
    ensures data.description.None? ==> Updated(t, data, now).description == t.description
    ensures data.dueDate.None? ==> Updated(t, data, now).dueDate == t.dueDate
    ensures data.metadata.None? ==> Updated(t, data, now).metadata == t.metadata
    ensures data.createdAt.None? ==> Updated(t, data, now).createdAt == t.createdAt
  {
  }

  /** Updating with an empty patch only refreshes `updatedAt`; updating twice with the
      same patch is updating once, at the later time. */
  lemma UpdatedIdempotent(t: Task, data: TaskPatch, now1: Instant, now2: Instant)
    ensures Updated(t, NoFields, now1) == t.(updatedAt := At(now1))
    ensures Updated(Updated(t, data, now1), data, now2) == Updated(t, data, now2)
  {
  }

  /** Rebuilding a task through the constructor from `{ ...t, ...p }`, as the task
      store does, gives the same task as assigning `p` onto it in place. */
  lemma ConstructSpreadIsAssign(t: Task, p: TaskPatch, now: Instant)
    ensures Construct(Spread(Whole(t), p), now) == Assign(t, p)
  {
  }

  // ---- toJSON / fromJSON ---------------------------------------------------------

  /** The plain object `toJSON` returns and `fromJSON` reads. Fields of other JSON
      types than the ones declared here are not modelled. */
  datatype TaskJson = TaskJson(
    id: Option<string>,
    title: Option<string>,
    description: Option<string>,
    status: Option<Status>,
    priority: Option<Priority>,
    dueDate: Option<string>,
    createdAt: Option<string>,
    updatedAt: Option<string>,
    metadata: Option<string>)

  /** `JSON.stringify` and `JSON.parse` applied to metadata; `decode` is `None` where
      `JSON.parse` throws. */
  datatype MetadataCodec = MetadataCodec(encode: Metadata -> string, decode: string -> Option<Metadata>)

  /** The codec reads `m` back from what it writes for it, and that text is not empty
      (a JSON object's text never is). `JSON.stringify`/`JSON.parse` do this for the
      metadata a task holds, but not for every number (-0, NaN and the infinities do
      not come back), so the hypothesis is stated per value. */
  predicate ReadsBack(codec: MetadataCodec, m: Metadata) {
    codec.decode(codec.encode(m)) == Some(m) && codec.encode(m) != ""
  }

  /** Every date of the task is a real time value, so `toISOString` succeeds on it. */
  predicate HasValidDates(t: Task) {
    t.createdAt.At? && t.updatedAt.At? && (t.dueDate.Some? ==> t.dueDate.value.At?)
  }

  /** `t.toJSON()`: `toISOString` throws a RangeError on an Invalid Date. */
  function ToJson(t: Task, codec: MetadataCodec): (r: Result<TaskJson>)
    ensures r.Ok? <==> HasValidDates(t)
    ensures r.Ok? ==> r.value.createdAt.Some? && r.value.updatedAt.Some?
    ensures r.Ok? ==> (r.value.dueDate.Some? <==> t.dueDate.Some?)
    ensures r.Ok? ==> (r.value.metadata.Some? <==> t.metadata.Some?)
    ensures r.Err? ==> r.message == "Invalid time value"
  {
    var due := if t.dueDate.Some? then Some(ToIsoString(t.dueDate.value)) else None;
    var created := ToIsoString(t.createdAt);
    var updated := ToIsoString(t.updatedAt);
    if (due.Some? && due.value.Err?) || created.Err? || updated.Err? then
      Err("Invalid time value")
    else
      Ok(TaskJson(
        Some(t.id), Some(t.title), t.description, Some(t.status), Some(t.priority),
        if due.Some? then Some(due.value.value) else None,
        Some(created.value), Some(updated.value),
        if t.metadata.Some? then Some(codec.encode(t.metadata.value)) else None))
  }

  /** A JSON text field, absent or empty: falsy. */
  predicate Truthy(s: Option<string>) {
    s.Some? && s.value != ""
  }

  /** `new Date(json.x)`: an absent field gives `new Date(undefined)`, an Invalid Date. */
  function DateOf(s: Option<string>): Date {
    if s.Some? then ParseDate(s.value) else Invalid
  }

  /** `Task.fromJSON(json)`; `JSON.parse` of unreadable metadata throws. */
  function FromJson(json: TaskJson, codec: MetadataCodec, now: Instant): (r: Result<Task>)
    ensures r.Ok? ==> (r.value.dueDate.None? <==> !Truthy(json.dueDate))
    ensures r.Ok? ==> (r.value.metadata.None? <==> !Truthy(json.metadata))
    ensures r.Err? <==> Truthy(json.metadata) && codec.decode(json.metadata.value).None?
  {
    var meta: Option<Option<Metadata>> :=
      if Truthy(json.metadata) then
        (match codec.decode(json.metadata.value)
         case Some(m) => Some(Some(m))
         case None => None)
      else Some(None);
    if meta.None? then Err("SyntaxError: metadata is not valid JSON")
    else
      Ok(Construct(TaskPatch(
        json.id, json.title, Some(json.description), json.status, json.priority,
        Some(if Truthy(json.dueDate) then Some(ParseDate(json.dueDate.value)) else None),
        Some(DateOf(json.createdAt)), Some(DateOf(json.updatedAt)),
        meta), now))
  }

  lemma ParseIsoOf(d: Date)
    requires d.At?
    ensures ToIsoString(d).Ok? && ToIsoString(d).value != ""
    ensures ParseDate(ToIsoString(d).value) == d
  {
    IsoRoundTrip(d.instant);
  }

  /** `Task.fromJSON(t.toJSON())` is `t` again, field by field, whenever its dates are
      real time values and the metadata codec reads its metadata back. */
  lemma {:induction false} JsonRoundTrip(t: Task, codec: MetadataCodec, now: Instant)
    requires HasValidDates(t)
    requires t.metadata.Some? ==> ReadsBack(codec, t.metadata.value)
    ensures ToJson(t, codec).Ok?
    ensures FromJson(ToJson(t, codec).value, codec, now) == Ok(t)
  {
    var json := ToJson(t, codec).value;
    ParseIsoOf(t.createdAt);
    ParseIsoOf(t.updatedAt);
    if t.dueDate.Some? {
      ParseIsoOf(t.dueDate.value);
    }
    if t.metadata.Some? {
      assert codec.decode(codec.encode(t.metadata.value)) == Some(t.metadata.value);
    }
  }

  // ---- the object itself -----------------------------------------------------------

  /** A `Task` instance: the constructor fills its fields and `update` overwrites them. */
  class TaskEntity {
    var id: string
    var title: string
    var description: Option<string>
    var status: Status
    var priority: Priority
    var dueDate: Option<Date>
    var createdAt: Date
    var updatedAt: Date
    var metadata: Option<Metadata>

    function Value(): Task
      reads this
    {
      Task(id, title, description, status, priority, dueDate, createdAt, updatedAt, metadata)
    }

    constructor (data: TaskPatch, now: Instant)
      ensures Value() == Construct(data, now)
    {
      id := data.id.GetOr("");
      title := data.title.GetOr("");
      description := Read(data.description);
      status := data.status.GetOr(TODO);
      priority := data.priority.GetOr(MEDIUM);
      dueDate := Read(data.dueDate);
      createdAt := data.createdAt.GetOr(At(now));
      updatedAt := data.updatedAt.GetOr(At(now));
      metadata := Read(data.metadata);
    }

    /** `update(data)`: `Object.assign(this, { ...data, updatedAt: new Date() })`. */
    method Update(data: TaskPatch, now: Instant)
      modifies this
      ensures Value() == Updated(old(Value()), data, now)
    {
      var p := Spread(data, Stamp(now));
      id := p.id.GetOr(id);
      title := p.title.GetOr(title);
      description := p.description.GetOr(description);
      status := p.status.GetOr(status);
      priority := p.priority.GetOr(priority);
      dueDate := p.dueDate.GetOr(dueDate);
      createdAt := p.createdAt.GetOr(createdAt);
      updatedAt := p.updatedAt.GetOr(updatedAt);
      metadata := p.metadata.GetOr(metadata);
    }
  }
}
