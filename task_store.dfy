/** The task store of src/stores/taskStore.ts: the client's list of tasks, the task
    selected for editing and whether the task modal is open. Each action replaces one
    field with a new value computed from the old list; the list computations are the
    functions below, and the class applies them. */
module TaskStore {
  import opened Wrappers
  import opened Dates
  import opened Seqs
  import opened TaskModel

  /** No two tasks in the list share an id. */
  predicate UniqueIds(ts: seq<Task>) {
    forall i, j :: 0 <= i < j < |ts| ==> ts[i].id != ts[j].id
  }

  predicate HasId(ts: seq<Task>, id: string) {
    exists i :: 0 <= i < |ts| && ts[i].id == id
  }

  // ---- addTask -------------------------------------------------------------------

  /** `[...tasks, task]` keeps the list free of duplicate ids exactly when the new id
      is fresh. */
  lemma AppendUniqueIff(ts: seq<Task>, t: Task)
    requires UniqueIds(ts)
    ensures UniqueIds(ts + [t]) <==> !HasId(ts, t.id)
  {
    var r := ts + [t];
    if HasId(ts, t.id) {
      var i :| 0 <= i < |ts| && ts[i].id == t.id;
      assert r[i].id == r[|ts|].id;
    }
  }

  // ---- updateTask ----------------------------------------------------------------

  /** `new Task({ ...task, ...data, updatedAt: new Date() })` */
  function Rebuilt(t: Task, data: TaskPatch, now: Instant): Task {
    Construct(Spread(Spread(Whole(t), data), Stamp(now)), now)
  }

  /** The store's rebuilt task is what `task.update(data)` would leave: the supplied
      fields overwritten, the others kept, `updatedAt` set to now. */
  lemma RebuiltIsUpdated(t: Task, data: TaskPatch, now: Instant)
    ensures Rebuilt(t, data, now) == Updated(t, data, now)
    ensures Rebuilt(t, data, now).updatedAt == At(now)
  {
    ConstructSpreadIsAssign(t, Spread(data, Stamp(now)), now);
    assert Spread(Spread(Whole(t), data), Stamp(now)) == Spread(Whole(t), Spread(data, Stamp(now)));
  }

  /** `tasks.map(task => task.id === taskId ? new Task({...}) : task)` */
  function UpdateMatching(ts: seq<Task>, taskId: string, data: TaskPatch, now: Instant): (r: seq<Task>)
    ensures |r| == |ts|
    ensures forall i :: 0 <= i < |ts| && ts[i].id != taskId ==> r[i] == ts[i]
    ensures forall i :: 0 <= i < |ts| && ts[i].id == taskId ==> r[i] == Updated(ts[i], data, now)
  {
    if ts == [] then []
    else
      var init := ts[..|ts| - 1];
      var last := ts[|ts| - 1];
      RebuiltIsUpdated(last, data, now);
      UpdateMatching(init, taskId, data, now) +
        [if last.id == taskId then Rebuilt(last, data, now) else last]
  }

  /** An id that is not in the list leaves the list as it was. */
  lemma UpdateAbsentId(ts: seq<Task>, taskId: string, data: TaskPatch, now: Instant)
    requires !HasId(ts, taskId)
    ensures UpdateMatching(ts, taskId, data, now) == ts
  {
  }

  /** Updating keeps ids unique when the data carries no id or the same id. */
  lemma UpdateKeepsUnique(ts: seq<Task>, taskId: string, data: TaskPatch, now: Instant)
    requires UniqueIds(ts)
    requires data.id.None? || data.id == Some(taskId)
    ensures UniqueIds(UpdateMatching(ts, taskId, data, now))
  {
    var r := UpdateMatching(ts, taskId, data, now);
    assert forall i :: 0 <= i < |ts| ==> r[i].id == ts[i].id;
  }

  // ---- deleteTask ----------------------------------------------------------------

  /** `task => task.id !== taskId` */
  function OtherId(taskId: string): Task -> bool {
    (t: Task) => t.id != taskId
  }

  /** `tasks.filter(task => task.id !== taskId)` */
  function Removed(ts: seq<Task>, taskId: string): (r: seq<Task>)
    ensures forall i :: 0 <= i < |r| ==> r[i].id != taskId && r[i] in ts
    ensures forall i :: 0 <= i < |ts| && ts[i].id != taskId ==> ts[i] in r
  {
    Filter(ts, OtherId(taskId))
  }

  /** What survives a delete keeps its relative order, and is exactly the tasks with
      other ids. */
  lemma RemovedKeepsOrder(ts: seq<Task>, taskId: string)
    ensures ReadsAtKept(ts, OtherId(taskId), Removed(ts, taskId),
                        KeptPositions(ts, OtherId(taskId)))
  {
    FilterIsSubsequence(ts, OtherId(taskId));
  }

  /** A subsequence, read at increasing positions, of a list with unique ids has
      unique ids. */
  lemma RemovedKeepsUnique(ts: seq<Task>, taskId: string)
    requires UniqueIds(ts)
    ensures UniqueIds(Removed(ts, taskId))
  {
    var p := OtherId(taskId);
    FilterIsSubsequence(ts, p);
    var idx := KeptPositions(ts, p);
    var r := Removed(ts, taskId);
    forall i, j | 0 <= i < j < |r| ensures r[i].id != r[j].id {
      assert idx[i] < idx[j];
      assert r[i] == ts[idx[i]] && r[j] == ts[idx[j]];
    }
  }

  /** Deleting from a non-empty list: the survivors of all but the last task, then the
      last one when its id differs. */
  lemma RemovedLast(ts: seq<Task>, taskId: string)
    requires |ts| > 0
    ensures |Removed(ts, taskId)| ==
              |Removed(ts[..|ts| - 1], taskId)| + (if ts[|ts| - 1].id != taskId then 1 else 0)
  {
    assert Removed(ts, taskId) ==
             Filter(ts[..|ts| - 1], OtherId(taskId)) +
             (if OtherId(taskId)(ts[|ts| - 1]) then [ts[|ts| - 1]] else []);
  }

  /** Deleting an id no task carries keeps every task. */
  lemma RemovedAbsent(ts: seq<Task>, taskId: string)
    requires !HasId(ts, taskId)
    ensures Removed(ts, taskId) == ts
  {
    forall k | 0 <= k < |ts| ensures OtherId(taskId)(ts[k]) {
    }
    FilterKeepsAll(ts, OtherId(taskId));
  }

  /** Unique ids stay unique without the last task. */
  lemma UniqueWithoutLast(ts: seq<Task>)
    requires UniqueIds(ts) && |ts| > 0
    ensures UniqueIds(ts[..|ts| - 1])
  {
    var init := ts[..|ts| - 1];
    forall a, b | 0 <= a < b < |init| ensures init[a].id != init[b].id {
      assert init[a] == ts[a] && init[b] == ts[b];
    }
  }

  /** With unique ids, deleting an id that is present removes exactly one task. */
  lemma {:induction false} RemovedExactlyOne(ts: seq<Task>, taskId: string)
    requires UniqueIds(ts) && HasId(ts, taskId)
    ensures |Removed(ts, taskId)| == |ts| - 1
  {
    var init := ts[..|ts| - 1];
    RemovedLast(ts, taskId);
    if ts[|ts| - 1].id == taskId {
      assert !HasId(init, taskId) by {
        forall k | 0 <= k < |init| ensures init[k].id != taskId {
          assert init[k] == ts[k];
        }
      }
      RemovedAbsent(init, taskId);
    } else {
      var i :| 0 <= i < |ts| && ts[i].id == taskId;
      assert init[i] == ts[i];
      UniqueWithoutLast(ts);
      RemovedExactlyOne(init, taskId);
    }
  }

  // ---- the store -----------------------------------------------------------------

  class TaskStore {
    var tasks: seq<Task>
    var selectedTask: Option<Task>
    var isTaskModalOpen: bool

    /** The initial state: no tasks, nothing selected, modal closed. */
    constructor ()
      ensures tasks == [] && selectedTask == None && !isTaskModalOpen
    {
      tasks := [];
      selectedTask := None;
      isTaskModalOpen := false;
    }

    /** `setTasks(tasks)` */
    method SetTasks(ts: seq<Task>)
      modifies this`tasks
      ensures tasks == ts
      ensures selectedTask == old(selectedTask) && isTaskModalOpen == old(isTaskModalOpen)
    {
      tasks := ts;
    }

    /** `addTask(task)` */
    method AddTask(t: Task)
      modifies this`tasks
      ensures tasks == old(tasks) + [t]
      ensures selectedTask == old(selectedTask) && isTaskModalOpen == old(isTaskModalOpen)
      ensures UniqueIds(old(tasks)) && !HasId(old(tasks), t.id) ==> UniqueIds(tasks)
    {
      tasks := tasks + [t];
      if UniqueIds(old(tasks)) {
        AppendUniqueIff(old(tasks), t);
      }
    }

    /** `updateTask(taskId, data)`, with `new Date()` read as `now`. */
    method UpdateTask(taskId: string, data: TaskPatch, now: Instant)
      modifies this`tasks
      ensures tasks == UpdateMatching(old(tasks), taskId, data, now)
      ensures selectedTask == old(selectedTask) && isTaskModalOpen == old(isTaskModalOpen)
      ensures UniqueIds(old(tasks)) && (data.id.None? || data.id == Some(taskId)) ==> UniqueIds(tasks)
    {
      tasks := UpdateMatching(tasks, taskId, data, now);
      if UniqueIds(old(tasks)) && (data.id.None? || data.id == Some(taskId)) {
        UpdateKeepsUnique(old(tasks), taskId, data, now);
      }
    }

    /** `deleteTask(taskId)`: the selection and the modal flag are left as they are. */
    method DeleteTask(taskId: string)
      modifies this`tasks
      ensures tasks == Removed(old(tasks), taskId)
      ensures !HasId(tasks, taskId)
      ensures selectedTask == old(selectedTask) && isTaskModalOpen == old(isTaskModalOpen)
      ensures UniqueIds(old(tasks)) ==> UniqueIds(tasks)
    {
      tasks := Removed(tasks, taskId);
      if UniqueIds(old(tasks)) {
        RemovedKeepsUnique(old(tasks), taskId);
      }
    }

    /** `selectTask(task)` */
    method SelectTask(t: Option<Task>)
      modifies this`selectedTask
      ensures selectedTask == t
      ensures tasks == old(tasks) && isTaskModalOpen == old(isTaskModalOpen)
    {
      selectedTask := t;
    }

    /** `setTaskModalOpen(isOpen)` */
    method SetTaskModalOpen(isOpen: bool)
      modifies this`isTaskModalOpen
      ensures isTaskModalOpen == isOpen
      ensures tasks == old(tasks) && selectedTask == old(selectedTask)
    {
      isTaskModalOpen := isOpen;
    }
  }
}
