/** The card of one task, src/components/features/TaskCard.tsx: Edit selects the task
    and opens the task dialog; Delete asks for confirmation, deletes through the task
    service, and removes the task from the store only once the service has succeeded. */
module TaskCard {
  import opened Wrappers
  import opened Http
  import opened TaskModel
  import opened TaskStore
  import opened TaskService

  const DeleteFailed := "Failed to delete task"

  class TaskCardView {
    const store: TaskStore
    const task: Task
    var isDeleting: bool
    var error: Option<string>
    /** Every value `setIsDeleting` has published, in order. */
    ghost var busyLog: seq<bool>

    constructor (store: TaskStore, task: Task)
      ensures this.store == store && this.task == task
      ensures !isDeleting && error == None && busyLog == []
    {
      this.store := store;
      this.task := task;
      isDeleting := false;
      error := None;
      busyLog := [];
    }

    /** The Edit and Delete buttons are disabled while a delete is running. */
    predicate ButtonsEnabled()
      reads this
    {
      !isDeleting
    }

    /** `handleEdit()`: select this task, then open the dialog. */
    method HandleEdit()
      requires ButtonsEnabled()
      modifies store`selectedTask, store`isTaskModalOpen
      ensures store.selectedTask == Some(task) && store.isTaskModalOpen
      ensures store.tasks == old(store.tasks)
    {
      store.SelectTask(Some(task));
      store.SetTaskModalOpen(true);
    }

    /** `handleDelete()`: `confirmed` is the answer to `window.confirm`, `reply` the
        service's reply. */
    method HandleDelete(confirmed: bool, reply: HttpOutcome<()>) returns (sent: Option<Request>)
      requires ButtonsEnabled()
      modifies this`isDeleting, this`error, this`busyLog, store`tasks
      ensures !confirmed ==>
                sent.None? && error == old(error) && busyLog == old(busyLog) && store.tasks == old(store.tasks)
      ensures confirmed ==> sent == DeleteTask(task.id, reply).sent
      ensures confirmed ==> busyLog == old(busyLog) + [true, false]
      ensures confirmed && DeleteTask(task.id, reply).result.Ok? ==>
                store.tasks == Removed(old(store.tasks), task.id) && error == None
      ensures confirmed && DeleteTask(task.id, reply).result.Err? ==>
                store.tasks == old(store.tasks) && error == Some(DeleteFailed)
      ensures ButtonsEnabled()
      ensures store.selectedTask == old(store.selectedTask) && store.isTaskModalOpen == old(store.isTaskModalOpen)
    {
      sent := None;
      if confirmed {
        isDeleting := true;
        busyLog := busyLog + [true];
        error := None;
        var call := DeleteTask(task.id, reply);
        sent := call.sent;
        if call.result.Ok? {
          store.DeleteTask(task.id);
        } else {
          error := Some(DeleteFailed);
        }
        isDeleting := false;
        busyLog := busyLog + [false];
      }
    }
  }
}
