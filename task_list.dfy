/** The task list view of src/components/features/TaskList.tsx: the status, priority
    and search filters over the store's tasks, and the initial load. */
module TaskList {
  import opened Wrappers
  import opened Text
  import opened Seqs
  import opened Http
  import opened TaskModel
  import opened TaskStore
  import opened TaskService

  /** `TaskStatus | 'ALL'` */
  datatype StatusFilter = AllStatuses | OnlyStatus(status: Status)

  /** `TaskPriority | 'ALL'` */
  datatype PriorityFilter = AllPriorities | OnlyPriority(priority: Priority)

  predicate MatchesStatus(t: Task, f: StatusFilter) {
    f.AllStatuses? || t.status == f.status
  }

  predicate MatchesPriority(t: Task, f: PriorityFilter) {
    f.AllPriorities? || t.priority == f.priority
  }

  /** The title, or the description when there is one, contains the query, ignoring
      case. */
  predicate MatchesSearch(t: Task, query: string) {
    Includes(ToLower(t.title), ToLower(query)) ||
    (t.description.Some? && Includes(ToLower(t.description.value), ToLower(query)))
  }

  predicate Matches(t: Task, sf: StatusFilter, pf: PriorityFilter, query: string) {
    MatchesStatus(t, sf) && MatchesPriority(t, pf) && MatchesSearch(t, query)
  }

  function Keep(sf: StatusFilter, pf: PriorityFilter, query: string): Task -> bool {
    (t: Task) => Matches(t, sf, pf, query)
  }

  /** `tasks.filter(...)` */
  function FilteredTasks(ts: seq<Task>, sf: StatusFilter, pf: PriorityFilter, query: string): seq<Task> {
    Filter(ts, Keep(sf, pf, query))
  }

  /** A task is shown iff it is in the list and passes all three filters. */
  lemma FilteredIff(ts: seq<Task>, sf: StatusFilter, pf: PriorityFilter, query: string, t: Task)
    ensures t in FilteredTasks(ts, sf, pf, query) <==> t in ts && Matches(t, sf, pf, query)
  {
    var r := FilteredTasks(ts, sf, pf, query);
    if t in r {
      var i :| 0 <= i < |r| && r[i] == t;
    }
    if t in ts && Matches(t, sf, pf, query) {
      var i :| 0 <= i < |ts| && ts[i] == t;
    }
  }

  /** The shown tasks are the list read at exactly the matching positions, in order. */
  lemma FilteredIsSubsequence(ts: seq<Task>, sf: StatusFilter, pf: PriorityFilter, query: string)
    ensures ReadsAtKept(ts, Keep(sf, pf, query), FilteredTasks(ts, sf, pf, query),
                        KeptPositions(ts, Keep(sf, pf, query)))
  {
    FilterIsSubsequence(ts, Keep(sf, pf, query));
  }

  /** The search is `includes` on the lower-cased texts: an occurrence of the
      lower-cased query in the lower-cased title or description. */
  lemma MatchesSearchIff(t: Task, query: string)
    ensures MatchesSearch(t, query) <==>
              (exists i :: OccursAt(ToLower(t.title), ToLower(query), i)) ||
              (t.description.Some? && exists i :: OccursAt(ToLower(t.description.value), ToLower(query), i))
  {
    IncludesIffOccurs(ToLower(t.title), ToLower(query));
    if t.description.Some? {
      IncludesIffOccurs(ToLower(t.description.value), ToLower(query));
    }
  }

  /** The case of the query does not matter. */
  lemma SearchIgnoresQueryCase(t: Task, query: string)
    ensures MatchesSearch(t, query) == MatchesSearch(t, ToLower(query))
  {
    ToLowerIdempotent(query);
  }

  /** With both filters on 'ALL' and an empty query, every task is shown, in order. */
  lemma NoFilterShowsAll(ts: seq<Task>)
    ensures FilteredTasks(ts, AllStatuses, AllPriorities, "") == ts
  {
    forall i | 0 <= i < |ts| ensures Keep(AllStatuses, AllPriorities, "")(ts[i]) {
      IncludesEmpty(ToLower(ts[i].title));
    }
    FilterKeepsAll(ts, Keep(AllStatuses, AllPriorities, ""));
  }

  /** Applying the same filters to the filtered list changes nothing. */
  lemma FilteredIdempotent(ts: seq<Task>, sf: StatusFilter, pf: PriorityFilter, query: string)
    ensures FilteredTasks(FilteredTasks(ts, sf, pf, query), sf, pf, query) == FilteredTasks(ts, sf, pf, query)
  {
    FilterIdempotent(ts, Keep(sf, pf, query));
  }

  const LoadFailed := "Failed to load tasks. Please try again later."

  /** The component's own state, over the shared task store. */
  class TaskListView {
    const store: TaskStore
    var statusFilter: StatusFilter
    var priorityFilter: PriorityFilter
    var searchQuery: string
    var isLoading: bool
    var error: Option<string>

    /** Mounted: loading, no error, no filter. */
    constructor (store: TaskStore)
      ensures this.store == store
      ensures statusFilter == AllStatuses && priorityFilter == AllPriorities && searchQuery == ""
      ensures isLoading && error == None
    {
      this.store := store;
      statusFilter := AllStatuses;
      priorityFilter := AllPriorities;
      searchQuery := "";
      isLoading := true;
      error := None;
    }

    /** The tasks the list shows. The store's list itself is never changed by it. */
    function Visible(): seq<Task>
      reads this, store
    {
      FilteredTasks(store.tasks, statusFilter, priorityFilter, searchQuery)
    }

    /** `loadTasks()`, with the reply to `fetchTasks` as a parameter. */
    method LoadTasks(reply: HttpOutcome<seq<WireTask>>)
      modifies this`isLoading, this`error, store`tasks
      ensures !isLoading
      ensures FetchTasks(reply).result.Ok? ==>
                store.tasks == FetchTasks(reply).result.value && error == None
      ensures FetchTasks(reply).result.Err? ==>
                store.tasks == old(store.tasks) && error == Some(LoadFailed)
      ensures store.selectedTask == old(store.selectedTask) && store.isTaskModalOpen == old(store.isTaskModalOpen)
    {
      var fetched := FetchTasks(reply).result;
      if fetched.Ok? {
        store.SetTasks(fetched.value);
        error := None;
      } else {
        error := Some(LoadFailed);
      }
      isLoading := false;
    }
  }
}
