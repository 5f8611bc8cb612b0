/** The project store of src/stores/projectStore.ts: the projects with their
    collections (when loaded), the selected project, the loading and error flags, and
    the two dialog flags.

    Each async action publishes several states in turn (one per `set` call): first
    loading with no error, then the patch or the error, then not loading. The ghost
    field `published` records every state a `set` call has published, so that what a
    subscriber can see during the action can be stated; `requests` records each
    request the store has sent. */
module ProjectStore {
  import opened Wrappers
  import opened Json
  import opened Http
  import opened Seqs

  /** Timestamps are kept as the text the server sent: the store never turns them
      into `Date` objects. */
  datatype Collection = Collection(
    id: string, name: string, description: Option<string>, projectId: string,
    createdAt: string, updatedAt: string, order: int)

  /** `ProjectWithCollections`: `collections` is absent until the server includes it. */
  datatype Project = Project(
    id: string, name: string, description: Option<string>,
    createdAt: string, updatedAt: string, collections: Option<seq<Collection>>)

  datatype ProjectState = ProjectState(
    projects: seq<Project>,
    isLoading: bool,
    error: Option<string>,
    selectedProjectId: Option<string>,
    isCreateProjectModalOpen: bool,
    isCreateCollectionModalOpen: bool)

  /** The states one async action publishes, starting from `before`: loading with the
      error cleared on entry, still loading until the last, and not loading at the end. */
  ghost predicate LoadingSpan(before: ProjectState, trace: seq<ProjectState>) {
    |trace| >= 2 &&
    trace[0] == before.(isLoading := true, error := None) &&
    (forall i :: 0 <= i < |trace| - 1 ==> trace[i].isLoading) &&
    !trace[|trace| - 1].isLoading
  }

  /** The three states an action publishes (loading, the outcome, loading done)
      form a loading span after whatever was published before. */
  lemma ThreeStepSpan(before: ProjectState, earlier: seq<ProjectState>, a: ProjectState,
                      b: ProjectState, c: ProjectState)
    requires a == before.(isLoading := true, error := None) && b.isLoading && !c.isLoading
    ensures var published := earlier + [a] + [b] + [c];
            earlier <= published && |earlier| < |published| &&
            LoadingSpan(before, published[|earlier|..]) && published[|published| - 1] == c
  {
    var published := earlier + [a] + [b] + [c];
    assert published[|earlier|..] == [a, b, c];
  }

  /** The message an action that needs the response body throws, or `None` when the
      request succeeded: `fetch`'s own rejection, the action's fixed message for a
      non-ok status, or the SyntaxError of an unreadable body. */
  function FailureOf<T>(reply: HttpOutcome<T>, fixed: string): (m: Option<string>)
    ensures m.None? <==> reply.Success? && reply.body.Valid?
  {
    match reply
    case NetworkError(reason) => Some(reason)
    case ErrorStatus(_) => Some(fixed)
    case Success(Unreadable(reason)) => Some(reason)
    case Success(Valid(_)) => None
  }

  /** The same for an action that does not read the body of an ok response. */
  function StatusFailureOf<T>(reply: HttpOutcome<T>, fixed: string): (m: Option<string>)
    ensures m.None? <==> reply.Success?
  {
    match reply
    case NetworkError(reason) => Some(reason)
    case ErrorStatus(_) => Some(fixed)
    case Success(_) => None
  }

  function Completed(failure: Option<string>): (c: Completion)
    ensures c.Returned? <==> failure.None?
  {
    if failure.Some? then Threw(failure.value) else Returned
  }

  // ---- the pure patches ------------------------------------------------------------

  /** `p.collections || []` */
  function CollectionsOf(p: Project): seq<Collection> {
    p.collections.GetOr([])
  }

  /** `projects.map(p => p.id === projectId ? { ...p, collections: [...(p.collections || []), c] } : p)` */
  function AddedCollection(ps: seq<Project>, projectId: string, c: Collection): (r: seq<Project>)
    ensures |r| == |ps|
  {
    if ps == [] then []
    else
      var p := ps[|ps| - 1];
      AddedCollection(ps[..|ps| - 1], projectId, c) +
        [if p.id == projectId then p.(collections := Some(CollectionsOf(p) + [c])) else p]
  }

  /** Adding a collection changes only the `collections` of the projects with the
      given id, each of which gets the new collection at the end of its list. */
  lemma {:induction false} AddedCollectionAt(ps: seq<Project>, projectId: string, c: Collection)
    ensures var r := AddedCollection(ps, projectId, c);
            (forall i :: 0 <= i < |ps| ==> r[i].(collections := ps[i].collections) == ps[i]) &&
            (forall i :: 0 <= i < |ps| && ps[i].id != projectId ==> r[i] == ps[i]) &&
            (forall i :: 0 <= i < |ps| && ps[i].id == projectId ==>
               r[i].collections == Some(CollectionsOf(ps[i]) + [c]))
  {
    if ps != [] {
      var init := ps[..|ps| - 1];
      AddedCollectionAt(init, projectId, c);
      var r := AddedCollection(ps, projectId, c);
      assert forall i :: 0 <= i < |init| ==> r[i] == AddedCollection(init, projectId, c)[i] && ps[i] == init[i];
    }
  }

  /** `c => c.id !== collectionId` */
  function OtherCollection(collectionId: string): Collection -> bool {
    (c: Collection) => c.id != collectionId
  }

  /** `p.collections?.filter(c => c.id !== collectionId)` */
  function WithoutCollection(cs: Option<seq<Collection>>, collectionId: string): (r: Option<seq<Collection>>)
    ensures r.None? <==> cs.None?
    ensures r.Some? ==> forall k :: 0 <= k < |r.value| ==> r.value[k].id != collectionId && r.value[k] in cs.value
    ensures r.Some? ==> forall k :: 0 <= k < |cs.value| && cs.value[k].id != collectionId ==> cs.value[k] in r.value
  {
    if cs.Some? then Some(Filter(cs.value, OtherCollection(collectionId))) else None
  }

  /** `projects.map(p => ({ ...p, collections: p.collections?.filter(...) }))` */
  function RemovedCollection(ps: seq<Project>, collectionId: string): (r: seq<Project>)
    ensures |r| == |ps|
    ensures forall i :: 0 <= i < |ps| ==>
              r[i] == ps[i].(collections := WithoutCollection(ps[i].collections, collectionId))
  {
    if ps == [] then []
    else
      var p := ps[|ps| - 1];
      RemovedCollection(ps[..|ps| - 1], collectionId) +
        [p.(collections := WithoutCollection(p.collections, collectionId))]
  }

  /** `p => p.id !== projectId` */
  function OtherProject(projectId: string): Project -> bool {
    (p: Project) => p.id != projectId
  }

  /** `projects.filter(p => p.id !== projectId)` */
  function RemovedProject(ps: seq<Project>, projectId: string): (r: seq<Project>)
    ensures forall i :: 0 <= i < |r| ==> r[i].id != projectId && r[i] in ps
    ensures forall i :: 0 <= i < |ps| && ps[i].id != projectId ==> ps[i] in r
  {
    Filter(ps, OtherProject(projectId))
  }

  /** The projects that survive a delete keep their relative order. */
  lemma RemovedProjectKeepsOrder(ps: seq<Project>, projectId: string)
    ensures ReadsAtKept(ps, OtherProject(projectId), RemovedProject(ps, projectId),
                        KeptPositions(ps, OtherProject(projectId)))
  {
    FilterIsSubsequence(ps, OtherProject(projectId));
  }

  /** `selectedProjectId === projectId ? null : selectedProjectId` */
  function SelectionAfterDelete(selected: Option<string>, projectId: string): (r: Option<string>)
    ensures r.None? <==> selected.None? || selected.value == projectId
    ensures r.Some? ==> r == selected
  {
    if selected == Some(projectId) then None else selected
  }

  /** The selection names a listed project, or nothing. */
  predicate SelectionListed(ps: seq<Project>, selected: Option<string>) {
    selected.None? || exists i :: 0 <= i < |ps| && ps[i].id == selected.value
  }

  /** Deleting a project never leaves the selection pointing at a project that is no
      longer listed. */
  lemma DeleteKeepsSelectionListed(ps: seq<Project>, selected: Option<string>, projectId: string)
    requires SelectionListed(ps, selected)
    ensures SelectionListed(RemovedProject(ps, projectId), SelectionAfterDelete(selected, projectId))
  {
    var r := RemovedProject(ps, projectId);
    if SelectionAfterDelete(selected, projectId).Some? {
      var i :| 0 <= i < |ps| && ps[i].id == selected.value;
      assert ps[i] in r;
      var j :| 0 <= j < |r| && r[j] == ps[i];
    }
  }

  /** No collection in the list carries this id. */
  predicate CollectionIdFresh(ps: seq<Project>, collectionId: string) {
    forall i, k :: 0 <= i < |ps| && ps[i].collections.Some? && 0 <= k < |ps[i].collections.value| ==>
      ps[i].collections.value[k].id != collectionId
  }

  /** Removing an id no collection carries changes nothing; removing the id of a
      collection just appended takes exactly that one off again. */
  lemma WithoutFreshCollection(cs: seq<Collection>, c: Collection)
    requires forall k :: 0 <= k < |cs| ==> cs[k].id != c.id
    ensures WithoutCollection(Some(cs), c.id) == Some(cs)
    ensures WithoutCollection(Some(cs + [c]), c.id) == Some(cs)
  {
    var keep := OtherCollection(c.id);
    FilterKeepsAll(cs, keep);
    assert (cs + [c])[..|cs|] == cs;
    assert !keep(c);
    assert Filter(cs + [c], keep) == Filter(cs, keep);
    assert Filter(cs + [c], keep) == cs;
  }

  /** One project: dropping the fresh collection from what adding it produced gives
      the project back. */
  lemma UndoOne(p: Project, added: Project, c: Collection)
    requires added.(collections := p.collections) == p
    requires added.collections == p.collections ||
             (p.collections.Some? && added.collections == Some(p.collections.value + [c]))
    requires p.collections.Some? ==> forall k :: 0 <= k < |p.collections.value| ==> p.collections.value[k].id != c.id
    ensures added.(collections := WithoutCollection(added.collections, c.id)) == p
  {
    if p.collections.Some? {
      WithoutFreshCollection(p.collections.value, c);
    }
  }

  /** Deleting a freshly created collection undoes its creation, when the project it
      went to already had its collections loaded. */
  lemma RemoveUndoesAdd(ps: seq<Project>, projectId: string, c: Collection)
    requires CollectionIdFresh(ps, c.id)
    requires forall i :: 0 <= i < |ps| && ps[i].id == projectId ==> ps[i].collections.Some?
    ensures RemovedCollection(AddedCollection(ps, projectId, c), c.id) == ps
  {
    var a := AddedCollection(ps, projectId, c);
    var r := RemovedCollection(a, c.id);
    AddedCollectionAt(ps, projectId, c);
    forall i | 0 <= i < |ps| ensures r[i] == ps[i] {
      UndoOne(ps[i], a[i], c);
    }
  }

  /** The JSON body `JSON.stringify({ name, description })` sends: an `undefined`
      description leaves its key out. */
  function ProjectBody(name: string, description: Option<string>): JsonValue {
    JObject(map["name" := JString(name)] +
      if description.Some? then map["description" := JString(description.value)] else map[])
  }

  function CollectionBody(projectId: string, name: string, description: Option<string>): JsonValue {
    JObject(map["projectId" := JString(projectId), "name" := JString(name)] +
      if description.Some? then map["description" := JString(description.value)] else map[])
  }

  // ---- the store -------------------------------------------------------------------

  class ProjectStore {
    var projects: seq<Project>
    var isLoading: bool
    var error: Option<string>
    var selectedProjectId: Option<string>
    var isCreateProjectModalOpen: bool
    var isCreateCollectionModalOpen: bool

    ghost var published: seq<ProjectState>
    ghost var requests: seq<Request>

    function State(): ProjectState
      reads this
    {
      ProjectState(projects, isLoading, error, selectedProjectId,
                   isCreateProjectModalOpen, isCreateCollectionModalOpen)
    }

    /** What a subscriber saw of the last action: the states published since `before`
        count published states. */
    ghost predicate ActionTrace(before: ProjectState, count: nat)
      reads this
    {
      count < |published| && LoadingSpan(before, published[count..]) &&
      published[|published| - 1] == State()
    }

    /** The initial state: no projects, not loading, no error, no selection, dialogs closed. */
    constructor ()
      ensures State() == ProjectState([], false, None, None, false, false)
      ensures published == [] && requests == []
    {
      projects := [];
      isLoading := false;
      error := None;
      selectedProjectId := None;
      isCreateProjectModalOpen := false;
      isCreateCollectionModalOpen := false;
      published := [];
      requests := [];
    }

    /** `set(...)`: the store takes the next state and publishes it. */
    method Set(next: ProjectState)
      modifies this
      ensures State() == next
      ensures published == old(published) + [next] && requests == old(requests)
    {
      projects, isLoading, error := next.projects, next.isLoading, next.error;
      selectedProjectId := next.selectedProjectId;
      isCreateProjectModalOpen := next.isCreateProjectModalOpen;
      isCreateCollectionModalOpen := next.isCreateCollectionModalOpen;
      published := published + [next];
    }

    /** `set({ isLoading: true, error: null })` */
    method Enter()
      modifies this
      ensures State() == old(State()).(isLoading := true, error := None)
      ensures published == old(published) + [State()] && requests == old(requests)
    {
      isLoading, error := true, None;
      published := published + [State()];
    }

    /** `set({ error })` after a failure. */
    method Fail(message: string)
      modifies this
      ensures State() == old(State()).(error := Some(message))
      ensures published == old(published) + [State()] && requests == old(requests)
    {
      error := Some(message);
      published := published + [State()];
    }

    /** `finally { set({ isLoading: false }) }` */
    method Leave()
      modifies this
      ensures State() == old(State()).(isLoading := false)
      ensures published == old(published) + [State()] && requests == old(requests)
    {
      isLoading := false;
      published := published + [State()];
    }

    /** `fetchProjects()`: a failure is recorded in `error` and not thrown. */
    method FetchProjects(reply: HttpOutcome<seq<Project>>)
      modifies this
      ensures old(published) <= published && ActionTrace(old(State()), |old(published)|)
      ensures requests == old(requests) + [Request("GET", "/api/projects", None)]
      ensures FailureOf(reply, "").None? ==>
                State() == old(State()).(projects := reply.body.value, error := None, isLoading := false)
      ensures FailureOf(reply, "").Some? ==>
                State() == old(State()).(error := Some("Failed to fetch projects"), isLoading := false)
    {
      ghost var before, earlier := State(), published;
      Enter();
      ghost var a := State();
      requests := requests + [Request("GET", "/api/projects", None)];
      if FailureOf(reply, "").None? {
        Set(State().(projects := reply.body.value));
      } else {
        Fail("Failed to fetch projects");
      }
      ghost var b := State();
      Leave();
      ThreeStepSpan(before, earlier, a, b, State());
    }

    /** `createProject(name, description)`: appends the created project, or records
        the error and rethrows. */
    method CreateProject(name: string, description: Option<string>, reply: HttpOutcome<Project>)
      returns (c: Completion)
      modifies this
      ensures old(published) <= published && ActionTrace(old(State()), |old(published)|)
      ensures requests == old(requests) + [Request("POST", "/api/projects", Some(ProjectBody(name, description)))]
      ensures c == Completed(FailureOf(reply, "Failed to create project"))
      ensures c.Returned? ==>
                State() == old(State()).(projects := old(projects) + [reply.body.value], error := None, isLoading := false)
      ensures c.Threw? ==>
                State() == old(State()).(error := Some("Failed to create project"), isLoading := false)
    {
      ghost var before, earlier := State(), published;
      Enter();
      ghost var a := State();
      requests := requests + [Request("POST", "/api/projects", Some(ProjectBody(name, description)))];
      var failure := FailureOf(reply, "Failed to create project");
      if failure.None? {
        Set(State().(projects := projects + [reply.body.value]));
      } else {
        Fail("Failed to create project");
      }
      ghost var b := State();
      Leave();
      ThreeStepSpan(before, earlier, a, b, State());
      c := Completed(failure);
    }

    /** `deleteProject(projectId)`: removes the project and clears the selection if it
        pointed at it, or records the error and rethrows. */
    method DeleteProject(projectId: string, reply: HttpOutcome<()>)
      returns (c: Completion)
      modifies this
      ensures old(published) <= published && ActionTrace(old(State()), |old(published)|)
      ensures requests == old(requests) + [Request("DELETE", "/api/projects/" + projectId, None)]
      ensures c == Completed(StatusFailureOf(reply, "Failed to delete project"))
      ensures c.Returned? ==>
                State() == old(State()).(projects := RemovedProject(old(projects), projectId),
                                         selectedProjectId := SelectionAfterDelete(old(selectedProjectId), projectId),
                                         error := None, isLoading := false)
      ensures c.Threw? ==>
                State() == old(State()).(error := Some("Failed to delete project"), isLoading := false)
    {
      ghost var before, earlier := State(), published;
      Enter();
      ghost var a := State();
      requests := requests + [Request("DELETE", "/api/projects/" + projectId, None)];
      var failure := StatusFailureOf(reply, "Failed to delete project");
      if failure.None? {
        Set(State().(projects := RemovedProject(projects, projectId),
                     selectedProjectId := SelectionAfterDelete(selectedProjectId, projectId)));
      } else {
        Fail("Failed to delete project");
      }
      ghost var b := State();
      Leave();
      ThreeStepSpan(before, earlier, a, b, State());
      c := Completed(failure);
    }

    /** `createCollection(projectId, name, description)`: appends the created
        collection to the matching project, or records the error and rethrows. */
    method CreateCollection(projectId: string, name: string, description: Option<string>,
                            reply: HttpOutcome<Collection>)
      returns (c: Completion)
      modifies this
      ensures old(published) <= published && ActionTrace(old(State()), |old(published)|)
      ensures requests == old(requests) +
                [Request("POST", "/api/collections", Some(CollectionBody(projectId, name, description)))]
      ensures c == Completed(FailureOf(reply, "Failed to create collection"))
      ensures c.Returned? ==>
                State() == old(State()).(projects := AddedCollection(old(projects), projectId, reply.body.value),
                                         error := None, isLoading := false)
      ensures c.Threw? ==>
                State() == old(State()).(error := Some("Failed to create collection"), isLoading := false)
    {
      ghost var before, earlier := State(), published;
      Enter();
      ghost var a := State();
      requests := requests +
        [Request("POST", "/api/collections", Some(CollectionBody(projectId, name, description)))];
      var failure := FailureOf(reply, "Failed to create collection");
      if failure.None? {
        Set(State().(projects := AddedCollection(projects, projectId, reply.body.value)));
      } else {
        Fail("Failed to create collection");
      }
      ghost var b := State();
      Leave();
      ThreeStepSpan(before, earlier, a, b, State());
      c := Completed(failure);
    }

    /** `deleteCollection(collectionId)`: removes the collection from every project
        that lists it, or records the error and rethrows. */
    method DeleteCollection(collectionId: string, reply: HttpOutcome<()>)
      returns (c: Completion)
      modifies this
      ensures old(published) <= published && ActionTrace(old(State()), |old(published)|)
      ensures requests == old(requests) + [Request("DELETE", "/api/collections/" + collectionId, None)]
      ensures c == Completed(StatusFailureOf(reply, "Failed to delete collection"))
      ensures c.Returned? ==>
                State() == old(State()).(projects := RemovedCollection(old(projects), collectionId),
                                         error := None, isLoading := false)
      ensures c.Threw? ==>
                State() == old(State()).(error := Some("Failed to delete collection"), isLoading := false)
    {
      ghost var before, earlier := State(), published;
      Enter();
      ghost var a := State();
      requests := requests + [Request("DELETE", "/api/collections/" + collectionId, None)];
      var failure := StatusFailureOf(reply, "Failed to delete collection");
      if failure.None? {
        Set(State().(projects := RemovedCollection(projects, collectionId)));
      } else {
        Fail("Failed to delete collection");
      }
      ghost var b := State();
      Leave();
      ThreeStepSpan(before, earlier, a, b, State());
      c := Completed(failure);
    }

    /** `setSelectedProject(projectId)` */
    method SetSelectedProject(projectId: Option<string>)
      modifies this
      ensures State() == old(State()).(selectedProjectId := projectId)
      ensures published == old(published) + [State()] && requests == old(requests)
    {
      selectedProjectId := projectId;
      published := published + [State()];
    }

    /** `setCreateProjectModalOpen(isOpen)` */
    method SetCreateProjectModalOpen(isOpen: bool)
      modifies this
      ensures State() == old(State()).(isCreateProjectModalOpen := isOpen)
      ensures published == old(published) + [State()] && requests == old(requests)
    {
      isCreateProjectModalOpen := isOpen;
      published := published + [State()];
    }

    /** `setCreateCollectionModalOpen(isOpen)` */
    method SetCreateCollectionModalOpen(isOpen: bool)
      modifies this
      ensures State() == old(State()).(isCreateCollectionModalOpen := isOpen)
      ensures published == old(published) + [State()] && requests == old(requests)
    {
      isCreateCollectionModalOpen := isOpen;
      published := published + [State()];
    }
  }
}
