/** The dialog of src/components/dialogs/CreateCollectionDialog.tsx: a collection for
    the selected project, with a name (required once trimmed) and an optional
    description, submitted to the project store. */
module CreateCollectionDialog {
  import opened Wrappers
  import opened Text
  import opened Http
  import opened ProjectStore

  const NoProject := "No project selected"
  const NameRequired := "Collection name is required"
  const CreateFailed := "Failed to create collection. Please try again."

  /** `selectedProjectId` is truthy: set, and not the empty string. */
  predicate HasSelection(selected: Option<string>) {
    selected.Some? && selected.value != ""
  }

  class CreateCollectionDialogView {
    const store: ProjectStore
    var name: string
    var description: string
    var isSubmitting: bool
    var error: Option<string>
    /** Every value `setIsSubmitting` has published, in order. */
    ghost var busyLog: seq<bool>

    constructor (store: ProjectStore)
      ensures this.store == store && name == "" && description == ""
      ensures !isSubmitting && error == None && busyLog == []
    {
      this.store := store;
      name := "";
      description := "";
      isSubmitting := false;
      error := None;
      busyLog := [];
    }

    /** `disabled={isSubmitting || !selectedProjectId}` on the submit button. */
    predicate SubmitEnabled()
      reads this, store
    {
      !isSubmitting && HasSelection(store.selectedProjectId)
    }

    /** The `try`/`finally` part of `handleSubmit`, once the selection and the name
        have passed: create the collection, then close the dialog and clear the
        fields, or report the failure; `isSubmitting` is true only meanwhile. */
    method Save(projectId: string, collectionName: string, collectionDescription: Option<string>,
                reply: HttpOutcome<Collection>)
      requires !isSubmitting
      modifies this`name, this`description, this`isSubmitting, this`error, this`busyLog, store
      ensures busyLog == old(busyLog) + [true, false] && !isSubmitting
      ensures store.requests == old(store.requests) +
                [Request("POST", "/api/collections",
                         Some(CollectionBody(projectId, collectionName, collectionDescription)))]
      ensures FailureOf(reply, "").None? ==>
                error == None && name == "" && description == "" &&
                store.State() == old(store.State()).(
                  projects := AddedCollection(old(store.projects), projectId, reply.body.value),
                  error := None, isLoading := false, isCreateCollectionModalOpen := false)
      ensures FailureOf(reply, "").Some? ==>
                error == Some(CreateFailed) && name == old(name) && description == old(description) &&
                store.State() == old(store.State()).(error := Some("Failed to create collection"), isLoading := false)
    {
      isSubmitting := true;
      busyLog := busyLog + [true];
      error := None;
      var c := store.CreateCollection(projectId, collectionName, collectionDescription, reply);
      if c.Returned? {
        store.SetCreateCollectionModalOpen(false);
        name := "";
        description := "";
      } else {
        error := Some(CreateFailed);
      }
      isSubmitting := false;
      busyLog := busyLog + [false];
    }

    /** `handleSubmit(e)`, with the reply to `createCollection`'s request as a
        parameter. The missing selection is reported before a blank name. */
    method HandleSubmit(reply: HttpOutcome<Collection>)
      requires !isSubmitting
      modifies this`name, this`description, this`isSubmitting, this`error, this`busyLog, store
      ensures !HasSelection(old(store.selectedProjectId)) ==>
                error == Some(NoProject)
      ensures HasSelection(old(store.selectedProjectId)) && Trim(old(name)) == "" ==>
                error == Some(NameRequired)
      ensures !HasSelection(old(store.selectedProjectId)) || Trim(old(name)) == "" ==>
                name == old(name) && description == old(description) && busyLog == old(busyLog) &&
                store.State() == old(store.State()) &&
                store.requests == old(store.requests) && store.published == old(store.published)
      ensures HasSelection(old(store.selectedProjectId)) && Trim(old(name)) != "" ==>
                busyLog == old(busyLog) + [true, false] &&
                store.requests == old(store.requests) +
                  [Request("POST", "/api/collections",
                           Some(CollectionBody(old(store.selectedProjectId).value, Trim(old(name)),
                                               TrimmedOrAbsent(old(description)))))]
      ensures HasSelection(old(store.selectedProjectId)) && Trim(old(name)) != "" &&
              FailureOf(reply, "").None? ==>
                error == None && name == "" && description == "" &&
                store.State() == old(store.State()).(
                  projects := AddedCollection(old(store.projects), old(store.selectedProjectId).value, reply.body.value),
                  error := None, isLoading := false, isCreateCollectionModalOpen := false)
      ensures HasSelection(old(store.selectedProjectId)) && Trim(old(name)) != "" &&
              FailureOf(reply, "").Some? ==>
                error == Some(CreateFailed) && name == old(name) && description == old(description) &&
                store.State() == old(store.State()).(error := Some("Failed to create collection"), isLoading := false)
      ensures !isSubmitting
    {
      if !HasSelection(store.selectedProjectId) {
        error := Some(NoProject);
      } else if Trim(name) == "" {
        error := Some(NameRequired);
      } else {
        Save(store.selectedProjectId.value, Trim(name), TrimmedOrAbsent(description), reply);
      }
    }
  }
}
