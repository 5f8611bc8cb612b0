/** The dialog of src/components/dialogs/CreateProjectDialog.tsx: a name (required
    once trimmed) and an optional description, submitted to the project store. */
module CreateProjectDialog {
  import opened Wrappers
  import opened Text
  import opened Http
  import opened ProjectStore

  const NameRequired := "Project name is required"
  const CreateFailed := "Failed to create project. Please try again."

  class CreateProjectDialogView {
    const store: ProjectStore
    var name: string
    var description: string
    var isSubmitting: bool
    var error: Option<string>
    /** Every value `setIsSubmitting` has published, in order. */
    ghost var busyLog: seq<bool>

    constructor (store: ProjectStore)
      ensures this.store == store && name == "" && description == ""
      ensures !isSubmitting && error == None && busyLog == []
    {
      this.store := store;
      name := "";
      description := "";
      isSubmitting := false;
      error := None;
      busyLog := [];
    }

    /** The `try`/`finally` part of `handleSubmit`, once the name has passed: create
        the project, then close the dialog and clear the fields, or report the
        failure; `isSubmitting` is true only meanwhile. */
    method Save(projectName: string, projectDescription: Option<string>, reply: HttpOutcome<Project>)
      requires !isSubmitting
      modifies this`name, this`description, this`isSubmitting, this`error, this`busyLog, store
      ensures busyLog == old(busyLog) + [true, false] && !isSubmitting
      ensures store.requests == old(store.requests) +
                [Request("POST", "/api/projects", Some(ProjectBody(projectName, projectDescription)))]
      ensures FailureOf(reply, "").None? ==>
                error == None && name == "" && description == "" &&
                store.State() == old(store.State()).(projects := old(store.projects) + [reply.body.value],
                                                     error := None, isLoading := false,
                                                     isCreateProjectModalOpen := false)
      ensures FailureOf(reply, "").Some? ==>
                error == Some(CreateFailed) && name == old(name) && description == old(description) &&
                store.State() == old(store.State()).(error := Some("Failed to create project"), isLoading := false)
    {
      isSubmitting := true;
      busyLog := busyLog + [true];
      error := None;
      var c := store.CreateProject(projectName, projectDescription, reply);
      if c.Returned? {
        store.SetCreateProjectModalOpen(false);
        name := "";
        description := "";
      } else {
        error := Some(CreateFailed);
      }
      isSubmitting := false;
      busyLog := busyLog + [false];
    }

    /** `handleSubmit(e)`, with the reply to `createProject`'s request as a parameter.
        The submit button is disabled while submitting. A name that trims to nothing
        is refused before anything is sent. */
    method HandleSubmit(reply: HttpOutcome<Project>)
      requires !isSubmitting
      modifies this`name, this`description, this`isSubmitting, this`error, this`busyLog, store
      ensures Trim(old(name)) == "" ==>
                error == Some(NameRequired) && name == old(name) && description == old(description) &&
                busyLog == old(busyLog) && store.State() == old(store.State()) &&
                store.requests == old(store.requests) && store.published == old(store.published)
      ensures Trim(old(name)) != "" ==>
                busyLog == old(busyLog) + [true, false] &&
                store.requests == old(store.requests) +
                  [Request("POST", "/api/projects",
                           Some(ProjectBody(Trim(old(name)), TrimmedOrAbsent(old(description)))))]
      ensures Trim(old(name)) != "" && FailureOf(reply, "").None? ==>
                error == None && name == "" && description == "" &&
                store.State() == old(store.State()).(projects := old(store.projects) + [reply.body.value],
                                                     error := None, isLoading := false,
                                                     isCreateProjectModalOpen := false)
      ensures Trim(old(name)) != "" && FailureOf(reply, "").Some? ==>
                error == Some(CreateFailed) && name == old(name) && description == old(description) &&
                store.State() == old(store.State()).(error := Some("Failed to create project"), isLoading := false)
      ensures !isSubmitting
    {
      if Trim(name) == "" {
        error := Some(NameRequired);
      } else {
        Save(Trim(name), TrimmedOrAbsent(description), reply);
      }
    }
  }
}
