/**
 * The project dialog: the string-valued form it edits, how the form is filled
 * from the project being edited, how a field edit changes it, and how the
 * form is handed to the data store on submit.
 */
module ProjectModal {
  import opened Wrappers
  import opened Api
  import opened DataStore

  /** `formData`, which is also what is sent on submit. */
  datatype ProjectForm = ProjectForm(name: string, description: string, status: string)

  /** The form for a new project. */
  const Blank := ProjectForm("", "", "active")

  /** The form the dialog opens with: the blank form, or the project's own values with no description as `""`. */
  function Prefill(project: Option<Project>): (f: ProjectForm)
    ensures project.None? ==> f == Blank
    ensures project.Some? ==> f.name == project.value.name && f.status == project.value.status
    ensures (project.Some? && project.value.description.Some?) ==> f.description == project.value.description.value
    ensures (project.Some? && project.value.description.None?) ==> f.description == ""
  {
    match project
    case None => Blank
    case Some(p) => ProjectForm(p.name, p.description.GetOr(""), p.status)
  }

  /** The name passed to `handleChange`: one of the form's fields. */
  datatype ProjectField = Name | Description | Status

  function Get(f: ProjectForm, field: ProjectField): string {
    match field
    case Name => f.name
    case Description => f.description
    case Status => f.status
  }

  /** `{ ...prev, [name]: value }`: the named field holds the new value and every other keeps its own. */
  function WithField(f: ProjectForm, field: ProjectField, value: string): (r: ProjectForm)
    ensures Get(r, field) == value
    ensures forall other :: other != field ==> Get(r, other) == Get(f, other)
  {
    match field
    case Name => f.(name := value)
    case Description => f.(description := value)
    case Status => f.(status := value)
  }

  /** Writing back the value a field already holds leaves the form as it was. */
  lemma WithFieldOwnValue(f: ProjectForm, field: ProjectField)
    ensures WithField(f, field, Get(f, field)) == f
  {
  }

  /** The dialog's state. */
  class ProjectDialog {
    var formData: ProjectForm
    var isLoading: bool

    constructor ()
      ensures formData == Blank && !isLoading
    {
      formData := Blank;
      isLoading := false;
    }

    /** The effect that runs when the dialog opens or its project changes. */
    method Open(project: Option<Project>)
      modifies this
      ensures formData == Prefill(project) && isLoading == old(isLoading)
    {
      formData := Prefill(project);
    }

    method HandleChange(field: ProjectField, value: string)
      modifies this
      ensures formData == WithField(old(formData), field, value)
      ensures Get(formData, field) == value
      ensures forall other :: other != field ==> Get(formData, other) == Get(old(formData), other)
      ensures isLoading == old(isLoading)
    {
      formData := WithField(formData, field, value);
    }

    /**
     * Sends `formData` as an update of `project` when editing and as a
     * creation otherwise; the store's answer is `response`. The dialog closes
     * only when the store reports success; `message` is the notice the store
     * shows.
     */
    method HandleSubmit(store: Store, project: Option<Project>, response: Outcome<Project>)
      returns (request: ProjectForm, closed: bool, message: string)
      modifies this, store
      ensures request == old(formData)
      ensures closed == response.Success?
      ensures store.projects == (if !closed then old(store.projects)
                                 else if project.Some? then ReplaceProject(old(store.projects), project.value.id, response.value)
                                 else Appended(old(store.projects), response.value))
      ensures store.tasks == old(store.tasks) && store.isLoading == old(store.isLoading)
      ensures message == (if project.Some? then
                            (if closed then "Project updated successfully"
                             else ErrorMessage(response.error, "Failed to update project"))
                          else if closed then "Project created successfully"
                          else ErrorMessage(response.error, "Failed to create project"))
      ensures formData == old(formData) && !isLoading
    {
      isLoading := true;
      request := formData;
      var ok: bool;
      if project.Some? {
        ok, message := store.UpdateProject(project.value.id, response);
      } else {
        ok, message := store.CreateProject(response);
      }
      closed := ok;
      isLoading := false;
    }
  }
}
