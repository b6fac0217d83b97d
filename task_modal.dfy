/**
 * The task dialog: the string-valued form it edits, how the form is filled
 * from the task being edited, how a field edit changes it, and how the form
 * is normalised and handed to the data store on submit.
 */
module TaskModal {
  import opened Wrappers
  import opened Text
  import opened Api
  import opened DataStore
  import TasksPage

  /** `formData`: every field as the input controls hold it, a string. */
  datatype TaskForm = TaskForm(
    title: string,
    description: string,
    status: string,
    priority: string,
    due_date: string,
    project_id: string)

  /** The form for a new task. */
  const Blank := TaskForm("", "", "pending", "medium", "", "")

  /**
   * The form the dialog opens with: the blank form for a new task, else the
   * task's own values, its due date cut at the first `T` and its project id
   * written in decimal.
   */
  function Prefill(task: Option<Task>): (f: TaskForm)
    ensures task.None? ==> f == Blank
    ensures task.Some? ==> f.title == task.value.title
                           && f.description == task.value.description.GetOr("")
                           && f.status == StatusText(task.value.status)
                           && f.priority == PriorityText(task.value.priority)
    ensures (task.Some? && TasksPage.HasDueDate(task.value))
            ==> f.due_date <= task.value.due_date.value && 'T' !in f.due_date
                && (|f.due_date| < |task.value.due_date.value| ==> task.value.due_date.value[|f.due_date|] == 'T')
    ensures (task.Some? && !TasksPage.HasDueDate(task.value)) ==> f.due_date == ""
    ensures (task.Some? && task.value.project_id.None?) ==> f.project_id == ""
    ensures (task.Some? && task.value.project_id.Some?) ==> ParseInt(f.project_id) == task.value.project_id
  {
    match task
    case None => Blank
    case Some(t) =>
      TaskForm(
        t.title,
        t.description.GetOr(""),
        StatusText(t.status),
        PriorityText(t.priority),
        if TasksPage.HasDueDate(t) then BeforeFirst(t.due_date.value, 'T') else "",
        if t.project_id.Some? then (ParseIntToString(t.project_id.value); IntToString(t.project_id.value)) else "")
  }

  /** The name passed to `handleChange`: one of the form's fields. */
  datatype TaskField = Title | Description | Status | PriorityField | DueDate | ProjectId

  function Get(f: TaskForm, field: TaskField): string {
    match field
    case Title => f.title
    case Description => f.description
    case Status => f.status
    case PriorityField => f.priority
    case DueDate => f.due_date
    case ProjectId => f.project_id
  }

  /** `{ ...prev, [name]: value }`: the named field holds the new value and every other keeps its own. */
  function WithField(f: TaskForm, field: TaskField, value: string): (r: TaskForm)
    ensures Get(r, field) == value
    ensures forall other :: other != field ==> Get(r, other) == Get(f, other)
  {
    match field
    case Title => f.(title := value)
    case Description => f.(description := value)
    case Status => f.(status := value)
    case PriorityField => f.(priority := value)
    case DueDate => f.(due_date := value)
    case ProjectId => f.(project_id := value)
  }

  /** `project_id` as submitted: left out, a number, or `NaN` when the text does not start with one. */
  datatype ProjectIdField = Undefined | Number(n: int) | NotANumber

  /** `submitData`. */
  datatype TaskSubmission = TaskSubmission(
    title: string,
    description: string,
    status: string,
    priority: string,
    due_date: Option<string>,
    project_id: ProjectIdField)

  /**
   * The normalisation on submit: an empty project id or due date is left out,
   * a non-empty project id is parsed, every other field passes through.
   */
  function Submission(f: TaskForm): (d: TaskSubmission)
    ensures d.title == f.title && d.description == f.description
    ensures d.status == f.status && d.priority == f.priority
    ensures d.due_date.None? <==> f.due_date == ""
    ensures d.due_date.Some? ==> d.due_date.value == f.due_date
    ensures d.project_id.Undefined? <==> f.project_id == ""
    ensures f.project_id != "" ==> (d.project_id.Number? <==> ParseInt(f.project_id).Some?)
    ensures d.project_id.Number? ==> ParseInt(f.project_id) == Some(d.project_id.n)
  {
    TaskSubmission(
      f.title,
      f.description,
      f.status,
      f.priority,
      if f.due_date == "" then None else Some(f.due_date),
      if f.project_id == "" then Undefined
      else match ParseInt(f.project_id)
        case Some(n) => Number(n)
        case None => NotANumber)
  }

  /** Submitting an untouched edit form sends the task's own project and status back. */
  lemma PrefillSubmitRoundTrip(t: Task)
    ensures var d := Submission(Prefill(Some(t)));
            && d.project_id == (if t.project_id.Some? then Number(t.project_id.value) else Undefined)
            && d.status == StatusText(t.status) && d.priority == PriorityText(t.priority)
            && d.title == t.title
            && (!TasksPage.HasDueDate(t) ==> d.due_date.None?)
  {
  }

  /** An untouched new-task form sends no project and no due date, status `pending` and priority `medium`. */
  lemma BlankSubmission()
    ensures Submission(Blank) == TaskSubmission("", "", "pending", "medium", None, Undefined)
  {
  }

  /** The dialog's state. */
  class TaskDialog {
    var formData: TaskForm
    var isLoading: bool

    constructor ()
      ensures formData == Blank && !isLoading
    {
      formData := Blank;
      isLoading := false;
    }

    /** The effect that runs when the dialog opens or its task changes. */
    method Open(task: Option<Task>)
      modifies this
      ensures formData == Prefill(task) && isLoading == old(isLoading)
    {
      formData := Prefill(task);
    }

    method HandleChange(field: TaskField, value: string)
      modifies this
      ensures formData == WithField(old(formData), field, value)
      ensures Get(formData, field) == value
      ensures forall other :: other != field ==> Get(formData, other) == Get(old(formData), other)
      ensures isLoading == old(isLoading)
    {
      formData := WithField(formData, field, value);
    }

    /**
     * Sends `Submission(formData)` as an update of `task` when editing and as
     * a creation otherwise; the store's answer is `response`. The dialog
     * closes only when the store reports success; `message` is the notice the
     * store shows.
     */
    method HandleSubmit(store: Store, task: Option<Task>, response: Outcome<Task>)
      returns (request: TaskSubmission, closed: bool, message: string)
      modifies this, store
      ensures request == Submission(old(formData))
      ensures closed == response.Success?
      ensures store.tasks == (if !closed then old(store.tasks)
                              else if task.Some? then ReplaceTask(old(store.tasks), task.value.id, response.value)
                              else Appended(old(store.tasks), response.value))
      ensures store.projects == old(store.projects) && store.isLoading == old(store.isLoading)
      ensures message == (if task.Some? then
                            (if closed then "Task updated successfully"
                             else ErrorMessage(response.error, "Failed to update task"))
                          else if closed then "Task created successfully"
                          else ErrorMessage(response.error, "Failed to create task"))
      ensures formData == old(formData) && !isLoading
    {
      isLoading := true;
      request := Submission(formData);
      var ok: bool;
      if task.Some? {
        ok, message := store.UpdateTask(task.value.id, response);
      } else {
        ok, message := store.CreateTask(response);
      }
      closed := ok;
      isLoading := false;
    }
  }
}
