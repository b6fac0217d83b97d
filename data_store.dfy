/**
 * The collection store: the in-memory mirror of the server's projects and
 * tasks, refreshed in full and mutated one entity at a time, each change
 * applied only after the server confirmed it.
 */
module DataStore {
  import opened Wrappers
  import opened Seqs
  import opened Api

  // ---------------------------------------------------------------- transitions

  /** `[...prev, created]`. */
  function Appended<T>(s: seq<T>, created: T): (r: seq<T>)
    ensures |r| == |s| + 1 && r[..|s|] == s && r[|s|] == created
  {
    s + [created]
  }

  /** `prev.map(p => p.id === id ? updated : p)`. */
  function ReplaceProject(projects: seq<Project>, id: int, updated: Project): (r: seq<Project>)
    ensures |r| == |projects|
    ensures forall i :: 0 <= i < |r| ==> r[i] == if projects[i].id == id then updated else projects[i]
  {
    ReplaceWhere(projects, (p: Project) => p.id == id, updated)
  }

  /** `prev.map(t => t.id === id ? updated : t)`. */
  function ReplaceTask(tasks: seq<Task>, id: int, updated: Task): (r: seq<Task>)
    ensures |r| == |tasks|
    ensures forall i :: 0 <= i < |r| ==> r[i] == if tasks[i].id == id then updated else tasks[i]
  {
    ReplaceWhere(tasks, (t: Task) => t.id == id, updated)
  }

  /** `prev.filter(p => p.id !== id)`. */
  function WithoutProject(projects: seq<Project>, id: int): (r: seq<Project>)
    ensures forall p: Project :: p in r <==> p in projects && p.id != id
  {
    Filter(projects, (p: Project) => p.id != id)
  }

  /** `prev.filter(t => t.project_id !== id)`: a task without a project is kept. */
  function WithoutProjectTasks(tasks: seq<Task>, id: int): (r: seq<Task>)
    ensures forall t: Task :: t in r <==> t in tasks && t.project_id != Some(id)
  {
    Filter(tasks, (t: Task) => t.project_id != Some(id))
  }

  /** `prev.filter(t => t.id !== id)`. */
  function WithoutTask(tasks: seq<Task>, id: int): (r: seq<Task>)
    ensures forall t: Task :: t in r <==> t in tasks && t.id != id
  {
    Filter(tasks, (t: Task) => t.id != id)
  }

  // ---------------------------------------------------------------- properties

  /** How many tasks carry `id`. */
  function TaskIdCount(tasks: seq<Task>, id: int): nat {
    |Filter(tasks, (t: Task) => t.id == id)|
  }

  /** How many projects carry `id`. */
  function ProjectIdCount(projects: seq<Project>, id: int): nat {
    |Filter(projects, (p: Project) => p.id == id)|
  }

  /**
   * `create` does not look for an existing entity with the server's id: the
   * number of tasks carrying that id grows by exactly one, so it is one only
   * when the id was new.
   */
  lemma {:induction false} CreateTaskCountsId(tasks: seq<Task>, created: Task)
    ensures TaskIdCount(Appended(tasks, created), created.id) == TaskIdCount(tasks, created.id) + 1
    ensures (forall t: Task :: t in tasks ==> t.id != created.id) ==>
              TaskIdCount(Appended(tasks, created), created.id) == 1
  {
    var sameId := (t: Task) => t.id == created.id;
    FilterAppend(tasks, [created], sameId);
    assert Filter([created], sameId) == [created];
    if forall t: Task :: t in tasks ==> t.id != created.id {
      var none := Filter(tasks, sameId);
      assert none != [] ==> none[0] in none;
    }
  }

  /** The same for projects. */
  lemma {:induction false} CreateProjectCountsId(projects: seq<Project>, created: Project)
    ensures ProjectIdCount(Appended(projects, created), created.id) == ProjectIdCount(projects, created.id) + 1
    ensures (forall p: Project :: p in projects ==> p.id != created.id) ==>
              ProjectIdCount(Appended(projects, created), created.id) == 1
  {
    var sameId := (p: Project) => p.id == created.id;
    FilterAppend(projects, [created], sameId);
    assert Filter([created], sameId) == [created];
    if forall p: Project :: p in projects ==> p.id != created.id {
      var none := Filter(projects, sameId);
      assert none != [] ==> none[0] in none;
    }
  }

  /** An update whose id matches nothing leaves the collection as it was (and still reports success). */
  lemma UpdateTaskWithoutMatch(tasks: seq<Task>, id: int, updated: Task)
    requires forall t: Task :: t in tasks ==> t.id != id
    ensures ReplaceTask(tasks, id, updated) == tasks
  {
  }

  /**
   * Deleting a task removes every task with that id, keeps every other task
   * with all its occurrences, and keeps the survivors in their order.
   */
  lemma DeleteTaskKeepsOthers(tasks: seq<Task>, id: int)
    ensures forall t: Task :: t in WithoutTask(tasks, id) ==> t.id != id
    ensures forall t: Task :: t.id != id ==> multiset(WithoutTask(tasks, id))[t] == multiset(tasks)[t]
    ensures IsSubsequence(WithoutTask(tasks, id), tasks)
  {
    var keep := (t: Task) => t.id != id;
    forall t: Task | t.id != id
      ensures multiset(WithoutTask(tasks, id))[t] == multiset(tasks)[t]
    {
      FilterMultiplicity(tasks, keep, t);
    }
    FilterIsSubsequence(tasks, keep);
  }

  /**
   * Deleting project `id` leaves no project with that id and no task that
   * belongs to it; every other project, and every task with another project
   * or none, survives with all its occurrences and in order.
   */
  lemma DeleteProjectCascades(projects: seq<Project>, tasks: seq<Task>, id: int)
    ensures forall p: Project :: p in WithoutProject(projects, id) ==> p.id != id
    ensures forall t: Task :: t in WithoutProjectTasks(tasks, id) ==> t.project_id != Some(id)
    ensures forall p: Project :: p.id != id ==> multiset(WithoutProject(projects, id))[p] == multiset(projects)[p]
    ensures forall t: Task :: t.project_id != Some(id) ==>
              multiset(WithoutProjectTasks(tasks, id))[t] == multiset(tasks)[t]
    ensures IsSubsequence(WithoutProject(projects, id), projects)
    ensures IsSubsequence(WithoutProjectTasks(tasks, id), tasks)
  {
    var keepProject := (p: Project) => p.id != id;
    var keepTask := (t: Task) => t.project_id != Some(id);
    forall p: Project | p.id != id
      ensures multiset(WithoutProject(projects, id))[p] == multiset(projects)[p]
    {
      FilterMultiplicity(projects, keepProject, p);
    }
    forall t: Task | t.project_id != Some(id)
      ensures multiset(WithoutProjectTasks(tasks, id))[t] == multiset(tasks)[t]
    {
      FilterMultiplicity(tasks, keepTask, t);
    }
    FilterIsSubsequence(projects, keepProject);
    FilterIsSubsequence(tasks, keepTask);
  }

  // ---------------------------------------------------------------- the store

  class Store {
    var projects: seq<Project>
    var tasks: seq<Task>
    /** One flag shared by both refreshes. */
    var isLoading: bool

    constructor ()
      ensures projects == [] && tasks == [] && !isLoading
    {
      projects, tasks, isLoading := [], [], false;
    }

    /** Replaces all projects with the server's list; on failure keeps them and reports it. */
    method RefreshProjects(response: Outcome<seq<Project>>) returns (notice: Option<string>)
      modifies this
      ensures projects == (if response.Success? then response.value else old(projects))
      ensures tasks == old(tasks) && !isLoading
      ensures notice == (if response.Success? then None else Some("Failed to load projects"))
    {
      isLoading := true;
      match response {
        case Success(list) =>
          projects := list;
          notice := None;
        case Failure(_) =>
          notice := Some("Failed to load projects");
      }
      isLoading := false;
    }

    /** Replaces all tasks with the server's list; on failure keeps them and reports it. */
    method RefreshTasks(response: Outcome<seq<Task>>) returns (notice: Option<string>)
      modifies this
      ensures tasks == (if response.Success? then response.value else old(tasks))
      ensures projects == old(projects) && !isLoading
      ensures notice == (if response.Success? then None else Some("Failed to load tasks"))
    {
      isLoading := true;
      match response {
        case Success(list) =>
          tasks := list;
          notice := None;
        case Failure(_) =>
          notice := Some("Failed to load tasks");
      }
      isLoading := false;
    }

    /** The effect run when `isAuthenticated` changes: both collections are fetched only when it is true. */
    method OnAuthenticationChanged(isAuthenticated: bool,
                                   projectsResponse: Outcome<seq<Project>>,
                                   tasksResponse: Outcome<seq<Task>>)
      modifies this
      ensures !isAuthenticated ==> projects == old(projects) && tasks == old(tasks) && isLoading == old(isLoading)
      ensures isAuthenticated ==>
                && projects == (if projectsResponse.Success? then projectsResponse.value else old(projects))
                && tasks == (if tasksResponse.Success? then tasksResponse.value else old(tasks))
                && !isLoading
    {
      if isAuthenticated {
        var _ := RefreshProjects(projectsResponse);
        var _ := RefreshTasks(tasksResponse);
      }
    }

    method CreateProject(response: Outcome<Project>) returns (ok: bool, message: string)
      modifies this
      ensures ok == response.Success?
      ensures projects == (if ok then Appended(old(projects), response.value) else old(projects))
      ensures tasks == old(tasks) && isLoading == old(isLoading)
      ensures message == if ok then "Project created successfully"
                         else ErrorMessage(response.error, "Failed to create project")
    {
      match response {
        case Success(created) =>
          projects := Appended(projects, created);
          ok, message := true, "Project created successfully";
        case Failure(e) =>
          ok, message := false, ErrorMessage(e, "Failed to create project");
      }
    }

    method UpdateProject(id: int, response: Outcome<Project>) returns (ok: bool, message: string)
      modifies this
      ensures ok == response.Success?
      ensures projects == (if ok then ReplaceProject(old(projects), id, response.value) else old(projects))
      ensures tasks == old(tasks) && isLoading == old(isLoading)
      ensures message == if ok then "Project updated successfully"
                         else ErrorMessage(response.error, "Failed to update project")
    {
      match response {
        case Success(updated) =>
          projects := ReplaceProject(projects, id, updated);
          ok, message := true, "Project updated successfully";
        case Failure(e) =>
          ok, message := false, ErrorMessage(e, "Failed to update project");
      }
    }

    /** Removes the project and, in the same step, every task that belongs to it. */
    method DeleteProject(id: int, response: Outcome<()>) returns (ok: bool, message: string)
      modifies this
      ensures ok == response.Success?
      ensures projects == (if ok then WithoutProject(old(projects), id) else old(projects))
      ensures tasks == (if ok then WithoutProjectTasks(old(tasks), id) else old(tasks))
      ensures isLoading == old(isLoading)
      ensures message == if ok then "Project deleted successfully"
                         else ErrorMessage(response.error, "Failed to delete project")
    {
      match response {
        case Success(_) =>
          projects := WithoutProject(projects, id);
          tasks := WithoutProjectTasks(tasks, id);
          ok, message := true, "Project deleted successfully";
        case Failure(e) =>
          ok, message := false, ErrorMessage(e, "Failed to delete project");
      }
    }

    method CreateTask(response: Outcome<Task>) returns (ok: bool, message: string)
      modifies this
      ensures ok == response.Success?
      ensures tasks == (if ok then Appended(old(tasks), response.value) else old(tasks))
      ensures projects == old(projects) && isLoading == old(isLoading)
      ensures message == if ok then "Task created successfully"
                         else ErrorMessage(response.error, "Failed to create task")
    {
      match response {
        case Success(created) =>
          tasks := Appended(tasks, created);
          ok, message := true, "Task created successfully";
        case Failure(e) =>
          ok, message := false, ErrorMessage(e, "Failed to create task");
      }
    }

    method UpdateTask(id: int, response: Outcome<Task>) returns (ok: bool, message: string)
      modifies this
      ensures ok == response.Success?
      ensures tasks == (if ok then ReplaceTask(old(tasks), id, response.value) else old(tasks))
      ensures projects == old(projects) && isLoading == old(isLoading)
      ensures message == if ok then "Task updated successfully"
                         else ErrorMessage(response.error, "Failed to update task")
    {
      match response {
        case Success(updated) =>
          tasks := ReplaceTask(tasks, id, updated);
          ok, message := true, "Task updated successfully";
        case Failure(e) =>
          ok, message := false, ErrorMessage(e, "Failed to update task");
      }
    }

    method DeleteTask(id: int, response: Outcome<()>) returns (ok: bool, message: string)
      modifies this
      ensures ok == response.Success?
      ensures tasks == (if ok then WithoutTask(old(tasks), id) else old(tasks))
      ensures projects == old(projects) && isLoading == old(isLoading)
      ensures message == if ok then "Task deleted successfully"
                         else ErrorMessage(response.error, "Failed to delete task")
    {
      match response {
        case Success(_) =>
          tasks := WithoutTask(tasks, id);
          ok, message := true, "Task deleted successfully";
        case Failure(e) =>
          ok, message := false, ErrorMessage(e, "Failed to delete task");
      }
    }
  }
}
