/**
 * The projects page's derived view: the search filter and, per project, the
 * task count, the completed count and the completion rate.
 */
module ProjectsPage {
  import opened Wrappers
  import opened Seqs
  import opened Text
  import opened Api
  import opened Percent
  import DataStore

  /** The name, or else the description when there is one, contains the search term, ignoring case. */
  function MatchesSearch(p: Project, term: string): (r: bool)
    ensures r <==> Occurs(ToLower(p.name), ToLower(term))
                   || (p.description.Some? && Occurs(ToLower(p.description.value), ToLower(term)))
    ensures term == "" ==> r
  {
    IncludesIffOccurs(ToLower(p.name), ToLower(term));
    if p.description.Some? then
      IncludesIffOccurs(ToLower(p.description.value), ToLower(term));
      Includes(ToLower(p.name), ToLower(term)) || Includes(ToLower(p.description.value), ToLower(term))
    else
      Includes(ToLower(p.name), ToLower(term))
  }

  /** `filteredProjects`. */
  function FilterProjects(projects: seq<Project>, term: string): (r: seq<Project>)
    ensures forall p :: p in r <==> p in projects && MatchesSearch(p, term)
  {
    Filter(projects, (p: Project) => MatchesSearch(p, term))
  }

  /** The search keeps the projects in store order, and an empty search keeps them all. */
  lemma FilteredProjectsInOrder(projects: seq<Project>, term: string)
    ensures IsSubsequence(FilterProjects(projects, term), projects)
    ensures term == "" ==> FilterProjects(projects, term) == projects
  {
    FilterIsSubsequence(projects, (p: Project) => MatchesSearch(p, term));
    if term == "" {
      FilterKeepsAll(projects, (p: Project) => MatchesSearch(p, term));
    }
  }

  /** `getProjectTaskCount`: the tasks whose `project_id` is `projectId`. */
  function TaskCount(tasks: seq<Task>, projectId: int): (r: nat)
    ensures r <= |tasks|
    ensures r == 0 <==> forall t :: t in tasks ==> t.project_id != Some(projectId)
  {
    var mine := Filter(tasks, (t: Task) => t.project_id == Some(projectId));
    assert mine != [] ==> mine[0] in mine;
    |mine|
  }

  /** `getProjectCompletedTasks`: those of them that are completed. */
  function CompletedCount(tasks: seq<Task>, projectId: int): (r: nat)
    ensures r == 0 <==> forall t :: t in tasks && t.project_id == Some(projectId) ==> t.status != Completed
  {
    var done := Filter(tasks, (t: Task) => t.project_id == Some(projectId) && t.status == Completed);
    assert done != [] ==> done[0] in done;
    |done|
  }

  /** A project never has more completed tasks than tasks. */
  lemma CompletedAtMostTotal(tasks: seq<Task>, projectId: int)
    ensures CompletedCount(tasks, projectId) <= TaskCount(tasks, projectId)
  {
    FilterMonotone(tasks, (t: Task) => t.project_id == Some(projectId) && t.status == Completed,
                          (t: Task) => t.project_id == Some(projectId));
  }

  /** Deleting the project removes exactly the tasks the page counts for it. */
  lemma CascadeRemovesCountedTasks(tasks: seq<Task>, projectId: int)
    ensures |DataStore.WithoutProjectTasks(tasks, projectId)| == |tasks| - TaskCount(tasks, projectId)
  {
    FilterComplement(tasks, (t: Task) => t.project_id == Some(projectId),
                            (t: Task) => t.project_id != Some(projectId));
  }

  /** The per-project completion rate on a project card: a percentage, 0 for a project without tasks. */
  function ProjectCompletionRate(tasks: seq<Task>, projectId: int): (r: int)
    ensures r == CompletionRate(CompletedCount(tasks, projectId), TaskCount(tasks, projectId))
    ensures 0 <= r <= 100
    ensures TaskCount(tasks, projectId) == 0 ==> r == 0
    ensures (TaskCount(tasks, projectId) > 0 && CompletedCount(tasks, projectId) == TaskCount(tasks, projectId))
            ==> r == 100
  {
    CompletedAtMostTotal(tasks, projectId);
    CompletionRateBounds(CompletedCount(tasks, projectId), TaskCount(tasks, projectId));
    CompletionRate(CompletedCount(tasks, projectId), TaskCount(tasks, projectId))
  }
}
