/**
 * The profile page's derived view: the signed-in user, the activity counts
 * over the whole store and the overall completion rate.
 */
module ProfilePage {
  import opened Wrappers
  import opened Seqs
  import opened Api
  import opened Percent
  import opened Session

  /** `userStats`. */
  datatype UserStats = UserStats(
    totalProjects: nat,
    totalTasks: nat,
    completedTasks: nat,
    pendingTasks: nat,
    inProgressTasks: nat)

  /** The number of tasks with status `st`. */
  function StatusCount(tasks: seq<Task>, st: TaskStatus): (r: nat)
    ensures r <= |tasks|
    ensures r == 0 <==> forall t :: t in tasks ==> t.status != st
    ensures (forall t :: t in tasks ==> t.status == st) ==> r == |tasks|
  {
    var same := Filter(tasks, (t: Task) => t.status == st);
    assert same != [] ==> same[0] in same;
    if forall t :: t in tasks ==> t.status == st then
      FilterKeepsAll(tasks, (t: Task) => t.status == st);
      |same|
    else
      |same|
  }

  /** Every task has exactly one of the three statuses, so the three counts add up to the total. */
  lemma {:induction false} StatusCountsPartition(tasks: seq<Task>)
    ensures StatusCount(tasks, Completed) + StatusCount(tasks, Pending) + StatusCount(tasks, InProgress) == |tasks|
  {
    if tasks != [] {
      StatusCountsPartition(tasks[1..]);
      assert StatusCount(tasks, Completed) == (if tasks[0].status == Completed then 1 else 0) + StatusCount(tasks[1..], Completed);
      assert StatusCount(tasks, Pending) == (if tasks[0].status == Pending then 1 else 0) + StatusCount(tasks[1..], Pending);
      assert StatusCount(tasks, InProgress) == (if tasks[0].status == InProgress then 1 else 0) + StatusCount(tasks[1..], InProgress);
    }
  }

  /** The statistics over the store; the three status counts partition the tasks. */
  function Stats(projects: seq<Project>, tasks: seq<Task>): (s: UserStats)
    ensures s.totalProjects == |projects| && s.totalTasks == |tasks|
    ensures s.completedTasks == StatusCount(tasks, Completed)
    ensures s.pendingTasks == StatusCount(tasks, Pending)
    ensures s.inProgressTasks == StatusCount(tasks, InProgress)
    ensures s.completedTasks + s.pendingTasks + s.inProgressTasks == s.totalTasks
  {
    StatusCountsPartition(tasks);
    UserStats(|projects|, |tasks|, StatusCount(tasks, Completed), StatusCount(tasks, Pending), StatusCount(tasks, InProgress))
  }

  /** The "Active" tile: pending plus in progress, that is, every task not completed. */
  function ActiveCount(s: UserStats): (r: nat)
    requires s.completedTasks + s.pendingTasks + s.inProgressTasks == s.totalTasks
    ensures r == s.totalTasks - s.completedTasks
  {
    s.pendingTasks + s.inProgressTasks
  }

  /** `completionRate`: a percentage, 0 without tasks, 100 when every task is completed. */
  function OverallRate(s: UserStats): (r: int)
    requires s.completedTasks <= s.totalTasks
    ensures r == CompletionRate(s.completedTasks, s.totalTasks)
    ensures 0 <= r <= 100
    ensures s.totalTasks == 0 ==> r == 0
    ensures (s.totalTasks > 0 && s.completedTasks == s.totalTasks) ==> r == 100
    ensures s.completedTasks == 0 ==> r == 0
  {
    CompletionRateBounds(s.completedTasks, s.totalTasks);
    CompletionRate(s.completedTasks, s.totalTasks)
  }

  /** `user?.payload`: only a session user kept in its enveloped form has one. */
  function CurrentUser(user: Option<SessionUser>): (r: Option<User>)
    ensures r.Some? <==> user.Some? && user.value.Enveloped?
    ensures r.Some? ==> r.value == user.value.payload
  {
    match user
    case Some(Enveloped(u)) => Some(u)
    case _ => None
  }

  /** What the page shows: a spinner, or the user with the statistics. */
  datatype ProfileView =
    | Spinner
    | Overview(currentUser: User, stats: UserStats, completionRate: int, active: nat)

  /** The page: a spinner unless there is a current user; otherwise its figures over the store. */
  function View(user: Option<SessionUser>, projects: seq<Project>, tasks: seq<Task>): (v: ProfileView)
    ensures v.Spinner? <==> CurrentUser(user).None?
    ensures v.Overview? ==> v.currentUser == CurrentUser(user).value
    ensures v.Overview? ==> v.stats == Stats(projects, tasks)
    ensures v.Overview? ==> v.completionRate == OverallRate(v.stats) && 0 <= v.completionRate <= 100
    ensures v.Overview? ==> v.active == ActiveCount(v.stats) && v.active + v.stats.completedTasks == |tasks|
  {
    match CurrentUser(user)
    case None => Spinner
    case Some(u) =>
      var s := Stats(projects, tasks);
      Overview(u, s, OverallRate(s), ActiveCount(s))
  }

  /** With every task completed, the profile of an enveloped user shows a rate of 100 and nothing active. */
  lemma AllCompletedShowsFullRate(u: User, projects: seq<Project>, tasks: seq<Task>)
    requires tasks != []
    requires forall t :: t in tasks ==> t.status == Completed
    ensures View(Some(Enveloped(u)), projects, tasks).completionRate == 100
    ensures View(Some(Enveloped(u)), projects, tasks).active == 0
  {
    assert StatusCount(tasks, Completed) == |tasks|;
  }

  /** A user who just logged in or registered is kept in the bare form, so the page shows its spinner. */
  lemma FreshLoginShowsSpinner(u: User, projects: seq<Project>, tasks: seq<Task>)
    ensures View(Some(Bare(u)), projects, tasks) == Spinner
  {
  }
}
