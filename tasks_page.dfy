/**
 * The tasks page's derived view: the task filter, the sort the page runs in
 * place on the filtered array, the project label and the overdue flag.
 */
module TasksPage {
  import opened Wrappers
  import opened Seqs
  import opened Text
  import opened Api

  /** The page's selector state: search box, three filters, sort key. */
  datatype Selectors = Selectors(
    searchTerm: string,
    statusFilter: string,
    priorityFilter: string,
    projectFilter: string,
    sortBy: string)

  /** The state the page opens with: no search, every filter `'all'`, newest first. */
  const Initial := Selectors("", "all", "all", "all", "created_at")

  // ---------------------------------------------------------------- filter

  /** The title, or else the description when there is one, contains the search term, ignoring case. */
  function MatchesSearch(t: Task, term: string): (r: bool)
    ensures r <==> Occurs(ToLower(t.title), ToLower(term))
                   || (t.description.Some? && Occurs(ToLower(t.description.value), ToLower(term)))
  {
    IncludesIffOccurs(ToLower(t.title), ToLower(term));
    if t.description.Some? then
      IncludesIffOccurs(ToLower(t.description.value), ToLower(term));
      Includes(ToLower(t.title), ToLower(term)) || Includes(ToLower(t.description.value), ToLower(term))
    else
      Includes(ToLower(t.title), ToLower(term))
  }

  /**
   * The four tests a shown task passes. The project filter compares decimal
   * spellings, so it selects exactly the tasks whose id the filter text parses to.
   */
  function Matches(t: Task, sel: Selectors): (r: bool)
    ensures r ==> MatchesSearch(t, sel.searchTerm)
    ensures (sel.projectFilter != "all" && r) ==> t.project_id.Some? && ParseInt(sel.projectFilter) == t.project_id
    ensures (sel.searchTerm == "" && sel.statusFilter == "all" && sel.priorityFilter == "all"
             && sel.projectFilter == "all") ==> r
  {
    && MatchesSearch(t, sel.searchTerm)
    && (sel.statusFilter == "all" || StatusText(t.status) == sel.statusFilter)
    && (sel.priorityFilter == "all" || PriorityText(t.priority) == sel.priorityFilter)
    && (sel.projectFilter == "all"
        || (t.project_id.Some? && (ParseIntToString(t.project_id.value);
                                   IntToString(t.project_id.value) == sel.projectFilter)))
  }

  /** The `tasks.filter(...)` step. */
  function FilterTasks(tasks: seq<Task>, sel: Selectors): (r: seq<Task>)
    ensures forall t :: t in r <==> t in tasks && Matches(t, sel)
  {
    Filter(tasks, (t: Task) => Matches(t, sel))
  }

  /** The filtered list keeps the tasks in the order the store holds them. */
  lemma FilteredIsSubsequence(tasks: seq<Task>, sel: Selectors)
    ensures IsSubsequence(FilterTasks(tasks, sel), tasks)
  {
    FilterIsSubsequence(tasks, (t: Task) => Matches(t, sel));
  }

  /** With an empty search and every filter at `'all'`, nothing is filtered out. */
  lemma UnfilteredKeepsAll(tasks: seq<Task>, sel: Selectors)
    requires sel.searchTerm == "" && sel.statusFilter == "all"
    requires sel.priorityFilter == "all" && sel.projectFilter == "all"
    ensures FilterTasks(tasks, sel) == tasks
  {
    FilterKeepsAll(tasks, (t: Task) => Matches(t, sel));
  }

  /** Distinct ids never share a decimal spelling. */
  lemma IntToStringInjective(a: int, b: int)
    requires IntToString(a) == IntToString(b)
    ensures a == b
  {
    ParseIntToString(a);
    ParseIntToString(b);
  }

  /** Every kept task satisfies each filter that is not `'all'`; the project filter selects by id. */
  lemma KeptTasksMatchFilters(tasks: seq<Task>, sel: Selectors, projectId: int)
    ensures forall t :: t in FilterTasks(tasks, sel) && sel.statusFilter != "all" ==>
              StatusText(t.status) == sel.statusFilter
    ensures forall t :: t in FilterTasks(tasks, sel) && sel.priorityFilter != "all" ==>
              PriorityText(t.priority) == sel.priorityFilter
    ensures sel.projectFilter == IntToString(projectId) ==>
              forall t :: t in FilterTasks(tasks, sel) ==> t.project_id == Some(projectId)
  {
    if sel.projectFilter == IntToString(projectId) {
      assert "all"[0] == 'a';
      forall t | t in FilterTasks(tasks, sel)
        ensures t.project_id == Some(projectId)
      {
        IntToStringInjective(t.project_id.value, projectId);
      }
    }
  }

  // ---------------------------------------------------------------- sort

  /** `{ high: 3, medium: 2, low: 1 }`. */
  function PriorityRank(p: Priority): int {
    match p
    case High => 3
    case Medium => 2
    case Low => 1
  }

  /** JavaScript truthiness of `task.due_date`. */
  predicate HasDueDate(t: Task) {
    t.due_date.Some? && t.due_date.value != ""
  }

  /**
   * The comparator handed to `sort`: negative when `a` goes first.
   * `timeOf(s)` stands for `new Date(s).getTime()`.
   */
  function Compare(sortBy: string, timeOf: string -> int, a: Task, b: Task): (r: int)
    ensures sortBy == "title" ==> (r == 0 <==> a.title == b.title)
    ensures sortBy == "priority" ==> ((r < 0 <==> PriorityRank(a.priority) > PriorityRank(b.priority))
                                      && (r == 0 <==> a.priority == b.priority))
    ensures (sortBy == "due_date" && HasDueDate(a) && !HasDueDate(b)) ==> r < 0
    ensures (sortBy == "due_date" && !HasDueDate(a) && HasDueDate(b)) ==> r > 0
    ensures (sortBy == "due_date" && HasDueDate(a) && HasDueDate(b))
            ==> (r < 0 <==> timeOf(a.due_date.value) < timeOf(b.due_date.value))
    ensures sortBy == "status" ==> (r == 0 <==> a.status == b.status)
    ensures sortBy !in {"title", "priority", "due_date", "status"}
            ==> (r < 0 <==> timeOf(a.created_at) > timeOf(b.created_at))
  {
    if sortBy == "title" then LocaleCompare(a.title, b.title)
    else if sortBy == "priority" then PriorityRank(b.priority) - PriorityRank(a.priority)
    else if sortBy == "due_date" then
      if !HasDueDate(a) && !HasDueDate(b) then 0
      else if !HasDueDate(a) then 1
      else if !HasDueDate(b) then -1
      else timeOf(a.due_date.value) - timeOf(b.due_date.value)
    else if sortBy == "status" then LocaleCompare(StatusText(a.status), StatusText(b.status))
    else timeOf(b.created_at) - timeOf(a.created_at)
  }

  /** Swapping the two tasks negates the comparator, for every key. */
  lemma CompareAntisymmetric(sortBy: string, timeOf: string -> int, a: Task, b: Task)
    ensures Compare(sortBy, timeOf, b, a) == -Compare(sortBy, timeOf, a, b)
  {
    LocaleCompareAntisymmetric(a.title, b.title);
    LocaleCompareAntisymmetric(StatusText(a.status), StatusText(b.status));
  }

  /** `a` may precede `b`. */
  predicate InOrder(sortBy: string, timeOf: string -> int, a: Task, b: Task) {
    Compare(sortBy, timeOf, a, b) <= 0
  }

  ghost predicate Sorted(s: seq<Task>, sortBy: string, timeOf: string -> int) {
    forall i, j :: 0 <= i < j < |s| ==> InOrder(sortBy, timeOf, s[i], s[j])
  }

  /** Any two tasks can be ordered one way or the other. */
  lemma InOrderTotal(sortBy: string, timeOf: string -> int, a: Task, b: Task)
    ensures InOrder(sortBy, timeOf, a, b) || InOrder(sortBy, timeOf, b, a)
  {
    LocaleCompareAntisymmetric(a.title, b.title);
    LocaleCompareAntisymmetric(StatusText(a.status), StatusText(b.status));
  }

  /** The comparator's order is transitive, so sorting by it is well defined. */
  lemma InOrderTransitive(sortBy: string, timeOf: string -> int, a: Task, b: Task, c: Task)
    requires InOrder(sortBy, timeOf, a, b) && InOrder(sortBy, timeOf, b, c)
    ensures InOrder(sortBy, timeOf, a, c)
  {
    if sortBy == "title" {
      LocaleCompareTransitive(a.title, b.title, c.title);
    } else if sortBy == "status" {
      LocaleCompareTransitive(StatusText(a.status), StatusText(b.status), StatusText(c.status));
    }
  }

  method Swap(a: array<Task>, i: int, j: int)
    requires 0 <= i < a.Length && 0 <= j < a.Length
    modifies a
    ensures a[..] == old(a[..])[i := old(a[j])][j := old(a[i])]
    ensures multiset(a[..]) == old(multiset(a[..]))
  {
    a[i], a[j] := a[j], a[i];
  }

  /** The first `n` elements are in order. */
  ghost predicate SortedPrefix(s: seq<Task>, n: int, sortBy: string, timeOf: string -> int)
    requires n <= |s|
  {
    forall k, m :: 0 <= k < m < n ==> InOrder(sortBy, timeOf, s[k], s[m])
  }

  /**
   * The insertion of `s[i]` is under way and has reached position `j`: the
   * first `i + 1` elements are in order apart from the one at `j`, which may
   * precede everything after it.
   */
  ghost predicate Inserting(s: seq<Task>, i: int, j: int, sortBy: string, timeOf: string -> int)
    requires 0 <= j <= i < |s|
  {
    && (forall k, m :: 0 <= k < m <= i && k != j && m != j ==> InOrder(sortBy, timeOf, s[k], s[m]))
    && (forall m :: j < m <= i ==> InOrder(sortBy, timeOf, s[j], s[m]))
  }

  /** Moving the element one place left, past a predecessor it must precede, continues the insertion. */
  lemma InsertionStep(s: seq<Task>, i: int, j: int, sortBy: string, timeOf: string -> int)
    requires 0 < j <= i < |s|
    requires Inserting(s, i, j, sortBy, timeOf)
    requires !InOrder(sortBy, timeOf, s[j - 1], s[j])
    ensures Inserting(s[j - 1 := s[j]][j := s[j - 1]], i, j - 1, sortBy, timeOf)
  {
    InOrderTotal(sortBy, timeOf, s[j - 1], s[j]);
  }

  /** The insertion stops once the element's predecessor may precede it: the prefix is then in order. */
  lemma InsertionDone(s: seq<Task>, i: int, j: int, sortBy: string, timeOf: string -> int)
    requires 0 <= j <= i < |s|
    requires Inserting(s, i, j, sortBy, timeOf)
    requires j == 0 || InOrder(sortBy, timeOf, s[j - 1], s[j])
    ensures SortedPrefix(s, i + 1, sortBy, timeOf)
  {
    forall k, m | 0 <= k < m <= i
      ensures InOrder(sortBy, timeOf, s[k], s[m])
    {
      if m == j && k < j - 1 {
        InOrderTransitive(sortBy, timeOf, s[k], s[j - 1], s[j]);
      }
    }
  }

  /** `filtered.sort(comparator)`: insertion sort, in place. */
  method SortInPlace(a: array<Task>, sortBy: string, timeOf: string -> int)
    modifies a
    ensures Sorted(a[..], sortBy, timeOf)
    ensures multiset(a[..]) == old(multiset(a[..]))
  {
    var i := 0;
    while i < a.Length
      invariant 0 <= i <= a.Length
      invariant SortedPrefix(a[..], i, sortBy, timeOf)
      invariant multiset(a[..]) == old(multiset(a[..]))
    {
      var j := i;
      while j > 0 && !InOrder(sortBy, timeOf, a[j - 1], a[j])
        invariant 0 <= j <= i
        invariant Inserting(a[..], i, j, sortBy, timeOf)
        invariant multiset(a[..]) == old(multiset(a[..]))
      {
        InsertionStep(a[..], i, j, sortBy, timeOf);
        Swap(a, j - 1, j);
        j := j - 1;
      }
      InsertionDone(a[..], i, j, sortBy, timeOf);
      i := i + 1;
    }
  }

  /** The page's `filteredAndSortedTasks`: the matching tasks, sorted by the chosen key. */
  method FilteredAndSortedTasks(tasks: seq<Task>, sel: Selectors, timeOf: string -> int)
    returns (r: seq<Task>)
    ensures multiset(r) == multiset(FilterTasks(tasks, sel))
    ensures Sorted(r, sel.sortBy, timeOf)
    ensures forall t :: t in r <==> t in tasks && Matches(t, sel)
  {
    var filtered := FilterTasks(tasks, sel);
    var a := new Task[|filtered|](i requires 0 <= i < |filtered| => filtered[i]);
    assert a[..] == filtered;
    SortInPlace(a, sel.sortBy, timeOf);
    r := a[..];
    assert forall t :: t in r <==> t in multiset(r);
  }

  /** Sorting by priority: every high task before every medium one, every medium before every low. */
  lemma PrioritySortOrder(s: seq<Task>, timeOf: string -> int)
    requires Sorted(s, "priority", timeOf)
    ensures forall i, j :: 0 <= i < j < |s| ==> PriorityRank(s[i].priority) >= PriorityRank(s[j].priority)
  {
  }

  /** Sorting by due date: dated tasks first, earliest first among them. */
  lemma DueDateSortOrder(s: seq<Task>, timeOf: string -> int)
    requires Sorted(s, "due_date", timeOf)
    ensures forall i, j :: 0 <= i < j < |s| && HasDueDate(s[j]) ==> HasDueDate(s[i])
    ensures forall i, j :: 0 <= i < j < |s| && HasDueDate(s[i]) && HasDueDate(s[j]) ==>
              timeOf(s[i].due_date.value) <= timeOf(s[j].due_date.value)
  {
    forall i, j | 0 <= i < j < |s| && HasDueDate(s[j])
      ensures HasDueDate(s[i])
    {
      assert InOrder("due_date", timeOf, s[i], s[j]);
    }
  }

  /** Any other sort key: newest creation time first. */
  lemma DefaultSortOrder(s: seq<Task>, sortBy: string, timeOf: string -> int)
    requires sortBy !in {"title", "priority", "due_date", "status"}
    requires Sorted(s, sortBy, timeOf)
    ensures forall i, j :: 0 <= i < j < |s| ==> timeOf(s[i].created_at) >= timeOf(s[j].created_at)
  {
  }

  /** Sorting by title or by status follows the string order of those fields. */
  lemma TextSortOrder(s: seq<Task>, timeOf: string -> int)
    ensures Sorted(s, "title", timeOf) ==>
              forall i, j :: 0 <= i < j < |s| ==> LocaleCompare(s[i].title, s[j].title) <= 0
    ensures Sorted(s, "status", timeOf) ==>
              forall i, j :: 0 <= i < j < |s| ==> LocaleCompare(StatusText(s[i].status), StatusText(s[j].status)) <= 0
  {
  }

  // ---------------------------------------------------------------- labels

  /** `projects.find(p => p.id === id)`. */
  function FindProject(projects: seq<Project>, id: int): (r: Option<Project>)
    ensures r.None? <==> forall p :: p in projects ==> p.id != id
    ensures r.Some? ==> r.value in projects && r.value.id == id
  {
    if projects == [] then None
    else if projects[0].id == id then Some(projects[0])
    else FindProject(projects[1..], id)
  }

  /** The project found is the first one with that id. */
  lemma {:induction false} FindProjectIsFirst(projects: seq<Project>, id: int)
    requires FindProject(projects, id).Some?
    ensures exists i :: 0 <= i < |projects| && projects[i] == FindProject(projects, id).value
                        && forall k :: 0 <= k < i ==> projects[k].id != id
  {
    if projects[0].id != id {
      FindProjectIsFirst(projects[1..], id);
      var i :| 0 <= i < |projects[1..]| && projects[1..][i] == FindProject(projects, id).value
               && forall k :: 0 <= k < i ==> projects[1..][k].id != id;
      assert projects[i + 1] == FindProject(projects, id).value;
    } else {
      assert projects[0] == FindProject(projects, id).value;
    }
  }

  /**
   * `getProjectName`: "No Project" when the task has no project id or a falsy
   * one (0), "Unknown Project" when no loaded project has it, else its name.
   */
  function ProjectName(projectId: Option<int>, projects: seq<Project>): (r: string)
    ensures projectId.None? || projectId.value == 0 ==> r == "No Project"
    ensures (projectId.Some? && projectId.value != 0 && forall p :: p in projects ==> p.id != projectId.value) ==>
              r == "Unknown Project"
    ensures (projectId.Some? && projectId.value != 0 && exists p :: p in projects && p.id == projectId.value) ==>
              exists i :: 0 <= i < |projects| && projects[i].id == projectId.value && r == projects[i].name
                              && forall k :: 0 <= k < i ==> projects[k].id != projectId.value
  {
    if projectId.None? || projectId.value == 0 then "No Project"
    else match FindProject(projects, projectId.value)
      case None => "Unknown Project"
      case Some(p) =>
        FindProjectIsFirst(projects, projectId.value);
        p.name
  }

  /** `isOverdue`: open, dated, and due before `now`. */
  predicate IsOverdue(t: Task, now: int, timeOf: string -> int)
    ensures IsOverdue(t, now, timeOf) <==>
              HasDueDate(t) && t.status != Completed && timeOf(t.due_date.value) < now
  {
    if !HasDueDate(t) || t.status == Completed then false
    else timeOf(t.due_date.value) < now
  }

  /** A past-due open task is flagged; the same task once completed is not. */
  lemma CompletionClearsOverdue(t: Task, now: int, timeOf: string -> int)
    requires HasDueDate(t) && timeOf(t.due_date.value) < now
    ensures t.status != Completed ==> IsOverdue(t, now, timeOf)
    ensures !IsOverdue(t.(status := Completed), now, timeOf)
  {
  }
}
