/** The "My Tasks" page (frontend/src/components/MyTasks.jsx): the tasks of the
    signed-in user, narrowed by a status or priority filter, sorted on a copy,
    the statistics above them, and the payloads its buttons send. */
module MyTasksView {
  import opened JsValues
  import opened Lists
  import opened Sorting
  import opened Rate
  import opened Protocol
  import opened Mirror

  /** `user?.f`: `undefined` when nobody is signed in. */
  function UserField(user: Option<Record>, f: string): Option<Value>
  {
    if user.Some? then Get(user.value, f) else None
  }

  /** `task.assignee === user?.name || task.userId === user?.id`. */
  predicate IsMine(user: Option<Record>, t: Record)
  {
    StrictEq(Get(t, "assignee"), UserField(user, "name")) || StrictEq(Get(t, "userId"), UserField(user, "id"))
  }

  /** `myTasks`: the user's tasks, in the order of the shared list. */
  function MyTasks(tasks: seq<Record>, user: Option<Record>): (r: seq<Record>)
    ensures forall t :: t in r <==> t in tasks && IsMine(user, t)
    ensures forall t {:trigger multiset(r)[t]} :: multiset(r)[t] == if IsMine(user, t) then multiset(tasks)[t] else 0
    ensures Subsequence(r, tasks)
  {
    Filter(tasks, t => IsMine(user, t))
  }

  /** While nobody is signed in, `user?.name` is `undefined`, so every task without
      an `assignee` counts as the user's; the page shows the sign-in prompt then. */
  lemma UnassignedMatchNoUser(tasks: seq<Record>)
    ensures forall t :: t in tasks && "assignee" !in t ==> t in MyTasks(tasks, None)
  {
  }

  /** The filter values that select by column and by priority. */
  predicate IsColumnFilter(filter: string)
  {
    filter == "todo" || filter == "inprogress" || filter == "done"
  }

  predicate IsPriorityFilter(filter: string)
  {
    filter == "high" || filter == "medium" || filter == "low"
  }

  /** The test of the `filteredTasks` callback for one filter value. */
  function FilterTest(filter: string): Record -> bool
  {
    if IsColumnFilter(filter) then FieldIs("column", filter)
    else if IsPriorityFilter(filter) then FieldIs("priority", filter)
    else t => true
  }

  /** `filteredTasks`: 'all', and any value the page does not know, keep every
      task; the six others keep the tasks whose `column` or `priority` is exactly
      that string. */
  function FilteredTasks(mine: seq<Record>, filter: string): (r: seq<Record>)
    ensures Subsequence(r, mine)
    ensures !IsColumnFilter(filter) && !IsPriorityFilter(filter) ==> r == mine
    ensures IsColumnFilter(filter) ==> forall t :: t in r <==> t in mine && Get(t, "column") == Some(Str(filter))
    ensures IsPriorityFilter(filter) ==> forall t :: t in r <==> t in mine && Get(t, "priority") == Some(Str(filter))
    ensures IsColumnFilter(filter) ==> forall t {:trigger multiset(r)[t]} ::
              multiset(r)[t] == if Get(t, "column") == Some(Str(filter)) then multiset(mine)[t] else 0
    ensures IsPriorityFilter(filter) ==> forall t {:trigger multiset(r)[t]} ::
              multiset(r)[t] == if Get(t, "priority") == Some(Str(filter)) then multiset(mine)[t] else 0
  {
    var r := Filter(mine, FilterTest(filter));
    if !IsColumnFilter(filter) && !IsPriorityFilter(filter) then
      FilterKeepsAll(mine, FilterTest(filter));
      r
    else r
  }

  /** The instant `new Date(v)` denotes, or `None` for an Invalid Date, whose
      difference is NaN. `null` is the epoch and a boolean is 0 or 1 ms; numbers
      beyond 8.64e15 ms are invalid. */
  const MaxTime: int := 8_640_000_000_000_000

  function DateOf(v: Option<Value>): (d: Option<int>)
    ensures d.Some? ==> -MaxTime <= d.value <= MaxTime
  {
    match v
    case Some(Null) => Some(0)
    case Some(Bool(b)) => Some(if b then 1 else 0)
    case Some(Num(n)) => if -MaxTime <= n <= MaxTime then Some(n) else None
    case Some(Iso(ms)) => if -MaxTime <= ms <= MaxTime then Some(ms) else None
    case _ => None
  }

  /** `priorityOrder[p]` of `{ high: 3, medium: 2, low: 1 }`. */
  function Rank(v: Option<Value>): (k: Option<int>)
    ensures k.Some? <==> v == Some(Str("high")) || v == Some(Str("medium")) || v == Some(Str("low"))
    ensures k.Some? ==> 1 <= k.value <= 3
  {
    match v
    case Some(Str("high")) => Some(3)
    case Some(Str("medium")) => Some(2)
    case Some(Str("low")) => Some(1)
    case _ => None
  }

  /** `x - y` as the sort sees it: a NaN result counts as +0. */
  function Difference(x: Option<int>, y: Option<int>): int
  {
    if x.Some? && y.Some? then x.value - y.value else 0
  }

  /** `a.localeCompare(b)`, taken as comparison by character code: the first
      differing character decides, and a proper prefix comes first. */
  function LexCompare(a: string, b: string): (c: int)
    ensures -1 <= c <= 1
    ensures a < b ==> c == -1
    ensures b < a ==> c == 1
  {
    if a == [] && b == [] then 0
    else if a == [] then -1
    else if b == [] then 1
    else if a[0] < b[0] then -1
    else if a[0] > b[0] then 1
    else LexCompare(a[1..], b[1..])
  }

  lemma {:induction false} LexCompareZero(a: string, b: string)
    ensures LexCompare(a, b) == 0 <==> a == b
  {
    if a != [] && b != [] && a[0] == b[0] {
      LexCompareZero(a[1..], b[1..]);
      if a[1..] == b[1..] {
        assert a == [a[0]] + a[1..] && b == [b[0]] + b[1..];
      }
    }
  }

  lemma {:induction false} LexCompareAntisymmetric(a: string, b: string)
    ensures LexCompare(a, b) == -LexCompare(b, a)
  {
    if a != [] && b != [] && a[0] == b[0] {
      LexCompareAntisymmetric(a[1..], b[1..]);
    }
  }

  lemma {:induction false} LexCompareTransitive(a: string, b: string, c: string)
    requires LexCompare(a, b) <= 0 && LexCompare(b, c) <= 0
    ensures LexCompare(a, c) <= 0
  {
    if a != [] && b != [] && c != [] && a[0] == b[0] && b[0] == c[0] {
      LexCompareTransitive(a[1..], b[1..], c[1..]);
    }
  }

  /** `a.title` as a string: a string title as it is, anything else as "". */
  function TitleOf(t: Record): (title: string)
    ensures Get(t, "title").Some? && Get(t, "title").value.Str? ==> title == t["title"].s
    ensures !(Get(t, "title").Some? && Get(t, "title").value.Str?) ==> title == ""
  {
    if "title" in t && t["title"].Str? then t["title"].s else ""
  }

  /** The comparator handed to `sort` for each `sortBy`. Every one of them
      gives the opposite answer when its arguments are swapped; a `sortBy` the
      page does not offer finds all tasks equal. */
  function Comparator(sortBy: string): (cmp: (Record, Record) -> int)
    ensures forall a, b :: cmp(a, b) == -cmp(b, a)
    ensures sortBy != "createdAt" && sortBy != "priority" && sortBy != "title" ==> forall a, b :: cmp(a, b) == 0
    ensures sortBy == "priority" ==> forall a, b :: Rank(Get(a, "priority")).Some? && Rank(Get(b, "priority")).Some? ==>
              (cmp(a, b) < 0 <==> Rank(Get(a, "priority")).value > Rank(Get(b, "priority")).value)
    ensures sortBy == "title" ==> forall a, b :: cmp(a, b) == 0 <==> TitleOf(a) == TitleOf(b)
  {
    if sortBy == "createdAt" then (a: Record, b: Record) => Difference(DateOf(Get(b, "createdAt")), DateOf(Get(a, "createdAt")))
    else if sortBy == "priority" then (a: Record, b: Record) => Difference(Rank(Get(b, "priority")), Rank(Get(a, "priority")))
    else if sortBy == "title" then
      assert forall a, b :: LexCompare(TitleOf(a), TitleOf(b)) == -LexCompare(TitleOf(b), TitleOf(a))
                            && (LexCompare(TitleOf(a), TitleOf(b)) == 0 <==> TitleOf(a) == TitleOf(b)) by {
        forall a: Record, b: Record
          ensures LexCompare(TitleOf(a), TitleOf(b)) == -LexCompare(TitleOf(b), TitleOf(a))
          ensures LexCompare(TitleOf(a), TitleOf(b)) == 0 <==> TitleOf(a) == TitleOf(b)
        {
          LexCompareAntisymmetric(TitleOf(a), TitleOf(b));
          LexCompareZero(TitleOf(a), TitleOf(b));
        }
      }
      (a: Record, b: Record) => LexCompare(TitleOf(a), TitleOf(b))
    else (a: Record, b: Record) => 0
  }

  /** `sortedTasks`: a sorted copy, holding exactly the filtered tasks. */
  function SortedTasks(filtered: seq<Record>, sortBy: string): (r: seq<Record>)
    ensures multiset(r) == multiset(filtered)
    ensures |r| == |filtered|
    ensures forall t :: t in r <==> t in filtered
  {
    Sort(filtered, Comparator(sortBy))
  }

  /** A `sortBy` the page does not offer compares everything as equal, and the
      stable sort then keeps the filtered order. */
  lemma UnknownSortKeepsOrder(filtered: seq<Record>, sortBy: string)
    requires sortBy != "createdAt" && sortBy != "priority" && sortBy != "title"
    ensures SortedTasks(filtered, sortBy) == filtered
  {
    SortAllEqual(filtered, Comparator(sortBy));
  }

  /** 'priority': high before medium before low, when every task has one of them. */
  lemma SortByPriority(filtered: seq<Record>)
    requires forall t :: t in filtered ==> Rank(Get(t, "priority")).Some?
    ensures var r := SortedTasks(filtered, "priority");
            forall i, j :: 0 <= i < j < |r| ==> Rank(Get(r[i], "priority")).value >= Rank(Get(r[j], "priority")).value
  {
    var cmp := Comparator("priority");
    SortOrdered(filtered, cmp);
    var r := SortedTasks(filtered, "priority");
    forall i, j | 0 <= i < j < |r| ensures Rank(Get(r[i], "priority")).value >= Rank(Get(r[j], "priority")).value {
      assert r[i] in r && r[j] in r;
      assert cmp(r[i], r[j]) <= 0;
    }
  }

  /** 'createdAt': newest first, when every creation date is a valid date. */
  lemma SortByCreatedAt(filtered: seq<Record>)
    requires forall t :: t in filtered ==> DateOf(Get(t, "createdAt")).Some?
    ensures var r := SortedTasks(filtered, "createdAt");
            forall i, j :: 0 <= i < j < |r| ==> DateOf(Get(r[i], "createdAt")).value >= DateOf(Get(r[j], "createdAt")).value
  {
    var cmp := Comparator("createdAt");
    SortOrdered(filtered, cmp);
    var r := SortedTasks(filtered, "createdAt");
    forall i, j | 0 <= i < j < |r| ensures DateOf(Get(r[i], "createdAt")).value >= DateOf(Get(r[j], "createdAt")).value {
      assert r[i] in r && r[j] in r;
      assert cmp(r[i], r[j]) <= 0;
    }
  }

  /** 'title': A to Z. */
  lemma SortByTitle(filtered: seq<Record>)
    ensures var r := SortedTasks(filtered, "title");
            forall i, j :: 0 <= i < j < |r| ==> LexCompare(TitleOf(r[i]), TitleOf(r[j])) <= 0
  {
    var cmp := Comparator("title");
    forall a, b | a in filtered && b in filtered ensures cmp(a, b) <= 0 || cmp(b, a) <= 0 {
      LexCompareAntisymmetric(TitleOf(a), TitleOf(b));
    }
    forall a, b, c | a in filtered && b in filtered && c in filtered && cmp(a, b) <= 0 && cmp(b, c) <= 0
      ensures cmp(a, c) <= 0
    {
      LexCompareTransitive(TitleOf(a), TitleOf(b), TitleOf(c));
    }
    SortOrdered(filtered, cmp);
  }

  /** `stats`: counts over `myTasks`, not over the filtered list. */
  datatype Stats = Stats(total: nat, todo: nat, inprogress: nat, done: nat, high: nat, medium: nat, low: nat)

  function ComputeStats(mine: seq<Record>): (st: Stats)
    ensures st.total == |mine|
    ensures st.todo + st.inprogress + st.done <= st.total
    ensures st.high + st.medium + st.low <= st.total
    ensures st.todo == Count(mine, FieldIs("column", "todo"))
    ensures st.inprogress == Count(mine, FieldIs("column", "inprogress"))
    ensures st.done == Count(mine, FieldIs("column", "done"))
    ensures st.high == Count(mine, FieldIs("priority", "high"))
    ensures st.medium == Count(mine, FieldIs("priority", "medium"))
    ensures st.low == Count(mine, FieldIs("priority", "low"))
  {
    CountThree(mine, FieldIs("column", "todo"), FieldIs("column", "inprogress"), FieldIs("column", "done"));
    CountThree(mine, FieldIs("priority", "high"), FieldIs("priority", "medium"), FieldIs("priority", "low"));
    Stats(|mine|,
          Count(mine, FieldIs("column", "todo")), Count(mine, FieldIs("column", "inprogress")), Count(mine, FieldIs("column", "done")),
          Count(mine, FieldIs("priority", "high")), Count(mine, FieldIs("priority", "medium")), Count(mine, FieldIs("priority", "low")))
  }

  /** "Showing n of m tasks": n never exceeds m. */
  lemma ShownAtMostTotal(tasks: seq<Record>, user: Option<Record>, filter: string, sortBy: string)
    ensures var mine := MyTasks(tasks, user);
            |SortedTasks(FilteredTasks(mine, filter), sortBy)| <= ComputeStats(mine).total
  {
    var mine := MyTasks(tasks, user);
    SubsequenceLength(FilteredTasks(mine, filter), mine);
  }

  /** The "Completion Rate" insight, a percentage between 0 and 100. */
  function InsightRate(mine: seq<Record>): (r: nat)
    ensures mine == [] ==> r == 0
    ensures r <= 100
    ensures r == CompletionRate(ComputeStats(mine).done, ComputeStats(mine).total)
  {
    var st := ComputeStats(mine);
    CompletionRate(st.done, st.total)
  }

  /** `getPriorityColor`: `colors[priority] || '#666'`. */
  function PriorityColor(priority: Option<Value>): (c: string)
    ensures c == "#666" <==> Rank(priority).None?
  {
    match priority
    case Some(Str("high")) => "#f44336"
    case Some(Str("medium")) => "#ff9800"
    case Some(Str("low")) => "#4caf50"
    case _ => "#666"
  }

  /** `getColumnLabel`: `labels[column] || column`. */
  function ColumnLabel(column: Option<Value>): (l: Option<Value>)
    ensures column == Some(Str("todo")) ==> l == Some(Str("To Do"))
    ensures column == Some(Str("inprogress")) ==> l == Some(Str("In Progress"))
    ensures column == Some(Str("done")) ==> l == Some(Str("Done"))
    ensures column != Some(Str("todo")) && column != Some(Str("inprogress")) && column != Some(Str("done")) ==> l == column
  {
    match column
    case Some(Str("todo")) => Some(Str("To Do"))
    case Some(Str("inprogress")) => Some(Str("In Progress"))
    case Some(Str("done")) => Some(Str("Done"))
    case _ => column
  }

  /** `handleMoveTask(taskId, newColumn)`: `updateTask(taskId, { column: newColumn })`. */
  function MoveRequest(taskId: Option<Value>, newColumn: string): (req: Request)
    ensures req.TaskUpdate? && req.updatedTask.Keys <= {"id", "column"}
    ensures IdOf(req.updatedTask) == taskId && Get(req.updatedTask, "column") == Some(Str(newColumn))
  {
    UpdateTask(taskId, map["column" := Str(newColumn)])
  }

  /** `handlePriorityChange(taskId, newPriority)`: `updateTask(taskId, { priority: newPriority })`. */
  function PriorityRequest(taskId: Option<Value>, newPriority: string): (req: Request)
    ensures req.TaskUpdate? && req.updatedTask.Keys <= {"id", "priority"}
    ensures IdOf(req.updatedTask) == taskId && Get(req.updatedTask, "priority") == Some(Str(newPriority))
  {
    UpdateTask(taskId, map["priority" := Str(newPriority)])
  }

  /** The prompt of `window.confirm` before a delete. */
  const DeletePrompt: string := "Are you sure you want to delete this task?"

  /** `handleDeleteTask(taskId)`: `confirm` is `window.confirm`, the user's
      answer to a prompt with the given text. */
  function DeleteRequest(taskId: Option<Value>, confirm: string -> bool): (req: Option<Request>)
    ensures req.Some? <==> confirm(DeletePrompt)
    ensures req.Some? ==> req.value == DeleteTask(taskId)
  {
    if confirm(DeletePrompt) then Some(DeleteTask(taskId)) else None
  }
}
