/** The server's in-memory task list and its four Socket.IO handlers
    (backend/server.js). Each handler is a pure step on the list, returning the
    new list and the events it broadcasts; `TaskServer` is the module-level
    list itself, changed in place by the same handlers. */
module Server {
  import opened JsValues
  import opened Lists
  import opened Protocol

  datatype Step = Step(store: seq<Record>, broadcast: seq<Event>)

  /** One client message and the clock reading when it arrived (`Date.now()`). */
  datatype Arrival = Arrival(request: Request, now: nat)

  function SeedTask(id: string, title: string, description: string, column: string,
                    priority: string, category: string, assignee: Value, startedAt: int): Record
  {
    map[
      "id" := Str(id), "title" := Str(title), "description" := Str(description),
      "column" := Str(column), "priority" := Str(priority), "category" := Str(category),
      "attachments" := List([]), "createdAt" := Iso(startedAt), "assignee" := assignee
    ]
  }

  /** The list the server starts with; `startedAt` is the clock at start-up. */
  function Seed(startedAt: int): (s: seq<Record>)
    ensures |s| == 3 && UniqueIds(s)
    ensures IdOf(s[0]) == Some(Str("1")) && IdOf(s[1]) == Some(Str("2")) && IdOf(s[2]) == Some(Str("3"))
    ensures Get(s[0], "column") == Some(Str("todo"))
    ensures Get(s[1], "column") == Some(Str("inprogress"))
    ensures Get(s[2], "column") == Some(Str("done"))
  {
    [
      SeedTask("1", "Setup project structure", "Initialize backend and frontend",
               "todo", "high", "feature", Null, startedAt),
      SeedTask("2", "Fix login bug", "Users cannot login on mobile",
               "inprogress", "high", "bug", Str("John Doe"), startedAt),
      SeedTask("3", "Update documentation", "Add API documentation",
               "done", "low", "enhancement", Str("Jane Smith"), startedAt)
    ]
  }

  /** `{ id: Date.now().toString(), ...taskData, createdAt: new Date().toISOString() }`. */
  function NewTask(taskData: Record, now: nat): (t: Record)
    ensures t.Keys == taskData.Keys + {"id", "createdAt"}
    ensures t["createdAt"] == Iso(now)
    ensures t["id"] == if "id" in taskData then taskData["id"] else Str(DecimalString(now))
    ensures forall f :: f in taskData && f != "createdAt" ==> t[f] == taskData[f]
  {
    (map["id" := Str(DecimalString(now))] + taskData)["createdAt" := Iso(now)]
  }

  /** `{ ...base, ...patch }`: the fields of `patch` win, the others are kept. */
  function Merge(base: Record, patch: Record): (m: Record)
    ensures m.Keys == base.Keys + patch.Keys
    ensures forall f :: f in patch ==> m[f] == patch[f]
    ensures forall f :: f in base && f !in patch ==> m[f] == base[f]
  {
    base + patch
  }

  /** `t.column = newColumn`. Assigning `undefined` is modelled as removing the key:
      every later read gives `undefined` either way and the JSON encoding of the
      broadcast leaves such a key out. */
  function SetColumn(t: Record, newColumn: Option<Value>): (m: Record)
    ensures Get(m, "column") == newColumn
    ensures forall f :: f != "column" ==> Get(m, f) == Get(t, f)
  {
    match newColumn
    case Some(c) => t["column" := c]
    case None => t - {"column"}
  }

  /** `tasks.findIndex(t => t.id === id)`. */
  function FindIndex(s: seq<Record>, id: Option<Value>): (i: int)
    ensures -1 <= i < |s|
    ensures i == -1 <==> Absent(s, id)
    ensures 0 <= i ==> StrictEq(IdOf(s[i]), id) && Absent(s[..i], id)
  {
    if s == [] then -1
    else if StrictEq(IdOf(s[0]), id) then 0
    else
      var j := FindIndex(s[1..], id);
      if j == -1 then -1 else j + 1
  }

  /** `task:create`: append the new record and broadcast it. */
  function CreateStep(store: seq<Record>, taskData: Record, now: nat): (r: Step)
    ensures |r.store| == |store| + 1 && r.store[..|store|] == store
    ensures r.store[|store|] == NewTask(taskData, now)
    ensures r.broadcast == [TaskCreated(r.store[|store|])]
  {
    var newTask := NewTask(taskData, now);
    Step(store + [newTask], [TaskCreated(newTask)])
  }

  /** `task:update`: merge into the first record with the payload's id, or do nothing. */
  function UpdateStep(store: seq<Record>, updatedTask: Record): (r: Step)
    ensures Absent(store, IdOf(updatedTask)) ==> r == Step(store, [])
    ensures var i := FindIndex(store, IdOf(updatedTask));
            0 <= i ==>
              && |r.store| == |store|
              && r.store[i] == Merge(store[i], updatedTask)
              && (forall k :: 0 <= k < |store| && k != i ==> r.store[k] == store[k])
              && r.broadcast == [TaskUpdated(r.store[i])]
  {
    var index := FindIndex(store, IdOf(updatedTask));
    if index == -1 then Step(store, [])
    else
      var merged := Merge(store[index], updatedTask);
      Step(store[index := merged], [TaskUpdated(merged)])
  }

  /** `task:move`: set the column of the first record with `taskId`, or do nothing. */
  function MoveStep(store: seq<Record>, move: Record): (r: Step)
    ensures Absent(store, Get(move, "taskId")) ==> r == Step(store, [])
    ensures var i := FindIndex(store, Get(move, "taskId"));
            0 <= i ==>
              && |r.store| == |store|
              && r.store[i] == SetColumn(store[i], Get(move, "newColumn"))
              && (forall k :: 0 <= k < |store| && k != i ==> r.store[k] == store[k])
              && r.broadcast == [TaskMoved(r.store[i])]
  {
    var index := FindIndex(store, Get(move, "taskId"));
    if index == -1 then Step(store, [])
    else
      var moved := SetColumn(store[index], Get(move, "newColumn"));
      Step(store[index := moved], [TaskMoved(moved)])
  }

  /** `task:delete`: drop every record with the id and broadcast the id, found or not. */
  function DeleteStep(store: seq<Record>, taskId: Value): (r: Step)
    ensures r.store == RemoveId(store, taskId)
    ensures r.broadcast == [TaskDeleted(taskId)]
  {
    Step(RemoveId(store, taskId), [TaskDeleted(taskId)])
  }

  /** The handler that a request reaches. It broadcasts at most one event, and
      a request that broadcasts nothing leaves the list as it was. A creation
      and a deletion always broadcast; a creation adds one record, an update
      or a move keeps the length, a deletion only removes. */
  function Serve(store: seq<Record>, a: Arrival): (r: Step)
    ensures |r.broadcast| <= 1
    ensures r.broadcast == [] ==> r.store == store
    ensures a.request.TaskCreate? || a.request.TaskDelete? ==> |r.broadcast| == 1
    ensures a.request.TaskCreate? ==> |r.store| == |store| + 1
    ensures a.request.TaskUpdate? || a.request.TaskMove? ==> |r.store| == |store|
    ensures a.request.TaskDelete? ==> |r.store| <= |store|
  {
    match a.request
    case TaskCreate(taskData) => CreateStep(store, taskData, a.now)
    case TaskUpdate(updatedTask) => UpdateStep(store, updatedTask)
    case TaskMove(move) => MoveStep(store, move)
    case TaskDelete(taskId) => DeleteStep(store, taskId)
  }

  /** The requests of a session in arrival order, with everything broadcast:
      at most one event per request, exactly one when every request is a
      creation or a deletion, and at most one new record per request. */
  function Run(store: seq<Record>, trace: seq<Arrival>): (r: Step)
    ensures |r.broadcast| <= |trace|
    ensures (forall i :: 0 <= i < |trace| ==> trace[i].request.TaskCreate? || trace[i].request.TaskDelete?) ==> |r.broadcast| == |trace|
    ensures |r.store| <= |store| + |trace|
    ensures trace == [] ==> r == Step(store, [])
    decreases |trace|
  {
    if trace == [] then Step(store, [])
    else
      var first := Serve(store, trace[0]);
      var rest := Run(first.store, trace[1..]);
      Step(rest.store, first.broadcast + rest.broadcast)
  }

  /** An update payload never changes the id of the record it lands on. */
  lemma UpdateKeepsIds(store: seq<Record>, updatedTask: Record)
    ensures var r := UpdateStep(store, updatedTask);
            |r.store| == |store| && forall k :: 0 <= k < |store| ==> IdOf(r.store[k]) == IdOf(store[k])
  {
    var i := FindIndex(store, IdOf(updatedTask));
    if i >= 0 {
      var merged := Merge(store[i], updatedTask);
      assert IdOf(merged) == IdOf(store[i]);
    }
  }

  /** Nor does a move. */
  lemma MoveKeepsIds(store: seq<Record>, move: Record)
    ensures var r := MoveStep(store, move);
            |r.store| == |store| && forall k :: 0 <= k < |store| ==> IdOf(r.store[k]) == IdOf(store[k])
  {
    var i := FindIndex(store, Get(move, "taskId"));
    if i >= 0 {
      assert IdOf(SetColumn(store[i], Get(move, "newColumn"))) == IdOf(store[i]);
    }
  }

  /** A move changes nothing of the record but its column. */
  lemma MoveChangesOnlyColumn(store: seq<Record>, move: Record)
    requires !Absent(store, Get(move, "taskId"))
    ensures var i := FindIndex(store, Get(move, "taskId"));
            var t := MoveStep(store, move).store[i];
            && Get(t, "column") == Get(move, "newColumn")
            && forall f :: f != "column" ==> Get(t, f) == Get(store[i], f)
  {
  }

  /** The store keeps unique ids through a request, provided a created record's
      id is new, and every ids-preserving request keeps it so. */
  lemma ServeKeepsUnique(store: seq<Record>, a: Arrival)
    requires UniqueIds(store)
    requires a.request.TaskCreate? ==> Absent(store, Some(NewTask(a.request.taskData, a.now)["id"]))
    ensures UniqueIds(Serve(store, a).store)
  {
    match a.request
    case TaskCreate(taskData) =>
      var r := CreateStep(store, taskData, a.now);
      forall j, k | 0 <= j < k < |r.store| ensures !StrictEq(IdOf(r.store[j]), IdOf(r.store[k])) {
        if k < |store| {
          assert r.store[j] == store[j] && r.store[k] == store[k];
        } else {
          assert r.store[j] == store[j];
          assert Get(r.store[k], "id") == Some(NewTask(taskData, a.now)["id"]);
          StrictEqSymmetric(IdOf(r.store[j]), IdOf(r.store[k]));
        }
      }
    case TaskUpdate(updatedTask) =>
      UpdateKeepsIds(store, updatedTask);
    case TaskMove(move) =>
      MoveKeepsIds(store, move);
    case TaskDelete(taskId) =>
      UniqueSubsequence(RemoveId(store, taskId), store);
  }

  /** Two creates without a client id in the same millisecond give two records
      with the same id. */
  lemma SameMillisecondCreates(store: seq<Record>, a: Record, b: Record, now: nat)
    requires "id" !in a && "id" !in b
    ensures !UniqueIds(Run(store, [Arrival(TaskCreate(a), now), Arrival(TaskCreate(b), now)]).store)
  {
    var trace := [Arrival(TaskCreate(a), now), Arrival(TaskCreate(b), now)];
    var s1 := CreateStep(store, a, now).store;
    var s2 := CreateStep(s1, b, now).store;
    assert Run(s1, trace[1..]) == Step(s2, [TaskCreated(NewTask(b, now))]);
    assert Run(store, trace).store == s2;
    assert s2[|store|] == NewTask(a, now) && s2[|store| + 1] == NewTask(b, now);
    assert IdOf(s2[|store|]) == Some(Str(DecimalString(now))) == IdOf(s2[|store| + 1]);
  }

  /** The module-level `tasks` array and its handlers. */
  class TaskServer {
    var tasks: seq<Record>

    constructor (startedAt: int)
      ensures tasks == Seed(startedAt)
    {
      tasks := Seed(startedAt);
    }

    /** On connection: `socket.emit('sync:tasks', tasks)`, the whole list. */
    method Connect() returns (snapshot: Event)
      ensures snapshot == SyncTasks(tasks)
    {
      snapshot := SyncTasks(tasks);
    }

    method OnCreate(taskData: Record, now: nat) returns (out: seq<Event>)
      modifies this
      ensures Step(tasks, out) == CreateStep(old(tasks), taskData, now)
    {
      var newTask := NewTask(taskData, now);
      tasks := tasks + [newTask];
      out := [TaskCreated(newTask)];
    }

    method OnUpdate(updatedTask: Record) returns (out: seq<Event>)
      modifies this
      ensures Step(tasks, out) == UpdateStep(old(tasks), updatedTask)
    {
      var index := FindIndex(tasks, IdOf(updatedTask));
      out := [];
      if index != -1 {
        tasks := tasks[index := Merge(tasks[index], updatedTask)];
        out := [TaskUpdated(tasks[index])];
      }
    }

    method OnMove(move: Record) returns (out: seq<Event>)
      modifies this
      ensures Step(tasks, out) == MoveStep(old(tasks), move)
    {
      var taskId, newColumn := Get(move, "taskId"), Get(move, "newColumn");
      var index := FindIndex(tasks, taskId);
      out := [];
      if index != -1 {
        tasks := tasks[index := SetColumn(tasks[index], newColumn)];
        out := [TaskMoved(tasks[index])];
      }
    }

    method OnDelete(taskId: Value) returns (out: seq<Event>)
      modifies this
      ensures Step(tasks, out) == DeleteStep(old(tasks), taskId)
    {
      tasks := RemoveId(tasks, taskId);
      out := [TaskDeleted(taskId)];
    }

    /** Dispatches an arriving request to its handler. */
    method Handle(a: Arrival) returns (out: seq<Event>)
      modifies this
      ensures Step(tasks, out) == Serve(old(tasks), a)
    {
      match a.request
      case TaskCreate(taskData) => out := OnCreate(taskData, a.now);
      case TaskUpdate(updatedTask) => out := OnUpdate(updatedTask);
      case TaskMove(move) => out := OnMove(move);
      case TaskDelete(taskId) => out := OnDelete(taskId);
    }
  }
}
