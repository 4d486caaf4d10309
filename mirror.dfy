/** The browser's copy of the task list (frontend/src/context/TaskContext.jsx):
    the reducers that apply the server's events to it, and the payloads its
    emitters send. */
module Mirror {
  import opened JsValues
  import opened Lists
  import opened Protocol

  /** `prev.map(task => task.id === t.id ? t : task)`. */
  function ReplaceById(prev: seq<Record>, t: Record): (r: seq<Record>)
    ensures |r| == |prev|
    ensures forall k :: 0 <= k < |prev| ==> r[k] == if StrictEq(IdOf(prev[k]), IdOf(t)) then t else prev[k]
  {
    seq(|prev|, k requires 0 <= k < |prev| => if StrictEq(IdOf(prev[k]), IdOf(t)) then t else prev[k])
  }

  /** The `setTasks` reducer that each server event triggers: a sync replaces
      the list, a creation appends, an update or move swaps in the record for
      every entry with its id, and a deletion drops every entry with the id. */
  function Apply(prev: seq<Record>, e: Event): (r: seq<Record>)
    ensures e.SyncTasks? ==> r == e.tasks
    ensures e.TaskCreated? ==> |r| == |prev| + 1 && r[..|prev|] == prev && r[|prev|] == e.newTask
    ensures (e.TaskUpdated? || e.TaskMoved?) ==>
              var t := if e.TaskUpdated? then e.updatedTask else e.movedTask;
              |r| == |prev| && forall k :: 0 <= k < |prev| ==> r[k] == if StrictEq(IdOf(prev[k]), IdOf(t)) then t else prev[k]
    ensures e.TaskDeleted? ==>
              && Subsequence(r, prev) && Absent(r, Some(e.taskId))
              && (forall t :: t in prev && !StrictEq(IdOf(t), Some(e.taskId)) ==> t in r)
              && forall t {:trigger multiset(r)[t]} ::
                   multiset(r)[t] == if StrictEq(IdOf(t), Some(e.taskId)) then 0 else multiset(prev)[t]
  {
    match e
    case SyncTasks(initialTasks) => initialTasks
    case TaskCreated(newTask) => prev + [newTask]
    case TaskUpdated(updatedTask) => ReplaceById(prev, updatedTask)
    case TaskMoved(movedTask) => ReplaceById(prev, movedTask)
    case TaskDeleted(taskId) => RemoveId(prev, taskId)
  }

  /** The list after a run of events, applied in order of arrival. */
  function Replay(tasks: seq<Record>, events: seq<Event>): seq<Record>
    decreases |events|
  {
    if events == [] then tasks else Replay(Apply(tasks, events[0]), events[1..])
  }

  lemma {:induction false} ReplayConcat(tasks: seq<Record>, a: seq<Event>, b: seq<Event>)
    ensures Replay(tasks, a + b) == Replay(Replay(tasks, a), b)
    decreases |a|
  {
    if a != [] {
      assert (a + b)[0] == a[0] && (a + b)[1..] == a[1..] + b;
      ReplayConcat(Apply(tasks, a[0]), a[1..], b);
    } else {
      assert a + b == b;
    }
  }

  /** `sync:tasks` discards whatever the list held before. */
  lemma SyncReplaces(prev: seq<Record>, snapshot: seq<Record>)
    ensures Apply(prev, SyncTasks(snapshot)) == snapshot
  {
  }

  /** `task:updated` and `task:moved` change only the records with the id and
      leave the list as it is when none has it. */
  lemma ReplaceLeavesOthers(prev: seq<Record>, t: Record)
    ensures forall k :: 0 <= k < |prev| && !StrictEq(IdOf(prev[k]), IdOf(t)) ==> ReplaceById(prev, t)[k] == prev[k]
    ensures Absent(prev, IdOf(t)) ==> ReplaceById(prev, t) == prev
  {
  }

  /** `addTask(task)`: `socket.emit('task:create', task)`. */
  function AddTask(task: Record): (req: Request)
    ensures req.TaskCreate? && req.taskData == task
  {
    TaskCreate(task)
  }

  /** The JSON object `{ id: taskId, ...updates }`; a key whose value is `undefined`
      is left out of the encoding. */
  function UpdatePayload(taskId: Option<Value>, updates: Record): (p: Record)
    ensures IdOf(p) == if "id" in updates then Some(updates["id"]) else taskId
    ensures forall f :: f != "id" ==> Get(p, f) == Get(updates, f)
  {
    (if taskId.Some? then map["id" := taskId.value] else map[]) + updates
  }

  /** `updateTask(taskId, updates)`. */
  function UpdateTask(taskId: Option<Value>, updates: Record): (req: Request)
    ensures req.TaskUpdate? && req.updatedTask == UpdatePayload(taskId, updates)
  {
    TaskUpdate(UpdatePayload(taskId, updates))
  }

  /** `moveTask(taskId, newColumn)`: the object `{ taskId, newColumn }`. */
  function MoveTask(taskId: Option<Value>, newColumn: Option<Value>): (req: Request)
    ensures req.TaskMove?
    ensures Get(req.move, "taskId") == taskId && Get(req.move, "newColumn") == newColumn
    ensures req.move.Keys <= {"taskId", "newColumn"}
  {
    var withId: Record := if taskId.Some? then map["taskId" := taskId.value] else map[];
    TaskMove(if newColumn.Some? then withId["newColumn" := newColumn.value] else withId)
  }

  /** `deleteTask(taskId)`: the bare id. Socket.IO encodes the arguments as a JSON
      array, in which `undefined` becomes `null`. */
  function DeleteTask(taskId: Option<Value>): (req: Request)
    ensures req.TaskDelete?
    ensures req.taskId == if taskId.Some? then taskId.value else Null
  {
    TaskDelete(if taskId.Some? then taskId.value else Null)
  }

  /** The names the context value provides to its consumers. */
  const ContextKeys: set<string> := {"tasks", "addTask", "updateTask", "moveTask", "deleteTask"}

  lemma ContextHasNoConnectionFlag()
    ensures "isConnected" !in ContextKeys
    ensures |ContextKeys| == 5
  {
  }
}
