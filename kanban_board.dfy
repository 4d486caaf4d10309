/** The board (frontend/src/components/KanbanBoard.jsx): one lane per column of
    the constants list, the form toggle, and the connection indicator. */
module KanbanBoard {
  import opened JsValues
  import opened Lists
  import opened Constants
  import opened Protocol
  import opened Mirror
  import opened Server
  import TaskFormView

  /** `tasks.filter(task => task.column === column.id)`. */
  function Lane(tasks: seq<Record>, column: Column): (lane: seq<Record>)
    ensures Subsequence(lane, tasks)
    ensures forall t :: t in lane <==> t in tasks && Get(t, "column") == Some(Str(column.id))
    ensures forall t {:trigger multiset(lane)[t]} :: multiset(lane)[t] == if Get(t, "column") == Some(Str(column.id)) then multiset(tasks)[t] else 0
  {
    Filter(tasks, FieldIs("column", column.id))
  }

  /** `columns.map(...)`: the lanes, in the order of the constants list. */
  function Board(tasks: seq<Record>): (lanes: seq<seq<Record>>)
    ensures |lanes| == |Columns|
    ensures forall k :: 0 <= k < |Columns| ==> lanes[k] == Lane(tasks, Columns[k])
  {
    seq(|Columns|, k requires 0 <= k < |Columns| => Lane(tasks, Columns[k]))
  }

  /** A task whose column is not one of the ids is shown in no lane. */
  lemma UnknownColumnHidden(tasks: seq<Record>, t: Record)
    requires !(Get(t, "column").Some? && Get(t, "column").value.Str? && IsColumnId(Get(t, "column").value.s))
    ensures forall k :: 0 <= k < |Columns| ==> t !in Board(tasks)[k]
  {
  }

  /** No task is shown in two lanes. */
  lemma LanesDisjoint(tasks: seq<Record>)
    ensures forall j, k, t :: 0 <= j < k < |Columns| && t in Board(tasks)[j] ==> t !in Board(tasks)[k]
  {
    ColumnIdsDistinct();
  }

  /** A task in a known column is shown in that column's lane. */
  lemma KnownColumnShown(tasks: seq<Record>, t: Record, k: int)
    requires t in tasks && 0 <= k < |Columns| && Get(t, "column") == Some(Str(Columns[k].id))
    ensures t in Board(tasks)[k]
  {
  }

  /** A task created from the form is appended to the server's list with a
      clock id, and every browser then shows it in the "To Do" lane. */
  lemma FormTaskShownInToDo(store: seq<Record>, form: TaskFormView.Form, url: Option<string>, now: nat)
    requires "id" !in form
    ensures var created := CreateStep(store, TaskFormView.Payload(form, TaskFormView.Attachments(url)), now).store;
            && IdOf(created[|store|]) == Some(Str(DecimalString(now)))
            && created[|store|] in Board(created)[0]
  {
    ColumnOrder();
  }

  /** `isConnected ? 'Connected to WebSocket' : 'Disconnected'`. */
  function ConnectionLabel(isConnected: Option<Value>): (text: string)
    ensures text == "Connected to WebSocket" <==> Truthy(isConnected)
    ensures text == "Disconnected" <==> !Truthy(isConnected)
  {
    if Truthy(isConnected) then "Connected to WebSocket" else "Disconnected"
  }

  /** The context provides no `isConnected`, so the board reads `undefined`
      and always says it is disconnected. */
  lemma AlwaysDisconnected(context: Record)
    requires context.Keys == ContextKeys
    ensures ConnectionLabel(Get(context, "isConnected")) == "Disconnected"
  {
    ContextHasNoConnectionFlag();
  }

  /** The `showForm` flag and its handlers. */
  class BoardState {
    var showForm: bool

    constructor()
      ensures !showForm
    {
      showForm := false;
    }

    /** "+ New Task". */
    method OpenForm()
      modifies this
      ensures showForm
    {
      showForm := true;
    }

    /** The form's Cancel. */
    method CloseForm()
      modifies this
      ensures !showForm
    {
      showForm := false;
    }

    /** `handleCreateTask(taskData)`: the data goes to `addTask` as it is and the
        form closes. */
    method CreateTask(taskData: Record) returns (req: Request)
      modifies this
      ensures req == AddTask(taskData) && req.taskData == taskData
      ensures !showForm
    {
      req := AddTask(taskData);
      showForm := false;
    }
  }
}
