/** A task card on the board (frontend/src/components/Task.jsx): the view and
    edit modes, the draft being edited, and the lookups it colours itself with. */
module TaskCard {
  import opened JsValues
  import opened Constants
  import opened Protocol
  import opened Mirror
  import MyTasksView
  import TaskFormView
  import Server

  /** `priorityColors[task.priority]`: `undefined` for any other priority. */
  function PriorityColor(priority: Option<Value>): (c: Option<string>)
    ensures c.Some? <==> priority == Some(Str("low")) || priority == Some(Str("medium")) || priority == Some(Str("high"))
  {
    match priority
    case Some(Str("low")) => Some("#4caf50")
    case Some(Str("medium")) => Some("#ff9800")
    case Some(Str("high")) => Some("#f44336")
    case _ => None
  }

  /** The card and the My Tasks page paint the three priorities alike. */
  lemma SameColorsAsMyTasks(priority: Option<Value>)
    requires PriorityColor(priority).Some?
    ensures PriorityColor(priority).value == MyTasksView.PriorityColor(priority)
  {
  }

  /** `categoryIcons[task.category]`. */
  function CategoryIcon(category: Option<Value>): (icon: Option<string>)
    ensures icon.Some? <==> category == Some(Str("bug")) || category == Some(Str("feature")) || category == Some(Str("enhancement"))
  {
    match category
    case Some(Str("bug")) => Some("\U{1F41B}")
    case Some(Str("feature")) => Some("\U{2728}")
    case Some(Str("enhancement")) => Some("\U{1F527}")
    case _ => None
  }

  /** The icons agree with the categories list. */
  lemma IconsMatchCategories()
    ensures forall k :: 0 <= k < |Categories| ==> CategoryIcon(Some(Str(Categories[k].value))) == Some(Categories[k].icon)
  {
  }

  /** `task.attachments && task.attachments.length > 0`. */
  predicate ShowsAttachments(t: Record)
  {
    Truthy(Get(t, "attachments")) && Length(t["attachments"]).Some? && Length(t["attachments"]).value > 0
  }

  lemma AttachmentsLine(t: Record)
    ensures ShowsAttachments(t) <==>
      "attachments" in t &&
      ((t["attachments"].List? && |t["attachments"].items| > 0) || (t["attachments"].Str? && |t["attachments"].s| > 0) || t["attachments"].Iso?)
  {
  }

  /** A task created from the form after a successful upload shows one
      attachment on its card. */
  lemma UploadedAttachmentShown(form: TaskFormView.Form, url: string, now: nat)
    ensures var t := Server.NewTask(TaskFormView.Payload(form, TaskFormView.Attachments(Some(url))), now);
            ShowsAttachments(t) && Length(t["attachments"]) == Some(1)
  {
  }

  /** `task.assignee &&`: the assignee line needs a truthy value. */
  predicate ShowsAssignee(t: Record)
  {
    Truthy(Get(t, "assignee"))
  }

  lemma AssigneeLine(t: Record)
    ensures !("assignee" in t) ==> !ShowsAssignee(t)
    ensures Get(t, "assignee") == Some(Str("")) ==> !ShowsAssignee(t)
    ensures forall s :: s != "" && Get(t, "assignee") == Some(Str(s)) ==> ShowsAssignee(t)
  {
  }

  class Card {
    /** The `task` prop, which may change while the card is shown. */
    var task: Record
    var isEditing: bool
    /** `editedTask`, set from the prop once when the card is created. */
    var draft: Record

    constructor(task: Record)
      ensures this.task == task && !isEditing && draft == task
    {
      this.task := task;
      isEditing := false;
      draft := task;
    }

    /** A new `task` prop: the draft is not refreshed. */
    method Receive(task: Record)
      modifies this
      ensures this.task == task
      ensures isEditing == old(isEditing) && draft == old(draft)
    {
      this.task := task;
    }

    /** The edit button. */
    method Edit()
      modifies this
      ensures isEditing
      ensures task == old(task) && draft == old(draft)
    {
      isEditing := true;
    }

    /** Typing in the title input. */
    method EditTitle(value: string)
      modifies this
      ensures draft == old(draft)["title" := Str(value)]
      ensures task == old(task) && isEditing == old(isEditing)
    {
      draft := draft["title" := Str(value)];
    }

    /** Typing in the description area. */
    method EditDescription(value: string)
      modifies this
      ensures draft == old(draft)["description" := Str(value)]
      ensures task == old(task) && isEditing == old(isEditing)
    {
      draft := draft["description" := Str(value)];
    }

    /** `handleUpdate`: sends the whole draft under the task's id and leaves edit mode. */
    method Save() returns (req: Request)
      modifies this
      ensures req == UpdateTask(Get(old(task), "id"), old(draft))
      ensures !isEditing
      ensures task == old(task) && draft == old(draft)
    {
      req := UpdateTask(Get(task, "id"), draft);
      isEditing := false;
    }

    /** Cancel: leaves edit mode, sends nothing, keeps the draft. */
    method Cancel()
      modifies this
      ensures !isEditing
      ensures task == old(task) && draft == old(draft)
    {
      isEditing := false;
    }

    /** `handleDelete`: `confirm` is `window.confirm`, the user's answer to a
        prompt, asked with the same text the My Tasks page uses. */
    method Delete(confirm: string -> bool) returns (req: Option<Request>)
      ensures req.Some? <==> confirm(MyTasksView.DeletePrompt)
      ensures req.Some? ==> req.value == DeleteTask(Get(task, "id"))
    {
      if confirm(MyTasksView.DeletePrompt) {
        req := Some(DeleteTask(Get(task, "id")));
      } else {
        req := None;
      }
    }
  }

  /** What Save sends: the draft's fields, with the draft's own `id` in front of
      the card's. A field edited elsewhere after the card was created comes back
      with the value the draft holds. */
  lemma SaveSendsDraft(taskId: Option<Value>, draft: Record)
    ensures var p := UpdateTask(taskId, draft).updatedTask;
            && (forall f :: f != "id" ==> Get(p, f) == Get(draft, f))
            && IdOf(p) == (if "id" in draft then Some(draft["id"]) else taskId)
  {
  }
}
