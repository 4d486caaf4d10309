/** The task creation form (frontend/src/components/TaskForm.jsx): its fields,
    the attachment size check, and a submission that first waits for the
    upload of the chosen file. */
module TaskFormView {
  import opened JsValues
  import opened Upload

  /** The form's fields; every input gives a string. */
  type Form = map<string, string>

  /** The state the form starts in. */
  function InitialForm(): (form: Form)
    ensures form.Keys == {"title", "description", "priority", "category", "assignee"}
    ensures form["title"] == "" && form["description"] == "" && form["assignee"] == ""
    ensures form["priority"] == "medium" && form["category"] == "feature"
  {
    map["title" := "", "description" := "", "priority" := "medium", "category" := "feature", "assignee" := ""]
  }

  /** The form fields as properties of a task object. */
  function FormRecord(form: Form): (r: Record)
    ensures r.Keys == form.Keys
    ensures forall f :: f in form ==> r[f] == Str(form[f])
  {
    map f | f in form :: Str(form[f])
  }

  /** `{ ...formData, attachments, column: 'todo' }`. */
  function Payload(form: Form, attachments: seq<string>): (p: Record)
    ensures p.Keys == form.Keys + {"attachments", "column"}
    ensures p["column"] == Str("todo")
    ensures p["attachments"] == List(seq(|attachments|, i requires 0 <= i < |attachments| => Str(attachments[i])))
    ensures forall f :: f in form && f != "attachments" && f != "column" ==> p[f] == Str(form[f])
  {
    FormRecord(form)["attachments" := List(seq(|attachments|, i requires 0 <= i < |attachments| => Str(attachments[i])))]["column" := Str("todo")]
  }

  /** The title input is `required`: the browser does not submit the form while
      it is empty. */
  predicate TitleMissing(form: Form)
  {
    "title" !in form || form["title"] == ""
  }

  /** The attachments of a submission: the uploaded file's url, or none when the
      upload failed. */
  function Attachments(url: Option<string>): (a: seq<string>)
    ensures url.None? ==> a == []
    ensures url.Some? ==> a == [url.value]
  {
    if url.Some? then [url.value] else []
  }

  class TaskForm {
    var formData: Form
    var file: Option<UploadedFile>
    var uploading: bool
    /** The form data a submission captured while its upload is under way. */
    var waiting: Option<Form>

    ghost predicate Valid()
      reads this
    {
      uploading <==> waiting.Some?
    }

    constructor()
      ensures Valid()
      ensures formData == InitialForm() && file == None && !uploading
    {
      formData := InitialForm();
      file := None;
      uploading := false;
      waiting := None;
    }

    /** `handleChange`: sets the one field the input names. */
    method Change(name: string, value: string)
      requires Valid()
      modifies this
      ensures Valid()
      ensures formData == old(formData)[name := value]
      ensures file == old(file) && uploading == old(uploading) && waiting == old(waiting)
    {
      formData := formData[name := value];
    }

    /** `handleFileChange`: a file over 5 MiB raises an alert and the previous
        choice stays; a file of exactly 5 MiB is taken. Returns whether the
        alert was raised. */
    method ChooseFile(selected: Option<UploadedFile>) returns (alerted: bool)
      requires Valid()
      modifies this
      ensures Valid()
      ensures alerted <==> selected.Some? && selected.value.size > MaxFileSize
      ensures file == if selected.Some? && selected.value.size <= MaxFileSize then selected else old(file)
      ensures formData == old(formData) && uploading == old(uploading) && waiting == old(waiting)
    {
      alerted := false;
      if selected.Some? {
        if selected.value.size > 5 * 1024 * 1024 {
          alerted := true;
          return;
        }
        file := selected;
      }
    }

    /** `handleSubmit`, up to the upload. Without a file the task is submitted at
        once with no attachments; with one, the form starts uploading and waits.
        The submit button is disabled while uploading, so no second submission
        starts. */
    method Submit() returns (submitted: Option<Record>)
      requires Valid() && !uploading
      modifies this
      ensures Valid()
      ensures formData == old(formData) && file == old(file)
      ensures TitleMissing(formData) ==> submitted == None && !uploading
      ensures !TitleMissing(formData) && file.None? ==> submitted == Some(Payload(formData, [])) && !uploading
      ensures !TitleMissing(formData) && file.Some? ==> submitted == None && uploading && waiting == Some(formData)
    {
      if TitleMissing(formData) {
        return None;
      }
      if file.Some? {
        uploading := true;
        waiting := Some(formData);
        submitted := None;
      } else {
        submitted := Some(Payload(formData, []));
      }
    }

    /** The rest of `handleSubmit` once the upload answers: a failed upload
        raises an alert, `uploading` is cleared whatever the outcome, and the
        task is submitted in either case, with the form data as it was when
        submitted. Returns whether the alert was raised. */
    method UploadSettled(url: Option<string>) returns (submitted: Record, alerted: bool)
      requires Valid() && waiting.Some?
      modifies this
      ensures Valid() && !uploading
      ensures alerted <==> url.None?
      ensures submitted == Payload(old(waiting).value, Attachments(url))
      ensures formData == old(formData) && file == old(file)
    {
      var captured := waiting.value;
      uploading := false;
      waiting := None;
      submitted := Payload(captured, Attachments(url));
      alerted := url.None?;
    }
  }

  /** The task a submission describes always lands in the "To Do" column, and
      carries exactly the attachments it was given. */
  lemma SubmittedToDo(form: Form, url: Option<string>)
    ensures Get(Payload(form, Attachments(url)), "column") == Some(Str("todo"))
    ensures Length(Payload(form, Attachments(url))["attachments"]) == Some(if url.Some? then 1 else 0)
  {
  }
}
