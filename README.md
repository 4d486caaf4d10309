# websocket-kanban, modelled in Dafny

A shared Kanban board.

- **Server.** A Node server keeps one in-memory list of task records. Browsers send it four Socket.IO requests: `task:create`, `task:update`, `task:move` and `task:delete`. The server applies each one to its list and broadcasts the result to every connected browser. Each new connection first receives the whole list as `sync:tasks`. A separate HTTP endpoint, `POST /api/upload`, stores one attachment.
- **Browser.** A React context mirrors the list. It applies every event it receives with a pure reducer, and it emits requests for the views. The views compute over that mirror:
  - the board, with one lane per column;
  - the "My Tasks" page, with filters, sorting and statistics;
  - the progress chart;
  - the creation form;
  - the task card;
  - a route guard.

## How the model is organised

**Modules for the source files:**

| module | file | models |
|---|---|---|
| `JsValues` | values.dfy | JavaScript values and task records (`map<string, Value>`). `undefined` is `None`. Object spread is map union. `===` is `StrictEq`, which holds no array. The helpers `Date.now().toString()`, `toLowerCase` and substring search. |
| `Lists` | lists.dfy | `Array.prototype.filter` and `filter(...).length` counts. |
| `Sorting` | sorting.dfy | `sort` with a comparator: a stable insertion sort on a copy. |
| `Protocol` | protocol.dfy | The request and event messages, plus id lookups. |
| `Server` | server.dfy | Each handler twice: as a pure step (`CreateStep` …) and as a method of `TaskServer`, whose `tasks` field is the module-level array changed in place. |
| `Mirror` | mirror.dfy | The context's reducers, their replay over a run of events, and the emitters' payloads. |
| `Convergence` | convergence.dfy | Browser/server agreement over a whole session. |
| `Upload` | upload.dfy | The upload endpoint's filter, size limit, stored name and reply. |

**Modules for the constants and views:** `Constants`, `Rate`, `MyTasksView`, `ProgressChart`, `KanbanBoard`, `TaskFormView`, `TaskCard` and `ProtectedRoute`.

**Stateful components are classes:**
- `KanbanBoard.BoardState` holds `showForm`.
- `TaskFormView.TaskForm` holds `formData`, `file` and `uploading`.
- `TaskCard.Card` holds `task`, `isEditing` and `editedTask`, which is called `draft` here.

**How the server is checked.** The server's list is a class field changed by methods. Each method's postcondition ties the new list and the broadcast to the pure step. The properties are then proved about the steps.

**No ownership checks.** The server checks neither owners nor admins. Every connection receives the whole list, and any connection's request is applied.

**Main results:**
- Ids stay unique through every request, provided created ids are fresh (`Server.ServeKeepsUnique`).
- A browser converges on the server's list (`Convergence.Converges`, `Convergence.MirrorFollowsServer`): the snapshot followed by all broadcasts, in order, gives the server's final list. This holds for any browser, whatever it showed before, as long as ids are unique and each create gets a fresh id.
- Both conditions are needed:
  - two id-less creates in the same millisecond produce a duplicate id (`Server.SameMillisecondCreates`);
  - with a duplicate id, the browser and the server part ways (`Convergence.DuplicateIdsDiverge`).

## Model

| member | source | states |
|---|---|---|
| JsValues.DecimalRoundTrip | backend/server.js:100 | Reading the decimal digits of `Date.now().toString()` back gives the clock reading. |
| JsValues.DecimalStringInjective | backend/server.js:100 | Two clock readings give the same id string exactly when they are equal. |
| JsValues.DecimalString | backend/server.js:100 | The id string is non-empty, all decimal digits, and has no leading zero for a positive reading. |
| JsValues.Lower | backend/server.js:79 | `toLowerCase` keeps the length and maps exactly the ASCII capitals to their small letters. |
| JsValues.Length | frontend/src/components/Task.jsx:92 | `length` is defined exactly for strings, arrays and ISO timestamps; a timestamp has 24 characters for a four-digit year and 27 otherwise. |
| JsValues.ContainsLength | backend/server.js:78-80 | A string that contains a word is at least as long as the word. |
| JsValues.ContainsAt | backend/server.js:78-80 | An unanchored match of a word holds exactly when the word starts at some position of the tested string. |
| Lists.Filter | frontend/src/context/TaskContext.jsx:32 | `filter` keeps exactly the elements passing the test, with their multiplicities, in their original order, and never lengthens the list. |
| Lists.CountThree | frontend/src/components/ProgressChart.jsx:22-24 | Three mutually exclusive counts sum to at most the length, with equality exactly when every element passes one test. |
| Lists.SubsequenceLength | frontend/src/components/MyTasks.jsx:189 | A list kept in order from another is no longer than it. |
| Constants.ColumnOrder | frontend/src/constants/index.js:1-5 | There are exactly three columns: todo, inprogress, done, in that order. A string is a column id exactly when it is one of them. |
| Constants.ColumnIdsDistinct | frontend/src/constants/index.js:1-5 | No two columns share an id. |
| Constants.PriorityOrder | frontend/src/constants/index.js:7-11 | The priorities are low, medium, high, in that order. |
| Constants.CategoryLabels | frontend/src/constants/index.js:13-17 | The categories are bug, feature, enhancement, and each label begins with its icon. |
| Protocol.RemoveId | backend/server.js:128 | The delete filter removes exactly the records whose id is `===` to the given one and keeps every other record, as often as it occurred, in order. It returns the list unchanged when no record has the id. |
| Protocol.UniqueSubsequence | backend/server.js:128 | Removing records from a list with unique ids leaves unique ids. |
| Server.Seed | backend/server.js:24-58 | The start-up list has three records with distinct ids "1", "2", "3", in the columns todo, inprogress and done. |
| Server.NewTask | backend/server.js:99-103 | A created record:<br>• has the payload's keys plus `id` and `createdAt`;<br>• takes `createdAt` from the clock, overriding any in the payload;<br>• takes its id from the payload when the payload has one, else from the clock;<br>• keeps every other payload field. |
| Server.Merge | backend/server.js:112 | Spread merge: the update's fields win and every other field of the stored record is kept. |
| Server.SetColumn | backend/server.js:121 | Only `column` changes, and it becomes the move's `newColumn`. |
| Server.FindIndex | backend/server.js:110 | `findIndex` returns -1 exactly when no record has the id, and otherwise the first record that does. |
| Server.CreateStep | backend/server.js:98-106 | `task:create` appends the new record after the unchanged list and broadcasts it. |
| Server.UpdateStep | backend/server.js:109-115 | `task:update` with an id no record has changes nothing and broadcasts nothing. Otherwise it merges into the first match only and broadcasts the merged record. |
| Server.MoveStep | backend/server.js:118-124 | `task:move` with an unknown `taskId` changes nothing and broadcasts nothing. Otherwise it sets the column of the first match only and broadcasts that record. |
| Server.DeleteStep | backend/server.js:127-130 | `task:delete` removes every record with the id and broadcasts the id whether or not any record had it. |
| Server.UpdateKeepsIds | backend/server.js:109-115 | An update keeps the list's length and the id of every record, because the merge target already has the payload's id. |
| Server.MoveKeepsIds | backend/server.js:118-124 | A move keeps the list's length and every record's id. |
| Server.MoveChangesOnlyColumn | backend/server.js:121 | The moved record differs from the stored one in `column` alone. |
| Server.ServeKeepsUnique | backend/server.js:98-130 | Every request keeps the ids of the list pairwise distinct, provided a created record's id is new. |
| Server.SameMillisecondCreates | backend/server.js:100 | Two creates without an id arriving in the same millisecond leave two records with the same id. |
| Server.Serve | backend/server.js:97-130 | A request broadcasts at most one event, and one that broadcasts nothing leaves the list unchanged. A create and a delete always broadcast. A create adds one record, an update or a move keeps the length, a delete never adds one. |
| Server.Run | backend/server.js:97-130 | A session broadcasts at most one event per request, exactly one per request when all are creates or deletes, and adds at most one record per request. An empty session changes nothing. |
| Server.TaskServer.constructor | backend/server.js:24-58 | The server starts with the seed list. |
| Server.TaskServer.Connect | backend/server.js:95 | A new connection receives the whole current list, unfiltered. |
| Server.TaskServer.OnCreate | backend/server.js:98-106 | The handler changes `tasks` and broadcasts exactly as the create step says. |
| Server.TaskServer.OnUpdate | backend/server.js:109-115 | The handler changes `tasks` and broadcasts exactly as the update step says. |
| Server.TaskServer.OnMove | backend/server.js:118-124 | The handler changes `tasks` and broadcasts exactly as the move step says. |
| Server.TaskServer.OnDelete | backend/server.js:127-130 | The handler changes `tasks` and broadcasts exactly as the delete step says. |
| Server.TaskServer.Handle | backend/server.js:97-130 | The request reaches the handler for its event name. |
| Mirror.ReplaceById | frontend/src/context/TaskContext.jsx:20-22 | The list keeps its length. Every record whose id is `===` to the received one is replaced by it, and every other record is kept. |
| Mirror.Apply | frontend/src/context/TaskContext.jsx:11-33 | The reducer for each event:<br>• `sync:tasks` replaces the list;<br>• `task:created` appends the record after the unchanged list;<br>• `task:updated` and `task:moved` keep the length and put the received record in place of every entry with its id;<br>• `task:deleted` keeps, in order, exactly the entries without the id, each as often as before. |
| Mirror.SyncReplaces | frontend/src/context/TaskContext.jsx:11-13 | `sync:tasks` replaces the whole list with the snapshot. |
| Mirror.ReplaceLeavesOthers | frontend/src/context/TaskContext.jsx:19-29 | `task:updated` and `task:moved` leave non-matching records alone. They are a no-op when no record has the id. |
| Mirror.ReplayConcat | frontend/src/context/TaskContext.jsx:11-33 | Applying two runs of events one after the other is applying their concatenation. |
| Mirror.AddTask | frontend/src/context/TaskContext.jsx:44-46 | `addTask` sends `task:create` with the task as given. |
| Mirror.UpdatePayload | frontend/src/context/TaskContext.jsx:48-50 | The update payload's id is the one in `updates` when there is one, else `taskId`. Every other field is the one in `updates`. |
| Mirror.UpdateTask | frontend/src/context/TaskContext.jsx:48-50 | `updateTask` sends `task:update` with that payload. |
| Mirror.MoveTask | frontend/src/context/TaskContext.jsx:52-54 | `moveTask` sends an object with nothing but `taskId` and `newColumn`, holding the two arguments. |
| Mirror.DeleteTask | frontend/src/context/TaskContext.jsx:56-58 | `deleteTask` sends the bare id. An `undefined` id arrives as `null`. |
| Mirror.ContextHasNoConnectionFlag | frontend/src/context/TaskContext.jsx:61-67 | The context provides exactly five names, and `isConnected` is not among them. |
| Convergence.ReplaceHitsOne | frontend/src/context/TaskContext.jsx:20-22 | With unique ids, replacing by id changes exactly the record at the server's index. |
| Convergence.StepConverges | frontend/src/context/TaskContext.jsx:11-33 | With unique ids, a request's broadcast takes the browser from the server's old list to its new one. |
| Convergence.Converges | frontend/src/context/TaskContext.jsx:11-33 | Over a whole session with unique ids and fresh created ids:<br>• ids stay unique;<br>• replaying all broadcasts on the server's starting list gives its final list. |
| Convergence.MirrorFollowsServer | backend/server.js:95 | A browser showing anything, once given the snapshot and then the broadcasts, ends with the server's list. |
| Convergence.FromSeed | backend/server.js:24-58 | The same holds from the start-up list. |
| Convergence.DuplicateIdsDiverge | backend/server.js:110-113 | With two records sharing an id, an update reaches one record on the server and both in the browser. |
| Upload.ExtName | backend/server.js:70 | The extension is a suffix of the name: empty or starting with the only '.' it contains, and empty only when the name has no '.'. |
| Upload.ExtNameOfSuffix | backend/server.js:79 | A name ending in a '.'-led suffix with no other '.' has that suffix as its extension. |
| Upload.StoredName | backend/server.js:69-71 | The stored name has the original file's extension, and the part before it is all digits, has no leading zero for a positive reading, and reads back as the clock. |
| Upload.StoredExt | backend/server.js:70 | Digits followed by a name's extension have that extension. |
| Upload.MatchNeedsThree | backend/server.js:78 | A string matching the expression has at least three characters, the length of the shortest alternative. |
| Upload.FileFilter | backend/server.js:77-86 | A file passes only if its name contains a '.' and its extension has at least three characters, and only if its MIME type has at least three characters. |
| Upload.HandleUpload | backend/server.js:74-88 | An upload is:<br>• accepted exactly when a file came, its lowercased extension and its MIME type both match, and its size is at most 5 MiB;<br>• "no file" exactly when none came;<br>• "unsupported type" whenever the filter refuses the file, whatever its size, since the filter runs first;<br>• "too large" when the filter passes and the size is over 5 MiB.<br>The reply's url is `/uploads/` plus the stored name. |
| Upload.Status | backend/server.js:139-142 | The status is 200 exactly for an accepted file, 400 exactly for a missing one, and 500 exactly for a filter or size error, which reaches the default error handler. |
| Upload.FilterIsUnanchored | backend/server.js:78-80 | The filter passes exactly when some allowed word occurs anywhere inside the extension and some occurs anywhere inside the MIME type. |
| Upload.PdfExtensionMatches | backend/server.js:79 | The extension of "report.pdf" matches. |
| Upload.PdfMimeMatches | backend/server.js:80 | The type "application/pdf" matches. |
| Upload.PdfPassesFilter | backend/server.js:77-83 | "report.pdf" with type "application/pdf" passes the filter. |
| Upload.SizeLimitIsInclusive | backend/server.js:76 | A 5 MiB file is stored and one byte more is refused as too large. |
| Upload.ExeExtensionRefused | backend/server.js:79 | The extension ".exe" matches no allowed word. |
| Upload.ExecutableRefused | backend/server.js:82-85 | "setup.exe" is refused as unsupported whatever MIME type it claims. |
| Upload.PhpngExtensionMatches | backend/server.js:79 | The extension ".phpng" matches, because "png" occurs inside it. |
| Upload.UnanchoredExtensionPasses | backend/server.js:78-83 | "shell.phpng" sent as "image/png" passes the filter. |
| Upload.NoSmallLetterMatchesNothing | backend/server.js:78-80 | Every allowed word starts with a small letter, so a string without small letters matches none of them. |
| Upload.UpperCaseMimeMatchesNothing | backend/server.js:80 | An upper-case MIME type matches no word, because it is not lowercased. |
| Upload.UpperCaseMimeRefused | backend/server.js:80-85 | "report.pdf" sent as "APPLICATION/PDF" is refused. |
| Rate.CompletionRate | frontend/src/components/MyTasks.jsx:306 | The rate is 0 for no tasks. Otherwise it is 100·done/total rounded half up. It lies in 0..100 when done ≤ total. |
| Rate.CompletionRateEnds | frontend/src/components/ProgressChart.jsx:35 | All tasks done gives 100; none done gives 0. |
| Sorting.Insert | frontend/src/components/MyTasks.jsx:30 | Inserting adds exactly one element and keeps the rest. |
| Sorting.Sort | frontend/src/components/MyTasks.jsx:30 | The sorted copy is a permutation of the input. |
| Sorting.InsertOrdered | frontend/src/components/MyTasks.jsx:30 | Inserting into an ordered list with a consistent comparator keeps it ordered. |
| Sorting.SortOrdered | frontend/src/components/MyTasks.jsx:30 | With a comparator that is a total preorder on the elements, the copy is in comparator order. |
| Sorting.SortAllEqual | frontend/src/components/MyTasks.jsx:41 | A comparator that calls everything equal leaves the order unchanged, since the sort is stable. |
| MyTasksView.MyTasks | frontend/src/components/MyTasks.jsx:13-15 | Exactly the tasks whose `assignee` is `===` the user's name or whose `userId` is `===` the user's id, each as often as in the store, in store order. |
| MyTasksView.UnassignedMatchNoUser | frontend/src/components/MyTasks.jsx:14 | With nobody signed in, every task without an `assignee` counts as the user's. |
| MyTasksView.FilteredTasks | frontend/src/components/MyTasks.jsx:18-27 | Filtering:<br>• keeps an ordered subset of the user's tasks;<br>• keeps all of them for 'all' or any unknown value;<br>• for the three status values and the three priority values, keeps exactly the tasks whose `column` or `priority` is that string, each as often as before. |
| MyTasksView.DateOf | frontend/src/components/MyTasks.jsx:32 | A valid date lies within ±8.64e15 ms. |
| MyTasksView.Rank | frontend/src/components/MyTasks.jsx:35-36 | A rank is defined exactly for high, medium and low, and lies in 1..3. |
| MyTasksView.LexCompare | frontend/src/components/MyTasks.jsx:39 | The comparison is -1, 0 or 1, and a proper prefix sorts before the longer string. |
| MyTasksView.LexCompareZero | frontend/src/components/MyTasks.jsx:39 | Two titles compare equal exactly when they are the same string. |
| MyTasksView.LexCompareAntisymmetric | frontend/src/components/MyTasks.jsx:39 | Swapping the titles negates the comparison. |
| MyTasksView.LexCompareTransitive | frontend/src/components/MyTasks.jsx:39 | The title order is transitive. |
| MyTasksView.TitleOf | frontend/src/components/MyTasks.jsx:39 | A string title is compared as it is; anything else as "". |
| MyTasksView.Comparator | frontend/src/components/MyTasks.jsx:30-42 | Every comparator gives the opposite answer with its arguments swapped. An unknown `sortBy` finds all tasks equal. 'priority' puts a higher rank first. 'title' finds two tasks equal exactly when their titles are the same. |
| MyTasksView.SortedTasks | frontend/src/components/MyTasks.jsx:30-42 | The sorted copy holds exactly the filtered tasks, each as often as before. |
| MyTasksView.UnknownSortKeepsOrder | frontend/src/components/MyTasks.jsx:41 | An unknown `sortBy` returns the filtered list unchanged. |
| MyTasksView.SortByPriority | frontend/src/components/MyTasks.jsx:34-37 | When every task has a known priority, 'priority' orders high before medium before low. |
| MyTasksView.SortByCreatedAt | frontend/src/components/MyTasks.jsx:31-33 | When every creation date is valid, 'createdAt' orders newest first. |
| MyTasksView.SortByTitle | frontend/src/components/MyTasks.jsx:38-40 | 'title' orders the titles A to Z. |
| MyTasksView.ComputeStats | frontend/src/components/MyTasks.jsx:45-53 | The statistics:<br>• total is the number of the user's tasks;<br>• each status and priority count is the number of the user's tasks whose `column` or `priority` is that string;<br>• the three status counts sum to at most total;<br>• the three priority counts sum to at most total. |
| MyTasksView.ShownAtMostTotal | frontend/src/components/MyTasks.jsx:189 | "Showing n of m" never has n above m. |
| MyTasksView.InsightRate | frontend/src/components/MyTasks.jsx:306 | The completion insight lies in 0..100 and is 0 for no tasks. |
| MyTasksView.PriorityColor | frontend/src/components/MyTasks.jsx:56-59 | The fallback '#666' is returned exactly for priorities other than high, medium and low. |
| MyTasksView.ColumnLabel | frontend/src/components/MyTasks.jsx:62-65 | The three column ids get their labels. Any other value is shown as it is. |
| MyTasksView.MoveRequest | frontend/src/components/MyTasks.jsx:68-70 | A move button sends an update carrying only the id and the new `column`. |
| MyTasksView.PriorityRequest | frontend/src/components/MyTasks.jsx:80-82 | A priority change sends an update carrying only the id and the new `priority`. |
| MyTasksView.DeleteRequest | frontend/src/components/MyTasks.jsx:73-77 | A delete of the id is sent exactly when the user confirms the prompt "Are you sure you want to delete this task?". |
| ProgressChart.ColumnData | frontend/src/components/ProgressChart.jsx:21-25 | One bar per column, in board order, each with that column's title, colour and count. |
| ProgressChart.PriorityData | frontend/src/components/ProgressChart.jsx:27-31 | One slice per priority, high first, each with that priority's label, colour and count. |
| ProgressChart.Summarize | frontend/src/components/ProgressChart.jsx:33-35 | The summary:<br>• completed equals the Done bar;<br>• remaining is total minus completed and never negative;<br>• the rate is 0..100 and 0 for an empty list, else 100·completed/total rounded half up. |
| ProgressChart.BarsSum | frontend/src/components/ProgressChart.jsx:22-24 | The bars sum to at most the total, and to the total exactly when every task is in a known column. |
| ProgressChart.SlicesSum | frontend/src/components/ProgressChart.jsx:28-30 | The slices sum to at most the total. |
| KanbanBoard.Lane | frontend/src/components/KanbanBoard.jsx:42 | A lane holds exactly the tasks whose `column` is its id, each as often as in the store, in store order. |
| KanbanBoard.Board | frontend/src/components/KanbanBoard.jsx:37-45 | One lane per column of the constants list, in that order. |
| KanbanBoard.UnknownColumnHidden | frontend/src/components/KanbanBoard.jsx:42 | A task whose column is not a column id is in no lane. |
| KanbanBoard.LanesDisjoint | frontend/src/components/KanbanBoard.jsx:42 | No task is in two lanes. |
| KanbanBoard.KnownColumnShown | frontend/src/components/KanbanBoard.jsx:42 | A task in a known column is in that column's lane. |
| KanbanBoard.FormTaskShownInToDo | frontend/src/components/TaskForm.jsx:60-64 | A task created from the form gets a clock id and appears in the "To Do" lane. |
| KanbanBoard.ConnectionLabel | frontend/src/components/KanbanBoard.jsx:49-50 | The indicator reads "Connected to WebSocket" exactly when `isConnected` is truthy, and "Disconnected" otherwise. |
| KanbanBoard.AlwaysDisconnected | frontend/src/components/KanbanBoard.jsx:9 | The context gives no `isConnected`, so the indicator always reads "Disconnected". |
| KanbanBoard.BoardState.constructor | frontend/src/components/KanbanBoard.jsx:10 | The form starts hidden. |
| KanbanBoard.BoardState.OpenForm | frontend/src/components/KanbanBoard.jsx:23 | "+ New Task" shows the form. |
| KanbanBoard.BoardState.CloseForm | frontend/src/components/KanbanBoard.jsx:32 | Cancel hides the form. |
| KanbanBoard.BoardState.CreateTask | frontend/src/components/KanbanBoard.jsx:12-15 | The submitted data goes to `addTask` unchanged and the form is hidden. |
| TaskFormView.InitialForm | frontend/src/components/TaskForm.jsx:6-12 | The form starts with empty title, description and assignee, priority 'medium' and category 'feature'. |
| TaskFormView.Payload | frontend/src/components/TaskForm.jsx:60-64 | The submission holds the form fields plus `attachments` plus `column: 'todo'`, the last two overriding. |
| TaskFormView.Attachments | frontend/src/components/TaskForm.jsx:36-51 | No attachments without a successful upload; `[url]` with one. |
| TaskFormView.SubmittedToDo | frontend/src/components/TaskForm.jsx:60-64 | A submission always goes in 'todo', with one attachment after a successful upload and none otherwise. |
| TaskFormView.TaskForm.constructor | frontend/src/components/TaskForm.jsx:6-14 | Initial form, no file, not uploading. |
| TaskFormView.TaskForm.Change | frontend/src/components/TaskForm.jsx:16-19 | Typing sets the named field only. |
| TaskFormView.TaskForm.ChooseFile | frontend/src/components/TaskForm.jsx:21-31 | Choosing a file:<br>• over 5 MiB raises the alert and keeps the previous file;<br>• of 5 MiB or less is taken;<br>• of nothing changes nothing. |
| TaskFormView.TaskForm.Submit | frontend/src/components/TaskForm.jsx:33-49 | Submitting:<br>• with an empty required title sends nothing;<br>• without a file submits at once with no attachments;<br>• with a file starts uploading and waits, keeping the form data of that moment. |
| TaskFormView.TaskForm.UploadSettled | frontend/src/components/TaskForm.jsx:50-64 | When the upload settles, a failure raises the alert, `uploading` is cleared whatever the outcome, and the task is submitted with the captured form data and the attachments. |
| TaskCard.PriorityColor | frontend/src/components/Task.jsx:19-23 | The card has a colour exactly for low, medium and high. |
| TaskCard.SameColorsAsMyTasks | frontend/src/components/Task.jsx:19-23 | The card's colours are the ones the My Tasks page uses. |
| TaskCard.CategoryIcon | frontend/src/components/Task.jsx:25-29 | An icon exists exactly for bug, feature and enhancement. |
| TaskCard.IconsMatchCategories | frontend/src/components/Task.jsx:25-29 | The icons are the categories list's icons. |
| TaskCard.AttachmentsLine | frontend/src/components/Task.jsx:92 | The attachment line shows exactly for a non-empty `attachments` array or string, or a timestamp. |
| TaskCard.UploadedAttachmentShown | frontend/src/components/Task.jsx:92-96 | A task created after a successful upload shows "1 attachment(s)". |
| TaskCard.AssigneeLine | frontend/src/components/Task.jsx:98 | The assignee line is hidden for a missing or empty assignee and shown for a non-empty one. |
| TaskCard.Card.constructor | frontend/src/components/Task.jsx:8-9 | A card starts in view mode with the draft equal to the task. |
| TaskCard.Card.Receive | frontend/src/components/Task.jsx:9 | A new task prop leaves the draft as it was. |
| TaskCard.Card.Edit | frontend/src/components/Task.jsx:73 | The edit button enters edit mode. |
| TaskCard.Card.EditTitle | frontend/src/components/Task.jsx:53 | Typing a title changes only the draft's title. |
| TaskCard.Card.EditDescription | frontend/src/components/Task.jsx:59 | Typing a description changes only the draft's description. |
| TaskCard.Card.Save | frontend/src/components/Task.jsx:31-34 | Save sends `updateTask(task.id, draft)` and leaves edit mode. |
| TaskCard.Card.Cancel | frontend/src/components/Task.jsx:65 | Cancel leaves edit mode, sends nothing and keeps the draft. |
| TaskCard.Card.Delete | frontend/src/components/Task.jsx:36-40 | A delete of the task's id is sent exactly when the user confirms the same prompt the My Tasks page asks. |
| TaskCard.SaveSendsDraft | frontend/src/components/Task.jsx:32 | What Save sends carries every draft field, so values changed elsewhere come back with the draft's values. The draft's own id wins over the card's. |
| ProtectedRoute.Guard | frontend/src/components/auth/ProtectedRoute.jsx:5-25 | The guard:<br>• shows a spinner while loading, whatever the flags;<br>• otherwise redirects to /login when signed out;<br>• redirects to /dashboard when admin is required and the user is not one;<br>• shows the page exactly when signed in and admin is not required or held. |
| ProtectedRoute.DefaultAdmitsEveryUser | frontend/src/components/auth/ProtectedRoute.jsx:5 | `requireAdmin` defaults to false, so every signed-in user sees the page. |
| ProtectedRoute.AdminAdmitted | frontend/src/components/auth/ProtectedRoute.jsx:21-25 | An admin sees the page whether or not admin is required. |
| ProtectedRoute.RedirectTargets | frontend/src/components/auth/ProtectedRoute.jsx:17-23 | The only redirect targets are /login and /dashboard. |

## Left out

- **Transport:** the Socket.IO and HTTP setup, CORS, logging, reconnection and `server.listen`. Each request and event is one function call. Every browser receives the same list of broadcasts.
- **Clock:** the clock is a parameter:
  - `Date.now()` and `new Date()` in one create are taken as the same reading `now`;
  - the three seed records share one start-up reading.
- **Upload I/O:** disk storage, the upload directory and static serving are I/O and not modelled. The axios upload call becomes the `url` argument of `UploadSettled`, where `None` is a failed upload. Each of the two `alert`s, for a file over 5 MiB in `ChooseFile` and for a failed upload in `UploadSettled`, becomes a returned flag.
- **Dialogs:** `window.confirm` becomes a function argument from the prompt's text to the user's answer.
- **Stored `undefined`:** a move whose payload has no `newColumn` sets `column` to `undefined` on the server. The model removes the key instead, which reads the same and encodes the same in JSON.
- **Inherited keys:** property lookups on the colour, icon, label and rank tables take only string keys. JavaScript would turn other values into strings first, for example a one-element array, and would also find inherited keys such as `constructor`.
- Upload.ExtName: is "from the last '.' to the end". Node's special cases (a leading '.' and trailing separators) are not modelled.
- JsValues.Lower: lowercases ASCII letters only.
- Rate.CompletionRate: uses integer round-half-up. With floating point `done / total * 100` can land just below a .5, for example 29/200, and `Math.round` then rounds down.
- MyTasksView.LexCompare: compares titles by character code where `localeCompare` uses the browser's locale. Ordering is proved for that code order.
- MyTasksView.TitleOf: takes a non-string or missing title as "" on both sides. In `a.title.localeCompare(b.title)` only a non-string `a.title` throws. A missing `b.title` is compared as the string "undefined", a `null` as "null" and a number as its digits.
- MyTasksView.DateOf: takes every string `createdAt` other than the server's own ISO timestamps as an invalid date. Arrays are taken as invalid too.
- MyTasksView.SortByPriority: states an order only when every rank is defined. Otherwise the comparator returns NaN for some pairs and the engine's order is not specified.
- MyTasksView.SortByCreatedAt: states an order only when every date is valid, for the same reason.
- **Payload shapes:** every `task:create`, `task:update` and `task:move` payload is taken to be a JSON object whose values are null, booleans, integers, strings, arrays or timestamps; a `task:delete` payload is a bare id of any of these kinds. Nested objects and fractional numbers are not representable. On other payloads the server behaves as follows, and the model does not show it:
  - a `null` or missing `task:update` payload throws at `updatedTask.id` once the list is non-empty; on an empty list `findIndex` never runs its test and nothing happens (backend/server.js:110);
  - a `null` or missing `task:move` payload throws in the destructuring (backend/server.js:118);
  - both throws escape a Socket.IO listener, and the server installs no handler for them, so they end the Node process and the in-memory list is lost;
  - a string or array `task:create` payload is spread index by index into the new record (backend/server.js:101).
- **Rendering:** JSX, CSS, recharts, drag and drop, and the `Column` component are not modelled. A drop emits `task:move` from the `Column` component itself, bypassing the context, with the same payload `Mirror.MoveTask` builds: the task's id and the column's id (frontend/src/components/Column.jsx:16-18).
- **Timestamps as strings:** a string value that happens to be an ISO rendering, such as a client echoing a server timestamp as an id, is not modelled as `Str`: every ISO string is an `Iso`. JavaScript's `===` finds `Iso(ms)` and the string `new Date(ms).toISOString()` equal, and `StrictEq` would tell them apart if both forms could occur. Records with such ids would then count as having unique ids in the model while they are duplicates in JavaScript, which `Convergence.DuplicateIdsDiverge` shows breaks convergence.
- **Other files:** `DashBoard.jsx`, `Navigation.jsx`, `App.jsx`, `services/socket.js`, and the authentication context are not part of this model. `ProtectedRoute` takes the context's answers as three booleans.
- **Owner and admin checks:** the server has none, so the model has none.
