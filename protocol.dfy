/** The Socket.IO messages between the board's browsers and its server, and the
    lookups by task id that both sides perform. */
module Protocol {
  import opened JsValues
  import opened Lists

  /** A message a browser sends to the server. `task:move` carries an object
      with `taskId` and `newColumn`; `task:delete` carries the bare id. */
  datatype Request =
    | TaskCreate(taskData: Record)
    | TaskUpdate(updatedTask: Record)
    | TaskMove(move: Record)
    | TaskDelete(taskId: Value)

  /** A message the server sends: `sync:tasks` to one new connection, the
      other four to every connection. */
  datatype Event =
    | SyncTasks(tasks: seq<Record>)
    | TaskCreated(newTask: Record)
    | TaskUpdated(updatedTask: Record)
    | TaskMoved(movedTask: Record)
    | TaskDeleted(taskId: Value)

  /** `task.id`. */
  function IdOf(t: Record): Option<Value>
  {
    Get(t, "id")
  }

  /** No two records of the list have ids that are `===` to each other. */
  predicate UniqueIds(s: seq<Record>)
  {
    forall j, k :: 0 <= j < k < |s| ==> !StrictEq(IdOf(s[j]), IdOf(s[k]))
  }

  /** No record of the list has an id `===` to `id`. */
  predicate Absent(s: seq<Record>, id: Option<Value>)
  {
    forall k :: 0 <= k < |s| ==> !StrictEq(IdOf(s[k]), id)
  }

  /** The test of `filter(t => t.id !== taskId)`. */
  function OtherThan(taskId: Value): Record -> bool
  {
    t => !StrictEq(IdOf(t), Some(taskId))
  }

  /** `s.filter(t => t.id !== taskId)`, which the server's `task:delete` handler and
      the browser's `task:deleted` reducer both compute. */
  function RemoveId(s: seq<Record>, taskId: Value): (r: seq<Record>)
    ensures Subsequence(r, s)
    ensures forall t :: t in r <==> t in s && !StrictEq(IdOf(t), Some(taskId))
    ensures forall t {:trigger multiset(r)[t]} :: multiset(r)[t] == if StrictEq(IdOf(t), Some(taskId)) then 0 else multiset(s)[t]
    ensures Absent(s, Some(taskId)) ==> r == s
  {
    var r := Filter(s, OtherThan(taskId));
    if Absent(s, Some(taskId)) then FilterKeepsAll(s, OtherThan(taskId)); r else r
  }

  /** A filter that rejects nothing returns its input. */
  lemma {:induction false} FilterKeepsAll(s: seq<Record>, p: Record -> bool)
    requires forall k :: 0 <= k < |s| ==> p(s[k])
    ensures Filter(s, p) == s
  {
    if s != [] {
      FilterKeepsAll(s[1..], p);
    }
  }

  /** Removing records keeps the remaining ids unique. */
  lemma {:induction false} UniqueSubsequence(a: seq<Record>, b: seq<Record>)
    requires Subsequence(a, b) && UniqueIds(b)
    ensures UniqueIds(a)
    decreases |b|
  {
    if a != [] {
      if a[0] == b[0] && Subsequence(a[1..], b[1..]) {
        UniqueSubsequence(a[1..], b[1..]);
        SubsequenceMembers(a[1..], b[1..]);
        forall k | 0 < k < |a| ensures !StrictEq(IdOf(a[0]), IdOf(a[k])) {
          assert a[k] == a[1..][k - 1];
          var m :| 0 <= m < |b| - 1 && b[1..][m] == a[k];
          assert b[m + 1] == a[k];
        }
      } else {
        UniqueSubsequence(a, b[1..]);
      }
    }
  }

  lemma {:induction false} SubsequenceMembers(a: seq<Record>, b: seq<Record>)
    requires Subsequence(a, b)
    ensures forall k :: 0 <= k < |a| ==> exists m :: 0 <= m < |b| && b[m] == a[k]
    decreases |b|
  {
    if a != [] {
      if a[0] == b[0] && Subsequence(a[1..], b[1..]) {
        SubsequenceMembers(a[1..], b[1..]);
        forall k | 0 < k < |a| ensures exists m :: 0 <= m < |b| && b[m] == a[k] {
          assert a[k] == a[1..][k - 1];
          var m :| 0 <= m < |b| - 1 && b[1..][m] == a[k];
          assert b[m + 1] == a[k];
        }
        assert b[0] == a[0];
      } else {
        SubsequenceMembers(a, b[1..]);
        forall k | 0 <= k < |a| ensures exists m :: 0 <= m < |b| && b[m] == a[k] {
          var m :| 0 <= m < |b| - 1 && b[1..][m] == a[k];
          assert b[m + 1] == a[k];
        }
      }
    }
  }
}
