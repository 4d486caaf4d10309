/** Whether a browser's list stays equal to the server's: a browser that takes
    the `sync:tasks` snapshot and then applies every broadcast in order ends
    with the server's list, as long as task ids stay unique. With duplicate ids
    the two part ways, because the server changes only the first record with
    the id and the browser changes them all. */
module Convergence {
  import opened JsValues
  import opened Protocol
  import opened Server
  import opened Mirror

  /** Every `task:create` of the trace produces an id no record has at that point. */
  predicate FreshCreates(store: seq<Record>, trace: seq<Arrival>)
    decreases |trace|
  {
    trace == [] ||
    (&& (trace[0].request.TaskCreate? ==> Absent(store, Some(NewTask(trace[0].request.taskData, trace[0].now)["id"])))
     && FreshCreates(Serve(store, trace[0]).store, trace[1..]))
  }

  /** Replacing by id hits exactly the record the server updated. */
  lemma ReplaceHitsOne(store: seq<Record>, i: nat, t: Record)
    requires UniqueIds(store) && i < |store|
    requires IdOf(t) == IdOf(store[i]) && !(IdOf(t).Some? && IdOf(t).value.List?)
    ensures ReplaceById(store, t) == store[i := t]
  {
    forall k | 0 <= k < |store| && k != i ensures !StrictEq(IdOf(store[k]), IdOf(t)) {
      if k < i {
        assert !StrictEq(IdOf(store[k]), IdOf(store[i]));
      } else {
        assert !StrictEq(IdOf(store[i]), IdOf(store[k]));
      }
    }
  }

  /** One request: the broadcast takes the server's old list to its new one. */
  lemma StepConverges(store: seq<Record>, a: Arrival)
    requires UniqueIds(store)
    ensures Replay(store, Serve(store, a).broadcast) == Serve(store, a).store
  {
    var r := Serve(store, a);
    match a.request
    case TaskCreate(taskData) =>
      assert Replay(store, r.broadcast) == Apply(store, r.broadcast[0]);
    case TaskUpdate(updatedTask) =>
      var i := FindIndex(store, IdOf(updatedTask));
      if i >= 0 {
        UpdateKeepsIds(store, updatedTask);
        ReplaceHitsOne(store, i, r.store[i]);
        assert Replay(store, r.broadcast) == Apply(store, r.broadcast[0]);
        assert r.store == store[i := r.store[i]];
      }
    case TaskMove(move) =>
      var i := FindIndex(store, Get(move, "taskId"));
      if i >= 0 {
        MoveKeepsIds(store, move);
        ReplaceHitsOne(store, i, r.store[i]);
        assert Replay(store, r.broadcast) == Apply(store, r.broadcast[0]);
        assert r.store == store[i := r.store[i]];
      }
    case TaskDelete(taskId) =>
      assert Replay(store, r.broadcast) == Apply(store, r.broadcast[0]);
  }

  /** A whole session: a browser holding the server's list and applying all the
      broadcasts of a trace ends with the server's final list. */
  lemma {:induction false} Converges(store: seq<Record>, trace: seq<Arrival>)
    requires UniqueIds(store) && FreshCreates(store, trace)
    ensures UniqueIds(Run(store, trace).store)
    ensures Replay(store, Run(store, trace).broadcast) == Run(store, trace).store
    decreases |trace|
  {
    if trace != [] {
      var first := Serve(store, trace[0]);
      ServeKeepsUnique(store, trace[0]);
      StepConverges(store, trace[0]);
      Converges(first.store, trace[1..]);
      ReplayConcat(store, first.broadcast, Run(first.store, trace[1..]).broadcast);
    }
  }

  /** A browser that connects at any point, whatever it showed before, receives
      the snapshot and then the broadcasts, and agrees with the server. Every
      browser receives the same broadcasts, so all of them agree. */
  lemma MirrorFollowsServer(shown: seq<Record>, store: seq<Record>, trace: seq<Arrival>)
    requires UniqueIds(store) && FreshCreates(store, trace)
    ensures Replay(shown, [SyncTasks(store)] + Run(store, trace).broadcast) == Run(store, trace).store
  {
    Converges(store, trace);
    ReplayConcat(shown, [SyncTasks(store)], Run(store, trace).broadcast);
  }

  /** From the start-up list, with fresh ids on every create. */
  lemma FromSeed(startedAt: int, trace: seq<Arrival>)
    requires FreshCreates(Seed(startedAt), trace)
    ensures Replay([], [SyncTasks(Seed(startedAt))] + Run(Seed(startedAt), trace).broadcast) == Run(Seed(startedAt), trace).store
  {
    MirrorFollowsServer([], Seed(startedAt), trace);
  }

  /** Two records with id "1": an update reaches only the first on the server and
      both in the browser. */
  lemma DuplicateIdsDiverge()
    ensures var store := [map["id" := Str("1"), "title" := Str("a")], map["id" := Str("1"), "title" := Str("b")]];
            var a := Arrival(TaskUpdate(map["id" := Str("1"), "title" := Str("c")]), 0);
            Replay(store, Serve(store, a).broadcast) != Serve(store, a).store
  {
    var store := [map["id" := Str("1"), "title" := Str("a")], map["id" := Str("1"), "title" := Str("b")]];
    var u := map["id" := Str("1"), "title" := Str("c")];
    var a := Arrival(TaskUpdate(u), 0);
    assert FindIndex(store, IdOf(u)) == 0;
    var r := Serve(store, a);
    assert r.store[1] == store[1];
    assert Replay(store, r.broadcast) == ReplaceById(store, r.store[0]);
    assert ReplaceById(store, r.store[0])[1]["title"] == Str("c");
  }
}
