/** The runner's event loop with its local variables. */
module Runner {
  import opened Base
  import opened Records
  import opened Engine
  import opened RunEvents

  /** What the loop can receive: from the status channel, the task channel, or the done channel. */
  datatype Message =
    | StatusClosed
    | StatusError
    | Synced
    | Status(id: ObjMetadata, rs: ResourceStatus)
    | Result(failed: bool)
    | DoneClosed

  /** How far the loop got: still waiting for a message, or returned. */
  datatype Progress = Listening | Done(outcome: Outcome)

  predicate Aborting(m: Message) {
    m.StatusError? || m.DoneClosed?
  }

  /** The watcher reports once that it is synchronized. */
  ghost predicate SyncedOnce(script: seq<Message>) {
    forall i, j :: 0 <= i < j < |script| ==> !(script[i].Synced? && script[j].Synced?)
  }

  /** Group events with task i open, if any. */
  ghost predicate OpenAt(log: seq<GroupEvent>, current: Option<nat>, next: nat) {
    match current
    case None => log == [] && next == 0
    case Some(i) => next == i + 1 && log == Brackets(i) + [Started(i)]
  }

  /** The runner was told to stop. */
  ghost predicate ToldToStop(script: seq<Message>) {
    exists k :: 0 <= k < |script| && Aborting(script[k])
  }

  /** How many task results arrived after the watcher was synchronized. */
  function Answered(script: seq<Message>): nat {
    if script == [] then 0
    else
      var front := script[..|script| - 1];
      Answered(front) + if script[|script| - 1].Result? && Synced in front then 1 else 0
  }

  /** A task reported a failure. */
  ghost predicate SomeFailed(script: seq<Message>) {
    exists i, j :: 0 <= i < j < |script| && script[i].Synced? && script[j] == Result(true)
  }

  /** The status cache after the messages, each object's last status winning; deaf once told to stop. */
  ghost function CacheAfter(cache: Cache, script: seq<Message>): Cache {
    if script == [] then cache
    else
      var front, m := script[..|script| - 1], script[|script| - 1];
      if m.Status? && !ToldToStop(front) then CacheAfter(cache, front)[m.id := m.rs] else CacheAfter(cache, front)
  }

  /** The updates passed on to wait tasks: those for an identifier of the task that is the current one. */
  ghost function Forwarded(tasks: seq<Task>, script: seq<Message>): seq<(nat, ObjMetadata)> {
    if script == [] then []
    else
      var front, m := script[..|script| - 1], script[|script| - 1];
      var current := Answered(front);
      Forwarded(tasks, front) +
        if m.Status? && !ToldToStop(front) && Synced in front && current < |tasks| && Tracks(tasks[current], m.id)
        then [(current, m.id)] else []
  }

  lemma SomeFailedSnoc(script: seq<Message>, m: Message)
    ensures SomeFailed(script + [m]) <==> SomeFailed(script) || (m == Result(true) && Synced in script)
  {
    var s := script + [m];
    if SomeFailed(script) {
      var i, j :| 0 <= i < j < |script| && script[i].Synced? && script[j] == Result(true);
      assert s[i].Synced? && s[j] == Result(true);
    }
    if m == Result(true) && Synced in script {
      var i :| 0 <= i < |script| && script[i] == Synced;
      assert s[i].Synced? && s[|script|] == Result(true);
    }
    if SomeFailed(s) {
      var i, j :| 0 <= i < j < |s| && s[i].Synced? && s[j] == Result(true);
      assert script[i] == s[i];
      if j < |script| {
        assert script[j] == s[j];
      }
    }
  }

  lemma ToldSnoc(script: seq<Message>, m: Message)
    ensures ToldToStop(script + [m]) <==> ToldToStop(script) || Aborting(m)
  {
    var s := script + [m];
    if ToldToStop(script) {
      var k :| 0 <= k < |script| && Aborting(script[k]);
      assert Aborting(s[k]);
    }
    if Aborting(m) {
      assert Aborting(s[|script|]);
    }
  }

  class TaskStatusRunner {
    const tasks: seq<Task>
    var next: nat
    var log: seq<GroupEvent>
    var cancelled: seq<nat>
    var updates: seq<(nat, ObjMetadata)>
    var cache: Cache

    constructor (tasks: seq<Task>)
      ensures this.tasks == tasks && next == 0 && log == [] && cancelled == [] && updates == [] && cache == map[]
    {
      this.tasks, next, log, cancelled, updates, cache := tasks, 0, [], [], [], map[];
    }

    /** nextTask: takes a task off the queue and starts it; done when the queue is empty. */
    method NextTask() returns (current: Option<nat>, done: bool)
      requires next <= |tasks|
      modifies this`next, this`log
      ensures done <==> old(next) == |tasks|
      ensures done ==> current == None && next == old(next) && log == old(log)
      ensures !done ==> current == Some(old(next)) && next == old(next) + 1 && log == old(log) + [Started(old(next))]
    {
      if next == |tasks| {
        return None, true;
      }
      current, done := Some(next), false;
      log := log + [Started(next)];
      next := next + 1;
    }

    /** Only wait tasks keep identifiers up to date. */
    method ForwardStatus(current: Option<nat>, id: ObjMetadata, rs: ResourceStatus)
      requires current.Some? ==> current.value < |tasks|
      modifies this`cache, this`updates
      ensures cache == old(cache)[id := rs]
      ensures updates == old(updates) + if current.Some? && Tracks(tasks[current.value], id) then [(current.value, id)] else []
    {
      cache := cache[id := rs];
      if current.Some? && Tracks(tasks[current.value], id) {
        updates := updates + [(current.value, id)];
      }
    }

    /** The loop, on the messages it happens to receive; it takes the first `taken` of them.  Whatever their order:
        the group events are Started and Finished pairs of the queue in order, one Finished for each result; the first
        failed result ends the run with "task failed" and nothing else does; nil is only returned after a result for
        every task, and never after an abort; once an abort was noticed no task starts, at most the current one finishes, and the
        cache and the wait tasks hear of nothing more. */
    method Run(script: seq<Message>)
      returns (progress: Progress, current: Option<nat>, abortAt: Option<nat>, ghost taken: nat)
      requires SyncedOnce(script) && next == 0 && log == [] && cancelled == [] && updates == []
      modifies this
      ensures taken <= |script| && (progress == Listening ==> taken == |script|)
      ensures progress == Listening ==> OpenAt(log, current, next) && (current.Some? <==> Synced in script)
      ensures progress == Listening && current.Some? ==> current.value == Answered(script)
      ensures progress.Done? ==> log == Brackets(Answered(script[..taken])) && Answered(script[..taken]) <= |tasks|
      ensures progress == Done(TaskFailed) <==> SomeFailed(script[..taken])
      ensures progress == Done(TaskFailed) ==> taken > 0 && script[taken - 1] == Result(true) && !SomeFailed(script[..taken - 1])
      ensures progress == Done(Success) ==> log == Brackets(|tasks|) && abortAt.None?
      ensures abortAt.Some? <==> ToldToStop(script[..taken])
      ensures abortAt.Some? ==>
        abortAt.value <= |log| <= abortAt.value + 1 && (forall e :: e in log[abortAt.value..] ==> e.Finished?)
      ensures progress.Done? && progress.outcome.Aborted? ==> abortAt.Some?
      ensures progress.Done? && progress.outcome.Aborted? ==>
        progress.outcome.reason == if DoneClosed in script[..taken] then ContextDone else WatchFailed
      ensures progress == Listening && abortAt.Some? ==> current.Some? && current.value in cancelled
      ensures forall i :: i in cancelled ==> i < |tasks| && abortAt.Some?
      ensures cache == CacheAfter(old(cache), script[..taken])
      ensures updates == Forwarded(tasks, script[..taken])
    {
      hide Brackets, SomeFailed, ToldToStop, Tracks, Answered, CacheAfter, Forwarded, SyncedOnce;
      current, progress, abortAt, taken := None, Listening, None, 0;
      var done := false;
      var abort := false;
      var reason := ContextDone;
      var doneOpen := true;
      var k := 0;
      NothingTaken(tasks, cache, script);
      while k < |script|
        invariant 0 <= k <= |script| && next <= |tasks| && taken == k
        invariant OpenAt(log, current, next)
        invariant current.Some? <==> Synced in script[..k]
        invariant Answered(script[..k]) == if current.Some? then current.value else 0
        invariant !SomeFailed(script[..k])
        invariant abort <==> abortAt.Some?
        invariant abortAt.Some? ==> abortAt.value == |log| && current.Some?
        invariant abort <==> ToldToStop(script[..k])
        invariant forall i :: i in cancelled ==> i < |tasks| && abortAt.Some?
        invariant abort ==> current.Some? && current.value in cancelled
        invariant abort ==> reason == if DoneClosed in script[..k] then ContextDone else WatchFailed
        invariant (doneOpen <==> DoneClosed !in script[..k]) && (!doneOpen ==> abort)
        invariant cache == CacheAfter(old(cache), script[..k])
        invariant updates == Forwarded(tasks, script[..k])
        decreases |script| - k
      {
        var m := script[k];
        Taking(tasks, old(cache), script, k);
        k := k + 1;
        taken := k;
        match m {
          case StatusClosed =>
          case StatusError =>
            if !abort {
              abort, reason, abortAt := true, WatchFailed, Some(|log|);
              if current.None? {
                NoBrackets();
                return Done(Aborted(reason)), current, abortAt, taken;
              }
              cancelled := cancelled + [current.value];
            }
          case Synced =>
            if !abort {
              SyncedBefore(script, k - 1);
              current, done := NextTask();
              NoBrackets();
              if done {
                return Done(Success), current, abortAt, taken;
              }
            }
          case Status(id, rs) =>
            if !abort {
              ForwardStatus(current, id, rs);
            }
          case Result(failed) =>
            // Without a running task nothing can arrive here.
            if current.Some? {
              var i := current.value;
              MoreBrackets(i);
              log := log + [Finished(i)];
              if failed {
                return Done(TaskFailed), current, abortAt, taken;
              }
              if abort {
                return Done(Aborted(reason)), current, abortAt, taken;
              }
              current, done := NextTask();
              if done {
                return Done(Success), current, abortAt, taken;
              }
            }
          case DoneClosed =>
            if doneOpen {
              doneOpen, reason := false, ContextDone;
              abortAt := if abort then abortAt else Some(|log|);
              abort := true;
              if current.None? {
                NoBrackets();
                return Done(Aborted(reason)), current, abortAt, taken;
              }
              cancelled := cancelled + [current.value];
            }
        }
      }
      assert script[..|script|] == script;
    }
  }

  lemma NoBrackets()
    ensures Brackets(0) == []
  {
  }

  lemma MoreBrackets(i: nat)
    ensures Brackets(i + 1) == Brackets(i) + [Started(i)] + [Finished(i)]
  {
  }

  lemma NothingTaken(tasks: seq<Task>, cache: Cache, script: seq<Message>)
    ensures script[..0] == [] && !SomeFailed([]) && !ToldToStop([]) && Brackets(0) == []
    ensures Answered([]) == 0 && CacheAfter(cache, []) == cache && Forwarded(tasks, []) == []
  {
  }

  /** Taking one more message. */
  lemma Taking(tasks: seq<Task>, cache: Cache, script: seq<Message>, k: nat)
    requires k < |script|
    ensures script[..k + 1] == script[..k] + [script[k]]
    ensures SomeFailed(script[..k + 1]) <==> SomeFailed(script[..k]) || (script[k] == Result(true) && Synced in script[..k])
    ensures ToldToStop(script[..k + 1]) <==> ToldToStop(script[..k]) || Aborting(script[k])
    ensures Answered(script[..k + 1]) == Answered(script[..k]) + if script[k].Result? && Synced in script[..k] then 1 else 0
    ensures CacheAfter(cache, script[..k + 1]) ==
      if script[k].Status? && !ToldToStop(script[..k])
      then CacheAfter(cache, script[..k])[script[k].id := script[k].rs] else CacheAfter(cache, script[..k])
    ensures var current := Answered(script[..k]);
      Forwarded(tasks, script[..k + 1]) == Forwarded(tasks, script[..k]) +
        if script[k].Status? && !ToldToStop(script[..k]) && Synced in script[..k] && current < |tasks|
          && Tracks(tasks[current], script[k].id)
        then [(current, script[k].id)] else []
  {
    assert script[..k + 1] == script[..k] + [script[k]];
    assert script[..k + 1][..k] == script[..k];
    SomeFailedSnoc(script[..k], script[k]);
    ToldSnoc(script[..k], script[k]);
    hide SomeFailed, ToldToStop, Tracks;
  }

  lemma SyncedBefore(script: seq<Message>, k: nat)
    requires SyncedOnce(script) && k < |script| && script[k].Synced?
    ensures Synced !in script[..k]
  {
  }

  /** Only wait tasks keep identifiers up to date. */
  predicate Tracks(t: Task, id: ObjMetadata) {
    t.Wait? && id in t.ids
  }
}
