/** The process-wide prewarm protocol of the RIFE runtime
    (dev/windows/mpv/rife_runtime.cpp): a queue of prewarm tasks served by one
    detached worker, a cache of prewarmed states that never shrinks, waiters, and
    the CUDA/D3D11 binding that is set once.

    Every critical section is one atomic step; between two critical sections of a
    thread any other thread may run.  Builds and bindings may fail. */
module PrewarmProtocol {
  import opened Wrappers

  // A device is an opaque identity.
  datatype Key = Key(engine: string, cudart: string, width: nat, height: nat, alignment: nat, device: nat)

  datatype Task = Task(key: Key, started: bool, done: bool, ok: bool)

  // ---------------------------------------------------------------- the shared cache

  /** Tasks are numbered in the order in which they were pushed. */
  datatype Shared = Shared(states: seq<Key>, tasks: seq<Task>, pending: seq<nat>, workerStarted: bool) {

    predicate Valid() {
      forall i | 0 <= i < |pending| :: pending[i] < |tasks|
    }

    function PendingKeys(): seq<Key>
      requires Valid()
    {
      seq(|pending|, i requires 0 <= i < |pending| => tasks[pending[i]].key)
    }

    /** The first pending task of a key. */
    function FindTask(key: Key): (r: Option<nat>)
      requires Valid()
      ensures r.Some? ==> r.value in pending && tasks[r.value].key == key
      ensures r.None? ==> key !in PendingKeys()
    {
      FindTaskFrom(key, 0)
    }

    function FindTaskFrom(key: Key, i: nat): (r: Option<nat>)
      requires Valid() && i <= |pending|
      requires forall j | 0 <= j < i :: tasks[pending[j]].key != key
      ensures r.Some? ==> r.value in pending && tasks[r.value].key == key
      ensures r.None? ==> key !in PendingKeys()
      decreases |pending| - i
    {
      if i == |pending| then None
      else if tasks[pending[i]].key == key then Some(pending[i])
      else FindTaskFrom(key, i + 1)
    }

    /** The first pending task that nobody has started. */
    function NextTask(): (r: Option<nat>)
      requires Valid()
    {
      NextTaskFrom(0)
    }

    function NextTaskFrom(i: nat): (r: Option<nat>)
      requires Valid() && i <= |pending|
      ensures r.Some? ==> r.value in pending && !tasks[r.value].started
      ensures r.None? ==> forall j | i <= j < |pending| :: tasks[pending[j]].started
      decreases |pending| - i
    {
      if i == |pending| then None
      else if !tasks[pending[i]].started then Some(pending[i])
      else NextTaskFrom(i + 1)
    }

    function Started(id: nat): Shared
      requires id < |tasks|
    {
      this.(tasks := tasks[id := tasks[id].(started := true)])
    }

    function WithState(key: Key): Shared {
      if key in states then this else this.(states := states + [key])
    }

    function Published(id: nat, ok: bool): Shared
      requires id < |tasks|
    {
      var cached := if ok then WithState(tasks[id].key) else this;
      cached.(pending := Without(pending, id))
    }

    function Completed(id: nat, ok: bool): Shared
      requires id < |tasks|
    {
      this.(tasks := tasks[id := tasks[id].(done := true, ok := ok)])
    }

    function Pushed(key: Key): Shared
      requires Valid()
    {
      if key in PendingKeys() then this
      else this.(tasks := tasks + [Task(key, false, false, false)], pending := pending + [|tasks|])
    }
  }

  function Without(ids: seq<nat>, id: nat): seq<nat> {
    if ids == [] then []
    else (if ids[0] == id then [] else [ids[0]]) + Without(ids[1..], id)
  }

  // ---------------------------------------------------------------- the cache in memory

  class PrewarmTask {
    const key: Key
    ghost const id: nat
    var started: bool
    var done: bool
    var ok: bool

    constructor (key: Key, ghost id: nat)
      ensures this.key == key && this.id == id && !started && !done && !ok
    {
      this.key := key;
      this.id := id;
      started, done, ok := false, false, false;
    }

    function View(): Task
      reads this
    {
      Task(key, started, done, ok)
    }

    /** Under the task's own mutex. */
    method Complete(success: bool)
      modifies this
      ensures View() == old(View()).(done := true, ok := success)
    {
      ok := success;
      done := true;
    }
  }

  /** One method per critical section of the cache mutex. */
  class PrewarmCache {
    var states: seq<Key>
    var pending: seq<PrewarmTask>
    var workerStarted: bool
    ghost var tasks: seq<PrewarmTask>  // every task ever pushed
    ghost var threads: nat             // worker threads started so far

    ghost predicate Valid()
      reads this
    {
      && threads == (if workerStarted then 1 else 0)
      && (forall i | 0 <= i < |tasks| :: tasks[i].id == i)
      && (forall i | 0 <= i < |pending| :: pending[i].id < |tasks| && tasks[pending[i].id] == pending[i])
    }

    ghost function View(): (s: Shared)
      requires Valid()
      reads this, tasks
      ensures s.Valid()
    {
      Shared(states,
             seq(|tasks|, i requires 0 <= i < |tasks| reads this, tasks => tasks[i].View()),
             seq(|pending|, i requires 0 <= i < |pending| reads this => pending[i].id),
             workerStarted)
    }

    constructor ()
      ensures Valid() && View() == Shared([], [], [], false) && threads == 0
    {
      states, pending, workerStarted, tasks, threads := [], [], false, [], 0;
    }

    method FindPrewarmState(key: Key) returns (found: bool)
      requires Valid()
      ensures found <==> key in View().states
    {
      for i := 0 to |states|
        invariant key !in states[..i]
      {
        if states[i] == key {
          return true;
        }
        assert states[..i + 1] == states[..i] + [states[i]];
      }
      assert states[..|states|] == states;
      return false;
    }

    method FindPendingPrewarmTask(key: Key) returns (task: Option<PrewarmTask>)
      requires Valid()
      ensures task.Some? ==> task.value in pending && View().FindTask(key) == Some(task.value.id)
      ensures task.None? ==> View().FindTask(key) == None
    {
      ghost var view := View();
      for i := 0 to |pending|
        invariant forall j | 0 <= j < i :: view.tasks[view.pending[j]].key != key
        invariant view.FindTask(key) == view.FindTaskFrom(key, i)
      {
        assert view.tasks[view.pending[i]] == pending[i].View();
        if pending[i].key == key {
          return Some(pending[i]);
        }
      }
      return None;
    }

    /** However often it is called, there has been exactly one worker thread afterwards. */
    method EnsurePrewarmWorker() returns (startThread: bool)
      requires Valid()
      modifies this`workerStarted, this`threads
      ensures Valid() && View() == old(View()).(workerStarted := true)
      ensures threads == 1 && threads == old(threads) + (if startThread then 1 else 0)
    {
      startThread := !workerStarted;
      if startThread {
        threads := threads + 1;
      }
      workerStarted := true;
    }

    /** The worker's wait: it goes on only when some pending task is not started. */
    method TakeTask() returns (task: Option<PrewarmTask>)
      requires Valid()
      modifies tasks
      ensures Valid()
      ensures task.None? ==> View() == old(View()) && old(View()).NextTask() == None
      ensures task.Some? ==> old(View()).NextTask() == Some(task.value.id)
      ensures task.Some? ==> task.value.id < |tasks| && tasks[task.value.id] == task.value
      ensures task.Some? ==> View() == old(View()).Started(task.value.id)
    {
      ghost var view := View();
      for i := 0 to |pending|
        invariant forall j | 0 <= j < i :: pending[j].started
        invariant view.NextTask() == view.NextTaskFrom(i)
        invariant View() == view
      {
        assert view.tasks[view.pending[i]] == pending[i].View();
        if !pending[i].started {
          task := Some(pending[i]);
          pending[i].started := true;
          assert View().tasks == view.Started(pending[i].id).tasks;
          return;
        }
      }
      return None;
    }

    method PublishTask(task: PrewarmTask, success: bool)
      requires Valid() && task.id < |tasks| && tasks[task.id] == task
      modifies this`states, this`pending
      ensures Valid() && View() == old(View()).Published(task.id, success)
    {
      ghost var view := View();
      assert view.tasks[task.id] == task.View();
      if success {
        PublishState(task.key);
      }
      RemoveTask(task);
    }

    /** The worker reports a published task to its waiters. */
    method CompleteTask(task: PrewarmTask, success: bool)
      requires Valid() && task.id < |tasks| && tasks[task.id] == task
      modifies task
      ensures Valid() && View() == old(View()).Completed(task.id, success)
    {
      ghost var view := View();
      assert view.tasks[task.id] == task.View();
      task.Complete(success);
      assert View().tasks == view.Completed(task.id, success).tasks;
    }

    method RemoveTask(task: PrewarmTask)
      requires Valid() && task.id < |tasks| && tasks[task.id] == task
      modifies this`pending
      ensures Valid() && View() == old(View()).(pending := Without(old(View()).pending, task.id))
    {
      var all, kept: seq<PrewarmTask> := pending, [];
      for i := 0 to |all|
        invariant forall j | 0 <= j < |kept| :: kept[j].id < |tasks| && tasks[kept[j].id] == kept[j]
        invariant Ids(kept) == Without(Ids(all[..i]), task.id)
      {
        assert Ids(all[..i + 1]) == Ids(all[..i]) + [all[i].id];
        WithoutAppend(Ids(all[..i]), all[i].id, task.id);
        if all[i] != task {
          kept := kept + [all[i]];
        }
      }
      assert all[..|all|] == all;
      assert Ids(all) == old(View()).pending;
      pending := kept;
      assert View().tasks == old(View()).tasks;
      assert View().pending == Ids(kept);
    }

    method PublishState(key: Key)
      requires Valid()
      modifies this`states
      ensures Valid() && View() == old(View()).WithState(key)
    {
      var present := FindPrewarmState(key);
      if !present {
        states := states + [key];
      }
    }

    method PushTask(key: Key) returns (pushed: bool)
      requires Valid()
      modifies this`pending, this`tasks
      ensures Valid() && View() == old(View()).Pushed(key)
    {
      ghost var view := View();
      var duplicate := FindPendingPrewarmTask(key);
      if duplicate.Some? {
        assert key in view.PendingKeys() by {
          var i :| 0 <= i < |view.pending| && view.pending[i] == duplicate.value.id;
          assert view.PendingKeys()[i] == key;
        }
        return false;
      }
      var task := new PrewarmTask(key, |tasks|);
      tasks := tasks + [task];
      pending := pending + [task];
      assert View().tasks == view.tasks + [task.View()];
      assert View().pending == view.pending + [task.id];
      return true;
    }
  }

  ghost function Ids(tasks: seq<PrewarmTask>): seq<nat> {
    seq(|tasks|, i requires 0 <= i < |tasks| => tasks[i].id)
  }

  lemma {:induction false} WithoutAppend(ids: seq<nat>, last: nat, id: nat)
    ensures Without(ids + [last], id) == Without(ids, id) + if last == id then [] else [last]
  {
    if ids != [] {
      assert (ids + [last])[1..] == ids[1..] + [last];
      WithoutAppend(ids[1..], last, id);
    }
  }
}
