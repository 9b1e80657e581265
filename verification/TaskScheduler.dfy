/**
 The scheduler: a registry of worker handles beside the task rows. Every call is proved against the
 per-task step functions of TaskLife, for the task it names and for all the others.
 */
module TaskScheduler {
  import opened Prelude
  import opened LaunchAttempt
  import opened TaskLife

  type TaskId = nat

  datatype Goroutine = Goroutine(task: TaskId, worker: Worker)

  /** One task next to its goroutines: its row among the rest. */
  datatype Record = Record(world: World, pending: set<Token>, nextToken: Token, creator: Creator)

  /** The scheduler's memory as a value. */
  datatype Memory = Memory(activeTasks: map<TaskId, Handle>, workers: map<Handle, Goroutine>, nextHandle: Handle,
      tasks: map<TaskId, Record>)

  ghost function WorkersOf(workers: map<Handle, Goroutine>, id: TaskId): map<Handle, Worker> {
    map h | h in workers && workers[h].task == id :: workers[h].worker
  }

  /** One task as the step system sees it. */
  ghost function View(m: Memory, id: TaskId): TaskState
    requires id in m.tasks
  {
    TaskState(
      m.tasks[id].world,
      if id in m.activeTasks then Some(m.activeTasks[id]) else None,
      WorkersOf(m.workers, id),
      m.nextHandle, m.tasks[id].pending, m.tasks[id].nextToken, m.tasks[id].creator)
  }

  /** Registrations name live, uncancelled workers of known tasks, and every such worker is
      registered. */
  ghost predicate Valid(m: Memory) {
    && (forall h :: h in m.workers ==>
          && h < m.nextHandle && m.workers[h].task in m.tasks
          && (!m.workers[h].worker.cancelled ==>
              m.workers[h].task in m.activeTasks && m.activeTasks[m.workers[h].task] == h))
    && (forall id :: id in m.activeTasks ==>
          && id in m.tasks && m.activeTasks[id] in m.workers
          && m.workers[m.activeTasks[id]].task == id && !m.workers[m.activeTasks[id]].worker.cancelled)
  }

  lemma ValidAgrees(m: Memory, id: TaskId)
    requires Valid(m) && id in m.tasks
    ensures RegistryAgrees(View(m, id))
  {
  }

  /** A live uncancelled worker of the task. */
  predicate WorksOn(m: Memory, h: Handle, id: TaskId) {
    h in m.workers && m.workers[h].task == id && !m.workers[h].worker.cancelled
  }

  /** What holds of every task in the step system holds of every task in memory: at most one live
      uncancelled worker, reported active exactly when there is one. */
  lemma EveryTaskAgrees(m: Memory, id: TaskId)
    requires Valid(m) && id in m.tasks
    ensures TaskLife.IsTaskActive(View(m, id)) <==> exists h :: WorksOn(m, h, id)
    ensures forall g, h :: WorksOn(m, g, id) && WorksOn(m, h, id) ==> g == h
  {
    var v := View(m, id);
    ValidAgrees(m, id);
    RegistryAlwaysAgrees(v, [], v);
    assert forall h :: WorksOn(m, h, id) <==> h in v.workers && !v.workers[h].cancelled;
  }

  /** Task `id` has moved to `after`; the others stand where they stood. */
  ghost predicate Moved(m: Memory, m': Memory, id: TaskId, after: TaskState)
    requires id in m.tasks
  {
    && m'.tasks.Keys == m.tasks.Keys
    && View(m', id) == after
    && (forall other :: other in m.tasks && other != id ==>
        View(m', other) == View(m, other).(nextHandle := m'.nextHandle))
  }

  lemma MovedTwice(a: Memory, b: Memory, c: Memory, id: TaskId, mid: TaskState, after: TaskState)
    requires id in a.tasks && Moved(a, b, id, mid) && Moved(b, c, id, after)
    ensures Moved(a, c, id, after)
  {
  }

  // ----- the elementary updates -----

  function Cancelled(m: Memory, id: TaskId): Memory
    requires id in m.activeTasks ==> m.activeTasks[id] in m.workers
  {
    if id !in m.activeTasks then m
    else
      var h := m.activeTasks[id];
      m.(workers := m.workers[h := m.workers[h].(worker := m.workers[h].worker.(cancelled := true))],
         activeTasks := m.activeTasks - {id})
  }

  function Written(m: Memory, id: TaskId, status: Status): Memory
    requires id in m.tasks
  {
    var record := m.tasks[id];
    m.(tasks := m.tasks[id := record.(world := record.world.(row := record.world.row.(status := status)))])
  }

  function Registered(m: Memory, id: TaskId): Memory {
    m.(activeTasks := m.activeTasks[id := m.nextHandle],
       workers := m.workers[m.nextHandle := Goroutine(id, Worker(false, AtTop))],
       nextHandle := m.nextHandle + 1)
  }

  function Gone(m: Memory, h: Handle, id: TaskId): Memory {
    m.(workers := m.workers - {h},
       activeTasks := if id in m.activeTasks && m.activeTasks[id] == h then m.activeTasks - {id} else m.activeTasks)
  }

  lemma SetWorkerOf(workers: map<Handle, Goroutine>, h: Handle, g: Goroutine, id: TaskId)
    requires h in workers ==> workers[h].task == g.task
    ensures WorkersOf(workers[h := g], id) ==
            if g.task == id then WorkersOf(workers, id)[h := g.worker] else WorkersOf(workers, id)
  {
  }

  lemma DropWorkerOf(workers: map<Handle, Goroutine>, h: Handle, id: TaskId)
    requires h in workers
    ensures WorkersOf(workers - {h}, id) ==
            if workers[h].task == id then WorkersOf(workers, id) - {h} else WorkersOf(workers, id)
  {
  }

  lemma CancelMoves(m: Memory, id: TaskId)
    requires Valid(m) && id in m.tasks
    ensures Valid(Cancelled(m, id)) && Moved(m, Cancelled(m, id), id, CancelWorker(View(m, id)))
  {
    if id in m.activeTasks {
      var h := m.activeTasks[id];
      var g := m.workers[h].(worker := m.workers[h].worker.(cancelled := true));
      forall other | other in m.tasks
        ensures View(Cancelled(m, id), other) == if other == id then CancelWorker(View(m, id)) else View(m, other)
      {
        SetWorkerOf(m.workers, h, g, other);
      }
    }
  }

  lemma WriteMoves(m: Memory, id: TaskId, status: Status)
    requires Valid(m) && id in m.tasks
    ensures Valid(Written(m, id, status)) && Moved(m, Written(m, id, status), id, SetStatus(View(m, id), status))
  {
  }

  lemma RegisteredIsValid(m: Memory, id: TaskId)
    requires Valid(m) && id in m.tasks && id !in m.activeTasks
    ensures Valid(Registered(m, id))
  {
  }

  lemma RegisterMoves(m: Memory, id: TaskId)
    requires Valid(m) && id in m.tasks && id !in m.activeTasks
    ensures Valid(Registered(m, id))
    ensures var v := View(m, id);
            Moved(m, Registered(m, id), id,
                  v.(registry := Some(m.nextHandle), workers := v.workers[m.nextHandle := Worker(false, AtTop)],
                      nextHandle := m.nextHandle + 1))
  {
    assert m.nextHandle !in m.workers;
    RegisteredIsValid(m, id);
    hide Valid;
    hide WorkersOf;
    forall other | other in m.tasks
      ensures WorkersOf(Registered(m, id).workers, other) ==
              if other == id then WorkersOf(m.workers, id)[m.nextHandle := Worker(false, AtTop)]
              else WorkersOf(m.workers, other)
    {
      SetWorkerOf(m.workers, m.nextHandle, Goroutine(id, Worker(false, AtTop)), other);
    }
  }

  lemma GoneIsValid(m: Memory, h: Handle)
    requires Valid(m) && h in m.workers
    ensures Valid(Gone(m, h, m.workers[h].task))
  {
  }

  lemma ExitMoves(m: Memory, h: Handle)
    requires Valid(m) && h in m.workers
    ensures var id := m.workers[h].task;
            Valid(Gone(m, h, id)) && Moved(m, Gone(m, h, id), id, Exit(View(m, id), h))
  {
    GoneIsValid(m, h);
    assert m.workers[h].task in m.tasks;
    hide Valid;
    hide WorkersOf;
    forall other | other in m.tasks
      ensures WorkersOf(m.workers - {h}, other) ==
              if m.workers[h].task == other then WorkersOf(m.workers, other) - {h} else WorkersOf(m.workers, other)
    {
      DropWorkerOf(m.workers, h, other);
    }
  }

  // ----- the calls -----

  function Started(m: Memory, id: TaskId, stored: bool): Memory
    requires id in m.tasks && (id in m.activeTasks ==> m.activeTasks[id] in m.workers)
  {
    var m1 := Cancelled(m, id);
    if !stored then m1 else Registered(Written(m1, id, Running), id)
  }

  lemma StartMoves(m: Memory, id: TaskId, stored: bool)
    requires Valid(m) && id in m.tasks
    ensures Valid(Started(m, id, stored)) && Moved(m, Started(m, id, stored), id, StartTask(View(m, id), stored))
  {
    var m1 := Cancelled(m, id);
    CancelMoves(m, id);
    if stored {
      var m2 := Written(m1, id, Running);
      WriteMoves(m1, id, Running);
      MovedTwice(m, m1, m2, id, View(m1, id), View(m2, id));
      RegisterMoves(m2, id);
      MovedTwice(m, m2, Registered(m2, id), id, View(m2, id), View(Registered(m2, id), id));
    }
  }

  function StoppedIf(m: Memory, id: TaskId, status: Status): Memory
    requires id in m.tasks
  {
    if m.tasks[id].world.row.status == status then Written(m, id, Stopped) else m
  }

  lemma StopMoves(m: Memory, id: TaskId)
    requires Valid(m) && id in m.tasks
    ensures var m' := StoppedIf(StoppedIf(Cancelled(m, id), id, Running), id, Creating);
            Valid(m') && Moved(m, m', id, StopTask(View(m, id)))
  {
    var m1 := Cancelled(m, id);
    CancelMoves(m, id);
    WriteMoves(m1, id, Stopped);
    var m2 := StoppedIf(m1, id, Running);
    MovedTwice(m, m1, m2, id, View(m1, id), View(m2, id));
    WriteMoves(m2, id, Stopped);
    var m3 := StoppedIf(m2, id, Creating);
    MovedTwice(m, m2, m3, id, View(m2, id), View(m3, id));
  }

  /** The SQL update that touches every task in one status. */
  function StopRecord(record: Record, status: Status): Record {
    if record.world.row.status == status
    then record.(world := record.world.(row := record.world.row.(status := Stopped)))
    else record
  }

  function StoppedAll(m: Memory, status: Status): Memory {
    m.(tasks := map id | id in m.tasks :: StopRecord(m.tasks[id], status))
  }

  lemma StopAllViews(m: Memory, status: Status)
    requires Valid(m)
    ensures Valid(StoppedAll(m, status)) && StoppedAll(m, status).tasks.Keys == m.tasks.Keys
    ensures forall id :: id in m.tasks ==> View(StoppedAll(m, status), id) == StopIf(View(m, id), status)
  {
  }

  /** Part of the registry is still to be cancelled. */
  ghost predicate Sweeping(m0: Memory, m: Memory) {
    && Valid(m) && m.tasks == m0.tasks && m.nextHandle == m0.nextHandle
    && (forall id :: id in m.tasks ==>
          View(m, id) == if id in m.activeTasks then View(m0, id) else CancelWorker(View(m0, id)))
  }

  lemma SweepOne(m0: Memory, m: Memory, id: TaskId)
    requires Valid(m0) && Sweeping(m0, m) && id in m.activeTasks
    ensures Sweeping(m0, Cancelled(m, id)) && Cancelled(m, id).activeTasks == m.activeTasks - {id}
  {
    hide WorkersOf;
    CancelMoves(m, id);
  }

  // ----- what the calls do, goroutine by goroutine and row by row -----

  /** The goroutine, cancelled if it works on the task. */
  function HaltedFor(g: Goroutine, id: TaskId): Goroutine {
    if g.task == id then Goroutine(g.task, Worker(true, g.worker.pc)) else g
  }

  /** The record under another status: instances, OCID, counters and history stay. */
  ghost predicate OnlyStatus(before: Record, after: Record, status: Status) {
    after == before.(world := before.world.(row := before.world.row.(status := status)))
  }

  /** The task has one fresh worker and is running, or, if the row could not be written, has none and its row
      is as it was; its earlier workers are cancelled. Other tasks, their workers and registrations stay. */
  ghost predicate OneStarted(m: Memory, m': Memory, id: TaskId, stored: bool)
    requires id in m.tasks
  {
    && m'.activeTasks == (if stored then m.activeTasks[id := m.nextHandle] else m.activeTasks - {id})
    && m'.workers.Keys == m.workers.Keys + (if stored then {m.nextHandle} else {})
    && (forall h :: h in m.workers && h != m.nextHandle ==> m'.workers[h] == HaltedFor(m.workers[h], id))
    && (stored ==> m'.workers[m.nextHandle] == Goroutine(id, Worker(false, AtTop)))
    && m'.tasks.Keys == m.tasks.Keys
    && (forall other :: other in m.tasks && other != id ==> m'.tasks[other] == m.tasks[other])
    && OnlyStatus(m.tasks[id], m'.tasks[id], if stored then Running else m.tasks[id].world.row.status)
  }

  lemma StartedExactly(m: Memory, id: TaskId, stored: bool)
    requires Valid(m) && id in m.tasks
    ensures OneStarted(m, Started(m, id, stored), id, stored)
  {
  }

  /** The task's workers are cancelled and unregistered, and it is stopped if it was running or being created;
      nothing else changes. */
  ghost predicate OneStopped(m: Memory, m': Memory, id: TaskId)
    requires id in m.tasks
  {
    var status := m.tasks[id].world.row.status;
    && m'.activeTasks == m.activeTasks - {id} && m'.workers.Keys == m.workers.Keys
    && (forall h :: h in m.workers ==> m'.workers[h] == HaltedFor(m.workers[h], id))
    && m'.tasks.Keys == m.tasks.Keys
    && (forall other :: other in m.tasks && other != id ==> m'.tasks[other] == m.tasks[other])
    && OnlyStatus(m.tasks[id], m'.tasks[id], if status == Running || status == Creating then Stopped else status)
  }

  lemma StoppedExactly(m: Memory, id: TaskId)
    requires Valid(m) && id in m.tasks
    ensures OneStopped(m, StoppedIf(StoppedIf(Cancelled(m, id), id, Running), id, Creating), id)
  {
  }

  /** No worker is registered, every worker there is, of whatever task, is cancelled where it stands, every
      running task is stopped, and no other status, no OCID and no counter changes. */
  ghost predicate AllLockedDown(m: Memory, m': Memory) {
    && m'.activeTasks == map[] && m'.workers.Keys == m.workers.Keys && m'.tasks.Keys == m.tasks.Keys
    && (forall h :: h in m.workers ==> m'.workers[h] == HaltedFor(m.workers[h], m.workers[h].task))
    && (forall id :: id in m.tasks ==>
          OnlyStatus(m.tasks[id], m'.tasks[id],
              if m.tasks[id].world.row.status == Running then Stopped else m.tasks[id].world.row.status))
  }

  /** Some workers are cancelled, and no other change was made to any. */
  ghost predicate SomeCancelled(m0: Memory, m: Memory) {
    && m.workers.Keys == m0.workers.Keys
    && (forall h :: h in m.workers ==>
          m.workers[h] == m0.workers[h] || m.workers[h] == HaltedFor(m0.workers[h], m0.workers[h].task))
  }

  lemma CancelOne(m0: Memory, m: Memory, id: TaskId)
    requires Valid(m) && SomeCancelled(m0, m) && id in m.activeTasks
    ensures SomeCancelled(m0, Cancelled(m, id))
  {
  }

  lemma LockedDownExactly(m0: Memory, m: Memory)
    requires Valid(m) && SomeCancelled(m0, m) && m.tasks == m0.tasks && m.activeTasks.Keys == {}
    ensures AllLockedDown(m0, StoppedAll(m, Running))
  {
  }

  class Scheduler {
    var activeTasks: map<TaskId, Handle>
    var workers: map<Handle, Goroutine>
    var nextHandle: Handle
    var tasks: map<TaskId, Record>

    ghost function Mem(): Memory
      reads this
    {
      Memory(activeTasks, workers, nextHandle, tasks)
    }

    /** A freshly started process: the rows are there, no goroutine is. */
    constructor (tasks: map<TaskId, Record>)
      ensures Valid(Mem()) && Mem() == Memory(map[], map[], 0, tasks)
    {
      activeTasks, workers, nextHandle, this.tasks := map[], map[], 0, tasks;
    }

    method WriteStatus(id: TaskId, status: Status)
      requires id in tasks
      modifies this`tasks
      ensures Mem() == Written(old(Mem()), id, status)
    {
      var record := tasks[id];
      tasks := tasks[id := record.(world := record.world.(row := record.world.row.(status := status)))];
    }

    method CancelWorker(id: TaskId)
      requires Valid(Mem())
      modifies this`activeTasks, this`workers
      ensures Mem() == Cancelled(old(Mem()), id)
    {
      if id in activeTasks {
        var h := activeTasks[id];
        workers := workers[h := workers[h].(worker := workers[h].worker.(cancelled := true))];
        activeTasks := activeTasks - {id};
      }
    }

    method IsTaskActive(id: TaskId) returns (active: bool)
      requires Valid(Mem()) && id in tasks
      ensures active == TaskLife.IsTaskActive(View(Mem(), id))
      ensures active <==> exists h :: WorksOn(Mem(), h, id)
    {
      EveryTaskAgrees(Mem(), id);
      active := id in activeTasks;
    }

    method StartTask(id: TaskId, stored: bool)
      requires Valid(Mem()) && id in tasks
      modifies this
      ensures Valid(Mem()) && Moved(old(Mem()), Mem(), id, TaskLife.StartTask(old(View(Mem(), id)), stored))
      ensures OneStarted(old(Mem()), Mem(), id, stored)
    {
      hide OneStarted;
      hide Moved;
      hide View;
      hide TaskLife.StartTask;
      StartedExactly(Mem(), id, stored);
      StartMoves(Mem(), id, stored);
      hide Valid;
      hide Cancelled;
      hide Written;
      hide Registered;
      CancelWorker(id);
      if !stored {
        return;
      }
      WriteStatus(id, Running);
      Register(id);
    }

    /** A fresh handle and its goroutine. */
    method Register(id: TaskId)
      modifies this`activeTasks, this`workers, this`nextHandle
      ensures Mem() == Registered(old(Mem()), id)
    {
      var handle := nextHandle;
      nextHandle := nextHandle + 1;
      activeTasks := activeTasks[id := handle];
      workers := workers[handle := Goroutine(id, Worker(false, AtTop))];
    }

    method StopTask(id: TaskId)
      requires Valid(Mem()) && id in tasks
      modifies this
      ensures Valid(Mem()) && Moved(old(Mem()), Mem(), id, TaskLife.StopTask(old(View(Mem(), id))))
      ensures OneStopped(old(Mem()), Mem(), id)
    {
      StoppedExactly(Mem(), id);
      hide Valid;
      hide View;
      hide Moved;
      hide OneStopped;
      StopMoves(Mem(), id);
      CancelWorker(id);
      if tasks[id].world.row.status == Running {
        WriteStatus(id, Stopped);
      }
      if tasks[id].world.row.status == Creating {
        WriteStatus(id, Stopped);
      }
    }

    /** The deferred clean-up of a worker goroutine: compare-and-delete of its own registration. */
    method WorkerDone(h: Handle)
      requires Valid(Mem()) && h in workers
      modifies this`activeTasks, this`workers
      ensures Valid(Mem())
      ensures Moved(old(Mem()), Mem(), old(workers[h].task), Exit(old(View(Mem(), workers[h].task)), h))
      ensures workers == old(workers) - {h} && tasks == old(tasks)
      ensures forall id :: id in activeTasks <==> id in old(activeTasks) && old(activeTasks)[id] != h
      ensures forall id :: id in activeTasks ==> activeTasks[id] == old(activeTasks)[id]
    {
      ExitMoves(Mem(), h);
      var id := workers[h].task;
      if id in activeTasks && activeTasks[id] == h {
        activeTasks := activeTasks - {id};
      }
      workers := workers - {h};
    }

    method PanicLockdown()
      requires Valid(Mem())
      modifies this
      ensures Valid(Mem()) && tasks.Keys == old(tasks.Keys)
      ensures forall id :: id in tasks ==> View(Mem(), id) == TaskLife.PanicLockdown(old(View(Mem(), id)))
      ensures AllLockedDown(old(Mem()), Mem())
    {
      ghost var m0 := Mem();
      while activeTasks.Keys != {}
        invariant Sweeping(m0, Mem()) && SomeCancelled(m0, Mem())
        decreases activeTasks.Keys
      {
        var id :| id in activeTasks.Keys;
        SweepOne(m0, Mem(), id);
        CancelOne(m0, Mem(), id);
        CancelWorker(id);
      }
      StopAllViews(Mem(), Running);
      LockedDownExactly(m0, Mem());
      tasks := map id | id in tasks :: StopRecord(tasks[id], Running);
    }

    /** Runs once per process, before any goroutine exists. `stored`: the tasks whose status write
        succeeds; the others are left without a worker, and so are all when they cannot be read. */
    method ResumeAllRunningTasks(readOk: bool, stored: set<TaskId>)
      requires Freshly(Mem())
      modifies this
      ensures Valid(Mem()) && tasks.Keys == old(tasks.Keys)
      ensures forall id :: id in tasks ==>
          SameButHandle(View(Mem(), id), Restart(old(View(Mem(), id)), readOk && id in stored))
      ensures AllResumed(old(Mem()), Mem(), readOk, stored)
    {
      ghost var m0 := Mem();
      tasks := map id | id in tasks :: StopRecord(tasks[id], Creating);
      var running := set id | id in tasks && tasks[id].world.row.status == Running;
      ResumeStart(m0, Mem(), running, stored);
      if !readOk {
        LeftAlone(m0, Mem(), running, stored);
        ResumedExactly(m0, Mem(), readOk, stored);
        return;
      }
      while running != {}
        invariant Resuming(m0, Mem(), running, stored)
        decreases running
      {
        var id :| id in running;
        ghost var before := Mem();
        StartTask(id, id in stored);
        ResumeStep(m0, before, Mem(), running, id, stored);
        running := running - {id};
      }
      ResumedExactly(m0, Mem(), readOk, stored);
    }
  }

  /** Exactly the running tasks whose row could be read and written have a worker, one each and fresh; those
      that were being created are stopped, and every other row is as it was. */
  ghost predicate AllResumed(m: Memory, m': Memory, readOk: bool, stored: set<TaskId>) {
    && m'.tasks.Keys == m.tasks.Keys
    && (forall id :: id in m.tasks ==>
          && (id in m'.activeTasks <==> m.tasks[id].world.row.status == Running && readOk && id in stored)
          && OnlyStatus(m.tasks[id], m'.tasks[id],
              if m.tasks[id].world.row.status == Creating then Stopped else m.tasks[id].world.row.status))
    && (forall h :: h in m'.workers ==>
          && m'.workers[h].worker == Worker(false, AtTop) && m'.workers[h].task in m'.activeTasks
          && m'.activeTasks[m'.workers[h].task] == h)
  }

  lemma ResumedExactly(m: Memory, m': Memory, readOk: bool, stored: set<TaskId>)
    requires Freshly(m) && Valid(m') && m'.tasks.Keys == m.tasks.Keys
    requires forall id :: id in m.tasks ==>
        SameButHandle(View(m', id), Restart(View(m, id), readOk && id in stored))
    ensures AllResumed(m, m', readOk, stored)
  {
    hide Restart;
    hide SameButHandle;
    hide View;
    forall id | id in m.tasks
      ensures id in m'.activeTasks <==> m.tasks[id].world.row.status == Running && readOk && id in stored
      ensures OnlyStatus(m.tasks[id], m'.tasks[id],
          if m.tasks[id].world.row.status == Creating then Stopped else m.tasks[id].world.row.status)
    {
      ResumedOne(m, m', id, readOk && id in stored);
    }
    forall h | h in m'.workers
      ensures m'.workers[h].worker == Worker(false, AtTop) && m'.workers[h].task in m'.activeTasks
      ensures m'.activeTasks[m'.workers[h].task] == h
    {
      var id := m'.workers[h].task;
      ResumedWorker(m', h, Restart(View(m, id), readOk && id in stored));
    }
  }

  lemma ResumedWorker(m: Memory, h: Handle, restarted: TaskState)
    requires Valid(m) && h in m.workers && SameButHandle(View(m, m.workers[h].task), restarted)
    ensures m.workers[h].worker == Worker(false, AtTop) && m.workers[h].task in m.activeTasks
    ensures m.activeTasks[m.workers[h].task] == h
  {
    assert h in View(m, m.workers[h].task).workers;
  }

  lemma ResumedOne(m: Memory, m': Memory, id: TaskId, restarted: bool)
    requires Freshly(m) && id in m.tasks && id in m'.tasks
    requires SameButHandle(View(m', id), Restart(View(m, id), restarted))
    ensures id in m'.activeTasks <==> m.tasks[id].world.row.status == Running && restarted
    ensures OnlyStatus(m.tasks[id], m'.tasks[id],
        if m.tasks[id].world.row.status == Creating then Stopped else m.tasks[id].world.row.status)
  {
  }

  ghost predicate Freshly(m: Memory) {
    && Valid(m) && m.activeTasks == map[] && m.workers == map[]
    && forall id :: id in m.tasks ==> m.tasks[id].creator == Returned
  }

  /** Equal up to the number of the handle a fresh worker got. */
  ghost predicate SameButHandle(a: TaskState, b: TaskState) {
    && a.world == b.world && a.pending == b.pending && a.nextToken == b.nextToken && a.creator == b.creator
    && a.registry.Some? == b.registry.Some?
    && (a.registry.Some? ==>
          && a.workers == map[a.registry.value := Worker(false, AtTop)]
          && b.workers == map[b.registry.value := Worker(false, AtTop)])
    && (a.registry.None? ==> a.workers == map[] && b.workers == map[])
  }

  /** Where a task stands while the resume loop runs: waiting for its turn, or restarted. */
  ghost predicate Resuming(m0: Memory, m: Memory, running: set<TaskId>, stored: set<TaskId>) {
    && Valid(m) && m.tasks.Keys == m0.tasks.Keys && running <= m.tasks.Keys
    && (forall id :: id in m.tasks ==> Stands(View(m0, id), View(m, id), id in running, id in stored))
  }

  ghost predicate Stands(before: TaskState, now: TaskState, waiting: bool, stored: bool) {
    if waiting then Waits(before, now) else SameButHandle(now, Restart(before, stored))
  }

  lemma StandsOn(before: TaskState, now: TaskState, next: Handle, waiting: bool, stored: bool)
    requires Stands(before, now, waiting, stored)
    ensures Stands(before, now.(nextHandle := next), waiting, stored)
  {
  }

  ghost predicate Waits(before: TaskState, now: TaskState) {
    now == StopIf(before, Creating).(nextHandle := now.nextHandle) && now.world.row.status == Running
    && now.workers == map[] && now.registry.None? && now.creator == Returned
  }

  lemma ResumeStart(m0: Memory, m: Memory, running: set<TaskId>, stored: set<TaskId>)
    requires Freshly(m0) && m == StoppedAll(m0, Creating)
    requires running == set id | id in m.tasks && m.tasks[id].world.row.status == Running
    ensures Resuming(m0, m, running, stored)
  {
    StopAllViews(m0, Creating);
    assert forall id :: id in m0.tasks ==> WorkersOf(m0.workers, id) == map[];
  }

  /** A task left waiting stands where a failed status write would leave it. */
  lemma LeftAlone(m0: Memory, m: Memory, running: set<TaskId>, stored: set<TaskId>)
    requires Resuming(m0, m, running, stored)
    requires running == set id | id in m.tasks && m.tasks[id].world.row.status == Running
    ensures forall id :: id in m.tasks ==> SameButHandle(View(m, id), Restart(View(m0, id), false))
  {
    forall id | id in m.tasks ensures SameButHandle(View(m, id), Restart(View(m0, id), false)) {
      NotRestarted(View(m0, id), View(m, id), id in running, id in stored);
    }
  }

  lemma NotRestarted(before: TaskState, now: TaskState, waiting: bool, stored: bool)
    requires Stands(before, now, waiting, stored) && (waiting <==> now.world.row.status == Running)
    ensures SameButHandle(now, Restart(before, false))
  {
  }

  lemma RestartWaiting(before: TaskState, now: TaskState, stored: bool)
    requires Waits(before, now)
    ensures SameButHandle(StartTask(now, stored), Restart(before, stored))
  {
  }

  lemma ResumeStep(m0: Memory, m: Memory, m': Memory, running: set<TaskId>, id: TaskId, stored: set<TaskId>)
    requires Resuming(m0, m, running, stored) && id in running && Valid(m')
    requires Moved(m, m', id, StartTask(View(m, id), id in stored))
    ensures Resuming(m0, m', running - {id}, stored)
  {
    forall other | other in m'.tasks
      ensures Stands(View(m0, other), View(m', other), other in running - {id}, other in stored)
    {
      ResumeStepFor(m0, m, m', running, id, other, stored);
    }
  }

  lemma ResumeStepFor(m0: Memory, m: Memory, m': Memory, running: set<TaskId>, id: TaskId, other: TaskId,
                      stored: set<TaskId>)
    requires Resuming(m0, m, running, stored) && id in running && other in m.tasks
    requires Moved(m, m', id, StartTask(View(m, id), id in stored))
    ensures Stands(View(m0, other), View(m', other), other in running - {id}, other in stored)
  {
    var now := View(m, other);
    assert Stands(View(m0, other), now, other in running, other in stored);
    if other == id {
      RestartWaiting(View(m0, id), now, id in stored);
    } else {
      StandsOn(View(m0, other), now, m'.nextHandle, other in running, other in stored);
      assert View(m', other) == now.(nextHandle := m'.nextHandle);
    }
  }
}
