/**
 What stopping a task, the lockdown of all tasks and the restart of the process amount to over the runs
 that follow: no worker launches anything until somebody starts the task again.
 */
module TaskHalts {
  import opened Prelude
  import opened LaunchErrors
  import opened LaunchAttempt
  import opened TaskWorker
  import opened TaskLife
  import opened TaskLifeSafety

  // ----- status by status -----

  /** What the steps that touch no instance do to the status. */
  ghost predicate StatusMoves(s: TaskState, e: Step, status: Status)
    requires Enabled(s, e)
  {
    var was := s.world.row.status;
    match e
    case DoStart(admitted, stored) =>
      status == if admitted && stored && (was == Failed || was == Stopped || (was == Running && s.registry.None?))
                then Running else was
    case DoStop => status == if was == Running || was == Creating then Stopped else was
    case DoLockdown => status == if was == Running then Stopped else was
    case DoHealthPause => status == if was == Running then Stopped else was
    case DoRestart(_) => status == if was == Creating then Stopped else was
    case DoSweepCreating => status == if was == Creating then Stopped else was
    case DoCrash(_) => status == if was == Running then Failed else was
    case DoCreatePanic => status == Stopped
    case DoPoll(h, choice, _) =>
      var goes := !s.workers[h].cancelled && was == Running;
      && (!goes || choice.Quit? || choice.Nap? ==> status == was)
      && (goes && choice.Fail? ==> status == Failed)
      && (goes && choice.Expire? ==> status == Stopped)
      && (goes && choice.Try? ==> status == Running || status == Success)
    case DoReturn(_, _, _, _) => status in {was, Success, Failed, Stopped}
    case DoCreateTry(_, _) => status in {was, Success, Failed, Stopped}
    case DoCreateReturn(_, _, _, _) => status in {was, Success, Failed, Stopped}
    case _ => status == was
  }

  lemma StatusMovesExactly(s: TaskState, e: Step)
    requires Enabled(s, e)
    ensures StatusMoves(s, e, Next(s, e).world.row.status)
    ensures e.DoCreatePanic? ==> Next(s, e).creator.Returned?
  {
    if e.DoReturn? {
      FinishRow(s.world, s.workers[e.h].pc.num, e.reply, e.lookups, !s.workers[e.h].cancelled);
    } else if e.DoCreateReturn? {
      FinishRow(s.world, s.creator.num, e.reply, e.lookups, e.live);
    }
    hide Finish;
    hide Lookup;
  }

  /** What the steps do to the workers: a start that goes through adds one, a finished, crashed or leaving worker
      is gone and unregistered, a process restart drops them all, and no other step adds or removes any. */
  lemma WorkersMoveExactly(s: TaskState, e: Step)
    requires Enabled(s, e)
    ensures var next := Next(s, e);
            match e
            case DoStart(admitted, stored) =>
              next.workers.Keys == s.workers.Keys + if stored && Accepted(s, admitted) then {s.nextHandle} else {}
            case DoRestart(stored) =>
              next.workers.Keys == if stored && s.world.row.status == Running then {s.nextHandle} else {}
            case DoFinish(h) => Left(s, next, h)
            case DoCrash(h) => Left(s, next, h)
            case DoPoll(h, choice, _) =>
              if s.workers[h].cancelled || s.world.row.status != Running || !(choice.Nap? || choice.Try?)
              then Left(s, next, h)
              else next.workers.Keys == s.workers.Keys && next.registry == s.registry
            case DoReturn(h, _, _, _) =>
              Left(s, next, h) || (next.workers.Keys == s.workers.Keys && next.registry == s.registry)
            case _ => next.workers.Keys == s.workers.Keys
  {
    hide Finish;
    hide Lookup;
    hide AfterAttempt;
    hide ApplyChoice;
  }

  ghost predicate Left(s: TaskState, s': TaskState, h: Handle) {
    s'.workers == s.workers - {h} && s'.registry == if s.registry == Some(h) then None else s.registry
  }

  /** A task starts out as being created, with attempt number 1 to make. */
  lemma NewTaskExactly(maxRetries: nat)
    ensures var s := NewTask(maxRetries);
            && s.world.row == Row(Creating, None, 0, maxRetries) && s.creator == Working(1) && s.workers == map[]
            && s.world.cloud.instances == [] && s.world.history == [] && s.pending == {}
  {
  }

  // ----- halted -----

  /** No worker is registered, none is uncancelled, and the task does not count as running. */
  ghost predicate Halted(s: TaskState) {
    s.registry.None? && s.world.row.status != Running && forall h :: h in s.workers ==> s.workers[h].cancelled
  }

  /** A start that goes through. */
  predicate Restarts(s: TaskState, e: Step) {
    e.DoStart? && e.stored && Accepted(s, e.admitted)
  }

  /** Lockdown halts the task, whatever state it is in, and stopping it does too. */
  lemma LockdownHalts(maxRetries: nat, before: seq<Step>, s: TaskState)
    requires RunFrom(NewTask(maxRetries), before, s)
    ensures Halted(PanicLockdown(s)) && Halted(StopTask(s))
    ensures PanicLockdown(s).workers.Keys == s.workers.Keys == StopTask(s).workers.Keys
  {
    RegistryAlwaysAgrees(NewTask(maxRetries), before, s);
  }

  /** From s to s' no worker has sent anything, and none is new. */
  ghost predicate NothingLaunched(s: TaskState, s': TaskState) {
    s'.nextToken == s.nextToken && s'.pending <= s.pending && s'.workers.Keys <= s.workers.Keys
  }

  lemma HaltStep(s: TaskState, e: Step)
    requires Halted(s) && Enabled(s, e) && !Restarts(s, e)
    ensures Halted(Next(s, e)) && Next(s, e).workers.Keys <= s.workers.Keys
    ensures !e.DoCreateTry? ==> NothingLaunched(s, Next(s, e))
    ensures s.creator.Returned? ==> Next(s, e).creator.Returned?
  {
    StatusMovesExactly(s, e);
    hide Finish;
    hide Lookup;
    hide AfterAttempt;
  }

  ghost predicate RestRun(s: TaskState, steps: seq<Step>, end: TaskState)
    decreases |steps|
  {
    if steps == [] then end == s
    else Enabled(s, steps[0]) && !Restarts(s, steps[0]) && RestRun(Next(s, steps[0]), steps[1..], end)
  }

  function CreationTries(steps: seq<Step>): nat {
    if steps == [] then 0 else (if steps[0].DoCreateTry? then 1 else 0) + CreationTries(steps[1..])
  }

  lemma CreateTrySends(s: TaskState, e: Step)
    requires Enabled(s, e) && e.DoCreateTry?
    ensures s.nextToken <= Next(s, e).nextToken <= s.nextToken + 1
  {
    hide Lookup;
  }

  lemma {:induction false} HaltedRests(s: TaskState, steps: seq<Step>, end: TaskState)
    requires Halted(s) && RestRun(s, steps, end)
    ensures Halted(end) && end.workers.Keys <= s.workers.Keys
    ensures s.nextToken <= end.nextToken <= s.nextToken + CreationTries(steps)
    ensures s.creator.Returned? ==> NothingLaunched(s, end)
    decreases |steps|
  {
    hide Next;
    hide Halted;
    if steps != [] {
      HaltStep(s, steps[0]);
      if steps[0].DoCreateTry? {
        CreateTrySends(s, steps[0]);
      }
      HaltedRests(Next(s, steps[0]), steps[1..], end);
    }
  }

  /** After a lockdown, whatever happened before it and whatever steps follow, restarts of the process
      included, and until a start goes through: the task is not running, has no worker that was not there
      already, and those are cancelled; no worker sends a request. Only CreateTask, which the lockdown does not
      reach, may still make its attempts. */
  lemma LockdownHolds(maxRetries: nat, before: seq<Step>, s: TaskState, after: seq<Step>, end: TaskState)
    requires RunFrom(NewTask(maxRetries), before, s) && RestRun(PanicLockdown(s), after, end)
    ensures end.world.row.status != Running && !IsTaskActive(end) && end.workers.Keys <= s.workers.Keys
    ensures forall h :: h in end.workers ==> end.workers[h].cancelled
    ensures end.nextToken <= s.nextToken + CreationTries(after)
    ensures s.creator.Returned? ==> end.nextToken == s.nextToken && end.pending <= s.pending
  {
    LockdownHalts(maxRetries, before, s);
    HaltedRests(PanicLockdown(s), after, end);
  }

  /** The same after a stop. */
  lemma StopHolds(maxRetries: nat, before: seq<Step>, s: TaskState, after: seq<Step>, end: TaskState)
    requires RunFrom(NewTask(maxRetries), before, s) && RestRun(StopTask(s), after, end)
    ensures end.world.row.status != Running && !IsTaskActive(end) && end.workers.Keys <= s.workers.Keys
    ensures forall h :: h in end.workers ==> end.workers[h].cancelled
    ensures end.nextToken <= s.nextToken + CreationTries(after)
    ensures s.creator.Returned? ==> end.nextToken == s.nextToken && end.pending <= s.pending
  {
    LockdownHalts(maxRetries, before, s);
    HaltedRests(StopTask(s), after, end);
  }

  /** A restart of the process leaves exactly the running tasks whose row could be written with a worker, a
      fresh one; a launch in flight is forgotten, its request is not. */
  lemma RestartExactly(s: TaskState, stored: bool)
    ensures var next := Restart(s, stored);
            && next.creator.Returned? && next.pending == s.pending && next.world.cloud == s.world.cloud
            && next.world.row == s.world.row.(status :=
                if s.world.row.status == Creating then Stopped else s.world.row.status)
            && (if s.world.row.status == Running && stored
                then next.workers == map[s.nextHandle := Worker(false, AtTop)] && next.registry == Some(s.nextHandle)
                else next.workers == map[] && next.registry.None?)
  {
  }
}
