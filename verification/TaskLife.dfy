/**
 The life of one launch task as a step system: the synchronous creation, any number of worker runs,
 the scheduler calls and the sweeps that write its row, and requests that reach the cloud late. A
 worker is split at its sleeps and at the launch call, so every other step can come in between.
 */
module TaskLife {
  import opened Prelude
  import opened LaunchErrors
  import opened LaunchAttempt
  import opened TaskWorker

  type Handle = nat

  /** Where a worker stands: asleep before its next round, waiting for LaunchInstance to answer, or
      filling in addresses after success. */
  datatype Pc = AtTop | InFlight(num: nat, token: Token) | Finalizing
  datatype Worker = Worker(cancelled: bool, pc: Pc)

  /** The synchronous creation: about to make attempt `next`, waiting for its answer, or answered. */
  datatype Creator = Working(next: nat) | Waiting(num: nat, token: Token) | Returned

  datatype TaskState = TaskState(
    world: World,
    registry: Option<Handle>,
    workers: map<Handle, Worker>,
    nextHandle: Handle,
    pending: set<Token>,
    nextToken: Token,
    creator: Creator)

  // `pending` holds the requests that have left and may still reach the cloud, even after the call
  // that sent them has given up.

  function NewTask(maxRetries: nat): TaskState {
    TaskState(World(Cloud([], map[]), Row(Creating, None, 0, maxRetries), []), None, map[], 0, {}, 0, Working(1))
  }

  function SetStatus(s: TaskState, status: Status): TaskState {
    s.(world := s.world.(row := s.world.row.(status := status)))
  }

  // ----- scheduler calls -----

  function CancelWorker(s: TaskState): TaskState {
    if s.registry.Some? && s.registry.value in s.workers then
      var h := s.registry.value;
      s.(registry := None, workers := s.workers[h := s.workers[h].(cancelled := true)])
    else s.(registry := None)
  }

  /** `stored`: the status write succeeded. */
  function StartTask(s: TaskState, stored: bool): TaskState {
    var s := CancelWorker(s);
    if !stored then s
    else
      var s := SetStatus(s, Running);
      s.(registry := Some(s.nextHandle), workers := s.workers[s.nextHandle := Worker(false, AtTop)],
          nextHandle := s.nextHandle + 1)
  }

  function IsTaskActive(s: TaskState): bool {
    s.registry.Some?
  }

  /** The start handler: three refusals by status, then the account checks (`admitted`). */
  function StartExistingTask(s: TaskState, admitted: bool, stored: bool): TaskState {
    if s.world.row.status in {Success, Creating} then s
    else if s.world.row.status == Running && IsTaskActive(s) then s
    else if !admitted then s
    else StartTask(s, stored)
  }

  function StopIf(s: TaskState, status: Status): TaskState {
    if s.world.row.status == status then SetStatus(s, Stopped) else s
  }

  function StopTask(s: TaskState): TaskState {
    StopIf(StopIf(CancelWorker(s), Running), Creating)
  }

  function PanicLockdown(s: TaskState): TaskState {
    StopIf(CancelWorker(s), Running)
  }

  /** A process restart: every goroutine is gone, then running tasks get a new worker. */
  function Restart(s: TaskState, stored: bool): TaskState {
    var s := StopIf(s.(registry := None, workers := map[], creator := Returned), Creating);
    if s.world.row.status == Running then StartTask(s, stored) else s
  }

  /** A worker goroutine ends; its deferred clean-up removes only its own registration. */
  function Exit(s: TaskState, h: Handle): TaskState {
    s.(workers := s.workers - {h}, registry := if s.registry == Some(h) then None else s.registry)
  }

  // ----- worker steps -----

  /** A launch request leaves under a fresh token. */
  function Send(s: TaskState): TaskState {
    s.(pending := s.pending + {s.nextToken}, nextToken := s.nextToken + 1)
  }

  function SetWorker(s: TaskState, h: Handle, pc: Pc): TaskState
    requires h in s.workers
  {
    s.(workers := s.workers[h := s.workers[h].(pc := pc)])
  }

  function SetRow(s: TaskState, row: Row): TaskState {
    s.(world := s.world.(row := row))
  }

  /** A round up to the launch call; `listed`: the by-name lookup answers. */
  function Poll(s: TaskState, h: Handle, choice: Choice, listed: bool): TaskState
    requires h in s.workers
  {
    var row := s.world.row;
    if s.workers[h].cancelled || row.status != Running then Exit(s, h)
    else match choice
      case Quit => Exit(s, h)
      case Fail => Exit(SetRow(s, ApplyChoice(row, choice)), h)
      case Expire => Exit(SetRow(s, ApplyChoice(row, choice)), h)
      case Nap(_) => SetRow(s, ApplyChoice(row, choice))
      case Try(_, _) =>
        var s1 := SetRow(s, ApplyChoice(row, choice));
        match Lookup(s.world.cloud, listed)
        case Some(found) =>
          var (row, _) := AfterAttempt(s1.world.row, AttemptResult(true, true, Some(found), CapacityFull), false);
          SetWorker(SetRow(s1, row), h, Finalizing)
        case None => SetWorker(Send(s1), h, InFlight(row.retries + 1, s.nextToken))
  }

  /** What LaunchInstance returned. */
  datatype Reply = Reply(ocid: Option<Ocid>, err: Option<CallError>)

  function Return(s: TaskState, h: Handle, reply: Reply, lookups: seq<bool>, spent: bool): TaskState
    requires h in s.workers && s.workers[h].pc.InFlight?
  {
    var (world, res) := Finish(s.world, s.workers[h].pc.num, reply.ocid, reply.err, lookups, !s.workers[h].cancelled);
    var (row, verdict) := AfterAttempt(world.row, res, spent);
    var s1 := s.(world := world.(row := row));
    match verdict
    case Leave => Exit(s1, h)
    case Finalize => SetWorker(s1, h, Finalizing)
    case Sleep => SetWorker(s1, h, AtTop)
  }

  /** A recovered panic marks a running task failed. */
  function Crash(s: TaskState, h: Handle): TaskState {
    var s1 := Exit(s, h);
    if s1.world.row.status == Running then SetStatus(s1, Failed) else s1
  }

  // ----- the synchronous creation -----

  /** Its final write is unconditional: success, failed or stopped. */
  function CreateFinal(s: TaskState, res: AttemptResult): TaskState {
    var row := s.world.row;
    var final := if res.success then row.(status := Success, ocid := res.ocid)
                 else if res.category.FatalError? then row.(status := Failed)
                 else row.(status := Stopped);
    SetRow(s, final).(creator := Returned)
  }

  /** Attempt number `next`, or an answer without (more) attempts when `giveUp`. */
  function CreateTry(s: TaskState, giveUp: Option<Category>, listed: bool): TaskState
    requires s.creator.Working?
  {
    if giveUp.Some? then CreateFinal(s, AttemptResult(false, false, None, giveUp.value))
    else match Lookup(s.world.cloud, listed)
      case Some(found) => CreateFinal(s, AttemptResult(true, true, Some(found), CapacityFull))
      case None => Send(s).(creator := Waiting(s.creator.next, s.nextToken))
  }

  /** `live`: the 70-second context has not run out; `last`: no availability domain is left. */
  function CreateReturn(s: TaskState, reply: Reply, lookups: seq<bool>, live: bool, last: bool): TaskState
    requires s.creator.Waiting?
  {
    var num := s.creator.num;
    var (world, res) := Finish(s.world, num, reply.ocid, reply.err, lookups, live);
    var s1 := s.(world := world);
    if res.success || res.category in {FatalError, Cancelled} || last then CreateFinal(s1, res)
    else s1.(creator := Working(num + 1))
  }

  // ----- all steps -----

  // DoCancel is a stop or start whose worker is cancelled and whose row is still to be written.

  datatype Step =
    | DoStart(admitted: bool, stored: bool) | DoStop | DoLockdown | DoRestart(stored: bool) | DoCancel
    | DoHealthPause | DoSweepCreating
    | DoPoll(h: Handle, choice: Choice, listed: bool)
    | DoReturn(h: Handle, reply: Reply, lookups: seq<bool>, spent: bool)
    | DoFinish(h: Handle) | DoCrash(h: Handle)
    | DoCreateTry(giveUp: Option<Category>, listed: bool)
    | DoCreateReturn(reply: Reply, lookups: seq<bool>, live: bool, last: bool)
    | DoCreatePanic
    | DoLand(token: Token) | DoDrop(token: Token)

  predicate Enabled(s: TaskState, e: Step) {
    match e
    case DoPoll(h, _, _) => h in s.workers && s.workers[h].pc.AtTop?
    case DoReturn(h, _, _, _) => h in s.workers && s.workers[h].pc.InFlight?
    case DoFinish(h) => h in s.workers && s.workers[h].pc.Finalizing?
    case DoCrash(h) => h in s.workers
    case DoCreateTry(_, _) => s.creator.Working?
    case DoCreateReturn(_, _, _, _) => s.creator.Waiting?
    case DoCreatePanic => !s.creator.Returned?
    case DoLand(token) => token in s.pending
    case DoDrop(token) => token in s.pending
    case _ => true
  }

  function Next(s: TaskState, e: Step): TaskState
    requires Enabled(s, e)
  {
    match e
    case DoStart(admitted, stored) => StartExistingTask(s, admitted, stored)
    case DoStop => StopTask(s)
    case DoLockdown => PanicLockdown(s)
    case DoRestart(stored) => Restart(s, stored)
    case DoCancel => CancelWorker(s)
    case DoHealthPause => StopIf(s, Running)
    case DoSweepCreating => StopIf(s, Creating)
    case DoPoll(h, choice, listed) => Poll(s, h, choice, listed)
    case DoReturn(h, reply, lookups, spent) => Return(s, h, reply, lookups, spent)
    case DoFinish(h) => Exit(s, h)
    case DoCrash(h) => Crash(s, h)
    case DoCreateTry(giveUp, listed) => CreateTry(s, giveUp, listed)
    case DoCreateReturn(reply, lookups, live, last) => CreateReturn(s, reply, lookups, live, last)
    case DoCreatePanic => SetStatus(s, Stopped).(creator := Returned)
    case DoLand(token) => s.(world := s.world.(cloud := Land(s.world.cloud, token)), pending := s.pending - {token})
    case DoDrop(token) => s.(pending := s.pending - {token})
  }

  ghost predicate RunFrom(s: TaskState, steps: seq<Step>, end: TaskState)
    decreases |steps|
  {
    if steps == [] then end == s
    else Enabled(s, steps[0]) && RunFrom(Next(s, steps[0]), steps[1..], end)
  }

  // ----- the registry and the goroutines -----

  /** The registered handle is the one live worker that has not been cancelled. */
  ghost predicate RegistryAgrees(s: TaskState) {
    && (forall h :: h in s.workers ==> h < s.nextHandle)
    && (forall h :: h in s.workers && !s.workers[h].cancelled ==> s.registry == Some(h))
    && (s.registry.Some? ==> s.registry.value in s.workers && !s.workers[s.registry.value].cancelled)
  }

  lemma PollKeepsRegistry(s: TaskState, h: Handle, choice: Choice, listed: bool)
    requires RegistryAgrees(s) && h in s.workers
    ensures RegistryAgrees(Poll(s, h, choice, listed))
  {
    hide Lookup;
    hide AfterAttempt;
  }

  lemma ReturnKeepsRegistry(s: TaskState, h: Handle, reply: Reply, lookups: seq<bool>, spent: bool)
    requires RegistryAgrees(s) && h in s.workers && s.workers[h].pc.InFlight?
    ensures RegistryAgrees(Return(s, h, reply, lookups, spent))
  {
    hide Finish;
    hide AfterAttempt;
  }

  lemma CreationKeepsRegistry(s: TaskState, e: Step)
    requires RegistryAgrees(s) && Enabled(s, e) && (e.DoCreateTry? || e.DoCreateReturn?)
    ensures RegistryAgrees(Next(s, e))
  {
    hide Finish;
    hide Lookup;
  }

  lemma StepKeepsRegistry(s: TaskState, e: Step)
    requires RegistryAgrees(s) && Enabled(s, e)
    ensures RegistryAgrees(Next(s, e))
  {
    hide Poll;
    hide Return;
    hide CreateTry;
    hide CreateReturn;
    match e
    case DoPoll(h, choice, listed) => PollKeepsRegistry(s, h, choice, listed);
    case DoReturn(h, reply, lookups, spent) => ReturnKeepsRegistry(s, h, reply, lookups, spent);
    case DoCreateTry(_, _) => CreationKeepsRegistry(s, e);
    case DoCreateReturn(_, _, _, _) => CreationKeepsRegistry(s, e);
    case _ =>
  }

  predicate WorksUncancelled(s: TaskState, h: Handle) {
    h in s.workers && !s.workers[h].cancelled
  }

  /** With no assumption on the interleaving: after any run a task has at most one live uncancelled
      worker, and the task is reported active exactly when it has one. */
  lemma {:induction false} RegistryAlwaysAgrees(s: TaskState, steps: seq<Step>, end: TaskState)
    requires RegistryAgrees(s) && RunFrom(s, steps, end)
    ensures RegistryAgrees(end)
    ensures IsTaskActive(end) <==> exists h :: WorksUncancelled(end, h)
    ensures forall g, h :: WorksUncancelled(end, g) && WorksUncancelled(end, h) ==> g == h
    decreases |steps|
  {
    if steps != [] {
      StepKeepsRegistry(s, steps[0]);
      RegistryAlwaysAgrees(Next(s, steps[0]), steps[1..], end);
    } else if s.registry.Some? {
      assert WorksUncancelled(s, s.registry.value);
    }
  }

  /** A dying worker never takes away a newer registration. */
  lemma OldWorkerLeavesNewRegistration(s: TaskState, e: Step, h: Handle)
    requires RegistryAgrees(s) && Enabled(s, e) && s.registry.Some? && s.registry.value != h
    requires e == DoFinish(h) || e == DoCrash(h) || (e.DoPoll? && e.h == h) || (e.DoReturn? && e.h == h)
    ensures Next(s, e).registry == s.registry
    ensures s.registry.value in Next(s, e).workers
    ensures Next(s, e).workers[s.registry.value] == s.workers[s.registry.value]
  {
  }

  // ----- tokens and runs -----

  /** Every token in use was handed out before. */
  ghost predicate FreshTokens(s: TaskState) {
    && CloudOk(s.world.cloud)
    && (forall t :: t in s.world.cloud.tokens ==> t < s.nextToken)
    && (forall t :: t in s.pending ==> t < s.nextToken)
  }

  /** Settling a call leaves the cloud alone. */
  lemma FinishKeepsCloud(w: World, num: nat, reply: Reply, lookups: seq<bool>, live: bool)
    ensures Finish(w, num, reply.ocid, reply.err, lookups, live).0.cloud == w.cloud
  {
    hide Settle;
  }

  lemma StepKeepsTokens(s: TaskState, e: Step)
    requires FreshTokens(s) && Enabled(s, e)
    ensures FreshTokens(Next(s, e))
  {
    hide Lookup;
    if e.DoReturn? {
      FinishKeepsCloud(s.world, s.workers[e.h].pc.num, e.reply, e.lookups, !s.workers[e.h].cancelled);
      hide Finish;
    } else if e.DoCreateReturn? {
      FinishKeepsCloud(s.world, s.creator.num, e.reply, e.lookups, e.live);
      hide Finish;
    } else {
      hide Finish;
    }
  }

  lemma {:induction false} RunKeepsTokens(s: TaskState, steps: seq<Step>, end: TaskState)
    requires FreshTokens(s) && RunFrom(s, steps, end)
    ensures FreshTokens(end)
    decreases |steps|
  {
    hide Next;
    hide FreshTokens;
    if steps != [] {
      StepKeepsTokens(s, steps[0]);
      RunKeepsTokens(Next(s, steps[0]), steps[1..], end);
    }
  }

  lemma {:induction false} RunThen(s: TaskState, a: seq<Step>, mid: TaskState, b: seq<Step>, end: TaskState)
    requires RunFrom(s, a, mid) && RunFrom(mid, b, end)
    ensures RunFrom(s, a + b, end)
    decreases |a|
  {
    hide Next;
    if a == [] {
      assert a + b == b;
    } else {
      RunThen(Next(s, a[0]), a[1..], mid, b, end);
      assert (a + b)[1..] == a[1..] + b;
    }
  }

  lemma OneStep(s: TaskState, e: Step)
    requires Enabled(s, e)
    ensures RunFrom(s, [e], Next(s, e))
  {
    hide Next;
    assert [e][1..] == [];
  }
}
