/**
 The conditions of TaskLifeSafety are exact: a request sent before the lookup has settled can always
 lead to a second instance, and a worker started beside a launch call in flight can always lose a
 success and record an attempt number out of order.
 */
module TaskLifeLimits {
  import opened Prelude
  import opened LaunchErrors
  import opened LaunchAttempt
  import opened TaskWorker
  import opened TaskLife
  import opened TaskLifeSafety

  // ----- exactly when a second instance can arise -----

  /** Only requests on their way reach the cloud. */
  predicate Arrivals(steps: seq<Step>) {
    forall i :: 0 <= i < |steps| ==> steps[i].DoLand?
  }

  /** However the requests on their way arrive, there is one instance at most. */
  ghost predicate OneWhateverArrives(s: TaskState) {
    forall steps, end :: Arrivals(steps) && RunFrom(s, steps, end) ==> |end.world.cloud.instances| <= 1
  }

  lemma {:induction false} ArrivalsKeepOne(s: TaskState, steps: seq<Step>, end: TaskState)
    requires OneInstance(s) && Arrivals(steps) && RunFrom(s, steps, end)
    ensures OneInstance(end)
    decreases |steps|
  {
    hide OneInstance;
    if steps != [] {
      assert steps[0].DoLand?;
      InstanceStep(s, steps[0]);
      ArrivalsKeepOne(Next(s, steps[0]), steps[1..], end);
    }
  }

  lemma OneHolds(s: TaskState)
    requires OneInstance(s)
    ensures OneWhateverArrives(s)
  {
    forall steps, end | Arrivals(steps) && RunFrom(s, steps, end) ensures |end.world.cloud.instances| <= 1 {
      ArrivalsKeepOne(s, steps, end);
    }
  }

  /** Before its lookup has settled a step sends a request. */
  lemma UnsettledSends(s: TaskState, e: Step)
    requires OneInstance(s) && Enabled(s, e) && !Settled(s, e)
    ensures var next := Next(s, e);
            && next.pending == s.pending + {s.nextToken} && next.world.cloud == s.world.cloud
            && s.nextToken !in s.pending && s.nextToken !in s.world.cloud.tokens
  {
    LookupInOne(s);
    hide FirstLive;
    hide AfterAttempt;
  }

  /** And that request makes two. */
  lemma UnsettledCreatesTwo(s: TaskState, e: Step) returns (steps: seq<Step>, end: TaskState)
    requires OneInstance(s) && Enabled(s, e) && !Settled(s, e)
    ensures Arrivals(steps) && RunFrom(Next(s, e), steps, end) && |end.world.cloud.instances| == 2
  {
    UnsettledSends(s, e);
    var next := Next(s, e);
    hide Next;
    if s.pending == {} {
      steps, end := [DoLand(s.nextToken)], Landed(next, s.nextToken);
      LandOne(next, s.nextToken);
    } else {
      var token :| token in s.pending;
      var mid := Landed(next, token);
      LandOne(next, token);
      LandOne(mid, s.nextToken);
      end := Landed(mid, s.nextToken);
      RunThen(next, [DoLand(token)], mid, [DoLand(s.nextToken)], end);
      steps := [DoLand(token)] + [DoLand(s.nextToken)];
    }
  }

  function Landed(s: TaskState, token: Token): TaskState {
    s.(world := s.world.(cloud := Land(s.world.cloud, token)), pending := s.pending - {token})
  }

  lemma LandOne(s: TaskState, token: Token)
    requires token in s.pending
    ensures RunFrom(s, [DoLand(token)], Landed(s, token))
  {
    OneStep(s, DoLand(token));
  }

  /** From a state with one instance or request in all, a step keeps the task safe from a second one
      exactly when it is settled: otherwise the requests on their way can make two. */
  lemma SettledExactly(s: TaskState, e: Step)
    requires OneInstance(s) && Enabled(s, e)
    ensures Settled(s, e) <==> OneWhateverArrives(Next(s, e))
  {
    if Settled(s, e) {
      InstanceStep(s, e);
      OneHolds(Next(s, e));
    } else {
      var steps, end := UnsettledCreatesTwo(s, e);
    }
  }

  /** At no point of the run can the requests then on their way make two. */
  ghost predicate NeverTwo(s: TaskState, steps: seq<Step>)
    decreases |steps|
  {
    && OneWhateverArrives(s)
    && (steps != [] ==> Enabled(s, steps[0]) && NeverTwo(Next(s, steps[0]), steps[1..]))
  }

  lemma {:induction false} SettledExactlyFrom(s: TaskState, steps: seq<Step>, end: TaskState)
    requires OneInstance(s) && RunFrom(s, steps, end)
    ensures SettledRun(s, steps, end) <==> NeverTwo(s, steps)
    decreases |steps|
  {
    hide Next;
    hide OneInstance;
    hide OneWhateverArrives;
    hide Settled;
    OneHolds(s);
    if steps != [] {
      SettledExactly(s, steps[0]);
      if Settled(s, steps[0]) {
        InstanceStep(s, steps[0]);
        SettledExactlyFrom(Next(s, steps[0]), steps[1..], end);
      }
    }
  }

  /** The condition of AtMostOneCreation is exact: of all runs from a new task, those with settled lookups
      are the ones at no point of which a second instance can arise. */
  lemma SecondInstanceExactly(maxRetries: nat, steps: seq<Step>, end: TaskState)
    requires RunFrom(NewTask(maxRetries), steps, end)
    ensures SettledRun(NewTask(maxRetries), steps, end) <==> NeverTwo(NewTask(maxRetries), steps)
  {
    SettledExactlyFrom(NewTask(maxRetries), steps, end);
  }

  /** For instance: whenever a request is still on its way, a worker started now that looks the name up
      before it lands creates a second instance. */
  lemma UnsettledLookupCreatesTwo(s: TaskState, token: Token) returns (steps: seq<Step>, end: TaskState)
    requires s.world.row.status == Stopped && s.world.cloud.instances == []
    requires s.pending == {token} && token < s.nextToken && forall t :: t in s.world.cloud.tokens ==> t < s.nextToken
    requires token !in s.world.cloud.tokens
    ensures RunFrom(s, steps, end) && |end.world.cloud.instances| == 2
  {
    var e0, e1 := DoStart(true, true), DoPoll(s.nextHandle, Try("ad", false), true);
    var s1 := Next(s, e0);
    assert s1.workers[s.nextHandle] == Worker(false, AtTop);
    var s2 := Next(s1, e1);
    assert s2.pending == {token, s.nextToken} && s2.world.cloud == s.world.cloud;
    var e2, e3 := DoLand(token), DoLand(s.nextToken);
    var s3 := Next(s2, e2);
    end := Next(s3, e3);
    steps := [e0] + ([e1] + ([e2] + [e3]));
    ExtendRun(s3, e3, [], end);
    assert [e3] + [] == [e3];
    ExtendRun(s2, e2, [e3], end);
    ExtendRun(s1, e1, [e2] + [e3], end);
    ExtendRun(s, e0, [e1] + ([e2] + [e3]), end);
  }

  /** Such a state is reached from a new task: the synchronous call gives up while its request is still on
      its way. */
  lemma LateRequestCreatesTwo(maxRetries: nat) returns (steps: seq<Step>, end: TaskState)
    ensures RunFrom(NewTask(maxRetries), steps, end) && |end.world.cloud.instances| == 2
  {
    var e0 := DoCreateTry(None, true);
    var e1 := DoCreateReturn(Reply(None, Some(DeadlineExceeded)), [], true, true);
    var s1 := Next(NewTask(maxRetries), e0);
    assert s1.pending == {0};
    assert Confirm(s1.world.cloud, [], 0).None?;
    var s2 := Next(s1, e1);
    var more;
    more, end := UnsettledLookupCreatesTwo(s2, 0);
    steps := [e0] + ([e1] + more);
    hide Next;
    ExtendRun(s1, e1, more, end);
    ExtendRun(NewTask(maxRetries), e0, [e1] + more, end);
  }

  lemma ExtendRun(s: TaskState, e: Step, steps: seq<Step>, end: TaskState)
    requires Enabled(s, e) && RunFrom(Next(s, e), steps, end)
    ensures RunFrom(s, [e] + steps, end)
  {
    assert ([e] + steps)[1..] == steps;
  }

  // ----- exactly when a start must wait -----

  ghost predicate IncreasingFrom(s: TaskState) {
    forall steps, end :: OrderlyRun(s, steps, end) ==> Increasing(end.world.history)
  }

  /** Every success of a continuation stays. */
  ghost predicate SuccessStays(s: TaskState) {
    forall before, mid, after, end :: OrderlyRun(s, before, mid) && OrderlyRun(mid, after, end) ==>
      KeepsSuccess(mid, end)
  }

  /** Orderly, with honest replies. */
  ghost predicate FairRun(s: TaskState, steps: seq<Step>, end: TaskState) {
    OrderlyRun(s, steps, end) && TrustedRun(s, steps, end)
  }

  lemma FairFront(s: TaskState, e: Step, steps: seq<Step>, end: TaskState)
    requires Enabled(s, e) && !e.DoStart? && HonestStep(s, e) && FairRun(Next(s, e), steps, end)
    ensures FairRun(s, [e] + steps, end)
  {
    hide Next;
    assert ([e] + steps)[1..] == steps;
  }

  lemma FairOne(s: TaskState, e: Step)
    requires Enabled(s, e) && !e.DoStart? && HonestStep(s, e)
    ensures FairRun(s, [e], Next(s, e))
  {
    hide Next;
    FairFront(s, e, [], Next(s, e));
    assert [e] + [] == [e];
  }

  lemma {:induction false} OrderlyIsRun(s: TaskState, steps: seq<Step>, end: TaskState)
    requires OrderlyRun(s, steps, end)
    ensures RunFrom(s, steps, end)
    decreases |steps|
  {
    hide Next;
    if steps != [] {
      OrderlyIsRun(Next(s, steps[0]), steps[1..], end);
    }
  }

  /** What holds at every point of an orderly run from a new task. */
  ghost predicate Reached(s: TaskState) {
    OneActor(s) && NumbersAhead(s) && FreshTokens(s) && SuccessStands(s)
  }

  lemma RunReaches(maxRetries: nat, before: seq<Step>, s: TaskState)
    requires OrderlyRun(NewTask(maxRetries), before, s)
    ensures Reached(s)
  {
    var task := NewTask(maxRetries);
    SuccessRun(task, before, s);
    NumberRun(task, before, s);
    OrderlyIsRun(task, before, s);
    RunKeepsTokens(task, before, s);
  }

  const LOST := Reply(None, Some(DeadlineExceeded))

  /** A worker started beside a call in flight has sent a request, and the request has landed. */
  ghost predicate Beside(s: TaskState, t: TaskState) {
    Calls(s, t) && CloudOk(t.world.cloud) && HasLive(t.world.cloud) && s.nextToken in t.world.cloud.tokens
  }

  /** It has sent a request, and the earlier calls are still in flight. */
  ghost predicate Calls(s: TaskState, t: TaskState) {
    && s.nextHandle in t.workers
    && t.workers[s.nextHandle] == Worker(false, InFlight(s.world.row.retries + 1, s.nextToken))
    && (forall h :: h in s.workers && s.workers[h].pc.InFlight? ==>
          h != s.nextHandle && h in t.workers && t.workers[h].pc == s.workers[h].pc)
    && t.creator == s.creator && t.world.history == s.world.history
    && t.world.row == s.world.row.(status := Running)
  }

  lemma NewWorkerSends(s: TaskState) returns (steps: seq<Step>, t: TaskState)
    requires RegistryAgrees(s) && FreshTokens(s) && Accepted(s, true)
    ensures FairRun(Next(s, DoStart(true, true)), steps, t) && Beside(s, t)
  {
    var s0 := Next(s, DoStart(true, true));
    var poll, land := DoPoll(s.nextHandle, Try("ad", false), false), DoLand(s.nextToken);
    var s1 := NewWorkerPolls(s);
    t := Next(s1, land);
    LandedIsLive(s.world.cloud, s.nextToken);
    FairOne(s1, land);
    FairFront(s0, poll, [land], t);
    steps := [poll] + [land];
  }

  lemma NewWorkerPolls(s: TaskState) returns (s1: TaskState)
    requires RegistryAgrees(s) && FreshTokens(s) && Accepted(s, true)
    ensures var s0 := Next(s, DoStart(true, true));
            var e := DoPoll(s.nextHandle, Try("ad", false), false);
            Enabled(s0, e) && s1 == Next(s0, e)
    ensures Calls(s, s1) && s1.world.cloud == s.world.cloud && s.nextToken in s1.pending
  {
    var s0 := Next(s, DoStart(true, true));
    assert s.nextHandle !in s.workers;
    hide FreshTokens;
    assert s0.workers[s.nextHandle] == Worker(false, AtTop) && s0.world.row.status == Running;
    s1 := Next(s0, DoPoll(s.nextHandle, Try("ad", false), false));
  }

  /** The call of worker h is lost; some confirmation lookup finds an instance. */
  lemma LostButConfirmed(t: TaskState, h: Handle)
    requires h in t.workers && t.workers[h].pc.InFlight? && CloudOk(t.world.cloud) && HasLive(t.world.cloud)
    ensures var next := Next(t, DoReturn(h, LOST, [true], false));
            && next.world.row.status == Success && next.creator == t.creator
            && next.world.history == t.world.history + [Attempt(t.workers[h].pc.num, Launched)]
            && (forall g :: g in t.workers && g != h ==> g in next.workers && next.workers[g] == t.workers[g])
  {
    LookupFindsLive(t.world.cloud);
    hide FirstLive;
  }

  /** The call of a worker that is not cancelled is lost, and so are its confirmation lookups. */
  lemma LostForGood(t: TaskState, h: Handle, spent: bool)
    requires h in t.workers && t.workers[h].pc.InFlight? && !t.workers[h].cancelled
    ensures var next := Next(t, DoReturn(h, LOST, [], spent));
            && (spent ==> next.world.row.status == Stopped)
            && next.creator == t.creator && next.world.cloud == t.world.cloud
            && next.world.history == t.world.history + [Attempt(t.workers[h].pc.num, Refused(Transient))]
            && (forall g :: g in t.workers && g != h ==> g in next.workers && next.workers[g] == t.workers[g])
  {
    assert Confirm(t.world.cloud, [], 0).None?;
    hide Confirm;
  }

  /** CreateTask's call is lost for good, and it was the last one. */
  lemma CreationLost(t: TaskState)
    requires t.creator.Waiting?
    ensures var next := Next(t, DoCreateReturn(LOST, [], true, true));
            && next.world.row.status == Stopped && next.workers == t.workers
            && next.world.history == t.world.history + [Attempt(t.creator.num, Refused(Transient))]
  {
    assert Confirm(t.world.cloud, [], 0).None?;
    hide Confirm;
  }

  lemma AnsweredWithOcid(t: TaskState, h: Handle)
    requires h in t.workers && t.workers[h].pc.InFlight? && t.workers[h].pc.token in t.world.cloud.tokens
    ensures var e := DoReturn(h, Reply(Some(t.world.cloud.tokens[t.workers[h].pc.token]), None), [], false);
            HonestStep(t, e) && Next(t, e).world.row.status == Success && Next(t, e).creator == t.creator
  {
  }

  /** A worker started while a launch call is in flight can lose a success, although every reply is honest
      and every later start waits. */
  lemma OverlapCostsSuccess(s: TaskState)
    returns (before: seq<Step>, mid: TaskState, last: Step, end: TaskState)
    requires RegistryAgrees(s) && FreshTokens(s) && Accepted(s, true) && !Calm(s)
    ensures FairRun(Next(s, DoStart(true, true)), before, mid) && mid.world.row.status == Success
    ensures FairRun(mid, [last], end) && end.world.row.status == Stopped
  {
    var steps, t := NewWorkerSends(s);
    var n := s.nextHandle;
    var e;
    if h :| h in s.workers && s.workers[h].pc.InFlight? {
      e, last := DoReturn(h, LOST, [true], false), DoReturn(n, LOST, [], true);
      LostButConfirmed(t, h);
      LostForGood(Next(t, e), n, true);
    } else {
      e := DoReturn(n, Reply(Some(t.world.cloud.tokens[s.nextToken]), None), [], false);
      AnsweredWithOcid(t, n);
      if s.creator.Waiting? {
        last := DoCreateReturn(LOST, [], true, true);
        CreationLost(Next(t, e));
      } else {
        last := DoCreateTry(Some(CapacityFull), false);
      }
    }
    mid := Next(t, e);
    end := Next(mid, last);
    FairOne(t, e);
    FairOne(mid, last);
    FairThen(Next(s, DoStart(true, true)), steps, t, [e], mid);
    before := steps + [e];
  }

  lemma {:induction false} FairThen(s: TaskState, a: seq<Step>, mid: TaskState, b: seq<Step>, end: TaskState)
    requires FairRun(s, a, mid) && FairRun(mid, b, end)
    ensures FairRun(s, a + b, end)
    decreases |a|
  {
    hide Next;
    if a == [] {
      assert a + b == b;
    } else {
      FairThen(Next(s, a[0]), a[1..], mid, b, end);
      assert (a + b)[1..] == a[1..] + b;
    }
  }

  /** And it can record an attempt number out of order. */
  lemma OverlapCostsOrder(s: TaskState) returns (steps: seq<Step>, end: TaskState)
    requires RegistryAgrees(s) && FreshTokens(s) && NumbersAhead(s) && Accepted(s, true) && !Calm(s)
    ensures FairRun(Next(s, DoStart(true, true)), steps, end) && !Increasing(end.world.history)
  {
    var sends, t := NewWorkerSends(s);
    hide Next;
    hide Increasing;
    hide RegistryAgrees;
    hide FreshTokens;
    var more;
    if h :| h in s.workers && s.workers[h].pc.InFlight? {
      more, end := OldRecordsLast(s, t, h);
    } else {
      more, end := NewRecordsLast(s, t);
    }
    FairThen(Next(s, DoStart(true, true)), sends, t, more, end);
    steps := sends + more;
  }

  lemma OldRecordsLast(s: TaskState, t: TaskState, h: Handle) returns (steps: seq<Step>, end: TaskState)
    requires Beside(s, t) && h in s.workers && s.workers[h].pc.InFlight?
    requires s.workers[h].pc.num <= s.world.row.retries + 1
    ensures FairRun(t, steps, end) && !Increasing(end.world.history)
  {
    var n := s.nextHandle;
    var e, f := DoReturn(n, LOST, [], false), DoReturn(h, LOST, [true], false);
    LostForGood(t, n, false);
    LostButConfirmed(Next(t, e), h);
    hide Next;
    hide HasLive;
    FairTwo(t, e, f);
    steps, end := [e, f], Next(Next(t, e), f);
    OutOfOrder(s.world.history, Attempt(s.world.row.retries + 1, Refused(Transient)),
        Attempt(s.workers[h].pc.num, Launched));
  }

  lemma NewRecordsLast(s: TaskState, t: TaskState) returns (steps: seq<Step>, end: TaskState)
    requires Beside(s, t) && !s.creator.Returned?
    requires s.world.row.retries < if s.creator.Working? then s.creator.next else s.creator.num
    ensures FairRun(t, steps, end) && !Increasing(end.world.history)
  {
    var first, u := CreationSends(t);
    var n := s.nextHandle;
    var e, f := DoCreateReturn(LOST, [], true, true), DoReturn(n, LOST, [], false);
    CreationLost(u);
    LostForGood(Next(u, e), n, false);
    hide Next;
    hide HasLive;
    FairTwo(u, e, f);
    end := Next(Next(u, e), f);
    FairThen(t, first, u, [e, f], end);
    steps := first + [e, f];
    OutOfOrder(s.world.history, Attempt(u.creator.num, Refused(Transient)),
        Attempt(s.world.row.retries + 1, Refused(Transient)));
  }

  /** CreateTask gets to its own call, if it is not there already. */
  lemma CreationSends(t: TaskState) returns (steps: seq<Step>, u: TaskState)
    requires !t.creator.Returned?
    ensures FairRun(t, steps, u) && u.creator.Waiting? && u.workers == t.workers && u.world == t.world
    ensures u.creator.num == if t.creator.Working? then t.creator.next else t.creator.num
  {
    if t.creator.Working? {
      var e := DoCreateTry(None, false);
      u := Next(t, e);
      FairOne(t, e);
      steps := [e];
    } else {
      steps, u := [], t;
    }
  }

  lemma FairTwo(s: TaskState, e: Step, f: Step)
    requires Enabled(s, e) && !e.DoStart? && HonestStep(s, e)
    requires Enabled(Next(s, e), f) && !f.DoStart? && HonestStep(Next(s, e), f)
    ensures FairRun(s, [e, f], Next(Next(s, e), f))
  {
    hide Next;
    FairOne(Next(s, e), f);
    FairFront(s, e, [f], Next(Next(s, e), f));
    assert [e] + [f] == [e, f];
  }

  lemma OutOfOrder(history: seq<Attempt>, a: Attempt, b: Attempt)
    requires b.num <= a.num
    ensures !Increasing(history + [a] + [b])
  {
    var all := history + [a] + [b];
    assert all[|history|] == a && all[|history| + 1] == b;
  }

  /** Exactly when a start must wait: from any state an orderly run reaches, a start that goes through
      keeps every later success, and every later number in order, if and only if no launch call of the
      task is in flight and CreateTask has returned. */
  lemma StartMustWaitExactly(maxRetries: nat, before: seq<Step>, s: TaskState)
    requires OrderlyRun(NewTask(maxRetries), before, s) && Accepted(s, true)
    ensures Calm(s) <==> SuccessStays(Next(s, DoStart(true, true)))
    ensures Calm(s) <==> IncreasingFrom(Next(s, DoStart(true, true)))
  {
    RunReaches(maxRetries, before, s);
    var start := DoStart(true, true);
    var t := Next(s, start);
    if Calm(s) {
      ActorStep(s, start);
      SuccessStep(s, start);
      NumberStep(s, start);
      hide *;
      CalmStays(t);
    } else {
      var run, mid, last, end := OverlapCostsSuccess(s);
      assert !KeepsSuccess(mid, end);
      var steps, other := OverlapCostsOrder(s);
      hide *;
    }
  }

  lemma CalmStays(t: TaskState)
    requires OneActor(t) && SuccessStands(t) && NumbersAhead(t)
    ensures SuccessStays(t) && IncreasingFrom(t)
  {
    forall before, mid, after, end | OrderlyRun(t, before, mid) && OrderlyRun(mid, after, end)
      ensures KeepsSuccess(mid, end)
    {
      SuccessRun(t, before, mid);
      SuccessRun(mid, after, end);
    }
    forall steps, end | OrderlyRun(t, steps, end) ensures Increasing(end.world.history) {
      NumberRun(t, steps, end);
    }
  }

  // ----- a whole run from a new task -----

  lemma ExtendHonest(s: TaskState, e: Step, steps: seq<Step>, end: TaskState)
    requires Enabled(s, e) && Settled(s, e) && HonestStep(s, e) && HonestRun(Next(s, e), steps, end)
    ensures HonestRun(s, [e] + steps, end)
  {
    assert ([e] + steps)[1..] == steps;
  }

  lemma {:induction false} HonestThen(s: TaskState, a: seq<Step>, mid: TaskState, b: seq<Step>, end: TaskState)
    requires HonestRun(s, a, mid) && HonestRun(mid, b, end)
    ensures HonestRun(s, a + b, end)
    decreases |a|
  {
    hide Next;
    if a == [] {
      assert a + b == b;
    } else {
      HonestThen(Next(s, a[0]), a[1..], mid, b, end);
      assert (a + b)[1..] == a[1..] + b;
    }
  }

  lemma TwoSteps(s: TaskState, e: Step, f: Step)
    requires Enabled(s, e) && Settled(s, e) && HonestStep(s, e)
    requires Enabled(Next(s, e), f) && Settled(Next(s, e), f) && HonestStep(Next(s, e), f)
    ensures HonestRun(s, [e, f], Next(Next(s, e), f))
  {
    hide Next;
    var end := Next(Next(s, e), f);
    ExtendHonest(Next(s, e), f, [], end);
    assert [f] + [] == [f];
    ExtendHonest(s, e, [f], end);
  }

  const NO_INSTANCE := Cloud([], map[])

  /** A queued task with its first worker, and nothing in the cloud or on its way. */
  function OneWorker(worker: Worker, nextToken: Token): TaskState {
    TaskState(World(NO_INSTANCE, Row(Running, None, 0, 1), []), Some(0), map[0 := worker], 1, {}, nextToken, Returned)
  }

  /** A new task whose synchronous attempt found no capacity is queued. */
  lemma TaskIsQueued() returns (steps: seq<Step>, s: TaskState)
    ensures HonestRun(NewTask(1), steps, s)
    ensures s == OneWorker(Worker(false, AtTop), 0)
  {
    var e, f := DoCreateTry(Some(CapacityFull), true), DoStart(true, true);
    TwoSteps(NewTask(1), e, f);
    steps, s := [e, f], Next(Next(NewTask(1), e), f);
    assert s.workers == map[0 := Worker(false, AtTop)];
  }

  /** Its worker's request is lost while the call still waits. */
  lemma RequestIsLost(s: TaskState) returns (steps: seq<Step>, t: TaskState)
    requires s == OneWorker(Worker(false, AtTop), 0)
    ensures HonestRun(s, steps, t)
    ensures t == OneWorker(Worker(false, InFlight(1, 0)), 1)
  {
    var e, f := DoPoll(0, Try("ad", false), true), DoDrop(0);
    var s1 := Next(s, e);
    assert s1.workers == map[0 := Worker(false, InFlight(1, 0))] && s1.pending == {0};
    TwoSteps(s, e, f);
    steps, t := [e, f], Next(s1, f);
  }

  /** It is stopped and restarted while that call still waits. */
  lemma TaskIsRestarted(s: TaskState) returns (steps: seq<Step>, t: TaskState)
    requires s == OneWorker(Worker(false, InFlight(1, 0)), 1)
    ensures HonestRun(s, steps, t) && t.world == s.world && t.pending == {} && t.nextToken == 1
    ensures t.workers == map[0 := Worker(true, InFlight(1, 0)), 1 := Worker(false, AtTop)]
  {
    var e, f := DoStop, DoStart(true, true);
    var s1 := Next(s, e);
    assert s1.workers == map[0 := Worker(true, InFlight(1, 0))] && s1.registry.None?;
    TwoSteps(s, e, f);
    steps, t := [e, f], Next(s1, f);
  }

  /** The new worker's request lands. */
  lemma SecondRequestLands(s: TaskState) returns (steps: seq<Step>, t: TaskState)
    requires s.world == World(NO_INSTANCE, Row(Running, None, 0, 1), []) && s.pending == {} && s.nextToken == 1
    requires s.workers == map[0 := Worker(true, InFlight(1, 0)), 1 := Worker(false, AtTop)]
    ensures HonestRun(s, steps, t)
    ensures t.world.cloud.instances == [Instance(0, true)] && t.world.history == []
    ensures t.workers == map[0 := Worker(true, InFlight(1, 0)), 1 := Worker(false, InFlight(1, 1))]
  {
    var e, f := DoPoll(1, Try("ad", false), true), DoLand(1);
    var s1 := Next(s, e);
    assert s1.pending == {1} && s1.world.cloud == NO_INSTANCE;
    TwoSteps(s, e, f);
    steps, t := [e, f], Next(s1, f);
  }

  lemma OldWorkerConfirms(s: TaskState) returns (e: Step, mid: TaskState)
    requires s.world.cloud.instances == [Instance(0, true)] && s.world.history == []
    requires s.workers == map[0 := Worker(true, InFlight(1, 0)), 1 := Worker(false, InFlight(1, 1))]
    ensures HonestRun(s, [e], mid) && mid.world.row.status == Success
    ensures 1 in mid.workers && mid.workers[1] == s.workers[1] && mid.world.history == [Attempt(1, Launched)]
  {
    e := DoReturn(0, Reply(None, Some(DeadlineExceeded)), [true], false);
    assert Confirm(s.world.cloud, [true], 0) == Some(0);
    mid := Next(s, e);
    ExtendHonest(s, e, [], mid);
    assert [e] + [] == [e];
  }

  lemma NewWorkerOverwrites(s: TaskState) returns (e: Step, end: TaskState)
    requires 1 in s.workers && s.workers[1] == Worker(false, InFlight(1, 1))
    ensures HonestRun(s, [e], end) && end.world.row.status == Stopped
    ensures end.world.history == s.world.history + [Attempt(1, Refused(Transient))]
  {
    e := DoReturn(1, Reply(None, Some(DeadlineExceeded)), [], true);
    assert Confirm(s.world.cloud, [], 0).None?;
    end := Next(s, e);
    ExtendHonest(s, e, [], end);
    assert [e] + [] == [e];
  }

  /** One such run in full: the old worker confirms the instance the new one created and writes success;
      the new worker, whose own confirmation did not answer and whose budget is spent, then overwrites it
      with stopped, and attempt number 1 is on record twice. Only the overlap is out of order in this run. */
  lemma OverlapLosesSuccess() returns (before: seq<Step>, mid: TaskState, last: Step, end: TaskState)
    ensures HonestRun(NewTask(1), before, mid) && mid.world.row.status == Success
    ensures HonestRun(mid, [last], end) && end.world.row.status == Stopped
    ensures end.world.history == [Attempt(1, Launched), Attempt(1, Refused(Transient))]
  {
    var a, s1 := TaskIsQueued();
    var b, s2 := RequestIsLost(s1);
    var c, s3 := TaskIsRestarted(s2);
    var d, s4 := SecondRequestLands(s3);
    var e;
    e, mid := OldWorkerConfirms(s4);
    last, end := NewWorkerOverwrites(mid);
    hide HonestRun;
    HonestThen(NewTask(1), a, s1, b, s2);
    HonestThen(NewTask(1), a + b, s2, c, s3);
    HonestThen(NewTask(1), a + b + c, s3, d, s4);
    HonestThen(NewTask(1), a + b + c + d, s4, [e], mid);
    before := a + b + c + d + [e];
  }
}
