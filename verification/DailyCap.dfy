/**
 The daily cap over the whole life of a task: its synchronous creation and any number of worker runs.
 The cap is documented per task and day; what the code keeps is one count per worker run.
 */
module DailyCap {
  import opened Prelude
  import opened LaunchErrors
  import opened LaunchAttempt
  import opened TaskWorker
  import opened WorkerBudgets
  import TaskCreation

  datatype WorkerRun = WorkerRun(shapeHasReport: bool, start: World, rounds: seq<Round>)

  /** A task from its creation on; the runs come one after the other, each with its own counters. */
  datatype Life = Life(start: World, creation: TaskCreation.Creation, runs: seq<WorkerRun>)

  // ----- counting -----

  function TriesOn(tries: seq<TaskCreation.SyncAttempt>, day: int): nat {
    if tries == [] then 0
    else TriesOn(tries[..|tries| - 1], day) + if tries[|tries| - 1].day == day then 1 else 0
  }

  /** The synchronous attempts that were made on the day. */
  function SyncOn(life: Life, day: int): nat
    requires TaskCreation.Scripted(life.creation)
  {
    TriesOn(Made(life.creation, TaskCreation.Outcome(life.start, life.creation).1), day)
  }

  function Made(c: TaskCreation.Creation, attempts: nat): seq<TaskCreation.SyncAttempt> {
    if attempts <= |c.tries| then c.tries[..attempts] else c.tries
  }

  function RunOn(cfg: Config, adList: seq<string>, run: WorkerRun, day: int): nat
    requires adList != []
  {
    LaunchesOn(Run(cfg, adList, FirstLocals(run.shapeHasReport), run.start, run.rounds).launches, day)
  }

  function RunsOn(cfg: Config, adList: seq<string>, runs: seq<WorkerRun>, day: int): nat
    requires adList != []
  {
    if runs == [] then 0 else RunOn(cfg, adList, runs[0], day) + RunsOn(cfg, adList, runs[1..], day)
  }

  function LaunchingRuns(cfg: Config, adList: seq<string>, runs: seq<WorkerRun>, day: int): nat
    requires adList != []
  {
    if runs == [] then 0
    else (if RunOn(cfg, adList, runs[0], day) > 0 then 1 else 0) + LaunchingRuns(cfg, adList, runs[1..], day)
  }

  function DayTotal(cfg: Config, adList: seq<string>, life: Life, day: int): nat
    requires adList != [] && TaskCreation.Scripted(life.creation)
  {
    SyncOn(life, day) + RunsOn(cfg, adList, life.runs, day)
  }

  // ----- the bound -----

  ghost predicate Calendar(runs: seq<WorkerRun>) {
    forall i :: 0 <= i < |runs| ==> DaysNeverGoBack(runs[i].rounds)
  }

  lemma {:induction false} RunsAreBounded(cfg: Config, adList: seq<string>, runs: seq<WorkerRun>, day: int)
    requires adList != [] && cfg.launchesPerDay > 0 && Calendar(runs)
    ensures RunsOn(cfg, adList, runs, day) <= cfg.launchesPerDay * LaunchingRuns(cfg, adList, runs, day)
  {
    hide Run;
    hide DaysNeverGoBack;
    if runs != [] {
      var rest := runs[1..];
      assert forall i :: 0 <= i < |rest| ==> rest[i] == runs[i + 1];
      RunsAreBounded(cfg, adList, rest, day);
      DailyCapHolds(cfg, adList, runs[0].shapeHasReport, runs[0].start, runs[0].rounds, day);
      OneMore(cfg.launchesPerDay, LaunchingRuns(cfg, adList, rest, day));
    }
  }

  lemma OneMore(cap: int, n: nat)
    ensures cap * (n + 1) == cap * n + cap
  {
  }

  /** On any day a task makes at most its synchronous attempts of that day plus the cap for every
      worker run that launches on it. */
  lemma DayTotalIsBounded(cfg: Config, adList: seq<string>, life: Life, day: int)
    requires adList != [] && cfg.launchesPerDay > 0 && TaskCreation.Scripted(life.creation) && Calendar(life.runs)
    ensures DayTotal(cfg, adList, life, day)
            <= SyncOn(life, day) + cfg.launchesPerDay * LaunchingRuns(cfg, adList, life.runs, day)
  {
    RunsAreBounded(cfg, adList, life.runs, day);
  }

  // ----- nothing but starts in between -----

  /** The rounds follow one another in the same world, each request under the next token. */
  ghost predicate Chained(cfg: Config, adList: seq<string>, l: Locals, w: World, token: Token, rounds: seq<Round>)
    requires adList != []
    decreases |rounds|
  {
    rounds != [] ==>
      && rounds[0].seen == w && rounds[0].token == token
      && var it := Iterate(cfg, adList, l, rounds[0]);
         it.again ==> Chained(cfg, adList, it.locals, it.world, token + 1, rounds[1..])
  }

  function Queued(w: World): World {
    w.(row := w.row.(status := Running))
  }

  /** Each run is started from where the one before left the task. */
  ghost predicate Sequel(cfg: Config, adList: seq<string>, w: World, token: Token, runs: seq<WorkerRun>)
    requires adList != []
    decreases |runs|
  {
    runs != [] ==>
      var run := runs[0];
      && run.start == Queued(w)
      && Chained(cfg, adList, FirstLocals(run.shapeHasReport), run.start, token, run.rounds)
      && Sequel(cfg, adList, Run(cfg, adList, FirstLocals(run.shapeHasReport), run.start, run.rounds).world,
          token + |run.rounds|, runs[1..])
  }

  /** The synchronous attempts follow one another too, under tokens 0, 1, .. */
  ghost predicate ChainedTries(w: World, tries: seq<TaskCreation.SyncAttempt>)
    decreases |tries|
  {
    tries != [] ==>
      && tries[|tries| - 1].token == |tries| - 1
      && ChainedTries(w, tries[..|tries| - 1])
      && tries[|tries| - 1].seen == AfterTries(w, tries[..|tries| - 1])
  }

  /** The world after the attempts numbered 1, 2, .. */
  function AfterTries(w: World, tries: seq<TaskCreation.SyncAttempt>): World {
    if tries == [] then w
    else
      var last := tries[|tries| - 1];
      LaunchOutcome(last.seen, |tries|, last.token, last.attempt).0
  }

  /** A task nobody else touches: created, then started again and again. */
  ghost predicate Undisturbed(cfg: Config, adList: seq<string>, life: Life)
    requires adList != [] && TaskCreation.Scripted(life.creation)
  {
    && life.start.row.status == Creating && life.start.cloud == Cloud([], map[]) && life.start.history == []
    && ChainedTries(life.start, life.creation.tries)
    && Sequel(cfg, adList, TaskCreation.Outcome(life.start, life.creation).0, |life.creation.tries|, life.runs)
  }

  // ----- the bound is reached -----

  /** Every call is throttled. */
  const THROTTLED := AttemptEnv(true, true, [Errored(false, Service(429, "", ""))], Canceled, [], true)

  function Counted(w: World, num: nat): World {
    w.(row := w.row.(retries := num), history := w.history + [Attempt(num, Refused(RateLimited))])
  }

  lemma ThrottledAttempt(w: World, num: nat, token: Token)
    requires w.cloud == Cloud([], map[])
    ensures LaunchOutcome(w, num, token, THROTTLED) == (Counted(w, num), AttemptResult(false, false, None, RateLimited))
  {
    assert Sends(w.cloud, token, THROTTLED.sends, 1, Canceled) == (w.cloud, None, Some(Service(429, "", "")));
  }

  function Throttled(w: World, day: int, token: Token): Round {
    Round(w, true, true, true, 0, 0, day, Granted, Unavailable, true, token, THROTTLED, 0, true)
  }

  ghost predicate Quiet(w: World) {
    w.cloud == Cloud([], map[]) && w.row.status == Running && w.row.maxRetries == 0
  }

  lemma ThrottledRound(cfg: Config, adList: seq<string>, l: Locals, w: World, day: int, token: Token)
    requires adList != [] && Quiet(w) && !l.reportUsable
    requires cfg.launchesPerDay > 0 && BookedOn(l, day) < cfg.launchesPerDay
    ensures var it := Iterate(cfg, adList, l, Throttled(w, day, token));
            && it.again && it.world == Counted(w, w.row.retries + 1) && Quiet(it.world)
            && !it.locals.reportUsable && BookedOn(it.locals, day) == BookedOn(l, day) + 1
            && |it.launches| == 1 && it.launches[0].day == day
  {
    ThrottledAttempt(w, w.row.retries + 1, token);
    hide LaunchOutcome;
    hide CapacityPollWait;
  }

  function ThrottledRounds(w: World, day: int, token: Token, n: nat): (rounds: seq<Round>)
    ensures |rounds| == n
    decreases n
  {
    if n == 0 then []
    else [Throttled(w, day, token)] + ThrottledRounds(Counted(w, w.row.retries + 1), day, token + 1, n - 1)
  }

  lemma {:induction false} ThrottledDays(w: World, day: int, token: Token, n: nat)
    ensures forall i :: 0 <= i < n ==> ThrottledRounds(w, day, token, n)[i].day == day
    decreases n
  {
    if n > 0 {
      ThrottledDays(Counted(w, w.row.retries + 1), day, token + 1, n - 1);
    }
  }

  lemma {:induction false} ThrottledRun(cfg: Config, adList: seq<string>, l: Locals, w: World, day: int, token: Token,
                                        n: nat)
    requires adList != [] && Quiet(w) && !l.reportUsable
    requires cfg.launchesPerDay > 0 && BookedOn(l, day) + n <= cfg.launchesPerDay
    ensures var rounds := ThrottledRounds(w, day, token, n);
            && Chained(cfg, adList, l, w, token, rounds)
            && Quiet(Run(cfg, adList, l, w, rounds).world)
            && LaunchesOn(Run(cfg, adList, l, w, rounds).launches, day) == n
    decreases n
  {
    hide Iterate;
    var rounds := ThrottledRounds(w, day, token, n);
    if n == 0 {
      NoLaunch(day);
    } else {
      ThrottledRound(cfg, adList, l, w, day, token);
      var it := Iterate(cfg, adList, l, rounds[0]);
      var rest := ThrottledRounds(Counted(w, w.row.retries + 1), day, token + 1, n - 1);
      assert rounds[1..] == rest;
      ThrottledRun(cfg, adList, it.locals, it.world, day, token + 1, n - 1);
      assert it.launches == [it.launches[0]];
      OneLaunch(it.launches[0], day);
      LaunchesOnConcat(it.launches, Run(cfg, adList, it.locals, it.world, rest).launches, day);
    }
  }

  /** The n-th start of the day, each making as many attempts as the cap allows. */
  function FullRuns(cfg: Config, adList: seq<string>, w: World, day: int, token: Token, n: nat): (runs: seq<WorkerRun>)
    requires adList != [] && cfg.launchesPerDay > 0
    ensures |runs| == n
    decreases n
  {
    if n == 0 then []
    else
      var run := WorkerRun(false, Queued(w), ThrottledRounds(Queued(w), day, token, cfg.launchesPerDay));
      [run] + FullRuns(cfg, adList, Run(cfg, adList, FirstLocals(false), run.start, run.rounds).world, day,
          token + |run.rounds|, n - 1)
  }

  lemma {:induction false} FullRunsReachTheBound(cfg: Config, adList: seq<string>, w: World, day: int, token: Token,
                                                 n: nat)
    requires adList != [] && cfg.launchesPerDay > 0 && Quiet(Queued(w))
    ensures var runs := FullRuns(cfg, adList, w, day, token, n);
            && Sequel(cfg, adList, w, token, runs) && Calendar(runs)
            && RunsOn(cfg, adList, runs, day) == cfg.launchesPerDay * n
            && LaunchingRuns(cfg, adList, runs, day) == n
    decreases n
  {
    hide Run;
    hide Chained;
    var runs := FullRuns(cfg, adList, w, day, token, n);
    if n > 0 {
      var start := Queued(w);
      ThrottledRun(cfg, adList, FirstLocals(false), start, day, token, cfg.launchesPerDay);
      ThrottledDays(start, day, token, cfg.launchesPerDay);
      var left := Run(cfg, adList, FirstLocals(false), start, runs[0].rounds).world;
      var rest := FullRuns(cfg, adList, left, day, token + |runs[0].rounds|, n - 1);
      assert runs[1..] == rest;
      FullRunsReachTheBound(cfg, adList, left, day, token + |runs[0].rounds|, n - 1);
      OneMore(cfg.launchesPerDay, n - 1);
    }
  }

  // ----- the synchronous attempts -----

  function ThrottledTries(w: World, day: int, k: nat): (tries: seq<TaskCreation.SyncAttempt>)
    ensures |tries| == k
  {
    if k == 0 then []
    else
      var before := ThrottledTries(w, day, k - 1);
      before + [TaskCreation.SyncAttempt(day, AfterTries(w, before), k - 1, THROTTLED)]
  }

  lemma {:induction false} ThrottledTriesChain(w: World, day: int, k: nat)
    requires w.cloud == Cloud([], map[])
    ensures var tries := ThrottledTries(w, day, k);
            && ChainedTries(w, tries) && TriesOn(tries, day) == k
            && AfterTries(w, tries).cloud == w.cloud && AfterTries(w, tries).row.maxRetries == w.row.maxRetries
            && forall i :: 0 <= i < k ==> tries[i].attempt == THROTTLED && tries[i].seen.cloud == w.cloud
  {
    var tries := ThrottledTries(w, day, k);
    if k > 0 {
      var before := ThrottledTries(w, day, k - 1);
      assert tries[..k - 1] == before;
      ThrottledTriesChain(w, day, k - 1);
      ThrottledAttempt(AfterTries(w, before), k, k - 1);
      hide LaunchOutcome;
    }
  }

  lemma {:induction false} AllThrottled(tries: seq<TaskCreation.SyncAttempt>, i: nat)
    requires i < |tries|
    requires forall j :: 0 <= j < |tries| ==> tries[j].attempt == THROTTLED && tries[j].seen.cloud == Cloud([], map[])
    ensures var end := TaskCreation.Attempts(tries, i, |tries|);
            var last := tries[|tries| - 1];
            end == TaskCreation.LoopEnd(LaunchOutcome(last.seen, |tries|, last.token, last.attempt).0,
                AttemptResult(false, false, None, RateLimited), |tries|)
    decreases |tries| - i
  {
    ThrottledAttempt(tries[i].seen, i + 1, tries[i].token);
    hide LaunchOutcome;
    if i + 1 < |tries| {
      AllThrottled(tries, i + 1);
    }
  }

  function SomeNames(k: nat): (names: seq<string>)
    ensures |names| == k
  {
    seq(k, i => "ad")
  }

  function NewWorld(): World {
    World(Cloud([], map[]), Row(Creating, None, 0, 0), [])
  }

  /** k synchronous attempts on the day; with none, the capacity report shows no room. */
  function ThrottledCreation(day: int, k: nat): TaskCreation.Creation {
    if k == 0 then TaskCreation.Creation(TaskCreation.Known(["ad"]), TaskCreation.Room([]), [])
    else TaskCreation.Creation(TaskCreation.Known(SomeNames(k)), TaskCreation.NoReport,
        ThrottledTries(NewWorld(), day, k))
  }

  lemma CreationReachesTheBound(day: int, k: nat)
    ensures var c := ThrottledCreation(day, k);
            && TaskCreation.Scripted(c) && |c.tries| == k && ChainedTries(NewWorld(), c.tries)
            && Quiet(Queued(TaskCreation.Outcome(NewWorld(), c).0))
            && TriesOn(Made(c, TaskCreation.Outcome(NewWorld(), c).1), day) == k
  {
    if k == 0 {
      NothingTried(day);
    } else {
      SomethingTried(day, k);
    }
  }

  lemma OutcomeOfThrottled(w: World, c: TaskCreation.Creation)
    requires TaskCreation.Scripted(c) && c.domains.Known? && |TaskCreation.Targets(c)| == |c.tries| > 0
    requires forall j :: 0 <= j < |c.tries| ==>
        c.tries[j].attempt == THROTTLED && c.tries[j].seen.cloud == Cloud([], map[])
    ensures var left := AfterTries(NewWorld(), c.tries);
            TaskCreation.Outcome(w, c) == (left.(row := left.row.(status := Stopped)), |c.tries|)
  {
    AllThrottled(c.tries, 0);
    LastTry(NewWorld(), c.tries);
    hide AfterTries;
    hide LaunchOutcome;
    hide TaskCreation.Attempts;
  }

  lemma SomethingTried(day: int, k: nat)
    requires k > 0
    ensures var c := ThrottledCreation(day, k);
            && TaskCreation.Scripted(c) && |c.tries| == k && ChainedTries(NewWorld(), c.tries)
            && Quiet(Queued(TaskCreation.Outcome(NewWorld(), c).0))
            && TriesOn(Made(c, TaskCreation.Outcome(NewWorld(), c).1), day) == k
  {
    var c := ThrottledCreation(day, k);
    ThrottledTriesChain(NewWorld(), day, k);
    hide SomeNames;
    hide ThrottledTries;
    hide AfterTries;
    hide ChainedTries;
    hide TriesOn;
    OutcomeOfThrottled(NewWorld(), c);
    hide TaskCreation.Outcome;
    assert c.tries[..k] == c.tries;
  }

  lemma NothingTried(day: int)
    ensures Quiet(Queued(TaskCreation.Outcome(NewWorld(), ThrottledCreation(day, 0)).0))
    ensures TaskCreation.Outcome(NewWorld(), ThrottledCreation(day, 0)).1 == 0 && TriesOn([], day) == 0
  {
  }

  lemma LastTry(w: World, tries: seq<TaskCreation.SyncAttempt>)
    requires tries != []
    ensures var last := tries[|tries| - 1];
            AfterTries(w, tries) == LaunchOutcome(last.seen, |tries|, last.token, last.attempt).0
  {
  }

  /** The bound is reached for every cap, any number of starts and any number of synchronous attempts, by
      a task nobody else touches. */
  lemma BoundIsReached(cfg: Config, adList: seq<string>, day: int, n: nat, k: nat) returns (life: Life)
    requires adList != [] && cfg.launchesPerDay > 0
    ensures TaskCreation.Scripted(life.creation) && Calendar(life.runs) && Undisturbed(cfg, adList, life)
    ensures SyncOn(life, day) == k && LaunchingRuns(cfg, adList, life.runs, day) == n
    ensures DayTotal(cfg, adList, life, day) == k + cfg.launchesPerDay * n
  {
    var c := ThrottledCreation(day, k);
    CreationReachesTheBound(day, k);
    hide ThrottledCreation;
    var left := TaskCreation.Outcome(NewWorld(), c).0;
    FullRunsReachTheBound(cfg, adList, left, day, k, n);
    hide FullRuns;
    hide TaskCreation.Outcome;
    life := Life(NewWorld(), c, FullRuns(cfg, adList, left, day, k, n));
  }

  // ----- exactly when the documented cap holds -----

  ghost predicate Fits(cfg: Config, adList: seq<string>, life: Life, day: int, n: nat, k: nat)
    requires adList != []
  {
    && TaskCreation.Scripted(life.creation) && Calendar(life.runs)
    && SyncOn(life, day) == k && LaunchingRuns(cfg, adList, life.runs, day) == n
  }

  /** Of all tasks with n launching runs and k synchronous attempts on a day, every one keeps to a cap per
      task and day exactly when one run launches and nothing was tried synchronously, or no run launches
      and the synchronous attempts alone do not exceed the cap. */
  lemma CapPerTaskAndDayExactly(cfg: Config, adList: seq<string>, day: int, n: nat, k: nat)
    requires adList != [] && cfg.launchesPerDay > 0
    ensures (forall life :: Fits(cfg, adList, life, day, n, k) ==>
        DayTotal(cfg, adList, life, day) <= cfg.launchesPerDay)
            <==> (n == 1 && k == 0) || (n == 0 && k <= cfg.launchesPerDay)
  {
    var cap := cfg.launchesPerDay;
    var full := BoundIsReached(cfg, adList, day, n, k);
    assert Fits(cfg, adList, full, day, n, k);
    AtLeast(cap, n);
    forall life | Fits(cfg, adList, life, day, n, k) ensures DayTotal(cfg, adList, life, day) <= k + cap * n {
      DayTotalIsBounded(cfg, adList, life, day);
    }
  }

  lemma AtLeast(cap: int, n: nat)
    requires cap > 0
    ensures n == 0 ==> cap * n == 0
    ensures n == 1 ==> cap * n == cap
    ensures n >= 2 ==> cap * n >= 2 * cap
  {
  }
}
