/**
 What every run of the queued-creation loop keeps, whatever the other handlers, OCI, the clock and
 the random pauses do in between: the daily cap, the task's own budget, and the back-off factor.
 */
module WorkerBudgets {
  import opened Prelude
  import opened LaunchErrors
  import opened LaunchAttempt
  import opened TaskWorker

  function LaunchesOn(launches: seq<Launch>, day: int): nat {
    if launches == [] then 0
    else (if launches[0].day == day then 1 else 0) + LaunchesOn(launches[1..], day)
  }

  lemma {:induction false} LaunchesOnConcat(a: seq<Launch>, b: seq<Launch>, day: int)
    ensures LaunchesOn(a + b, day) == LaunchesOn(a, day) + LaunchesOn(b, day)
  {
    if a == [] {
      assert a + b == b;
    } else {
      LaunchesOnConcat(a[1..], b, day);
      assert (a + b)[1..] == a[1..] + b;
    }
  }

  /** The clock never steps back to an earlier calendar day. */
  ghost predicate DaysNeverGoBack(rounds: seq<Round>) {
    forall i, j :: 0 <= i < j < |rounds| ==> rounds[i].day <= rounds[j].day
  }

  ghost predicate DaysFrom(rounds: seq<Round>, day: int) {
    forall i :: 0 <= i < |rounds| ==> day <= rounds[i].day
  }

  lemma {:induction false} NothingBeforeToday(cfg: Config, adList: seq<string>, l: Locals, w: World,
                                              rounds: seq<Round>, day: int)
    requires adList != [] && DaysFrom(rounds, day + 1)
    ensures LaunchesOn(Run(cfg, adList, l, w, rounds).launches, day) == 0
    decreases |rounds|
  {
    hide LaunchOutcome;
    if rounds != [] {
      var it := Iterate(cfg, adList, l, rounds[0]);
      if it.again {
        var rest := rounds[1..];
        assert forall i :: 0 <= i < |rest| ==> rest[i] == rounds[i + 1];
        NothingBeforeToday(cfg, adList, it.locals, it.world, rest, day);
        LaunchesOnConcat(it.launches, Run(cfg, adList, it.locals, it.world, rest).launches, day);
      }
    }
  }

  function BookedOn(l: Locals, day: int): nat {
    if l.dayKey == Some(day) then l.launchesToday else 0
  }

  /** Choosing rolls the count over to the round's day and lets no attempt through at the cap. */
  lemma ChoiceBooks(cfg: Config, adList: seq<string>, l: Locals, r: Round, day: int)
    requires adList != [] && cfg.launchesPerDay > 0
    requires l.dayKey.Some? ==> l.dayKey.value <= r.day && l.launchesToday <= cfg.launchesPerDay
    ensures var (choice, l1) := Choose(cfg, adList, l, r);
            && (l1.dayKey.Some? ==> l1.dayKey.value <= r.day && l1.launchesToday <= cfg.launchesPerDay)
            && (choice.Try? ==> l1.dayKey == Some(r.day) && l1.launchesToday < cfg.launchesPerDay)
            && ((l.dayKey == Some(day) && day < r.day) || BookedOn(l, day) <= BookedOn(l1, day))
  {
  }

  lemma OneLaunch(launch: Launch, day: int)
    ensures LaunchesOn([launch], day) == if launch.day == day then 1 else 0
  {
    assert [launch][1..] == [];
  }

  lemma NoLaunch(day: int)
    ensures LaunchesOn([], day) == 0
  {
  }

  /** One round books its attempt under its own day and keeps the count below the cap. */
  lemma RoundBooks(cfg: Config, adList: seq<string>, l: Locals, r: Round, day: int)
    requires adList != [] && cfg.launchesPerDay > 0
    requires l.dayKey.Some? ==> l.dayKey.value <= r.day && l.launchesToday <= cfg.launchesPerDay
    ensures var it := Iterate(cfg, adList, l, r);
            && (it.locals.dayKey.Some? ==>
                it.locals.dayKey.value <= r.day && it.locals.launchesToday <= cfg.launchesPerDay)
            && ((l.dayKey == Some(day) && day < r.day)
                || BookedOn(l, day) + LaunchesOn(it.launches, day) <= BookedOn(it.locals, day) <= cfg.launchesPerDay)
  {
    hide Choose;
    hide LaunchOutcome;
    hide NextFactor;
    hide CapacityPollWait;
    hide LaunchesOn;
    ChoiceBooks(cfg, adList, l, r, day);
    var it := Iterate(cfg, adList, l, r);
    if it.launches != [] {
      var (choice, l1) := Choose(cfg, adList, l, r);
      assert choice.Try?;
      assert l1.launchesToday < cfg.launchesPerDay;
      assert it.locals.launchesToday == l1.launchesToday + 1;
      assert it.launches == [it.launches[0]] && it.launches[0].day == r.day;
      OneLaunch(it.launches[0], day);
    } else {
      NoLaunch(day);
    }
  }

  lemma {:induction false} DailyCapFrom(cfg: Config, adList: seq<string>, l: Locals, w: World, rounds: seq<Round>,
                                        day: int)
    requires adList != [] && cfg.launchesPerDay > 0 && DaysNeverGoBack(rounds)
    requires l.dayKey.Some? ==> DaysFrom(rounds, l.dayKey.value) && l.launchesToday <= cfg.launchesPerDay
    ensures BookedOn(l, day) + LaunchesOn(Run(cfg, adList, l, w, rounds).launches, day) <= cfg.launchesPerDay
    decreases |rounds|
  {
    hide Iterate;
    if rounds != [] {
      var it := Iterate(cfg, adList, l, rounds[0]);
      var rest := rounds[1..];
      assert forall i :: 0 <= i < |rest| ==> rest[i] == rounds[i + 1];
      if l.dayKey.Some? && day == l.dayKey.value < rounds[0].day {
        NothingBeforeToday(cfg, adList, l, w, rounds, day);
      } else if it.again {
        RoundBooks(cfg, adList, l, rounds[0], day);
        DailyCapFrom(cfg, adList, it.locals, it.world, rest, day);
        LaunchesOnConcat(it.launches, Run(cfg, adList, it.locals, it.world, rest).launches, day);
      } else {
        RoundBooks(cfg, adList, l, rounds[0], day);
      }
    }
  }

  /** In one worker run with a clock that never steps back, no calendar day sees more attempts than
      a positive daily cap. */
  lemma DailyCapHolds(cfg: Config, adList: seq<string>, shapeHasReport: bool, w: World, rounds: seq<Round>, day: int)
    requires adList != [] && cfg.launchesPerDay > 0 && DaysNeverGoBack(rounds)
    ensures LaunchesOn(Run(cfg, adList, FirstLocals(shapeHasReport), w, rounds).launches, day) <= cfg.launchesPerDay
  {
    DailyCapFrom(cfg, adList, FirstLocals(shapeHasReport), w, rounds, day);
  }

  lemma RunOfOne(cfg: Config, adList: seq<string>, l: Locals, w: World, r: Round)
    requires adList != []
    ensures var it := Iterate(cfg, adList, l, r); Run(cfg, adList, l, w, [r]) == RunResult(it.world, it.launches)
  {
    hide Iterate;
    assert [r][1..] == [];
  }

  /** The counter lives in the run, not in the task: whatever the cap, a cap of one included, a task that is
      restarted on the same day from where its first run left it launches twice on that day. */
  lemma RestartStartsANewCount(cfg: Config, adList: seq<string>, r: Round, again: Round)
    requires adList != [] && cfg.retryMaxDays == 0
    requires r.live && r.taskFound && r.profileFound && r.lock.Granted? && r.seen.row.status == Running
    requires var left := Run(cfg, adList, FirstLocals(false), r.seen, [r]).world;
             again == r.(seen := left.(row := left.row.(status := Running)), token := r.token + 1)
    ensures var first := Run(cfg, adList, FirstLocals(false), r.seen, [r]);
            var second := Run(cfg, adList, FirstLocals(false), again.seen, [again]);
            LaunchesOn(first.launches + second.launches, r.day) == 2
  {
    var it, next := Iterate(cfg, adList, FirstLocals(false), r), Iterate(cfg, adList, FirstLocals(false), again);
    assert |it.launches| == 1 && it.launches[0].day == r.day;
    assert |next.launches| == 1 && next.launches[0].day == r.day;
    hide Iterate;
    RunOfOne(cfg, adList, FirstLocals(false), r.seen, r);
    RunOfOne(cfg, adList, FirstLocals(false), again.seen, again);
    LaunchesOnConcat(it.launches, next.launches, r.day);
    OneLaunch(it.launches[0], r.day);
    OneLaunch(next.launches[0], r.day);
    assert it.launches == [it.launches[0]] && next.launches == [next.launches[0]];
  }

  /** One round counts its attempt, goes on only below the budget, and stops the task at it. */
  lemma RoundSpends(cfg: Config, adList: seq<string>, l: Locals, r: Round)
    requires adList != [] && l.launches < r.seen.row.maxRetries
    ensures var it := Iterate(cfg, adList, l, r);
            && it.locals.launches == l.launches + |it.launches| && |it.launches| <= 1
            && (it.again ==> it.locals.launches < r.seen.row.maxRetries)
            && (it.locals.launches == r.seen.row.maxRetries && Retryable(it.launches[0].res) ==>
                it.world.row.status == Stopped)
  {
    hide LaunchOutcome;
    hide CapacityPollWait;
  }

  lemma {:induction false} OwnBudgetFrom(cfg: Config, adList: seq<string>, l: Locals, w: World, rounds: seq<Round>,
                                         budget: nat)
    requires adList != [] && l.launches < budget
    requires forall i :: 0 <= i < |rounds| ==> rounds[i].seen.row.maxRetries == budget
    ensures l.launches + |Run(cfg, adList, l, w, rounds).launches| <= budget
    decreases |rounds|
  {
    hide Iterate;
    if rounds != [] {
      RoundSpends(cfg, adList, l, rounds[0]);
      var it := Iterate(cfg, adList, l, rounds[0]);
      var rest := rounds[1..];
      assert forall i :: 0 <= i < |rest| ==> rest[i] == rounds[i + 1];
      if it.again {
        OwnBudgetFrom(cfg, adList, it.locals, it.world, rest, budget);
      }
    }
  }

  /** One run never makes more attempts than a positive MaxRetries, and the run that reaches it on a
      failure leaves the task stopped. */
  lemma OwnBudgetHolds(cfg: Config, adList: seq<string>, shapeHasReport: bool, w: World, rounds: seq<Round>,
                       budget: nat)
    requires adList != [] && budget > 0
    requires forall i :: 0 <= i < |rounds| ==> rounds[i].seen.row.maxRetries == budget
    ensures var run := Run(cfg, adList, FirstLocals(shapeHasReport), w, rounds);
            && |run.launches| <= budget
            && (|run.launches| == budget && Retryable(run.launches[budget - 1].res) ==> run.world.row.status == Stopped)
  {
    OwnBudgetFrom(cfg, adList, FirstLocals(shapeHasReport), w, rounds, budget);
    BudgetStopsFrom(cfg, adList, FirstLocals(shapeHasReport), w, rounds, budget);
  }

  /** A failure worth another attempt. */
  predicate Retryable(res: AttemptResult) {
    !res.success && res.category in {CapacityFull, RateLimited, Transient}
  }

  lemma {:induction false} BudgetStopsFrom(cfg: Config, adList: seq<string>, l: Locals, w: World, rounds: seq<Round>,
                                           budget: nat)
    requires adList != [] && l.launches < budget
    requires forall i :: 0 <= i < |rounds| ==> rounds[i].seen.row.maxRetries == budget
    ensures var run := Run(cfg, adList, l, w, rounds);
            l.launches + |run.launches| == budget && Retryable(run.launches[|run.launches| - 1].res)
            ==> run.world.row.status == Stopped
    decreases |rounds|
  {
    hide Iterate;
    if rounds != [] {
      RoundSpends(cfg, adList, l, rounds[0]);
      var it := Iterate(cfg, adList, l, rounds[0]);
      var rest := rounds[1..];
      assert forall i :: 0 <= i < |rest| ==> rest[i] == rounds[i + 1];
      if it.again {
        BudgetStopsFrom(cfg, adList, it.locals, it.world, rest, budget);
        OwnBudgetFrom(cfg, adList, it.locals, it.world, rest, budget);
      }
    }
  }

  // ----- back-off -----

  function Pow2(k: nat): nat {
    if k == 0 then 1 else 2 * Pow2(k - 1)
  }

  function CappedPow2(k: nat): int {
    Min(8, Pow2(k))
  }

  function NextStreak(k: nat, res: AttemptResult): nat {
    if res.success || res.category in {Cancelled, FatalError} then k
    else if res.category.RateLimited? then k + 1
    else 0
  }

  /** Rate-limited attempts since the last capacity or transient one, starting from k. */
  function Streak(k: nat, launches: seq<Launch>): nat
    decreases |launches|
  {
    if launches == [] then k else Streak(NextStreak(k, launches[0].res), launches[1..])
  }

  lemma StreakOfPrefix(k: nat, head: Launch, rest: seq<Launch>, i: nat)
    requires i <= |rest|
    ensures Streak(k, ([head] + rest)[..i + 1]) == Streak(NextStreak(k, head.res), rest[..i])
  {
    assert ([head] + rest)[..i + 1][1..] == rest[..i];
  }

  /** One round makes at most one attempt and moves the factor along with the streak. */
  lemma RoundFactor(cfg: Config, adList: seq<string>, l: Locals, r: Round, k: nat)
    requires adList != [] && l.factor == CappedPow2(k)
    ensures var it := Iterate(cfg, adList, l, r);
            && |it.launches| <= 1
            && (it.launches == [] ==> it.locals.factor == l.factor)
            && (it.launches != [] ==>
                it.launches[0].factor == it.locals.factor == CappedPow2(NextStreak(k, it.launches[0].res)))
  {
    hide LaunchOutcome;
    hide CapacityPollWait;
    assert Min(CappedPow2(k) * 2, MAX_BACKOFF) == CappedPow2(k + 1);
  }

  lemma {:induction false} BackoffFrom(cfg: Config, adList: seq<string>, l: Locals, w: World, rounds: seq<Round>,
                                       k: nat, i: nat)
    requires adList != [] && l.factor == CappedPow2(k)
    requires i < |Run(cfg, adList, l, w, rounds).launches|
    ensures var launches := Run(cfg, adList, l, w, rounds).launches;
            launches[i].factor == CappedPow2(Streak(k, launches[..i + 1]))
    decreases |rounds|
  {
    hide Iterate;
    hide CappedPow2;
    RoundFactor(cfg, adList, l, rounds[0], k);
    var launches := Run(cfg, adList, l, w, rounds).launches;
    var Iteration(world, locals, again, made) := Iterate(cfg, adList, l, rounds[0]);
    var rest := if again then Run(cfg, adList, locals, world, rounds[1..]).launches else [];
    if made == [] {
      assert launches == rest;
      BackoffFrom(cfg, adList, locals, world, rounds[1..], k, i);
    } else {
      assert launches == [made[0]] + rest;
      StreakOfPrefix(k, made[0], rest, i);
      if i > 0 {
        BackoffFrom(cfg, adList, locals, world, rounds[1..], NextStreak(k, made[0].res), i - 1);
      }
    }
  }

  /** After every attempt of a run the back-off factor is min(8, 2^k), where k counts the
      rate-limited attempts since the last capacity or transient one. */
  lemma BackoffIsCappedPower(cfg: Config, adList: seq<string>, shapeHasReport: bool, w: World, rounds: seq<Round>,
                             i: nat)
    requires adList != []
    requires i < |Run(cfg, adList, FirstLocals(shapeHasReport), w, rounds).launches|
    ensures var launches := Run(cfg, adList, FirstLocals(shapeHasReport), w, rounds).launches;
            launches[i].factor == CappedPow2(Streak(0, launches[..i + 1]))
  {
    BackoffFrom(cfg, adList, FirstLocals(shapeHasReport), w, rounds, 0, i);
  }

  /** What a pause may be, given the attempt it follows. */
  ghost predicate PauseFits(cfg: Config, launch: Launch) {
    var times := if launch.res.category.RateLimited? && !launch.res.success then launch.factor else 1;
    && 1 <= times <= 8
    && 30 <= Max(cfg.pollMin, 30) * times <= launch.wait <= Max(cfg.pollMax, Max(cfg.pollMin, 30)) * times
  }

  lemma OnePause(cfg: Config, r: Round, ad: string, num: nat, res: AttemptResult, factor: int)
    requires 1 <= factor <= 8
    ensures PauseFits(cfg, LaunchOf(cfg, r, ad, num, res, factor))
  {
    var poll := CapacityPollWait(cfg, r.draw);
    assert 30 <= PollLow(cfg) <= poll <= PollHigh(cfg);
    hide PollLow;
    hide PollHigh;
    hide CapacityPollWait;
    ScaleBounds(PollLow(cfg), poll, PollHigh(cfg), factor);
  }

  lemma RoundPause(cfg: Config, adList: seq<string>, l: Locals, r: Round)
    requires adList != [] && 1 <= l.factor <= 8
    ensures var it := Iterate(cfg, adList, l, r);
            && 1 <= it.locals.factor <= 8 && |it.launches| <= 1
            && (it.launches != [] ==> PauseFits(cfg, it.launches[0]))
  {
    hide LaunchOutcome;
    hide LaunchOf;
    hide PauseFits;
    var (choice, l1) := Choose(cfg, adList, l, r);
    if choice.Try? {
      var (tried, res) := LaunchOutcome(r.seen.(row := ApplyChoice(r.seen.row, choice)), r.seen.row.retries + 1,
          r.token, r.attempt);
      OnePause(cfg, r, choice.ad, r.seen.row.retries + 1, res, NextFactor(l1.factor, res));
    }
  }

  /** The pause after every attempt lies between the poll bounds, multiplied by the factor exactly
      when the attempt was rate-limited: never under 30 seconds, never over 8 poll intervals. */
  lemma {:induction false} PausesAreBounded(cfg: Config, adList: seq<string>, l: Locals, w: World, rounds: seq<Round>,
                                            i: nat)
    requires adList != [] && 1 <= l.factor <= 8
    requires i < |Run(cfg, adList, l, w, rounds).launches|
    ensures PauseFits(cfg, Run(cfg, adList, l, w, rounds).launches[i])
    decreases |rounds|
  {
    hide Iterate;
    hide PauseFits;
    RoundPause(cfg, adList, l, rounds[0]);
    var it := Iterate(cfg, adList, l, rounds[0]);
    if i >= |it.launches| {
      PausesAreBounded(cfg, adList, it.locals, it.world, rounds[1..], i - |it.launches|);
    }
  }

  lemma ScaleBounds(low: int, x: int, high: int, times: int)
    requires 30 <= low <= x <= high && 1 <= times
    ensures 30 <= low * times <= x * times <= high * times
  {
  }
}
