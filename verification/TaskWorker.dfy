/**
 The queued-creation loop of one worker run: where to try next, the daily cap, the attempt, the
 back-off and the task's own budget.
 */
module TaskWorker {
  import opened Prelude
  import opened LaunchErrors
  import opened LaunchAttempt

  const MAX_BACKOFF := 8
  const DAY_SECONDS := 86400

  datatype Config = Config(retryMaxDays: int, launchesPerDay: int, pollMin: int, pollMax: int)

  /** The bounds of CapacityPollWait. */
  function PollLow(cfg: Config): int {
    Max(cfg.pollMin, 30)
  }

  function PollHigh(cfg: Config): int {
    Max(cfg.pollMax, PollLow(cfg))
  }

  /** The pause between two checks for a random draw in 0..1 scaled to a number of seconds. */
  function CapacityPollWait(cfg: Config, draw: nat): (wait: int)
    ensures 30 <= PollLow(cfg) <= wait <= PollHigh(cfg)
    ensures Max(cfg.pollMin, 30) <= wait <= Max(cfg.pollMax, Max(cfg.pollMin, 30))
  {
    PollLow(cfg) + draw % (PollHigh(cfg) - PollLow(cfg) + 1)
  }

  /** What the loop carries from one round to the next. */
  datatype Locals = Locals(reportUsable: bool, factor: int, launches: nat, launchesToday: nat, dayKey: Option<int>,
      adIdx: nat)

  function FirstLocals(shapeHasReport: bool): Locals {
    Locals(shapeHasReport, 1, 0, 0, None, 0)
  }

  datatype LockAnswer = Granted | Busy | LockError
  /** Ads: the availability domains the capacity report marks available. */
  datatype Report = Unavailable | Fault | Ads(available: seq<string>)

  /** One round as the environment plays it. `seen` is the task as other handlers left it during the
      sleep; `day` is the calendar day of `now`. */
  datatype Round = Round(
    seen: World, live: bool, taskFound: bool, profileFound: bool, createdAt: int, now: int, day: int,
    lock: LockAnswer, report: Report, liveAfterReport: bool,
    token: Token, attempt: AttemptEnv, draw: nat, slept: bool)

  /** What a round decides before any launch: leave quietly, leave the task failed (account gone),
      leave it stopped (deadline), sleep, or launch. Counted: the round number was stored. */
  datatype Choice = Quit | Fail | Expire | Nap(counted: bool) | Try(ad: string, counted: bool)

  predicate PastDeadline(cfg: Config, r: Round) {
    cfg.retryMaxDays > 0 && r.now > r.createdAt + cfg.retryMaxDays * DAY_SECONDS
  }

  predicate DayIsFull(cfg: Config, l: Locals) {
    cfg.launchesPerDay > 0 && l.launchesToday >= cfg.launchesPerDay
  }

  function StartDay(l: Locals, day: int): Locals {
    if l.dayKey == Some(day) then l else l.(dayKey := Some(day), launchesToday := 0)
  }

  /** Rotate through the reported domains, or through the task's own list when there is no report. */
  function PickAd(adList: seq<string>, l: Locals, available: seq<string>): (string, Locals)
    requires adList != []
  {
    if available != [] && available[l.adIdx % |available|] != "" then
      (available[l.adIdx % |available|], l.(adIdx := l.adIdx + 1))
    else
      var tried := if available != [] then l.adIdx + 1 else l.adIdx;
      (adList[tried % |adList|], l.(adIdx := tried + 1))
  }

  /** From the top of the loop to the point where LaunchInstance would be called. */
  function Choose(cfg: Config, adList: seq<string>, l: Locals, r: Round): (Choice, Locals)
    requires adList != []
  {
    if !r.live || !r.taskFound || r.seen.row.status != Running then (Quit, l)
    else if !r.profileFound then (Fail, l)
    else if PastDeadline(cfg, r) then (Expire, l)
    else if r.lock.Busy? then (Nap(false), l)
    else
      var l := StartDay(l, r.day);
      if l.reportUsable && !r.report.Ads? && !r.liveAfterReport then (Quit, l)
      else if l.reportUsable && r.report.Fault? then (Nap(false), l)
      else if l.reportUsable && r.report.Ads? && r.report.available == [] then (Nap(true), l)
      else
        var counted := l.reportUsable && r.report.Ads?;
        var (target, l) := PickAd(adList, l.(reportUsable := counted), if counted then r.report.available else []);
        if DayIsFull(cfg, l) then (Nap(counted), l) else (Try(target, counted), l)
  }

  /** The row after a choice: stored round number, or a terminal status. */
  function ApplyChoice(row: Row, choice: Choice): Row {
    match choice
    case Quit => row
    case Fail => row.(status := Failed)
    case Expire => row.(status := Stopped)
    case Nap(counted) => if counted then row.(retries := row.retries + 1) else row
    case Try(_, counted) => if counted then row.(retries := row.retries + 1) else row
  }

  datatype Verdict = Leave | Finalize | Sleep

  /** The row and the loop's fate after an attempt; `spent`: the task's own budget is used up. */
  function AfterAttempt(row: Row, res: AttemptResult, spent: bool): (Row, Verdict) {
    if res.success then (row.(status := Success, ocid := res.ocid), Finalize)
    else if res.category.Cancelled? then (row, Leave)
    else if res.category.FatalError? then (row.(status := Failed), Leave)
    else if spent then (row.(status := Stopped), Leave)
    else (row, Sleep)
  }

  function NextFactor(factor: int, res: AttemptResult): int {
    if res.success || res.category.Cancelled? || res.category.FatalError? then factor
    else if res.category.RateLimited? then Min(factor * 2, MAX_BACKOFF)
    else 1
  }

  /** One real attempt as the run's trace shows it: the day it was booked under, its domain and number,
      the outcome, the back-off factor afterwards and the pause that follows. */
  datatype Launch = Launch(day: int, ad: string, num: nat, res: AttemptResult, factor: int, wait: int)

  function LaunchOf(cfg: Config, r: Round, ad: string, num: nat, res: AttemptResult, factor: int): Launch {
    var poll := CapacityPollWait(cfg, r.draw);
    Launch(r.day, ad, num, res, factor, if res.category.RateLimited? && !res.success then poll * factor else poll)
  }

  datatype Iteration = Iteration(world: World, locals: Locals, again: bool, launches: seq<Launch>)

  function Iterate(cfg: Config, adList: seq<string>, l: Locals, r: Round): Iteration
    requires adList != []
  {
    var (choice, l1) := Choose(cfg, adList, l, r);
    var world := r.seen.(row := ApplyChoice(r.seen.row, choice));
    match choice
    case Quit => Iteration(world, l1, false, [])
    case Fail => Iteration(world, l1, false, [])
    case Expire => Iteration(world, l1, false, [])
    case Nap(_) => Iteration(world, l1, r.slept, [])
    case Try(ad, _) =>
      var num := r.seen.row.retries + 1;
      var (tried, res) := LaunchOutcome(world, num, r.token, r.attempt);
      var l2 := l1.(launches := l1.launches + 1, launchesToday := l1.launchesToday + 1,
          factor := NextFactor(l1.factor, res));
      var spent := r.seen.row.maxRetries > 0 && l2.launches >= r.seen.row.maxRetries;
      var (row, verdict) := AfterAttempt(tried.row, res, spent);
      Iteration(tried.(row := row), l2, verdict.Sleep? && r.slept, [LaunchOf(cfg, r, ad, num, res, l2.factor)])
  }

  /** A whole run: the rounds it gets to play, the launches it makes, the world it leaves. */
  datatype RunResult = RunResult(world: World, launches: seq<Launch>)

  function Run(cfg: Config, adList: seq<string>, l: Locals, w: World, rounds: seq<Round>): RunResult
    requires adList != []
    decreases |rounds|
  {
    if rounds == [] then RunResult(w, [])
    else
      var it := Iterate(cfg, adList, l, rounds[0]);
      if !it.again then RunResult(it.world, it.launches)
      else
        var rest := Run(cfg, adList, it.locals, it.world, rounds[1..]);
        RunResult(rest.world, it.launches + rest.launches)
  }

  // ----- the imperative form -----

  /** A round up to the launch call: the row checks, the deadline, the account lock, the capacity
      report and the daily cap. */
  method Poll(site: LaunchSite, cfg: Config, adList: seq<string>, locals: Locals, r: Round)
    returns (choice: Choice, l: Locals)
    requires adList != []
    modifies site
    ensures (choice, l) == Choose(cfg, adList, locals, r)
    ensures choice.Try? && locals.reportUsable && r.report.Ads? && "" !in r.report.available ==>
        choice.ad in r.report.available
    ensures choice.Try? && !(locals.reportUsable && r.report.Ads?) ==> choice.ad in adList
    ensures site.View() == r.seen.(row := ApplyChoice(r.seen.row, choice))
  {
    l := locals;
    site.Observe(r.seen);
    if !r.live || !r.taskFound || site.row.status != Running {
      return Quit, l;
    }
    if !r.profileFound {
      site.SetStatus(Failed);
      return Fail, l;
    }
    if cfg.retryMaxDays > 0 && r.now > r.createdAt + cfg.retryMaxDays * DAY_SECONDS {
      site.SetStatus(Stopped);
      return Expire, l;
    }
    if r.lock.Busy? {
      return Nap(false), l;
    }

    var num := site.row.retries + 1;
    if l.dayKey != Some(r.day) {
      l := l.(dayKey := Some(r.day), launchesToday := 0);
    }
    var target, counted := "", false;
    if l.reportUsable {
      match r.report {
        case Ads(available) =>
          site.SetRetries(num);
          counted := true;
          if available == [] {
            return Nap(true), l;
          }
          target := available[l.adIdx % |available|];
          l := l.(adIdx := l.adIdx + 1);
        case Unavailable =>
          if !r.liveAfterReport {
            return Quit, l;
          }
          l := l.(reportUsable := false);
        case Fault =>
          return if r.liveAfterReport then Nap(false) else Quit, l;
      }
    }
    if target == "" {
      target := adList[l.adIdx % |adList|];
      l := l.(adIdx := l.adIdx + 1);
    }
    if cfg.launchesPerDay > 0 && l.launchesToday >= cfg.launchesPerDay {
      return Nap(counted), l;
    }
    return Try(target, counted), l;
  }

  /** A round from the launch call on: the attempt, the back-off and the task's own budget. */
  method TryLaunch(site: LaunchSite, cfg: Config, locals: Locals, r: Round, ad: string, num: nat)
    returns (l: Locals, launch: Launch, again: bool)
    modifies site
    ensures var (tried, res) := LaunchOutcome(old(site.View()), num, r.token, r.attempt);
            && l == locals.(launches := locals.launches + 1, launchesToday := locals.launchesToday + 1,
                factor := NextFactor(locals.factor, res))
            && var (row, verdict) := AfterAttempt(tried.row, res,
                r.seen.row.maxRetries > 0 && l.launches >= r.seen.row.maxRetries);
            && site.View() == tried.(row := row)
            && again == (verdict.Sleep? && r.slept)
            && launch == LaunchOf(cfg, r, ad, num, res, l.factor)
  {
    var res := site.AttemptLaunch(num, r.token, r.attempt);
    l := locals.(launches := locals.launches + 1, launchesToday := locals.launchesToday + 1);
    var wait := CapacityPollWait(cfg, r.draw);
    again := false;
    if res.category.Cancelled? && !res.success {
      return l, Launch(r.day, ad, num, res, l.factor, wait), false;
    }
    if res.success {
      site.SetSuccess(res.ocid);
      return l, Launch(r.day, ad, num, res, l.factor, wait), false;
    }
    match res.category {
      case FatalError =>
        site.SetStatus(Failed);
        return l, Launch(r.day, ad, num, res, l.factor, wait), false;
      case RateLimited =>
        l := l.(factor := l.factor * 2);
        if l.factor > MAX_BACKOFF {
          l := l.(factor := MAX_BACKOFF);
        }
        wait := wait * l.factor;
      case _ =>
        l := l.(factor := 1);
    }
    launch := Launch(r.day, ad, num, res, l.factor, wait);
    if r.seen.row.maxRetries > 0 && l.launches >= r.seen.row.maxRetries {
      site.SetStatus(Stopped);
      return;
    }
    again := r.slept;
  }

  method PlayRound(site: LaunchSite, cfg: Config, adList: seq<string>, locals: Locals, r: Round)
    returns (l: Locals, made: seq<Launch>, again: bool)
    requires adList != []
    modifies site
    ensures Iteration(site.View(), l, again, made) == Iterate(cfg, adList, locals, r)
  {
    var choice, next := Poll(site, cfg, adList, locals, r);
    match choice {
      case Quit => return next, [], false;
      case Fail => return next, [], false;
      case Expire => return next, [], false;
      case Nap(_) => return next, [], r.slept;
      case Try(ad, _) =>
        var after, launch, more := TryLaunch(site, cfg, next, r, ad, r.seen.row.retries + 1);
        return after, [launch], more;
    }
  }

  /** The loop. Before each round the other handlers may have changed the task (`rounds[i].seen`);
      the run ends when the loop returns or the script does. */
  method Rounds(site: LaunchSite, cfg: Config, adList: seq<string>, shapeHasReport: bool, rounds: seq<Round>)
    returns (launched: seq<Launch>)
    requires adList != []
    modifies site
    ensures RunResult(site.View(), launched) == Run(cfg, adList, FirstLocals(shapeHasReport), old(site.View()), rounds)
  {
    var l := FirstLocals(shapeHasReport);
    launched := [];
    ghost var goal := Run(cfg, adList, l, site.View(), rounds);
    var i, again := 0, true;
    assert rounds[0..] == rounds;
    while i < |rounds| && again
      invariant 0 <= i <= |rounds|
      invariant goal ==
                if again then Continue(launched, Run(cfg, adList, l, site.View(), rounds[i..]))
                else RunResult(site.View(), launched)
      decreases |rounds| - i
    {
      UnfoldRun(cfg, adList, l, site.View(), rounds, i, launched);
      var made;
      l, made, again := PlayRound(site, cfg, adList, l, rounds[i]);
      launched := launched + made;
      i := i + 1;
    }
  }

  /** What the worker reads before its loop: the task, its account, the availability domains. */
  datatype Start = NoTask | NoAccount | NoDomains(live: bool) | Ready(adList: seq<string>)

  function WorkerOutcome(cfg: Config, start: Start, shapeHasReport: bool, w: World, rounds: seq<Round>): RunResult
    requires start.Ready? ==> start.adList != []
  {
    match start
    case NoTask => RunResult(w, [])
    case NoAccount => RunResult(w.(row := w.row.(status := Failed)), [])
    case NoDomains(live) => RunResult(if live then w.(row := w.row.(status := Failed)) else w, [])
    case Ready(adList) => Run(cfg, adList, FirstLocals(shapeHasReport), w, rounds)
  }

  method RunTaskWorker(site: LaunchSite, cfg: Config, start: Start, shapeHasReport: bool, rounds: seq<Round>)
    returns (launched: seq<Launch>)
    requires start.Ready? ==> start.adList != []
    modifies site
    ensures RunResult(site.View(), launched) == WorkerOutcome(cfg, start, shapeHasReport, old(site.View()), rounds)
    ensures !start.Ready? ==> launched == [] && site.cloud == old(site.cloud) && site.history == old(site.history)
    ensures !start.Ready? ==>
        site.row == old(site.row).(status :=
            if start.NoAccount? || start == NoDomains(true) then Failed else old(site.row.status))
  {
    launched := [];
    match start {
      case NoTask =>
      case NoAccount => site.SetStatus(Failed);
      case NoDomains(live) =>
        if live {
          site.SetStatus(Failed);
        }
      case Ready(adList) => launched := Rounds(site, cfg, adList, shapeHasReport, rounds);
    }
  }

  function Continue(done: seq<Launch>, rest: RunResult): RunResult {
    RunResult(rest.world, done + rest.launches)
  }

  /** One round unfolded at position i of the script. */
  lemma UnfoldRun(cfg: Config, adList: seq<string>, l: Locals, w: World, rounds: seq<Round>, i: nat, done: seq<Launch>)
    requires adList != [] && i < |rounds|
    ensures var it := Iterate(cfg, adList, l, rounds[i]);
            Continue(done, Run(cfg, adList, l, w, rounds[i..])) ==
            if it.again then Continue(done + it.launches, Run(cfg, adList, it.locals, it.world, rounds[i + 1..]))
            else RunResult(it.world, done + it.launches)
  {
    assert rounds[i..][1..] == rounds[i + 1..];
    var it := Iterate(cfg, adList, l, rounds[i]);
    if it.again {
      var rest := Run(cfg, adList, it.locals, it.world, rounds[i + 1..]);
      assert done + (it.launches + rest.launches) == done + it.launches + rest.launches;
    }
  }
}
