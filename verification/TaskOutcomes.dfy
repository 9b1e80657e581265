/**
 What a round of the worker loop does to its task, from the answers it gets: when it launches, when the
 task ends as failed, stopped or successful, and when the loop goes on.
 */
module TaskOutcomes {
  import opened Prelude
  import opened LaunchErrors
  import opened LaunchAttempt
  import opened TaskWorker
  import TaskCreation

  // ----- one attempt -----

  /** The error an unsuccessful call is judged by; a call without an OCID and without an error that no
      lookup explains counts as a failure of unknown kind. */
  function JudgedBy(err: Option<CallError>): CallError {
    if err.Some? then err.value else Transport(false)
  }

  /** A call that did not succeed ends the task exactly when no retry can help, and is otherwise throttling,
      lack of capacity or a passing failure; a call whose context is gone ends quietly. */
  lemma FailureExactly(w: World, num: nat, ocid: Option<Ocid>, err: Option<CallError>, lookups: seq<bool>, live: bool)
    requires ocid.Some? ==> err.None?
    ensures var (after, res) := Finish(w, num, ocid, err, lookups, live);
            var e := JudgedBy(err);
            !res.success ==>
              && (res.category.Cancelled? <==> !live || e.Canceled?)
              && (res.category.FatalError? <==> live && EndsTask(e))
              && (res.category.RateLimited? <==> live && IsThrottle(e))
              && (res.category.CapacityFull? <==> live && IsCapacityAnswer(e))
              && (res.category.Transient? <==> live && IsPassing(e))
  {
    CategoriesExactly(JudgedBy(err));
    hide Confirm;
    hide ClassifyError;
    hide IsCapacityMessage;
  }

  /** An attempt whose call returned is on record under its number, once, unless it was cancelled; the number
      is stored unless the context was gone; nothing else of row and history changes. */
  lemma RecordExactly(w: World, num: nat, ocid: Option<Ocid>, err: Option<CallError>, lookups: seq<bool>, live: bool)
    requires ocid.Some? ==> err.None?
    ensures var (after, res) := Finish(w, num, ocid, err, lookups, live);
            && after.history == w.history +
                (if res.success then [Attempt(num, Launched)]
                 else if res.category.Cancelled? then []
                 else [Attempt(num, Refused(res.category))])
            && after.row == w.row.(retries := if res.success || live then num else w.row.retries)
            && !res.existed && (res.success ==> res.ocid.Some?)
  {
    hide Confirm;
    hide ClassifyError;
  }

  /** An attempt reports an instance as found, rather than created, exactly when its first lookup named it; then,
      and when the context ended before the call, it leaves row and history alone. */
  lemma ExistedExactly(w: World, num: nat, token: Token, env: AttemptEnv)
    requires CloudOk(w.cloud)
    ensures var (after, res) := LaunchOutcome(w, num, token, env);
            && (res.existed <==> env.listed && HasLive(w.cloud))
            && (res.existed ==> res.success && after == w && res.ocid == FirstLive(w.cloud.instances))
            && (!res.existed && !env.liveBefore ==> after == w && !res.success && res.category.Cancelled?)
  {
    LookupFindsLive(w.cloud);
    SendsEffect(w.cloud, token, env.sends, 1, env.cut);
    var (cloud, ocid, err) := Sends(w.cloud, token, env.sends, 1, env.cut);
    RecordExactly(w.(cloud := cloud), num, ocid, err, env.lookups, env.liveAfter);
    hide Finish;
    hide Sends;
    hide FirstLive;
    hide HasLive;
  }

  // ----- one round -----

  /** The worker is still wanted when the round starts. */
  predicate Wanted(r: Round) {
    r.live && r.taskFound && r.seen.row.status == Running
  }

  /** More than retryMaxDays days of 24 hours have passed since the task was created; 0 means for ever. */
  predicate TooOld(cfg: Config, r: Round) {
    cfg.retryMaxDays > 0 && r.now - r.createdAt > cfg.retryMaxDays * 24 * 60 * 60
  }

  predicate GoesOn(cfg: Config, r: Round) {
    Wanted(r) && r.profileFound && !TooOld(cfg, r)
  }

  /** The report shows room, or there is none to ask. */
  predicate SeesRoom(l: Locals, r: Round) {
    l.reportUsable ==> (r.report.Ads? && r.report.available != []) || (r.report.Unavailable? && r.liveAfterReport)
  }

  /** The attempts this run has made on the round's day are below the cap, if there is one. */
  predicate CapLeft(cfg: Config, l: Locals, r: Round) {
    cfg.launchesPerDay <= 0 || (if l.dayKey == Some(r.day) then l.launchesToday else 0) < cfg.launchesPerDay
  }

  /** A round launches exactly when the task still waits for it, another account does not hold the lock, the
      report shows room (or there is none), and the cap leaves room; at most once, under the next number. */
  lemma LaunchesExactly(cfg: Config, adList: seq<string>, l: Locals, r: Round)
    requires adList != []
    ensures var it := Iterate(cfg, adList, l, r);
            && (it.launches != [] <==> GoesOn(cfg, r) && !r.lock.Busy? && SeesRoom(l, r) && CapLeft(cfg, l, r))
            && |it.launches| <= 1
            && (it.launches != [] ==> it.launches[0].num == r.seen.row.retries + 1 && it.launches[0].day == r.day)
  {
    hide LaunchOutcome;
    hide CapacityPollWait;
    hide PickAd;
    assert cfg.retryMaxDays * DAY_SECONDS == cfg.retryMaxDays * 24 * 60 * 60;
    PickKeepsDay(adList);
  }

  lemma PickKeepsDay(adList: seq<string>)
    requires adList != []
    ensures forall l, available :: var next := PickAd(adList, l, available).1; next == l.(adIdx := next.adIdx)
  {
  }

  /** A round without an attempt leaves the world alone but for three writes: failed when the account is gone,
      stopped when the time is up, and the round number when the report answered. The loop goes on after it
      exactly when the task still waits and no context ended. */
  lemma QuietRoundExactly(cfg: Config, adList: seq<string>, l: Locals, r: Round)
    requires adList != [] && Iterate(cfg, adList, l, r).launches == []
    ensures var it := Iterate(cfg, adList, l, r);
            var row := r.seen.row;
            var answered := !r.lock.Busy? && l.reportUsable && r.report.Ads?;
            && it.world == r.seen.(row :=
                if !Wanted(r) then row
                else if !r.profileFound then row.(status := Failed)
                else if TooOld(cfg, r) then row.(status := Stopped)
                else if answered then row.(retries := row.retries + 1)
                else row)
            && (it.again <==> GoesOn(cfg, r) && r.slept
                              && (r.lock.Busy? || !l.reportUsable || r.report.Ads? || r.liveAfterReport))
  {
    hide LaunchOutcome;
    hide CapacityPollWait;
    hide PickAd;
    assert cfg.retryMaxDays * DAY_SECONDS == cfg.retryMaxDays * 24 * 60 * 60;
    PickKeepsDay(adList);
  }

  /** The run's own budget is used up by one more attempt. */
  predicate LastOne(l: Locals, r: Round) {
    0 < r.seen.row.maxRetries <= l.launches + 1
  }

  predicate WorthRetrying(res: AttemptResult) {
    !res.success && (res.category.CapacityFull? || res.category.RateLimited? || res.category.Transient?)
  }

  /** After an attempt the task is successful under the OCID found, failed when no retry can help, stopped when
      its budget is spent, and otherwise still running; the loop goes on in that last case only. */
  lemma LaunchRoundExactly(cfg: Config, adList: seq<string>, l: Locals, r: Round)
    requires adList != [] && Iterate(cfg, adList, l, r).launches != []
    ensures var it := Iterate(cfg, adList, l, r);
            var res, row := it.launches[0].res, it.world.row;
            && (row.status == Success <==> res.success)
            && row.ocid == (if res.success then res.ocid else r.seen.row.ocid)
            && (row.status == Failed <==> !res.success && res.category.FatalError?)
            && (row.status == Stopped <==> WorthRetrying(res) && LastOne(l, r))
            && (row.status == Running <==>
                !res.success && (res.category.Cancelled? || (WorthRetrying(res) && !LastOne(l, r))))
            && (it.again <==> WorthRetrying(res) && !LastOne(l, r) && r.slept)
            && row.maxRetries == r.seen.row.maxRetries
  {
    LaunchesExactly(cfg, adList, l, r);
    RoundAttempt(cfg, adList, l, r);
    hide LaunchOutcome;
    hide CapacityPollWait;
    hide PickAd;
    PickKeepsDay(adList);
  }

  /** The attempt of a round writes neither status nor OCID itself. */
  lemma RoundAttempt(cfg: Config, adList: seq<string>, l: Locals, r: Round)
    requires adList != []
    ensures var (after, res) := LaunchOutcome(r.seen.(row := ApplyChoice(r.seen.row, Choose(cfg, adList, l, r).0)),
                r.seen.row.retries + 1, r.token, r.attempt);
            var row := ApplyChoice(r.seen.row, Choose(cfg, adList, l, r).0);
            && after.row.status == row.status && after.row.ocid == row.ocid && after.row.maxRetries == row.maxRetries
  {
    hide Choose;
    hide Settle;
    hide Sends;
    hide FirstLive;
    hide ClassifyError;
  }

  /** What a launching round records: its attempt, under the round's number, unless it was cancelled or found the
      instance there; and the number itself, once the report answered or the call came back to a live context or
      with an instance. */
  lemma RoundRecordsExactly(cfg: Config, adList: seq<string>, l: Locals, r: Round)
    requires adList != [] && CloudOk(r.seen.cloud) && Iterate(cfg, adList, l, r).launches != []
    ensures var it := Iterate(cfg, adList, l, r);
            var res, num := it.launches[0].res, r.seen.row.retries + 1;
            var answered := l.reportUsable && r.report.Ads?;
            var called := !res.existed && r.attempt.liveBefore;
            && it.world.history == r.seen.history +
                (if !called || (!res.success && res.category.Cancelled?) then []
                 else if res.success then [Attempt(num, Launched)]
                 else [Attempt(num, Refused(res.category))])
            && it.world.row.retries == (if answered || (called && (res.success || r.attempt.liveAfter)) then num
                                        else r.seen.row.retries)
  {
    var w := r.seen.(row := ApplyChoice(r.seen.row, Choose(cfg, adList, l, r).0));
    LaunchesExactly(cfg, adList, l, r);
    AttemptRecords(w, r.seen.row.retries + 1, r.token, r.attempt);
    hide LaunchOutcome;
    hide CapacityPollWait;
    hide PickAd;
    PickKeepsDay(adList);
  }

  lemma AttemptRecords(w: World, num: nat, token: Token, env: AttemptEnv)
    requires CloudOk(w.cloud)
    ensures var (after, res) := LaunchOutcome(w, num, token, env);
            var called := !res.existed && env.liveBefore;
            && after.history == w.history +
                (if !called || (!res.success && res.category.Cancelled?) then []
                 else if res.success then [Attempt(num, Launched)]
                 else [Attempt(num, Refused(res.category))])
            && after.row == w.row.(retries := if called && (res.success || env.liveAfter) then num else w.row.retries)
  {
    ExistedExactly(w, num, token, env);
    SendsEffect(w.cloud, token, env.sends, 1, env.cut);
    var (cloud, ocid, err) := Sends(w.cloud, token, env.sends, 1, env.cut);
    RecordExactly(w.(cloud := cloud), num, ocid, err, env.lookups, env.liveAfter);
    hide Finish;
    hide Sends;
    hide FirstLive;
    hide HasLive;
  }

  /** The report is asked until it says that this tenancy cannot use it, and never again in the run. */
  lemma ReportUseExactly(cfg: Config, adList: seq<string>, l: Locals, r: Round)
    requires adList != []
    ensures Iterate(cfg, adList, l, r).locals.reportUsable <==>
              l.reportUsable && !(GoesOn(cfg, r) && !r.lock.Busy? && r.report.Unavailable? && r.liveAfterReport)
  {
    hide LaunchOutcome;
    hide CapacityPollWait;
    hide PickAd;
    assert cfg.retryMaxDays * DAY_SECONDS == cfg.retryMaxDays * 24 * 60 * 60;
    PickKeepsDay(adList);
  }

  /** The failed attempt of a round was a call that came back to a live context with this kind of error. */
  ghost predicate FailedWith(r: Round, e: CallError) {
    r.attempt.liveBefore && r.attempt.liveAfter && e == JudgedBy(FinalError(r.seen, r.token, r.attempt))
  }

  lemma AttemptFailsExactly(w: World, num: nat, token: Token, env: AttemptEnv)
    requires CloudOk(w.cloud)
    ensures var res := LaunchOutcome(w, num, token, env).1;
            var e := JudgedBy(FinalError(w, token, env));
            var returned := env.liveBefore && env.liveAfter;
            !res.success ==>
              && (res.category.FatalError? <==> returned && EndsTask(e))
              && (res.category.RateLimited? <==> returned && IsThrottle(e))
              && (res.category.CapacityFull? <==> returned && IsCapacityAnswer(e))
              && (res.category.Transient? <==> returned && IsPassing(e))
  {
    SendsEffect(w.cloud, token, env.sends, 1, env.cut);
    var (cloud, ocid, err) := Sends(w.cloud, token, env.sends, 1, env.cut);
    FailureExactly(w.(cloud := cloud), num, ocid, err, env.lookups, env.liveAfter);
    hide Finish;
    hide Sends;
    hide FirstLive;
    hide EndsTask;
    hide IsThrottle;
    hide IsCapacityAnswer;
    hide IsPassing;
  }

  /** A round's failed attempt, judged by its error. */
  lemma RoundFailsExactly(cfg: Config, adList: seq<string>, l: Locals, r: Round)
    requires adList != [] && CloudOk(r.seen.cloud) && Iterate(cfg, adList, l, r).launches != []
    ensures var res := Iterate(cfg, adList, l, r).launches[0].res;
            var e := JudgedBy(FinalError(r.seen, r.token, r.attempt));
            !res.success ==>
              && (res.category.FatalError? <==> FailedWith(r, e) && EndsTask(e))
              && (WorthRetrying(res) <==> FailedWith(r, e) && (IsThrottle(e) || IsCapacityAnswer(e) || IsPassing(e)))
  {
    var w := r.seen.(row := ApplyChoice(r.seen.row, Choose(cfg, adList, l, r).0));
    AttemptFailsExactly(w, r.seen.row.retries + 1, r.token, r.attempt);
    assert FinalError(w, r.token, r.attempt) == FinalError(r.seen, r.token, r.attempt);
    hide Choose;
    hide LaunchOutcome;
    hide FinalError;
    hide CapacityPollWait;
  }

  // ----- a whole run -----

  /** The last round a run plays, and what the loop carried into it. */
  function LastPlayed(cfg: Config, adList: seq<string>, l: Locals, rounds: seq<Round>): (last: (Locals, Round))
    requires adList != [] && rounds != []
    ensures last.1 in rounds
    decreases |rounds|
  {
    var it := Iterate(cfg, adList, l, rounds[0]);
    if it.again && |rounds| > 1 then LastPlayed(cfg, adList, it.locals, rounds[1..]) else (l, rounds[0])
  }

  lemma {:induction false} RunEndsWithLast(cfg: Config, adList: seq<string>, l: Locals, w: World, rounds: seq<Round>)
    requires adList != [] && rounds != []
    ensures var (carried, r) := LastPlayed(cfg, adList, l, rounds);
            Run(cfg, adList, l, w, rounds).world == Iterate(cfg, adList, carried, r).world
    decreases |rounds|
  {
    hide Iterate;
    var it := Iterate(cfg, adList, l, rounds[0]);
    if it.again && |rounds| > 1 {
      RunEndsWithLast(cfg, adList, it.locals, it.world, rounds[1..]);
    }
  }

  /** Where a run leaves its task, by its last round. Failed: it was failed already, its account was gone, or
      the attempt came back with an error that no retry can help. Stopped: it was stopped already, its time was
      up, or the attempt that came back with any other error was the last of its budget. Successful: it was
      already, or the attempt succeeded. */
  lemma RunEndsExactly(cfg: Config, adList: seq<string>, shapeHasReport: bool, w: World, rounds: seq<Round>)
    requires adList != [] && rounds != [] && forall i :: 0 <= i < |rounds| ==> CloudOk(rounds[i].seen.cloud)
    ensures var (l, r) := LastPlayed(cfg, adList, FirstLocals(shapeHasReport), rounds);
            var status := Run(cfg, adList, FirstLocals(shapeHasReport), w, rounds).world.row.status;
            var launches := Iterate(cfg, adList, l, r).launches;
            var e := JudgedBy(FinalError(r.seen, r.token, r.attempt));
            var failed := launches != [] && !launches[0].res.success && FailedWith(r, e);
            && (status == Failed <==>
                r.seen.row.status == Failed || (Wanted(r) && !r.profileFound) || (failed && EndsTask(e)))
            && (status == Stopped <==>
                || r.seen.row.status == Stopped
                || (Wanted(r) && r.profileFound && TooOld(cfg, r))
                || (failed && LastOne(l, r) && (IsThrottle(e) || IsCapacityAnswer(e) || IsPassing(e))))
            && (status == Success <==>
                r.seen.row.status == Success || (launches != [] && launches[0].res.success))
  {
    RunEndsWithLast(cfg, adList, FirstLocals(shapeHasReport), w, rounds);
    var (l, r) := LastPlayed(cfg, adList, FirstLocals(shapeHasReport), rounds);
    LaunchesExactly(cfg, adList, l, r);
    if Iterate(cfg, adList, l, r).launches == [] {
      QuietRoundExactly(cfg, adList, l, r);
    } else {
      LaunchRoundExactly(cfg, adList, l, r);
      RoundFailsExactly(cfg, adList, l, r);
    }
    hide LastPlayed;
    hide Iterate;
    hide Run;
    hide EndsTask;
    hide IsThrottle;
    hide IsCapacityAnswer;
    hide IsPassing;
    hide FinalError;
  }

  // ----- the synchronous creation -----

  /** The domains creation may try: those the report shows room in, or all of them when there is no report. */
  function Candidates(c: TaskCreation.Creation): seq<string> {
    if c.domains.Unknown? then [] else if c.report.Room? then c.report.names else c.domains.names
  }

  /** How attempt number i + 1 of creation ended. */
  function TryResult(c: TaskCreation.Creation, i: nat): AttemptResult
    requires i < |c.tries|
  {
    LaunchOutcome(c.tries[i].seen, i + 1, c.tries[i].token, c.tries[i].attempt).1
  }

  lemma {:induction false} AttemptsExactly(c: TaskCreation.Creation, i: nat, n: nat)
    requires i < n <= |c.tries|
    ensures var end := TaskCreation.Attempts(c.tries, i, n);
            && i < end.attempts <= n && end.last == TryResult(c, end.attempts - 1)
            && end.world == LaunchOutcome(c.tries[end.attempts - 1].seen, end.attempts,
                c.tries[end.attempts - 1].token, c.tries[end.attempts - 1].attempt).0
            && (forall j :: i <= j < end.attempts - 1 ==> WorthRetrying(TryResult(c, j)))
            && (end.attempts < n ==> !WorthRetrying(TryResult(c, end.attempts - 1)))
    decreases n - i
  {
    hide LaunchOutcome;
    if !TaskCreation.EndsLoop(TryResult(c, i)) && i + 1 < n {
      AttemptsExactly(c, i + 1, n);
    }
  }

  /** Creation tries its candidates one after the other until one attempt is not worth another, and the task ends
      as that attempt says: successful with its OCID, failed when no retry can help, and stopped otherwise; failed
      without an attempt when the domains are unknown, and stopped when the report shows no room. */
  lemma CreationEndsExactly(w: World, c: TaskCreation.Creation)
    requires TaskCreation.Scripted(c)
    ensures var (after, n) := TaskCreation.Outcome(w, c);
            && n <= |Candidates(c)| && (n == 0 <==> Candidates(c) == [])
            && (forall j :: 0 <= j < n - 1 ==> WorthRetrying(TryResult(c, j)))
            && (0 < n < |Candidates(c)| ==> !WorthRetrying(TryResult(c, n - 1)))
            && (n == 0 ==> after == w.(row := w.row.(status := if c.domains.Unknown? then Failed else Stopped)))
            && (n > 0 ==>
                  var last := TryResult(c, n - 1);
                  && (after.row.status == Success <==> last.success)
                  && (after.row.status == Failed <==> !last.success && last.category.FatalError?)
                  && (after.row.status == Stopped <==> !last.success && !last.category.FatalError?)
                  && (last.success ==> after.row.ocid == last.ocid))
  {
    hide LaunchOutcome;
    if Candidates(c) != [] {
      AttemptsExactly(c, 0, |Candidates(c)|);
    }
  }
}
