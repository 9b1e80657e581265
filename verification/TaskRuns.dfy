/**
 The imperative loops and the step system tell one story: every run of the worker loop and of the
 synchronous creation, with other handlers' steps in its pauses, is a run of steps.
 */
module TaskRuns {
  import opened Prelude
  import opened LaunchErrors
  import opened LaunchAttempt
  import opened TaskWorker
  import opened TaskLife
  import TaskCreation

  // ----- a request between leaving and returning -----

  /** What the call does to its request: it lands, once, or it never will. */
  ghost function Fate(token: Token, sends: seq<Send>): Step {
    if SendsLand(sends, 1) then DoLand(token) else DoDrop(token)
  }

  /** The request that just left under a fresh token meets its fate. */
  lemma FateIsSends(s: TaskState, token: Token, sends: seq<Send>, cut: CallError)
    requires CloudOk(s.world.cloud) && token in s.pending && token !in s.world.cloud.tokens
    ensures var e := Fate(token, sends);
            && Enabled(s, e)
            && Next(s, e) == s.(world := s.world.(cloud := Sends(s.world.cloud, token, sends, 1, cut).0),
                pending := s.pending - {token})
  {
    SendsEffect(s.world.cloud, token, sends, 1, cut);
    hide Sends;
    hide SendsLand;
    hide Land;
  }

  // ----- a worker's round -----

  /** A context that ends between lookup and launch is as good as a call that ends before it sends. */
  function Called(env: AttemptEnv): AttemptEnv {
    if env.liveBefore then env else AttemptEnv(env.listed, true, [], Canceled, [], false)
  }

  lemma CalledAlike(w: World, num: nat, token: Token, env: AttemptEnv)
    ensures LaunchOutcome(w, num, token, Called(env)) == LaunchOutcome(w, num, token, env)
  {
    hide FirstLive;
  }

  /** The worker stands at the top of its loop, registered unless it was cancelled, and the script of the
      round starts from here. */
  ghost predicate AtRound(s: TaskState, h: Handle, r: Round) {
    && h in s.workers && s.workers[h] == Worker(!r.live, AtTop)
    && r.seen == s.world && r.token == s.nextToken && (r.live ==> s.registry == Some(h))
  }

  ghost function RoundSteps(s: TaskState, h: Handle, cfg: Config, adList: seq<string>, l: Locals, r: Round): seq<Step>
    requires adList != [] && AtRound(s, h, r)
  {
    var (choice, l1) := Choose(cfg, adList, l, r);
    var poll := DoPoll(h, choice, r.attempt.listed);
    var polled := Next(s, poll);
    if h in polled.workers && polled.workers[h].pc.InFlight? then
      var called := Called(r.attempt);
      var (_, ocid, err) := Sends(polled.world.cloud, r.token, called.sends, 1, called.cut);
      [poll, Fate(r.token, called.sends)] + Cancelling(called)
          + [DoReturn(h, Reply(ocid, err), called.lookups, Spent(r, l1))]
    else [poll]
  }

  /** The worker is cancelled during the call when its context does not outlive it. */
  function Cancelling(called: AttemptEnv): seq<Step> {
    if called.liveAfter then [] else [DoCancel]
  }

  predicate Spent(r: Round, l: Locals) {
    r.seen.row.maxRetries > 0 && l.launches + 1 >= r.seen.row.maxRetries
  }

  /** The round's place in the step system: the same world, the worker back at the top exactly when the
      loop goes on, and no request left on its way. */
  ghost predicate RoundEnds(s: TaskState, end: TaskState, h: Handle, r: Round, it: Iteration) {
    && end.world == it.world && end.pending == s.pending
    && (it.again <==> r.slept && h in end.workers && end.workers[h] == Worker(false, AtTop))
    && end.creator == s.creator && end.nextHandle == s.nextHandle
  }

  lemma ChoiceNeedsRunning(cfg: Config, adList: seq<string>, l: Locals, r: Round)
    requires adList != [] && r.seen.row.status != Running
    ensures Choose(cfg, adList, l, r) == (Quit, l)
  {
  }

  lemma PollEnds(s: TaskState, h: Handle, cfg: Config, adList: seq<string>, l: Locals, r: Round)
    requires adList != [] && AtRound(s, h, r)
    ensures var polled := TaskLife.Poll(s, h, Choose(cfg, adList, l, r).0, r.attempt.listed);
            if h in polled.workers && polled.workers[h].pc.InFlight? then
              && Sent(s, polled, h, cfg, adList, l, r) && Lookup(polled.world.cloud, r.attempt.listed).None?
            else RoundEnds(s, polled, h, r, Iterate(cfg, adList, l, r))
  {
    if r.seen.row.status != Running {
      ChoiceNeedsRunning(cfg, adList, l, r);
    }
    hide Choose;
    hide Finish;
    hide Sends;
    hide FirstLive;
    hide LaunchOf;
    hide NextFactor;
  }

  /** The round has come to its launch call. */
  ghost predicate Sent(s: TaskState, polled: TaskState, h: Handle, cfg: Config, adList: seq<string>, l: Locals,
                       r: Round)
    requires adList != [] && AtRound(s, h, r)
  {
    var choice := Choose(cfg, adList, l, r).0;
    && h in polled.workers && polled.workers[h] == Worker(false, InFlight(r.seen.row.retries + 1, r.token))
    && polled.registry == Some(h) && choice.Try?
    && polled.world == s.world.(row := ApplyChoice(s.world.row, choice))
    && polled.pending == s.pending + {r.token} && polled.nextToken == r.token + 1
    && polled.creator == s.creator && polled.nextHandle == s.nextHandle
  }

  /** With a dead context an attempt succeeds or counts as cancelled. */
  lemma DeadContextEnds(w: World, num: nat, reply: Reply, lookups: seq<bool>)
    ensures var res := Finish(w, num, reply.ocid, reply.err, lookups, false).1; res.success || res.category.Cancelled?
  {
    hide Confirm;
  }

  lemma ReturnEnds(s: TaskState, polled: TaskState, landed: TaskState, h: Handle, cfg: Config, adList: seq<string>,
                   l: Locals, r: Round)
    requires adList != [] && AtRound(s, h, r) && Sent(s, polled, h, cfg, adList, l, r)
    requires Lookup(polled.world.cloud, r.attempt.listed).None? && r.attempt.liveBefore
    requires landed.world ==
        polled.world.(cloud := Sends(polled.world.cloud, r.token, r.attempt.sends, 1, r.attempt.cut).0)
    requires h in landed.workers
    requires landed.workers[h] == Worker(!r.attempt.liveAfter, InFlight(r.seen.row.retries + 1, r.token))
    requires landed.pending == s.pending && landed.creator == s.creator && landed.nextHandle == s.nextHandle
    ensures var (choice, l1) := Choose(cfg, adList, l, r);
            var (_, ocid, err) := Sends(polled.world.cloud, r.token, r.attempt.sends, 1, r.attempt.cut);
            RoundEnds(s, Return(landed, h, Reply(ocid, err), r.attempt.lookups, Spent(r, l1)), h, r,
                Iterate(cfg, adList, l, r))
  {
    var (_, ocid, err) := Sends(polled.world.cloud, r.token, r.attempt.sends, 1, r.attempt.cut);
    DeadContextEnds(landed.world, r.seen.row.retries + 1, Reply(ocid, err), r.attempt.lookups);
    hide Choose;
    hide Finish;
    hide Sends;
    hide FirstLive;
    hide LaunchOf;
    hide NextFactor;
    hide ApplyChoice;
  }

  /** A round of the worker loop is a run of steps: the poll, and, when a request leaves, its fate, the
      worker's cancellation if its context ends before or during the call, and the return. */
  lemma RoundIsRun(s: TaskState, h: Handle, cfg: Config, adList: seq<string>, l: Locals, r: Round)
    requires adList != [] && AtRound(s, h, r) && FreshTokens(s)
    ensures exists end :: PlaysRound(s, h, cfg, adList, l, r, end)
  {
    var called := r.(attempt := Called(r.attempt));
    var end := RoundRun(s, h, cfg, adList, l, called);
    CalledRound(cfg, adList, l, r);
    hide Iterate;
    hide Choose;
    hide Next;
    assert PlaysRound(s, h, cfg, adList, l, r, end);
  }

  lemma CalledRound(cfg: Config, adList: seq<string>, l: Locals, r: Round)
    requires adList != []
    ensures var called := r.(attempt := Called(r.attempt));
            Choose(cfg, adList, l, called) == Choose(cfg, adList, l, r)
            && Iterate(cfg, adList, l, called) == Iterate(cfg, adList, l, r)
  {
    var choice := Choose(cfg, adList, l, r).0;
    CalledAlike(r.seen.(row := ApplyChoice(r.seen.row, choice)), r.seen.row.retries + 1, r.token, r.attempt);
    hide LaunchOutcome;
    hide PickAd;
    hide DayIsFull;
  }

  ghost predicate PlaysRound(s: TaskState, h: Handle, cfg: Config, adList: seq<string>, l: Locals, r: Round,
                             end: TaskState)
    requires adList != [] && AtRound(s, h, r)
  {
    RunFrom(s, RoundSteps(s, h, cfg, adList, l, r), end) && RoundEnds(s, end, h, r, Iterate(cfg, adList, l, r))
  }

  lemma RoundRun(s: TaskState, h: Handle, cfg: Config, adList: seq<string>, l: Locals, r: Round)
    returns (end: TaskState)
    requires adList != [] && AtRound(s, h, r) && FreshTokens(s) && r.attempt.liveBefore
    ensures PlaysRound(s, h, cfg, adList, l, r, end)
  {
    var (choice, l1) := Choose(cfg, adList, l, r);
    var poll := DoPoll(h, choice, r.attempt.listed);
    var polled := Next(s, poll);
    PollEnds(s, h, cfg, adList, l, r);
    OneStep(s, poll);
    if h in polled.workers && polled.workers[h].pc.InFlight? {
      var call;
      call, end := CallRun(s, polled, h, cfg, adList, l, r);
      StepsAre(s, h, cfg, adList, l, r);
      hide Next;
      hide Choose;
      hide Sends;
      hide Iterate;
      RunThen(s, [poll], polled, call, end);
      assert RoundSteps(s, h, cfg, adList, l, r) == [poll] + call;
    } else {
      end := polled;
    }
  }

  /** The rest of a round that has sent its request. */
  lemma CallRun(s: TaskState, polled: TaskState, h: Handle, cfg: Config, adList: seq<string>, l: Locals, r: Round)
    returns (steps: seq<Step>, end: TaskState)
    requires adList != [] && AtRound(s, h, r) && FreshTokens(s) && r.attempt.liveBefore
    requires Sent(s, polled, h, cfg, adList, l, r) && Lookup(polled.world.cloud, r.attempt.listed).None?
    ensures var (_, ocid, err) := Sends(polled.world.cloud, r.token, r.attempt.sends, 1, r.attempt.cut);
            steps == [Fate(r.token, r.attempt.sends)] + Cancelling(r.attempt)
                + [DoReturn(h, Reply(ocid, err), r.attempt.lookups, Spent(r, Choose(cfg, adList, l, r).1))]
    ensures RunFrom(polled, steps, end) && RoundEnds(s, end, h, r, Iterate(cfg, adList, l, r))
  {
    hide Choose;
    hide Lookup;
    var (_, ocid, err) := Sends(polled.world.cloud, r.token, r.attempt.sends, 1, r.attempt.cut);
    var fate := Fate(r.token, r.attempt.sends);
    var back := DoReturn(h, Reply(ocid, err), r.attempt.lookups, Spent(r, Choose(cfg, adList, l, r).1));
    FateIsSends(polled, r.token, r.attempt.sends, r.attempt.cut);
    OneStep(polled, fate);
    var sent := Next(polled, fate);
    assert sent.pending == s.pending;
    var landed := CancelIfDead(sent, h, r.attempt);
    ReturnEnds(s, polled, landed, h, cfg, adList, l, r);
    OneStep(landed, back);
    end := Next(landed, back);
    var cancelling := Cancelling(r.attempt);
    hide *;
    RunThen(sent, cancelling, landed, [back], end);
    RunThen(polled, [fate], sent, cancelling + [back], end);
    steps := [fate] + cancelling + [back];
    assert steps == [fate] + (cancelling + [back]);
  }

  lemma CancelIfDead(s: TaskState, h: Handle, called: AttemptEnv) returns (end: TaskState)
    requires h in s.workers && !s.workers[h].cancelled && s.registry == Some(h)
    ensures RunFrom(s, Cancelling(called), end)
    ensures h in end.workers && end.workers[h] == s.workers[h].(cancelled := !called.liveAfter)
    ensures end.world == s.world && end.pending == s.pending
    ensures end.creator == s.creator && end.nextHandle == s.nextHandle
  {
    if called.liveAfter {
      end := s;
    } else {
      OneStep(s, DoCancel);
      end := Next(s, DoCancel);
    }
  }

  lemma StepsAre(s: TaskState, h: Handle, cfg: Config, adList: seq<string>, l: Locals, r: Round)
    requires adList != [] && AtRound(s, h, r) && r.attempt.liveBefore
    ensures var (choice, l1) := Choose(cfg, adList, l, r);
            var poll := DoPoll(h, choice, r.attempt.listed);
            var polled := Next(s, poll);
            h in polled.workers && polled.workers[h].pc.InFlight? ==>
              var (_, ocid, err) := Sends(polled.world.cloud, r.token, r.attempt.sends, 1, r.attempt.cut);
              RoundSteps(s, h, cfg, adList, l, r) == [poll, Fate(r.token, r.attempt.sends)] + Cancelling(r.attempt)
                  + [DoReturn(h, Reply(ocid, err), r.attempt.lookups, Spent(r, l1))]
  {
    hide Choose;
    hide Next;
    hide Sends;
    hide Fate;
    hide Cancelling;
  }

  // ----- a whole worker run -----

  /** What the other handlers do while the worker sleeps, and where that leaves the task. */
  datatype Pause = Pause(steps: seq<Step>, left: TaskState)

  ghost function RoundEnd(s: TaskState, h: Handle, cfg: Config, adList: seq<string>, l: Locals,
                          r: Round): (end: TaskState)
    requires adList != [] && AtRound(s, h, r) && FreshTokens(s)
    ensures FreshTokens(end)
  {
    RoundIsRun(s, h, cfg, adList, l, r);
    var end :| PlaysRound(s, h, cfg, adList, l, r, end);
    RunKeepsTokens(s, RoundSteps(s, h, cfg, adList, l, r), end);
    end
  }

  /** The script fits the step system: each round starts from where the pause before it left the task. */
  ghost predicate Plays(s: TaskState, h: Handle, cfg: Config, adList: seq<string>, l: Locals, rounds: seq<Round>,
                        pauses: seq<Pause>)
    requires adList != [] && FreshTokens(s)
    decreases |rounds|
  {
    rounds != [] ==>
      && pauses != [] && RunFrom(s, pauses[0].steps, pauses[0].left)
      && AtRound(pauses[0].left, h, rounds[0])
      && (RunKeepsTokens(s, pauses[0].steps, pauses[0].left);
          var it := Iterate(cfg, adList, l, rounds[0]);
          it.again ==> Plays(RoundEnd(pauses[0].left, h, cfg, adList, l, rounds[0]), h, cfg, adList, it.locals,
              rounds[1..], pauses[1..]))
  }

  /** Every run of the worker loop, with any steps of the other handlers in its pauses, is a run of the
      step system that ends in the same world. */
  lemma {:induction false} WorkerRunIsRun(s: TaskState, h: Handle, cfg: Config, adList: seq<string>, l: Locals,
                                          rounds: seq<Round>, pauses: seq<Pause>)
    returns (steps: seq<Step>, end: TaskState)
    requires adList != [] && FreshTokens(s) && Plays(s, h, cfg, adList, l, rounds, pauses)
    ensures RunFrom(s, steps, end) && end.world == Run(cfg, adList, l, s.world, rounds).world
    decreases |rounds|
  {
    hide Iterate;
    hide RoundSteps;
    hide Next;
    hide AtRound;
    if rounds == [] {
      steps, end := [], s;
    } else {
      var pause, r := pauses[0], rounds[0];
      RunKeepsTokens(s, pause.steps, pause.left);
      var mid := RoundEnd(pause.left, h, cfg, adList, l, r);
      var round := RoundSteps(pause.left, h, cfg, adList, l, r);
      RunThen(s, pause.steps, pause.left, round, mid);
      var it := Iterate(cfg, adList, l, r);
      if it.again {
        var more;
        more, end := WorkerRunIsRun(mid, h, cfg, adList, it.locals, rounds[1..], pauses[1..]);
        RunThen(s, pause.steps + round, mid, more, end);
        steps := pause.steps + round + more;
      } else {
        steps, end := pause.steps + round, mid;
      }
    }
  }

  // ----- the synchronous creation -----

  /** Creation is about to make attempt `num`, and the script of the attempt starts from here. */
  ghost predicate AtTry(s: TaskState, num: nat, t: TaskCreation.SyncAttempt) {
    s.creator == Working(num) && t.seen == s.world && t.token == s.nextToken
  }

  /** Where one attempt leaves the task: finished, or before the next one. */
  ghost predicate TryEnds(s: TaskState, end: TaskState, num: nat, last: bool, w: World, res: AttemptResult) {
    if TaskCreation.EndsLoop(res) || last
    then end.world == w.(row := TaskCreation.Concluded(w.row, res)) && end.creator == Returned
    else end.world == w && end.creator == Working(num + 1)
  }

  lemma FoundEnds(s: TaskState, num: nat, t: TaskCreation.SyncAttempt, last: bool)
    requires AtTry(s, num, t) && Lookup(s.world.cloud, t.attempt.listed).Some?
    ensures var (w, res) := LaunchOutcome(t.seen, num, t.token, t.attempt);
            TryEnds(s, CreateTry(s, None, t.attempt.listed), num, last, w, res)
  {
    hide FirstLive;
  }

  /** The context ended after a lookup that found nothing: creation gives up. */
  lemma CutEnds(s: TaskState, num: nat, t: TaskCreation.SyncAttempt, last: bool)
    requires AtTry(s, num, t) && Lookup(s.world.cloud, t.attempt.listed).None? && !t.attempt.liveBefore
    ensures var (w, res) := LaunchOutcome(t.seen, num, t.token, t.attempt);
            TryEnds(s, CreateTry(s, Some(Cancelled), t.attempt.listed), num, last, w, res)
  {
    hide FirstLive;
  }

  lemma AnswerEnds(s: TaskState, landed: TaskState, num: nat, t: TaskCreation.SyncAttempt, last: bool)
    requires AtTry(s, num, t) && Lookup(s.world.cloud, t.attempt.listed).None? && t.attempt.liveBefore
    requires landed.world == s.world.(cloud := Sends(s.world.cloud, t.token, t.attempt.sends, 1, t.attempt.cut).0)
    requires landed.creator == Waiting(num, t.token)
    ensures var (w, res) := LaunchOutcome(t.seen, num, t.token, t.attempt);
            var (_, ocid, err) := Sends(s.world.cloud, t.token, t.attempt.sends, 1, t.attempt.cut);
            TryEnds(s, CreateReturn(landed, Reply(ocid, err), t.attempt.lookups, t.attempt.liveAfter, last), num, last,
                w, res)
  {
    hide Finish;
    hide Sends;
    hide FirstLive;
  }

  /** One synchronous attempt is a run of steps. */
  lemma TryIsRun(s: TaskState, num: nat, t: TaskCreation.SyncAttempt, last: bool)
    returns (steps: seq<Step>, end: TaskState)
    requires AtTry(s, num, t) && FreshTokens(s)
    ensures RunFrom(s, steps, end) && FreshTokens(end)
    ensures var (w, res) := LaunchOutcome(t.seen, num, t.token, t.attempt); TryEnds(s, end, num, last, w, res)
  {
    var e := DoCreateTry(None, t.attempt.listed);
    var sent := Next(s, e);
    OneStep(s, e);
    if Lookup(s.world.cloud, t.attempt.listed).Some? {
      FoundEnds(s, num, t, last);
      steps, end := [e], sent;
    } else if !t.attempt.liveBefore {
      var cut := DoCreateTry(Some(Cancelled), t.attempt.listed);
      CutEnds(s, num, t, last);
      OneStep(s, cut);
      steps, end := [cut], Next(s, cut);
    } else {
      var (_, ocid, err) := Sends(s.world.cloud, t.token, t.attempt.sends, 1, t.attempt.cut);
      var fate := Fate(t.token, t.attempt.sends);
      var back := DoCreateReturn(Reply(ocid, err), t.attempt.lookups, t.attempt.liveAfter, last);
      FateIsSends(sent, t.token, t.attempt.sends, t.attempt.cut);
      OneStep(sent, fate);
      var landed := Next(sent, fate);
      AnswerEnds(s, landed, num, t, last);
      OneStep(landed, back);
      end := Next(landed, back);
      hide Next;
      hide TryEnds;
      RunThen(sent, [fate], landed, [back], end);
      RunThen(s, [e], sent, [fate] + [back], end);
      steps := [e] + ([fate] + [back]);
    }
    hide TryEnds;
    RunKeepsTokens(s, steps, end);
  }

  ghost predicate PlaysTry(s: TaskState, num: nat, t: TaskCreation.SyncAttempt, last: bool, end: TaskState) {
    && FreshTokens(end) && (exists steps :: RunFrom(s, steps, end))
    && var (w, res) := LaunchOutcome(t.seen, num, t.token, t.attempt); TryEnds(s, end, num, last, w, res)
  }

  ghost function TryEnd(s: TaskState, num: nat, t: TaskCreation.SyncAttempt, last: bool): (end: TaskState)
    requires AtTry(s, num, t) && FreshTokens(s)
    ensures PlaysTry(s, num, t, last, end)
  {
    SomeTryEnd(s, num, t, last);
    var end :| PlaysTry(s, num, t, last, end);
    end
  }

  lemma SomeTryEnd(s: TaskState, num: nat, t: TaskCreation.SyncAttempt, last: bool)
    requires AtTry(s, num, t) && FreshTokens(s)
    ensures exists end :: PlaysTry(s, num, t, last, end)
  {
    var steps, end := TryIsRun(s, num, t, last);
    hide TryEnds;
    assert PlaysTry(s, num, t, last, end);
  }

  /** The attempts fit the step system, with other handlers' steps before each of them. */
  ghost predicate PlaysTries(s: TaskState, tries: seq<TaskCreation.SyncAttempt>, i: nat, n: nat, pauses: seq<Pause>)
    requires i < n <= |tries| && FreshTokens(s)
    decreases n - i
  {
    && i < |pauses| && RunFrom(s, pauses[i].steps, pauses[i].left) && AtTry(pauses[i].left, i + 1, tries[i])
    && (RunKeepsTokens(s, pauses[i].steps, pauses[i].left);
        var res := LaunchOutcome(tries[i].seen, i + 1, tries[i].token, tries[i].attempt).1;
        !TaskCreation.EndsLoop(res) && i + 1 < n ==>
          PlaysTries(TryEnd(pauses[i].left, i + 1, tries[i], false), tries, i + 1, n, pauses))
  }

  /** Every run of CreateTask's attempts, with any steps of the other handlers in between, is a run of the
      step system that ends with creation returned, in the world the loop and its final write leave. */
  lemma {:induction false} CreationIsRun(s: TaskState, tries: seq<TaskCreation.SyncAttempt>, i: nat, n: nat,
                                         pauses: seq<Pause>)
    returns (steps: seq<Step>, end: TaskState)
    requires i < n <= |tries| && FreshTokens(s) && PlaysTries(s, tries, i, n, pauses)
    ensures RunFrom(s, steps, end) && end.creator == Returned
    ensures var loop := TaskCreation.Attempts(tries, i, n);
            end.world == loop.world.(row := TaskCreation.Concluded(loop.world.row, loop.last))
    decreases n - i
  {
    hide LaunchOutcome;
    hide Next;
    hide AtTry;
    hide FreshTokens;
    var pause := pauses[i];
    RunKeepsTokens(s, pause.steps, pause.left);
    var (w, res) := LaunchOutcome(tries[i].seen, i + 1, tries[i].token, tries[i].attempt);
    var stops := TaskCreation.EndsLoop(res) || i + 1 == n;
    var mid := TryEnd(pause.left, i + 1, tries[i], i + 1 == n);
    var try :| RunFrom(pause.left, try, mid);
    RunThen(s, pause.steps, pause.left, try, mid);
    if stops {
      steps, end := pause.steps + try, mid;
    } else {
      var more;
      more, end := CreationIsRun(mid, tries, i + 1, n, pauses);
      RunThen(s, pause.steps + try, mid, more, end);
      steps := pause.steps + try + more;
    }
  }
}
