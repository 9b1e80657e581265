/**
 What every run of a task keeps: at most one instance is created when lookups have settled, success is
 truthful, and, when a start waits for the launch call in flight, success is final and recorded attempt
 numbers strictly increase.
 */
module TaskLifeSafety {
  import opened Prelude
  import opened LaunchErrors
  import opened LaunchAttempt
  import opened TaskWorker
  import opened TaskLife

  /** An OCID that LaunchInstance returns for the request `token` is the one the token created. */
  ghost predicate HonestReply(s: TaskState, token: Token, reply: Reply) {
    reply.err.None? && reply.ocid.Some? ==>
      token in s.world.cloud.tokens && reply.ocid.value == s.world.cloud.tokens[token]
  }

  /** The step gets as far as the lookup before a launch. */
  predicate LooksUp(s: TaskState, e: Step)
    requires Enabled(s, e)
  {
    match e
    case DoPoll(h, choice, _) => !s.workers[h].cancelled && s.world.row.status == Running && choice.Try?
    case DoCreateTry(giveUp, _) => giveUp.None?
    case _ => false
  }

  /** The lookup answers, unless no instance exists yet, and the requests sent earlier have landed or been
      lost by then. */
  ghost predicate Settled(s: TaskState, e: Step)
    requires Enabled(s, e)
  {
    LooksUp(s, e) ==> (e.listed || s.world.cloud.instances == []) && s.pending == {}
  }

  ghost predicate HonestStep(s: TaskState, e: Step)
    requires Enabled(s, e)
  {
    match e
    case DoReturn(h, reply, _, _) => HonestReply(s, s.workers[h].pc.token, reply)
    case DoCreateReturn(reply, _, _, _) => HonestReply(s, s.creator.token, reply)
    case _ => true
  }

  /** The start handler lets the request through: no refusal by status, and the account checks pass. */
  predicate Accepted(s: TaskState, admitted: bool) {
    var status := s.world.row.status;
    admitted && status !in {Success, Creating} && !(status == Running && IsTaskActive(s))
  }

  /** No launch call of the task is waiting for its answer, and CreateTask has returned. */
  ghost predicate Calm(s: TaskState) {
    s.creator.Returned? && forall h :: h in s.workers ==> !s.workers[h].pc.InFlight?
  }

  /** A worker is started only when the task is calm; a cancelled one may still be asleep. */
  ghost predicate NoOverlap(s: TaskState, e: Step) {
    e.DoStart? && Accepted(s, e.admitted) && e.stored ==> Calm(s)
  }

  /** A run in which a start waits for the launch call in flight; nothing else is assumed. */
  ghost predicate OrderlyRun(s: TaskState, steps: seq<Step>, end: TaskState)
    decreases |steps|
  {
    if steps == [] then end == s
    else Enabled(s, steps[0]) && NoOverlap(s, steps[0]) && OrderlyRun(Next(s, steps[0]), steps[1..], end)
  }

  // ----- one actor at a time -----

  /** Beside a worker that waits for its answer all others are cancelled and asleep or on their way out,
      and there is no worker while CreateTask is at work. */
  ghost predicate OneActor(s: TaskState) {
    && RegistryAgrees(s)
    && (forall g, h :: g in s.workers && h in s.workers && h != g && s.workers[g].pc.InFlight? ==>
          s.workers[h].cancelled && !s.workers[h].pc.InFlight?)
    && (!s.creator.Returned? ==> s.workers == map[])
  }

  lemma ActorStep(s: TaskState, e: Step)
    requires OneActor(s) && Enabled(s, e) && NoOverlap(s, e)
    ensures OneActor(Next(s, e))
  {
    hide TaskLife.Poll;
    hide Return;
    hide Finish;
    hide Lookup;
    StepKeepsRegistry(s, e);
    if e.DoPoll? {
      ActorPoll(s, e.h, e.choice, e.listed);
    } else if e.DoReturn? {
      ActorReturn(s, e.h, e.reply, e.lookups, e.spent);
    }
  }

  lemma ActorPoll(s: TaskState, h: Handle, choice: Choice, listed: bool)
    requires OneActor(s) && h in s.workers && s.workers[h].pc.AtTop?
    ensures OneActor(TaskLife.Poll(s, h, choice, listed))
  {
    PollKeepsRegistry(s, h, choice, listed);
    hide RegistryAgrees;
    hide Lookup;
    hide AfterAttempt;
    hide ApplyChoice;
    assert !s.workers[h].cancelled ==> forall g :: g in s.workers && g != h ==> !s.workers[g].pc.InFlight?;
  }

  lemma ActorReturn(s: TaskState, h: Handle, reply: Reply, lookups: seq<bool>, spent: bool)
    requires OneActor(s) && h in s.workers && s.workers[h].pc.InFlight?
    ensures OneActor(Return(s, h, reply, lookups, spent))
  {
    ReturnKeepsRegistry(s, h, reply, lookups, spent);
    hide RegistryAgrees;
    hide Finish;
    hide AfterAttempt;
  }

  // ----- success is final -----

  ghost predicate SuccessStands(s: TaskState) {
    s.world.row.status == Success ==> Calm(s)
  }

  /** From s to s' a success and its OCID are kept. */
  ghost predicate KeepsSuccess(s: TaskState, s': TaskState) {
    s.world.row.status == Success ==> s'.world.row.status == Success && s'.world.row.ocid == s.world.row.ocid
  }

  lemma SuccessStepElsewhere(s: TaskState, e: Step)
    requires OneActor(s) && SuccessStands(s) && Enabled(s, e) && NoOverlap(s, e)
    requires !e.DoPoll? && !e.DoReturn? && !e.DoCreateTry? && !e.DoCreateReturn?
    ensures SuccessStands(Next(s, e)) && KeepsSuccess(s, Next(s, e))
  {
  }

  lemma SuccessPoll(s: TaskState, h: Handle, choice: Choice, listed: bool)
    requires OneActor(s) && SuccessStands(s) && h in s.workers && s.workers[h].pc.AtTop?
    ensures SuccessStands(TaskLife.Poll(s, h, choice, listed)) && KeepsSuccess(s, TaskLife.Poll(s, h, choice, listed))
  {
    hide Lookup;
  }

  lemma SuccessReturn(s: TaskState, h: Handle, reply: Reply, lookups: seq<bool>, spent: bool)
    requires OneActor(s) && SuccessStands(s) && h in s.workers && s.workers[h].pc.InFlight?
    ensures SuccessStands(Return(s, h, reply, lookups, spent)) && KeepsSuccess(s, Return(s, h, reply, lookups, spent))
  {
    FinishRow(s.world, s.workers[h].pc.num, reply, lookups, !s.workers[h].cancelled);
    hide Finish;
  }

  lemma SuccessCreation(s: TaskState, e: Step)
    requires OneActor(s) && SuccessStands(s) && Enabled(s, e) && (e.DoCreateTry? || e.DoCreateReturn?)
    ensures SuccessStands(Next(s, e)) && KeepsSuccess(s, Next(s, e))
  {
    if e.DoCreateReturn? {
      FinishRow(s.world, s.creator.num, e.reply, e.lookups, e.live);
    }
    hide Finish;
    hide Lookup;
  }

  /** Settling a call writes no status and no OCID. */
  lemma FinishRow(w: World, num: nat, reply: Reply, lookups: seq<bool>, live: bool)
    ensures var (after, res) := Finish(w, num, reply.ocid, reply.err, lookups, live);
            after.cloud == w.cloud && (after.row == w.row || after.row == w.row.(retries := num))
  {
    hide Settle;
  }

  lemma SuccessStep(s: TaskState, e: Step)
    requires OneActor(s) && SuccessStands(s) && Enabled(s, e) && NoOverlap(s, e)
    ensures SuccessStands(Next(s, e)) && KeepsSuccess(s, Next(s, e))
  {
    if e.DoPoll? {
      SuccessPoll(s, e.h, e.choice, e.listed);
    } else if e.DoReturn? {
      SuccessReturn(s, e.h, e.reply, e.lookups, e.spent);
    } else if e.DoCreateTry? || e.DoCreateReturn? {
      SuccessCreation(s, e);
    } else {
      SuccessStepElsewhere(s, e);
    }
  }

  lemma {:induction false} SuccessRun(s: TaskState, steps: seq<Step>, end: TaskState)
    requires OneActor(s) && SuccessStands(s) && OrderlyRun(s, steps, end)
    ensures OneActor(end) && SuccessStands(end) && KeepsSuccess(s, end)
    decreases |steps|
  {
    hide Next;
    if steps != [] {
      ActorStep(s, steps[0]);
      SuccessStep(s, steps[0]);
      SuccessRun(Next(s, steps[0]), steps[1..], end);
    }
  }

  /** Success is final: from a new task on, once reached, no run of worker, start, stop, lockdown, sweep,
      account-pause, panic or restart steps leaves it or changes its OCID, whatever the lookups and the
      calls answer, if a start waits for the launch call in flight. */
  lemma SuccessIsFinal(maxRetries: nat, before: seq<Step>, mid: TaskState, after: seq<Step>, end: TaskState)
    requires OrderlyRun(NewTask(maxRetries), before, mid) && mid.world.row.status == Success
    requires OrderlyRun(mid, after, end)
    ensures end.world.row.status == Success && end.world.row.ocid == mid.world.row.ocid
  {
    SuccessRun(NewTask(maxRetries), before, mid);
    SuccessRun(mid, after, end);
  }

  // ----- attempt numbers -----

  ghost predicate Increasing(history: seq<Attempt>) {
    forall i, j :: 0 <= i < j < |history| ==> history[i].num < history[j].num
  }

  function LastNum(history: seq<Attempt>): nat {
    if history == [] then 0 else history[|history| - 1].num
  }

  /** Numbers recorded so far are behind the stored counter, and behind any attempt in flight, which is
      one ahead of the counter at most. */
  ghost predicate NumbersAhead(s: TaskState) {
    && Increasing(s.world.history)
    && LastNum(s.world.history) <= s.world.row.retries
    && (forall h :: h in s.workers && s.workers[h].pc.InFlight? ==>
          LastNum(s.world.history) < s.workers[h].pc.num && s.world.row.retries <= s.workers[h].pc.num
          && s.workers[h].pc.num <= s.world.row.retries + 1)
    && (s.creator.Working? ==> s.world.row.retries < s.creator.next)
    && (s.creator.Waiting? ==> s.world.row.retries < s.creator.num)
  }

  lemma AppendIncreasing(history: seq<Attempt>, num: nat, outcome: Recorded)
    requires Increasing(history) && LastNum(history) < num
    ensures Increasing(history + [Attempt(num, outcome)]) && LastNum(history + [Attempt(num, outcome)]) == num
  {
  }

  /** Settling attempt `num` stores its number whenever it records it. */
  lemma FinishNumbers(w: World, num: nat, reply: Reply, lookups: seq<bool>, live: bool)
    requires Increasing(w.history) && LastNum(w.history) < num
    ensures var (after, res) := Finish(w, num, reply.ocid, reply.err, lookups, live);
            && Increasing(after.history) && LastNum(after.history) <= num
            && (after.row.retries == num || after == w)
            && (!res.success && !res.category.Cancelled? ==> after.row.retries == num)
  {
    hide Settle;
    var (after, res) := Finish(w, num, reply.ocid, reply.err, lookups, live);
    if res.success {
      AppendIncreasing(w.history, num, Launched);
    } else {
      AppendIncreasing(w.history, num, Refused(res.category));
    }
  }

  lemma NumberStepElsewhere(s: TaskState, e: Step)
    requires OneActor(s) && NumbersAhead(s) && Enabled(s, e) && NoOverlap(s, e)
    requires !e.DoPoll? && !e.DoReturn? && !e.DoCreateTry? && !e.DoCreateReturn?
    ensures NumbersAhead(Next(s, e))
  {
    hide Increasing;
    hide LastNum;
  }

  lemma NumberPoll(s: TaskState, h: Handle, choice: Choice, listed: bool)
    requires OneActor(s) && NumbersAhead(s) && h in s.workers && s.workers[h].pc.AtTop?
    ensures NumbersAhead(TaskLife.Poll(s, h, choice, listed))
  {
    hide Lookup;
  }

  lemma NumberReturn(s: TaskState, h: Handle, reply: Reply, lookups: seq<bool>, spent: bool)
    requires OneActor(s) && NumbersAhead(s) && h in s.workers && s.workers[h].pc.InFlight?
    ensures NumbersAhead(Return(s, h, reply, lookups, spent))
  {
    FinishNumbers(s.world, s.workers[h].pc.num, reply, lookups, !s.workers[h].cancelled);
    hide Finish;
    hide Increasing;
  }

  lemma NumberCreation(s: TaskState, e: Step)
    requires OneActor(s) && NumbersAhead(s) && Enabled(s, e) && (e.DoCreateTry? || e.DoCreateReturn?)
    ensures NumbersAhead(Next(s, e))
  {
    if e.DoCreateReturn? {
      FinishNumbers(s.world, s.creator.num, e.reply, e.lookups, e.live);
    }
    hide Finish;
    hide Lookup;
    hide Increasing;
  }

  lemma NumberStep(s: TaskState, e: Step)
    requires OneActor(s) && NumbersAhead(s) && Enabled(s, e) && NoOverlap(s, e)
    ensures NumbersAhead(Next(s, e))
  {
    if e.DoPoll? {
      NumberPoll(s, e.h, e.choice, e.listed);
    } else if e.DoReturn? {
      NumberReturn(s, e.h, e.reply, e.lookups, e.spent);
    } else if e.DoCreateTry? || e.DoCreateReturn? {
      NumberCreation(s, e);
    } else {
      NumberStepElsewhere(s, e);
    }
  }

  lemma {:induction false} NumberRun(s: TaskState, steps: seq<Step>, end: TaskState)
    requires OneActor(s) && NumbersAhead(s) && OrderlyRun(s, steps, end)
    ensures NumbersAhead(end)
    decreases |steps|
  {
    hide Next;
    if steps != [] {
      ActorStep(s, steps[0]);
      NumberStep(s, steps[0]);
      NumberRun(Next(s, steps[0]), steps[1..], end);
    }
  }

  /** Recorded attempt numbers strictly increase over the synchronous attempts and all later worker
      runs, and never pass the stored counter, whatever the lookups and the calls answer, if a start
      waits for the launch call in flight. */
  lemma HistoryStrictlyIncreases(maxRetries: nat, steps: seq<Step>, end: TaskState)
    requires OrderlyRun(NewTask(maxRetries), steps, end)
    ensures forall i, j :: 0 <= i < j < |end.world.history| ==> end.world.history[i].num < end.world.history[j].num
    ensures forall i :: 0 <= i < |end.world.history| ==> end.world.history[i].num <= end.world.row.retries
  {
    NumberRun(NewTask(maxRetries), steps, end);
    var history := end.world.history;
    forall i | 0 <= i < |history| ensures history[i].num <= end.world.row.retries {
      assert history[i].num <= history[|history| - 1].num;
    }
  }

  // ----- at most one creation -----

  /** Instances that exist plus requests that may still land: never more than one. */
  ghost predicate OneInstance(s: TaskState) {
    var cloud := s.world.cloud;
    && CloudOk(cloud)
    && |cloud.instances| <= 1
    && (s.pending != {} ==> cloud.instances == [])
    && (forall t, u :: t in s.pending && u in s.pending ==> t == u)
    && (forall i :: 0 <= i < |cloud.instances| ==> cloud.instances[i].live)
    && (forall t :: t in cloud.tokens ==> t < s.nextToken)
    && (forall t :: t in s.pending ==> t < s.nextToken && t !in cloud.tokens)
  }

  lemma LookupInOne(s: TaskState)
    requires OneInstance(s)
    ensures var found := FirstLive(s.world.cloud.instances);
            && (found.Some? <==> |s.world.cloud.instances| == 1)
            && (found.Some? ==> found == Some(0))
  {
    LookupFindsLive(s.world.cloud);
    if |s.world.cloud.instances| == 1 {
      assert s.world.cloud.instances[0].live;
    }
  }

  ghost predicate SettledRun(s: TaskState, steps: seq<Step>, end: TaskState)
    decreases |steps|
  {
    if steps == [] then end == s
    else Enabled(s, steps[0]) && Settled(s, steps[0]) && SettledRun(Next(s, steps[0]), steps[1..], end)
  }

  lemma InstanceStepElsewhere(s: TaskState, e: Step)
    requires OneInstance(s) && Enabled(s, e)
    requires !e.DoPoll? && !e.DoReturn? && !e.DoCreateTry? && !e.DoCreateReturn? && !e.DoLand?
    ensures OneInstance(Next(s, e))
  {
  }

  lemma InstanceLand(s: TaskState, token: Token)
    requires OneInstance(s) && token in s.pending
    ensures OneInstance(Next(s, DoLand(token)))
  {
  }

  lemma InstancePoll(s: TaskState, h: Handle, choice: Choice, listed: bool)
    requires OneInstance(s) && Enabled(s, DoPoll(h, choice, listed)) && Settled(s, DoPoll(h, choice, listed))
    ensures OneInstance(TaskLife.Poll(s, h, choice, listed))
  {
    LookupInOne(s);
    hide FirstLive;
    hide AfterAttempt;
    hide ApplyChoice;
  }

  lemma InstanceCreateTry(s: TaskState, giveUp: Option<Category>, listed: bool)
    requires OneInstance(s) && s.creator.Working? && Settled(s, DoCreateTry(giveUp, listed))
    ensures OneInstance(CreateTry(s, giveUp, listed))
  {
    LookupInOne(s);
    hide FirstLive;
  }

  lemma InstanceReturn(s: TaskState, e: Step)
    requires OneInstance(s) && Enabled(s, e) && (e.DoReturn? || e.DoCreateReturn?)
    ensures OneInstance(Next(s, e))
  {
    if e.DoReturn? {
      FinishRow(s.world, s.workers[e.h].pc.num, e.reply, e.lookups, !s.workers[e.h].cancelled);
    } else {
      FinishRow(s.world, s.creator.num, e.reply, e.lookups, e.live);
    }
    hide Finish;
    hide AfterAttempt;
  }

  lemma InstanceStep(s: TaskState, e: Step)
    requires OneInstance(s) && Enabled(s, e) && Settled(s, e)
    ensures OneInstance(Next(s, e))
  {
    if e.DoPoll? {
      InstancePoll(s, e.h, e.choice, e.listed);
    } else if e.DoCreateTry? {
      InstanceCreateTry(s, e.giveUp, e.listed);
    } else if e.DoReturn? || e.DoCreateReturn? {
      InstanceReturn(s, e);
    } else if e.DoLand? {
      InstanceLand(s, e.token);
    } else {
      InstanceStepElsewhere(s, e);
    }
  }

  lemma {:induction false} InstanceRun(s: TaskState, steps: seq<Step>, end: TaskState)
    requires OneInstance(s) && SettledRun(s, steps, end)
    ensures OneInstance(end)
    decreases |steps|
  {
    if steps != [] {
      InstanceStep(s, steps[0]);
      InstanceRun(Next(s, steps[0]), steps[1..], end);
    }
  }

  /** At most one creation: from a new task on, whatever mix of attempts, lost answers, late requests,
      refusals, stops, overlapping restarts and crashes follows, the cloud holds at most one instance
      of the task's name, provided each lookup before a launch sees the requests sent before it, and
      answers once an instance exists. */
  lemma AtMostOneCreation(maxRetries: nat, steps: seq<Step>, end: TaskState)
    requires SettledRun(NewTask(maxRetries), steps, end)
    ensures |end.world.cloud.instances| <= 1
    ensures end.pending != {} ==> end.world.cloud.instances == []
  {
    InstanceRun(NewTask(maxRetries), steps, end);
  }

  // ----- success is truthful -----

  /** Lookups have settled and replies are honest; starts, stops and crashes come as they like. */
  ghost predicate HonestRun(s: TaskState, steps: seq<Step>, end: TaskState)
    decreases |steps|
  {
    if steps == [] then end == s
    else Enabled(s, steps[0]) && Settled(s, steps[0]) && HonestStep(s, steps[0])
         && HonestRun(Next(s, steps[0]), steps[1..], end)
  }

  ghost predicate Named(s: TaskState) {
    s.world.row.status == Success ==> s.world.row.ocid == Some(0) && |s.world.cloud.instances| == 1
  }

  lemma SettleInOne(s: TaskState, reply: Reply, token: Token, lookups: seq<bool>)
    requires OneInstance(s) && HonestReply(s, token, reply)
    ensures var (id, error) := Settle(s.world.cloud, reply.ocid, reply.err, lookups);
            error.None? && id.Some? ==> id == Some(0) && |s.world.cloud.instances| == 1
  {
    LookupInOne(s);
    ConfirmIsLookup(s.world.cloud, lookups, 0);
  }

  lemma FinishNames(s: TaskState, num: nat, reply: Reply, token: Token, lookups: seq<bool>, live: bool)
    requires OneInstance(s) && HonestReply(s, token, reply)
    ensures var res := Finish(s.world, num, reply.ocid, reply.err, lookups, live).1;
            res.success ==> res.ocid == Some(0) && |s.world.cloud.instances| == 1
  {
    SettleInOne(s, reply, token, lookups);
    hide Settle;
  }

  lemma NameReturn(s: TaskState, e: Step)
    requires OneInstance(s) && Named(s) && Enabled(s, e) && HonestStep(s, e) && (e.DoReturn? || e.DoCreateReturn?)
    ensures Named(Next(s, e))
  {
    if e.DoReturn? {
      var worker := s.workers[e.h];
      FinishRow(s.world, worker.pc.num, e.reply, e.lookups, !worker.cancelled);
      FinishNames(s, worker.pc.num, e.reply, worker.pc.token, e.lookups, !worker.cancelled);
    } else {
      FinishRow(s.world, s.creator.num, e.reply, e.lookups, e.live);
      FinishNames(s, s.creator.num, e.reply, s.creator.token, e.lookups, e.live);
    }
    hide Finish;
  }

  lemma NameStep(s: TaskState, e: Step)
    requires OneInstance(s) && Named(s) && Enabled(s, e) && HonestStep(s, e)
    ensures Named(Next(s, e))
  {
    if e.DoReturn? || e.DoCreateReturn? {
      NameReturn(s, e);
    } else {
      LookupInOne(s);
      hide Return;
      hide CreateReturn;
      hide FirstLive;
    }
  }

  lemma {:induction false} NameRun(s: TaskState, steps: seq<Step>, end: TaskState)
    requires OneInstance(s) && Named(s) && HonestRun(s, steps, end)
    ensures OneInstance(end) && Named(end)
    decreases |steps|
  {
    hide Next;
    if steps != [] {
      InstanceStep(s, steps[0]);
      NameStep(s, steps[0]);
      NameRun(Next(s, steps[0]), steps[1..], end);
    }
  }

  /** Success is truthful: a task marked success names the one live instance the cloud holds. */
  lemma SuccessNamesTheInstance(maxRetries: nat, steps: seq<Step>, end: TaskState)
    requires HonestRun(NewTask(maxRetries), steps, end) && end.world.row.status == Success
    ensures |end.world.cloud.instances| == 1 && end.world.cloud.instances[0].live
    ensures end.world.row.ocid == Some(end.world.cloud.instances[0].ocid)
  {
    NameRun(NewTask(maxRetries), steps, end);
  }

  // ----- success names a live instance, whatever the lookups answer -----

  /** Nobody terminates the task's instances. */
  ghost predicate AllLive(s: TaskState) {
    forall i :: 0 <= i < |s.world.cloud.instances| ==> s.world.cloud.instances[i].live
  }

  lemma LiveStep(s: TaskState, e: Step)
    requires FreshTokens(s) && AllLive(s) && Enabled(s, e)
    ensures FreshTokens(Next(s, e)) && AllLive(Next(s, e))
  {
    StepKeepsTokens(s, e);
    hide Lookup;
    if e.DoReturn? {
      FinishKeepsCloud(s.world, s.workers[e.h].pc.num, e.reply, e.lookups, !s.workers[e.h].cancelled);
      hide Finish;
    } else if e.DoCreateReturn? {
      FinishKeepsCloud(s.world, s.creator.num, e.reply, e.lookups, e.live);
      hide Finish;
    } else {
      hide Finish;
      hide FreshTokens;
    }
  }

  /** What a lookup finds, and what an honest call settles to, is a live instance. */
  lemma LookupNamesLive(s: TaskState)
    requires FreshTokens(s)
    ensures FirstLive(s.world.cloud.instances).Some? ==> IsLive(s.world.cloud, FirstLive(s.world.cloud.instances).value)
  {
    LookupFindsLive(s.world.cloud);
  }

  lemma SettleNamesLive(s: TaskState, token: Token, reply: Reply, lookups: seq<bool>)
    requires FreshTokens(s) && AllLive(s) && HonestReply(s, token, reply)
    ensures var (id, error) := Settle(s.world.cloud, reply.ocid, reply.err, lookups);
            error.None? && id.Some? ==> IsLive(s.world.cloud, id.value)
  {
    LookupNamesLive(s);
    ConfirmIsLookup(s.world.cloud, lookups, 0);
  }

  lemma FinishNamesLive(s: TaskState, num: nat, reply: Reply, token: Token, lookups: seq<bool>, live: bool)
    requires FreshTokens(s) && AllLive(s) && HonestReply(s, token, reply)
    ensures var res := Finish(s.world, num, reply.ocid, reply.err, lookups, live).1;
            res.success ==> res.ocid.Some? && IsLive(s.world.cloud, res.ocid.value)
  {
    SettleNamesLive(s, token, reply, lookups);
    hide Settle;
  }

  ghost predicate NamesLive(s: TaskState) {
    s.world.row.status == Success ==> s.world.row.ocid.Some? && IsLive(s.world.cloud, s.world.row.ocid.value)
  }

  lemma NamesLiveReturn(s: TaskState, e: Step)
    requires FreshTokens(s) && AllLive(s) && NamesLive(s) && Enabled(s, e) && HonestStep(s, e)
    requires e.DoReturn? || e.DoCreateReturn?
    ensures NamesLive(Next(s, e))
  {
    if e.DoReturn? {
      var worker := s.workers[e.h];
      FinishRow(s.world, worker.pc.num, e.reply, e.lookups, !worker.cancelled);
      FinishNamesLive(s, worker.pc.num, e.reply, worker.pc.token, e.lookups, !worker.cancelled);
    } else {
      FinishRow(s.world, s.creator.num, e.reply, e.lookups, e.live);
      FinishNamesLive(s, s.creator.num, e.reply, s.creator.token, e.lookups, e.live);
    }
    hide Finish;
    hide FreshTokens;
    hide AllLive;
  }

  lemma NamesLiveStep(s: TaskState, e: Step)
    requires FreshTokens(s) && AllLive(s) && NamesLive(s) && Enabled(s, e) && HonestStep(s, e)
    ensures NamesLive(Next(s, e))
  {
    if e.DoReturn? || e.DoCreateReturn? {
      NamesLiveReturn(s, e);
    } else {
      LookupNamesLive(s);
      hide Return;
      hide CreateReturn;
      hide FirstLive;
      hide FreshTokens;
    }
  }

  /** Replies are honest; nothing is assumed of the lookups and of requests on their way. */
  ghost predicate TrustedRun(s: TaskState, steps: seq<Step>, end: TaskState)
    decreases |steps|
  {
    if steps == [] then end == s
    else Enabled(s, steps[0]) && HonestStep(s, steps[0]) && TrustedRun(Next(s, steps[0]), steps[1..], end)
  }

  lemma {:induction false} NamesLiveRun(s: TaskState, steps: seq<Step>, end: TaskState)
    requires FreshTokens(s) && AllLive(s) && NamesLive(s) && TrustedRun(s, steps, end)
    ensures NamesLive(end)
    decreases |steps|
  {
    hide Next;
    hide FreshTokens;
    if steps != [] {
      LiveStep(s, steps[0]);
      NamesLiveStep(s, steps[0]);
      NamesLiveRun(Next(s, steps[0]), steps[1..], end);
    }
  }

  /** Even with failing lookups, late requests and overlapping workers a success names a live instance; only
      its being the only one needs more. */
  lemma SuccessNamesALiveInstance(maxRetries: nat, steps: seq<Step>, end: TaskState)
    requires TrustedRun(NewTask(maxRetries), steps, end) && end.world.row.status == Success
    ensures end.world.row.ocid.Some? && IsLive(end.world.cloud, end.world.row.ocid.value)
  {
    NamesLiveRun(NewTask(maxRetries), steps, end);
  }

  // ----- stopping during a launch -----

  /** Steps that leave worker h waiting for its answer: no restart of the process, and h neither
      crashes nor returns. Lookups may fail and requests may be late. */
  ghost predicate SparingRun(s: TaskState, steps: seq<Step>, end: TaskState, h: Handle)
    decreases |steps|
  {
    if steps == [] then end == s
    else
      var e := steps[0];
      && Enabled(s, e) && !e.DoRestart? && !(e.DoCrash? && e.h == h) && !(e.DoReturn? && e.h == h)
      && SparingRun(Next(s, e), steps[1..], end, h)
  }

  ghost predicate Waits(s: TaskState, h: Handle, pc: Pc) {
    h in s.workers && h < s.nextHandle && s.workers[h].pc == pc && pc.InFlight?
  }

  lemma WaitStep(s: TaskState, e: Step, h: Handle, pc: Pc)
    requires Waits(s, h, pc) && Enabled(s, e)
    requires !e.DoRestart? && !(e.DoCrash? && e.h == h) && !(e.DoReturn? && e.h == h)
    ensures Waits(Next(s, e), h, pc)
  {
    hide Finish;
    hide Lookup;
    hide AfterAttempt;
    hide ApplyChoice;
  }

  lemma {:induction false} WaitRun(s: TaskState, steps: seq<Step>, end: TaskState, h: Handle, pc: Pc)
    requires FreshTokens(s) && AllLive(s) && Waits(s, h, pc) && SparingRun(s, steps, end, h)
    ensures FreshTokens(end) && AllLive(end) && Waits(end, h, pc)
    decreases |steps|
  {
    hide Next;
    hide FreshTokens;
    hide AllLive;
    if steps != [] {
      LiveStep(s, steps[0]);
      WaitStep(s, steps[0], h, pc);
      WaitRun(Next(s, steps[0]), steps[1..], end, h, pc);
    }
  }

  lemma {:induction false} LiveRun(s: TaskState, steps: seq<Step>, end: TaskState)
    requires FreshTokens(s) && AllLive(s) && RunFrom(s, steps, end)
    ensures FreshTokens(end) && AllLive(end)
    decreases |steps|
  {
    hide Next;
    hide FreshTokens;
    hide AllLive;
    if steps != [] {
      LiveStep(s, steps[0]);
      LiveRun(Next(s, steps[0]), steps[1..], end);
    }
  }

  /** The call answers with an OCID, or leaves its outcome open and a confirmation lookup answers. */
  ghost predicate NamesInstance(reply: Reply, lookups: seq<bool>) {
    (reply.err.None? && reply.ocid.Some?) || (OutcomeUnknown(reply.err) && ConfirmAnswers(lookups))
  }

  /** The call's answer settles to a live instance. */
  lemma AnswerSettles(s: TaskState, token: Token, reply: Reply, lookups: seq<bool>) returns (id: Ocid)
    requires FreshTokens(s) && AllLive(s) && s.world.cloud.instances != [] && HonestReply(s, token, reply)
    requires NamesInstance(reply, lookups)
    ensures Settle(s.world.cloud, reply.ocid, reply.err, lookups) == (Some(id), None)
    ensures IsLive(s.world.cloud, id)
    ensures reply.err.None? && reply.ocid.Some? ==> id == reply.ocid.value
  {
    LookupFindsLive(s.world.cloud);
    assert s.world.cloud.instances[0].live;
    if reply.err.Some? || reply.ocid.None? {
      var k :| 0 <= k < |lookups| && k <= 2 && lookups[k];
      ConfirmFinds(s.world.cloud, lookups, 0, k);
      id := FirstLive(s.world.cloud.instances).value;
    } else {
      id := reply.ocid.value;
    }
  }

  lemma ReturnSucceeds(s: TaskState, h: Handle, reply: Reply, lookups: seq<bool>, spent: bool, id: Ocid)
    requires h in s.workers && s.workers[h].pc.InFlight?
    requires Settle(s.world.cloud, reply.ocid, reply.err, lookups) == (Some(id), None)
    ensures var row := Return(s, h, reply, lookups, spent).world.row; row.status == Success && row.ocid == Some(id)
  {
    hide Settle;
  }

  /** An in-flight launch still takes a stopped task to success: whatever happened before the stop and
      happens between it and the answer (other than the worker's own end), if an instance exists when the
      call returns, with its OCID or with its outcome unknown, the cancelled worker writes success and the
      OCID of a live instance. */
  lemma StoppedTaskStillSucceeds(maxRetries: nat, before: seq<Step>, s: TaskState, h: Handle, between: seq<Step>,
                                 t: TaskState, reply: Reply, lookups: seq<bool>, spent: bool)
    requires RunFrom(NewTask(maxRetries), before, s) && h in s.workers && s.workers[h].pc.InFlight?
    requires SparingRun(StopTask(s), between, t, h)
    requires t.world.cloud.instances != [] && HonestReply(t, s.workers[h].pc.token, reply)
    requires NamesInstance(reply, lookups)
    ensures s.world.row.status == Running ==> StopTask(s).world.row.status == Stopped
    ensures !IsTaskActive(StopTask(s))
    ensures Enabled(t, DoReturn(h, reply, lookups, spent))
    ensures var row := Next(t, DoReturn(h, reply, lookups, spent)).world.row;
            && row.status == Success && row.ocid.Some? && IsLive(t.world.cloud, row.ocid.value)
            && (reply.err.None? && reply.ocid.Some? ==> row.ocid == reply.ocid)
            && (|t.world.cloud.instances| == 1 ==> row.ocid == Some(t.world.cloud.instances[0].ocid))
  {
    var pc := s.workers[h].pc;
    LiveRun(NewTask(maxRetries), before, s);
    RegistryAlwaysAgrees(NewTask(maxRetries), before, s);
    LiveStep(s, DoStop);
    WaitStep(s, DoStop, h, pc);
    hide LaunchAttempt.Confirm;
    WaitRun(StopTask(s), between, t, h, pc);
    var id := AnswerSettles(t, pc.token, reply, lookups);
    ReturnSucceeds(t, h, reply, lookups, spent, id);
  }
}
