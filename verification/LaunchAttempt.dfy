/**
 One launch attempt for one task: look the display name up, send LaunchInstance under one retry
 token, settle a lost answer by looking the name up again, record the attempt.
 */
module LaunchAttempt {
  import opened Prelude
  import opened LaunchErrors

  type Ocid = nat
  type Token = nat

  datatype Status = Creating | Running | Success | Failed | Stopped

  datatype Row = Row(status: Status, ocid: Option<Ocid>, retries: nat, maxRetries: nat)

  /** The instances listed under the task's display name, and what each retry token created. */
  datatype Instance = Instance(ocid: Ocid, live: bool)
  datatype Cloud = Cloud(instances: seq<Instance>, tokens: map<Token, Ocid>)

  datatype Recorded = Launched | Refused(category: Category)
  datatype Attempt = Attempt(num: nat, outcome: Recorded)

  datatype World = World(cloud: Cloud, row: Row, history: seq<Attempt>)

  datatype AttemptResult = AttemptResult(success: bool, existed: bool, ocid: Option<Ocid>, category: Category)

  predicate HasLive(cloud: Cloud) {
    exists i :: 0 <= i < |cloud.instances| && cloud.instances[i].live
  }

  /** OCIDs are positions in the listing, so two instances never share one. */
  ghost predicate CloudOk(cloud: Cloud) {
    && (forall i :: 0 <= i < |cloud.instances| ==> cloud.instances[i].ocid == i)
    && (forall t :: t in cloud.tokens ==> cloud.tokens[t] < |cloud.instances|)
  }

  predicate IsLive(cloud: Cloud, ocid: Ocid) {
    ocid < |cloud.instances| && cloud.instances[ocid].live
  }

  function FirstLive(items: seq<Instance>): Option<Ocid> {
    if items == [] then None
    else if items[0].live then Some(items[0].ocid)
    else FirstLive(items[1..])
  }

  /** A launch request takes effect: one retry token creates at most one instance. */
  function Land(cloud: Cloud, token: Token): Cloud {
    if token in cloud.tokens then cloud
    else Cloud(cloud.instances + [Instance(|cloud.instances|, true)], cloud.tokens[token := |cloud.instances|])
  }

  /** What happens to one send of the request: an answer arrives (normally with the OCID), or the
      caller sees an error, the request having landed or not. */
  datatype Send = Answered(hasId: bool) | Errored(landed: bool, error: CallError)

  const MAX_SENDS := 3

  /** One LaunchInstance call: up to three sends under one token. `cut` is the error when the call
      ends between sends, or before the first one. */
  function Sends(cloud: Cloud, token: Token, sends: seq<Send>, n: nat, cut: CallError)
    : (Cloud, Option<Ocid>, Option<CallError>)
    decreases |sends|
  {
    if sends == [] then (cloud, None, Some(cut))
    else match sends[0]
      case Answered(hasId) =>
        var after := Land(cloud, token);
        (after, if hasId then Some(after.tokens[token]) else None, None)
      case Errored(landed, error) =>
        var after := if landed then Land(cloud, token) else cloud;
        if ShouldResend(error) && n < MAX_SENDS then Sends(after, token, sends[1..], n + 1, cut)
        else (after, None, Some(error))
  }

  /** The by-name confirmation: up to three lookups; `lookups[i]` says whether lookup i answers. */
  function Confirm(cloud: Cloud, lookups: seq<bool>, i: nat): Option<Ocid>
    decreases |lookups| - i
  {
    if i < |lookups| && lookups[i] && FirstLive(cloud.instances).Some? then FirstLive(cloud.instances)
    else if i >= 2 || i >= |lookups| then None
    else Confirm(cloud, lookups, i + 1)
  }

  /** The call's verdict once a lost answer has been looked up. */
  function Settle(cloud: Cloud, ocid: Option<Ocid>, err: Option<CallError>, lookups: seq<bool>)
    : (Option<Ocid>, Option<CallError>)
  {
    if (err.Some? || ocid.None?) && OutcomeUnknown(err) then
      match Confirm(cloud, lookups, 0)
      case Some(found) => (Some(found), None)
      case None => (ocid, if err.None? then Some(Transport(false)) else err)
    else (ocid, err)
  }

  /** Everything after the call has returned: confirmation, bookkeeping, classification. */
  function Finish(w: World, num: nat, ocid: Option<Ocid>, err: Option<CallError>, lookups: seq<bool>,
                  live: bool): (World, AttemptResult)
  {
    var (id, error) := Settle(w.cloud, ocid, err, lookups);
    if error.Some? && !live then (w, AttemptResult(false, false, None, Cancelled))
    else
      var counted := w.(row := w.row.(retries := num));
      if error.None? && id.Some? then
        (counted.(history := w.history + [Attempt(num, Launched)]), AttemptResult(true, false, id, CapacityFull))
      else
        var category := ClassifyError(error);
        if category.Cancelled? then (counted, AttemptResult(false, false, None, Cancelled))
        else (counted.(history := w.history + [Attempt(num, Refused(category))]),
            AttemptResult(false, false, None, category))
  }

  /** What the environment does during one attempt. `listed`: the first lookup answers; `liveBefore`
      and `liveAfter`: the task's context is live after that lookup and after the call. */
  datatype AttemptEnv = AttemptEnv(listed: bool, liveBefore: bool, sends: seq<Send>, cut: CallError, lookups: seq<bool>,
      liveAfter: bool)

  function Lookup(cloud: Cloud, listed: bool): Option<Ocid> {
    if listed then FirstLive(cloud.instances) else None
  }

  function LaunchOutcome(w: World, num: nat, token: Token, env: AttemptEnv): (World, AttemptResult) {
    match Lookup(w.cloud, env.listed)
    case Some(found) => (w, AttemptResult(true, true, Some(found), CapacityFull))
    case None =>
      if !env.liveBefore then (w, AttemptResult(false, false, None, Cancelled))
      else
        var (cloud, ocid, err) := Sends(w.cloud, token, env.sends, 1, env.cut);
        Finish(w.(cloud := cloud), num, ocid, err, env.lookups, env.liveAfter)
  }

  // ----- the imperative form -----

  method FindExistingInstance(items: seq<Instance>, listed: bool) returns (found: Option<Ocid>)
    ensures found == if listed then FirstLive(items) else None
  {
    if !listed {
      return None;
    }
    for i := 0 to |items|
      invariant FirstLive(items) == FirstLive(items[i..])
    {
      if !items[i].live {
        continue;
      }
      return Some(items[i].ocid);
    }
    return None;
  }

  method ConfirmLaunchedInstance(cloud: Cloud, lookups: seq<bool>) returns (found: Option<Ocid>)
    ensures found == Confirm(cloud, lookups, 0)
  {
    var i := 0;
    while true
      invariant i <= 2 && i <= |lookups|
      invariant Confirm(cloud, lookups, 0) == Confirm(cloud, lookups, i)
      decreases 3 - i
    {
      found := FindExistingInstance(cloud.instances, i < |lookups| && lookups[i]);
      if found.Some? {
        return;
      }
      if i >= 2 || i >= |lookups| {
        return None;
      }
      i := i + 1;
    }
  }

  /** The database row and attempt history of one task, next to the cloud's view of its name. */
  class LaunchSite {
    var cloud: Cloud
    var row: Row
    var history: seq<Attempt>

    function View(): World
      reads this
    {
      World(cloud, row, history)
    }

    constructor (w: World)
      ensures View() == w
    {
      cloud, row, history := w.cloud, w.row, w.history;
    }

    /** Other handlers have written the task, or the cloud has moved on. */
    method Observe(w: World)
      modifies this
      ensures View() == w
    {
      cloud, row, history := w.cloud, w.row, w.history;
    }

    method SetStatus(status: Status)
      modifies this`row
      ensures row == old(row).(status := status)
    {
      row := row.(status := status);
    }

    method SetRetries(num: nat)
      modifies this`row
      ensures row == old(row).(retries := num)
    {
      row := row.(retries := num);
    }

    method SetSuccess(ocid: Option<Ocid>)
      modifies this`row
      ensures row == old(row).(status := Success, ocid := ocid)
    {
      row := row.(status := Success, ocid := ocid);
    }

    method RecordAttempt(num: nat, outcome: Recorded)
      modifies this`history
      ensures history == old(history) + [Attempt(num, outcome)]
    {
      history := history + [Attempt(num, outcome)];
    }

    method AttemptLaunch(num: nat, token: Token, env: AttemptEnv) returns (res: AttemptResult)
      modifies this
      ensures (View(), res) == LaunchOutcome(old(View()), num, token, env)
    {
      res := AttemptResult(false, false, None, CapacityFull);
      var existing := FindExistingInstance(cloud.instances, env.listed);
      if existing.Some? {
        res := res.(success := true, existed := true, ocid := existing);
        return;
      }
      if !env.liveBefore {
        res := res.(category := Cancelled);
        return;
      }

      var (after, ocid, err) := Sends(cloud, token, env.sends, 1, env.cut);
      cloud := after;

      if (err.Some? || ocid.None?) && OutcomeUnknown(err) {
        var found := ConfirmLaunchedInstance(cloud, env.lookups);
        if found.Some? {
          ocid, err := found, None;
        } else if err.None? {
          err := Some(Transport(false));
        }
      }
      if err.Some? && !env.liveAfter {
        res := res.(category := Cancelled);
        return;
      }

      row := row.(retries := num);
      if err.None? && ocid.Some? {
        res := res.(success := true, ocid := ocid);
        RecordAttempt(num, Launched);
        return;
      }
      res := res.(category := ClassifyError(err));
      if res.category.Cancelled? {
        return;
      }
      RecordAttempt(num, Refused(res.category));
    }
  }

  // ----- what an attempt does to the cloud -----

  /** The sends the call really makes, and whether one of them lands. */
  ghost predicate SendsLand(sends: seq<Send>, n: nat)
    decreases |sends|
  {
    sends != [] &&
    match sends[0]
    case Answered(_) => true
    case Errored(landed, error) => landed || (ShouldResend(error) && n < MAX_SENDS && SendsLand(sends[1..], n + 1))
  }

  /** A definite error means that send created nothing. */
  ghost predicate DefiniteCreatesNothing(sends: seq<Send>) {
    forall i :: 0 <= i < |sends| && sends[i].Errored? && sends[i].landed ==> OutcomeUnknown(Some(sends[i].error))
  }

  /** Once the token has created the instance, a resend is answered with it or is lost again. */
  ghost predicate ResendHonoursToken(sends: seq<Send>) {
    forall i, j :: 0 <= i < j < |sends| && sends[i].Errored? && sends[i].landed && sends[j].Errored?
      ==> OutcomeUnknown(Some(sends[j].error))
  }

  lemma FirstLiveIsLive(items: seq<Instance>)
    ensures FirstLive(items).Some? <==> exists i :: 0 <= i < |items| && items[i].live
    ensures FirstLive(items).Some? ==>
              exists i :: 0 <= i < |items| && items[i].live && FirstLive(items).value == items[i].ocid
  {
    if items != [] {
      FirstLiveIsLive(items[1..]);
      if items[0].live {
      } else {
        forall i | 0 <= i < |items| && items[i].live
          ensures exists k :: 0 <= k < |items[1..]| && items[1..][k].live
        {
          assert items[1..][i - 1].live;
        }
        if FirstLive(items).Some? {
          var k :| 0 <= k < |items[1..]| && items[1..][k].live && FirstLive(items[1..]).value == items[1..][k].ocid;
          assert items[k + 1].live;
        }
      }
    }
  }

  lemma LookupFindsLive(cloud: Cloud)
    requires CloudOk(cloud)
    ensures FirstLive(cloud.instances).Some? <==> HasLive(cloud)
    ensures FirstLive(cloud.instances).Some? ==> IsLive(cloud, FirstLive(cloud.instances).value)
  {
    FirstLiveIsLive(cloud.instances);
  }

  /** Under one token a call appends exactly one live instance or none, whatever happens to its
      sends, and an OCID it returns is that instance's. */
  lemma {:induction false} SendsEffect(cloud: Cloud, token: Token, sends: seq<Send>, n: nat, cut: CallError)
    requires CloudOk(cloud)
    ensures var (after, ocid, err) := Sends(cloud, token, sends, n, cut);
            && CloudOk(after)
            && after == (if SendsLand(sends, n) then Land(cloud, token) else cloud)
            && (ocid.Some? ==> token in after.tokens && ocid.value == after.tokens[token] && err.None?)
            && (err.None? ==> SendsLand(sends, n))
    decreases |sends|
  {
    if sends != [] && sends[0].Errored? && ShouldResend(sends[0].error) && n < MAX_SENDS {
      var after := if sends[0].landed then Land(cloud, token) else cloud;
      SendsEffect(after, token, sends[1..], n + 1, cut);
    }
  }

  /** A call sends three times at most. */
  lemma SendsAtMostThree(cloud: Cloud, token: Token, sends: seq<Send>, cut: CallError)
    requires |sends| >= 3
    ensures Sends(cloud, token, sends, 1, cut) == Sends(cloud, token, sends[..3], 1, cut)
  {
    SendsNoMore(cloud, token, sends, 1, cut);
  }

  lemma {:induction false} SendsNoMore(cloud: Cloud, token: Token, sends: seq<Send>, n: nat, cut: CallError)
    requires 1 <= n <= 3 && |sends| >= 4 - n
    ensures Sends(cloud, token, sends, n, cut) == Sends(cloud, token, sends[..4 - n], n, cut)
    decreases 3 - n
  {
    if n < 3 && sends[0].Errored? {
      assert sends[..4 - n][1..] == sends[1..][..3 - n];
      SendsNoMore(if sends[0].landed then Land(cloud, token) else cloud, token, sends[1..], n + 1, cut);
    }
  }

  /** And it does send again, under the same token, as long as there is reason to: when the first two sends end
      on errors that may pass, the third one's answer is the call's. */
  lemma ThirdSendDecides(cloud: Cloud, token: Token, first: Send, second: Send, third: Send, cut: CallError)
    requires first.Errored? && ShouldResend(first.error) && second.Errored? && ShouldResend(second.error)
    ensures var (after, ocid, err) := Sends(cloud, token, [first, second, third], 1, cut);
            && (third.Answered? ==> err.None? && ocid.Some? == third.hasId)
            && (third.Errored? ==> err == Some(third.error) && ocid.None?)
  {
    var one := if first.landed then Land(cloud, token) else cloud;
    var two := if second.landed then Land(one, token) else one;
    assert [first, second, third][1..] == [second, third] && [second, third][1..] == [third];
    assert Sends(cloud, token, [first, second, third], 1, cut) == Sends(one, token, [second, third], 2, cut);
    assert Sends(one, token, [second, third], 2, cut) == Sends(two, token, [third], 3, cut);
  }

  /** With honest tokens a definite final error means nothing was created. */
  lemma {:induction false} DefiniteFinalError(cloud: Cloud, token: Token, sends: seq<Send>, n: nat, cut: CallError)
    requires !cut.Service?
    requires DefiniteCreatesNothing(sends) && ResendHonoursToken(sends)
    ensures var (_, _, err) := Sends(cloud, token, sends, n, cut);
            err.Some? && Definite(err.value) ==> !SendsLand(sends, n)
    decreases |sends|
  {
    if sends != [] && sends[0].Errored? && ShouldResend(sends[0].error) && n < MAX_SENDS {
      var after := if sends[0].landed then Land(cloud, token) else cloud;
      var rest := sends[1..];
      assert forall i :: 0 <= i < |rest| ==> rest[i] == sends[i + 1];
      DefiniteFinalError(after, token, rest, n + 1, cut);
      if sends[0].landed {
        LaterErrorsUnknown(after, token, rest, n + 1, cut);
      }
    }
  }

  lemma {:induction false} LaterErrorsUnknown(cloud: Cloud, token: Token, sends: seq<Send>, n: nat, cut: CallError)
    requires !cut.Service?
    requires forall j :: 0 <= j < |sends| && sends[j].Errored? ==> OutcomeUnknown(Some(sends[j].error))
    ensures var (_, _, err) := Sends(cloud, token, sends, n, cut); err.Some? ==> !Definite(err.value)
    decreases |sends|
  {
    if sends != [] && sends[0].Errored? && ShouldResend(sends[0].error) && n < MAX_SENDS {
      var after := if sends[0].landed then Land(cloud, token) else cloud;
      var rest := sends[1..];
      assert forall i :: 0 <= i < |rest| ==> rest[i] == sends[i + 1];
      LaterErrorsUnknown(after, token, rest, n + 1, cut);
    }
  }

  lemma {:induction false} ConfirmFinds(cloud: Cloud, lookups: seq<bool>, i: nat, k: nat)
    requires i <= k < |lookups| && k <= 2 && lookups[k]
    ensures Confirm(cloud, lookups, i) == FirstLive(cloud.instances)
    decreases k - i
  {
    if i < k {
      ConfirmFinds(cloud, lookups, i + 1, k);
      ConfirmIsLookup(cloud, lookups, i + 1);
    }
    ConfirmIsLookup(cloud, lookups, i);
    if i == k && FirstLive(cloud.instances).None? {
      ConfirmNone(cloud, lookups, i);
    }
  }

  lemma {:induction false} ConfirmIsLookup(cloud: Cloud, lookups: seq<bool>, i: nat)
    ensures Confirm(cloud, lookups, i).Some? ==> Confirm(cloud, lookups, i) == FirstLive(cloud.instances)
    decreases |lookups| - i
  {
    if i < |lookups| && i < 2 {
      ConfirmIsLookup(cloud, lookups, i + 1);
    }
  }

  lemma {:induction false} ConfirmNone(cloud: Cloud, lookups: seq<bool>, i: nat)
    requires FirstLive(cloud.instances).None?
    ensures Confirm(cloud, lookups, i).None?
    decreases |lookups| - i
  {
    if i < |lookups| && i < 2 {
      ConfirmNone(cloud, lookups, i + 1);
    }
  }

  /** Some of the three confirmation lookups answers. */
  ghost predicate ConfirmAnswers(lookups: seq<bool>) {
    exists k :: 0 <= k < |lookups| && k <= 2 && lookups[k]
  }

  /** The last error of the call, if it sends at all. */
  ghost function FinalError(w: World, token: Token, env: AttemptEnv): Option<CallError> {
    Sends(w.cloud, token, env.sends, 1, env.cut).2
  }

  /** The attempt overlooks an instance: its first lookup finds none, one is there or is created by a
      send, and neither the call's answer nor a confirmation lookup names it. */
  ghost predicate Overlooks(w: World, token: Token, env: AttemptEnv) {
    var (_, ocid, err) := Sends(w.cloud, token, env.sends, 1, env.cut);
    && !(env.listed && HasLive(w.cloud))
    && (HasLive(w.cloud) || (env.liveBefore && SendsLand(env.sends, 1)))
    && !(env.liveBefore && (ocid.Some? || (OutcomeUnknown(err) && ConfirmAnswers(env.lookups))))
  }

  /** Exactly when an attempt misjudges, whatever lookups, sends and contexts do: success and "a live
      instance of that name exists" differ only when the attempt overlooks one. With accurate lookups and
      a live context on entry that is one situation: a send landed and the call still ended on an error
      the code takes for a definite refusal. */
  lemma SuccessExactly(w: World, num: nat, token: Token, env: AttemptEnv)
    requires CloudOk(w.cloud) && token !in w.cloud.tokens
    ensures var (after, res) := LaunchOutcome(w, num, token, env);
            var err := FinalError(w, token, env);
            && ((res.success <==> HasLive(after.cloud)) <==> !Overlooks(w, token, env))
            && (res.success ==> res.ocid.Some? && IsLive(after.cloud, res.ocid.value))
            && ((env.listed || !HasLive(w.cloud)) && env.liveBefore && ConfirmAnswers(env.lookups) ==>
                (Overlooks(w, token, env) <==>
                 !HasLive(w.cloud) && SendsLand(env.sends, 1) && err.Some? && Definite(err.value)))
            && CloudOk(after.cloud)
  {
    LookupFindsLive(w.cloud);
    SendsEffect(w.cloud, token, env.sends, 1, env.cut);
    var (cloud, ocid, err) := Sends(w.cloud, token, env.sends, 1, env.cut);
    FinishExactly(w.(cloud := cloud), num, ocid, err, env.lookups, env.liveAfter);
    LandedIsLive(w.cloud, token);
    hide Finish;
    hide Sends;
    hide SendsLand;
    hide FirstLive;
    hide ConfirmAnswers;
    hide HasLive;
    hide Land;
  }

  /** Settling succeeds exactly when the call gave an OCID, or left its outcome open beside a live instance
      that a confirmation lookup finds. */
  lemma FinishExactly(w: World, num: nat, ocid: Option<Ocid>, err: Option<CallError>, lookups: seq<bool>, live: bool)
    requires CloudOk(w.cloud) && (ocid.Some? ==> err.None?)
    ensures var (after, res) := Finish(w, num, ocid, err, lookups, live);
            && after.cloud == w.cloud
            && (res.success <==> ocid.Some? || (OutcomeUnknown(err) && HasLive(w.cloud) && ConfirmAnswers(lookups)))
            && (res.success ==> res.ocid.Some? && (res.ocid == ocid || IsLive(w.cloud, res.ocid.value)))
  {
    ConfirmExactly(w.cloud, lookups);
    LookupFindsLive(w.cloud);
    hide Confirm;
    hide FirstLive;
    hide HasLive;
    hide ConfirmAnswers;
    hide ClassifyError;
  }

  /** The confirmation finds the instance exactly when one exists and one of its lookups answers. */
  lemma ConfirmExactly(cloud: Cloud, lookups: seq<bool>)
    requires CloudOk(cloud)
    ensures Confirm(cloud, lookups, 0).Some? <==> HasLive(cloud) && ConfirmAnswers(lookups)
    ensures Confirm(cloud, lookups, 0).Some? ==> Confirm(cloud, lookups, 0) == FirstLive(cloud.instances)
  {
    LookupFindsLive(cloud);
    ConfirmIsLookup(cloud, lookups, 0);
    if ConfirmAnswers(lookups) {
      var k :| 0 <= k < |lookups| && k <= 2 && lookups[k];
      ConfirmFinds(cloud, lookups, 0, k);
    } else {
      ConfirmUnanswered(cloud, lookups, 0);
    }
  }

  lemma {:induction false} ConfirmUnanswered(cloud: Cloud, lookups: seq<bool>, i: nat)
    requires i <= 2 && !ConfirmAnswers(lookups)
    ensures Confirm(cloud, lookups, i).None?
    decreases |lookups| - i
  {
    if i < |lookups| && i < 2 {
      ConfirmUnanswered(cloud, lookups, i + 1);
    }
  }

  lemma LandedIsLive(cloud: Cloud, token: Token)
    requires CloudOk(cloud) && token !in cloud.tokens
    ensures var after := Land(cloud, token);
            token in after.tokens && IsLive(after, after.tokens[token]) && HasLive(after)
  {
    var after := Land(cloud, token);
    assert after.instances[after.tokens[token]].live;
  }

  /** A lost answer never turns a created instance into a failure: with honest tokens the attempt
      succeeds exactly when the cloud holds a live instance of that name on return, even if the task
      was stopped before or during the call. The first lookup may fail while no instance exists. */
  lemma LostAnswerIsNotFailure(w: World, num: nat, token: Token, env: AttemptEnv)
    requires CloudOk(w.cloud) && token !in w.cloud.tokens && !env.cut.Service?
    requires (env.listed || !HasLive(w.cloud)) && ConfirmAnswers(env.lookups)
    requires DefiniteCreatesNothing(env.sends) && ResendHonoursToken(env.sends)
    ensures var (after, res) := LaunchOutcome(w, num, token, env);
            && (res.success <==> HasLive(after.cloud))
            && (res.success ==> res.ocid.Some? && IsLive(after.cloud, res.ocid.value))
  {
    SuccessExactly(w, num, token, env);
    DefiniteFinalError(w.cloud, token, env.sends, 1, env.cut);
    hide Sends;
    hide SendsLand;
    hide LaunchOutcome;
    hide HasLive;
  }

  /** The assumption on resends is needed: the first send lands but its answer is lost, the resend
      is throttled (429), and the attempt reports a rate limit although the instance is there. */
  lemma ThrottledResendHidesInstance(w: World, num: nat, token: Token)
    requires w.cloud == Cloud([], map[])
    ensures var env := AttemptEnv(true, true,
        [Errored(true, Service(503, "", "")), Errored(false, Service(429, "", ""))], Canceled, [true], true);
            var (after, res) := LaunchOutcome(w, num, token, env);
            DefiniteCreatesNothing(env.sends) && HasLive(after.cloud) && !res.success && res.category.RateLimited?
  {
    var sends := [Errored(true, Service(503, "", "")), Errored(false, Service(429, "", ""))];
    assert sends[1..] == [Errored(false, Service(429, "", ""))];
    var landed := Land(w.cloud, token);
    assert landed.instances[0].live;
    assert Sends(landed, token, sends[1..], 2, Canceled) == (landed, None, Some(Service(429, "", "")));
    assert Sends(w.cloud, token, sends, 1, Canceled) == (landed, None, Some(Service(429, "", "")));
  }

  /** An attempt adds an instance exactly when its first lookup found none, the context was live and
      a send landed; it adds one at most, and never touches the ones that were there. */
  lemma AttemptAddsAtMostOne(w: World, num: nat, token: Token, env: AttemptEnv)
    requires CloudOk(w.cloud) && token !in w.cloud.tokens
    ensures var after := LaunchOutcome(w, num, token, env).0;
            && CloudOk(after.cloud)
            && |w.cloud.instances| <= |after.cloud.instances| <= |w.cloud.instances| + 1
            && w.cloud.instances <= after.cloud.instances
            && (|after.cloud.instances| > |w.cloud.instances|
                <==> !(env.listed && HasLive(w.cloud)) && env.liveBefore && SendsLand(env.sends, 1))
  {
    LookupFindsLive(w.cloud);
    SendsEffect(w.cloud, token, env.sends, 1, env.cut);
  }
}
