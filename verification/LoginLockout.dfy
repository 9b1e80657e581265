/**
 Lockout of one client address: failure counters with a sliding window in Redis, bans with a time to
 live, and the gate in front of every request. A key is gone from its expiry second on.
 */
module LoginLockout {
  import opened Prelude

  const LOGIN_BAN_AFTER := 6
  const LOGIN_LONG_BAN_AFTER := 12
  const CODE_BAN_AFTER := 15
  const WINDOW := 1800
  const LOGIN_BAN := 1800
  const LONG_BAN := 86400
  const CODE_BAN := 3600
  const SCANNER_BAN := 86400

  /** The keys kept for one address: wrong passwords, wrong one-time codes, and the ban. */
  datatype IpRecord = IpRecord(fails: nat, failsUntil: int, codeFails: nat, codeFailsUntil: int, bannedUntil: int)

  function NoRecord(start: int): IpRecord {
    IpRecord(0, start, 0, start, start)
  }

  predicate Banned(r: IpRecord, now: int) {
    now < r.bannedUntil
  }

  function Count(count: nat, until: int, now: int): nat {
    if now < until then count else 0
  }

  /** SET overwrites whatever ban was there; immune addresses are only logged. */
  function BlacklistIp(r: IpRecord, immune: bool, now: int, seconds: int): IpRecord {
    if immune then r else r.(bannedUntil := now + seconds)
  }

  /** Lockout: no ban, or the length of the one imposed. */
  function AfterLoginFailure(r: IpRecord, immune: bool, now: int, later: int): (IpRecord, Option<int>) {
    var count := Count(r.fails, r.failsUntil, now) + 1;
    var counted := r.(fails := count, failsUntil := now + WINDOW);
    if count >= LOGIN_LONG_BAN_AFTER then (BlacklistIp(counted, immune, later, LONG_BAN), Some(LONG_BAN))
    else if count >= LOGIN_BAN_AFTER then (BlacklistIp(counted, immune, later, LOGIN_BAN), Some(LOGIN_BAN))
    else (counted, None)
  }

  function AfterCodeFailure(r: IpRecord, immune: bool, now: int, later: int): (IpRecord, bool) {
    var count := Count(r.codeFails, r.codeFailsUntil, now) + 1;
    var counted := r.(codeFails := count, codeFailsUntil := now + WINDOW);
    if count >= CODE_BAN_AFTER then (BlacklistIp(counted, immune, later, CODE_BAN), true) else (counted, false)
  }

  type Ip = string

  /** The counters of all addresses. */
  class FailureCounters {
    var ips: map<Ip, IpRecord>
    const immune: set<Ip>

    constructor (immune: set<Ip>)
      ensures ips == map[] && this.immune == immune
    {
      ips, this.immune := map[], immune;
    }

    function Of(ip: Ip, now: int): IpRecord
      reads this
    {
      if ip in ips then ips[ip] else NoRecord(now)
    }

    method IsIpBlacklisted(ip: Ip, now: int) returns (banned: bool)
      ensures banned <==> ip !in immune && Banned(Of(ip, now), now)
    {
      if ip in immune || ip !in ips {
        return false;
      }
      return now < ips[ip].bannedUntil;
    }

    /** Counts a wrong password at `now`; a ban it triggers is written at `later`. */
    method RecordLoginFailure(ip: Ip, now: int, later: int) returns (locked: bool, seconds: int, attempts: nat)
      modifies this`ips
      ensures var (after, ban) := AfterLoginFailure(old(Of(ip, now)), ip in immune, now, later);
              && ips == old(ips)[ip := after]
              && attempts == after.fails && locked == ban.Some? && (locked ==> seconds == ban.value)
    {
      var r := Of(ip, now);
      var count := if now < r.failsUntil then r.fails + 1 else 1;
      r := r.(fails := count, failsUntil := now + WINDOW);
      locked, seconds, attempts := false, 0, count;
      if count >= LOGIN_LONG_BAN_AFTER {
        locked, seconds := true, LONG_BAN;
      } else if count >= LOGIN_BAN_AFTER {
        locked, seconds := true, LOGIN_BAN;
      }
      if locked && ip !in immune {
        r := r.(bannedUntil := later + seconds);
      }
      ips := ips[ip := r];
    }

    method ResetLoginFailures(ip: Ip, now: int)
      modifies this`ips
      ensures ips ==
          old(ips)[ip := old(Of(ip, now)).(fails := 0, failsUntil := now, codeFails := 0, codeFailsUntil := now)]
    {
      ips := ips[ip := Of(ip, now).(fails := 0, failsUntil := now, codeFails := 0, codeFailsUntil := now)];
    }
  }

  // ----- runs of one address -----

  /** A request of the address; what follows the counter update happens at `later`. */
  datatype Event =
    | WrongPassword(at: int, later: int) | WrongCode(at: int, later: int) | ScannerAgent(at: int) | Harmless(at: int)

  function Ends(e: Event): int {
    if e.WrongPassword? || e.WrongCode? then e.later else e.at
  }

  /** The record, the instants of wrong-password and wrong-code answers, and the day-long login bans. */
  datatype Trace = Trace(r: IpRecord, passwords: seq<int>, codes: seq<int>, longBans: nat, clock: int)

  function Begin(start: int): Trace {
    Trace(NoRecord(start), [], [], 0, start)
  }

  function Step(t: Trace, e: Event): Trace {
    var t := t.(clock := Ends(e));
    if Banned(t.r, e.at) then t
    else match e
      case WrongPassword(at, later) =>
        var (r, ban) := AfterLoginFailure(t.r, false, at, later);
        t.(r := r, passwords := t.passwords + [at], longBans := t.longBans + (if ban == Some(LONG_BAN) then 1 else 0))
      case WrongCode(at, later) =>
        t.(r := AfterCodeFailure(t.r, false, at, later).0, codes := t.codes + [at])
      case ScannerAgent(at) => t.(r := BlacklistIp(t.r, false, at, SCANNER_BAN))
      case Harmless(_) => t
  }

  function Play(t: Trace, events: seq<Event>): Trace
    decreases |events|
  {
    if events == [] then t else Play(Step(t, events[0]), events[1..])
  }

  /** Requests are served one after the other. */
  ghost predicate Serial(clock: int, events: seq<Event>)
    decreases |events|
  {
    events != [] ==> clock <= events[0].at <= Ends(events[0]) && Serial(Ends(events[0]), events[1..])
  }

  // ----- one counter with a ban behind it -----

  ghost predicate Sorted(times: seq<int>) {
    forall i, j :: 0 <= i <= j < |times| ==> times[i] <= times[j]
  }

  /** Any `limit` + 1 answers in a row span at least a window. */
  ghost predicate Spaced(times: seq<int>, limit: nat) {
    forall i, j :: 0 <= i && j == i + limit && j < |times| ==> times[j] - times[i] >= WINDOW
  }

  /** The counter counts the answers since the last pause of a window, and stops at the limit because
      a ban that outlasts it is in force. */
  ghost predicate CounterInv(count: nat, until: int, bannedUntil: int, times: seq<int>, limit: nat, clock: int) {
    && Sorted(times) && Spaced(times, limit) && count <= limit && count <= |times|
    && (forall i :: 0 <= i < |times| ==> times[i] <= clock)
    && (times == [] ==> until <= clock)
    && (times != [] ==> count > 0 && until == times[|times| - 1] + WINDOW)
    && (0 < count < |times| ==> times[|times| - count] - times[|times| - count - 1] >= WINDOW)
    && (count == limit ==> until <= bannedUntil)
  }

  lemma CounterAppends(count: nat, until: int, bannedUntil: int, times: seq<int>, limit: nat, clock: int, at: int,
                       ban: int, end: int)
    requires limit > 0 && CounterInv(count, until, bannedUntil, times, limit, clock)
    requires clock <= at <= end && bannedUntil <= at
    requires Count(count, until, at) + 1 == limit ==> at + WINDOW <= ban
    ensures var next := Count(count, until, at) + 1;
            && next <= limit
            && CounterInv(next, at + WINDOW, ban, times + [at], limit, end)
  {
    var next := Count(count, until, at) + 1;
    var longer := times + [at];
    forall i, j | 0 <= i && j == i + limit && j < |longer| ensures longer[j] - longer[i] >= WINDOW {
      if j == |times| {
        if at < until {
          assert times[i] <= times[|times| - count - 1];
          assert times[|times| - count] <= at;
        } else {
          assert times[i] <= times[|times| - 1];
        }
      }
    }
  }

  lemma CounterRests(count: nat, until: int, bannedUntil: int, times: seq<int>, limit: nat, clock: int, ban: int,
                     end: int)
    requires CounterInv(count, until, bannedUntil, times, limit, clock)
    requires clock <= end && bannedUntil <= ban
    ensures CounterInv(count, until, ban, times, limit, end)
  {
  }

  ghost predicate Inv(t: Trace) {
    && CounterInv(t.r.fails, t.r.failsUntil, t.r.bannedUntil, t.passwords, LOGIN_BAN_AFTER, t.clock)
    && CounterInv(t.r.codeFails, t.r.codeFailsUntil, t.r.bannedUntil, t.codes, CODE_BAN_AFTER, t.clock)
    && t.longBans == 0
  }

  /** After a wrong password the count is below the limit, or the ban it set outlasts the window. */
  lemma PasswordStep(t: Trace, at: int, later: int)
    requires Inv(t) && t.clock <= at <= later && !Banned(t.r, at)
    ensures Inv(Step(t, WrongPassword(at, later)))
  {
    var r, next := t.r, Step(t, WrongPassword(at, later));
    var count := Count(r.fails, r.failsUntil, at) + 1;
    assert count <= LOGIN_BAN_AFTER;
    var bannedUntil := if count == LOGIN_BAN_AFTER then later + LOGIN_BAN else r.bannedUntil;
    assert next.r == r.(fails := count, failsUntil := at + WINDOW, bannedUntil := bannedUntil);
    CounterAppends(r.fails, r.failsUntil, r.bannedUntil, t.passwords, LOGIN_BAN_AFTER, t.clock, at, next.r.bannedUntil,
        later);
    CounterRests(r.codeFails, r.codeFailsUntil, r.bannedUntil, t.codes, CODE_BAN_AFTER, t.clock, next.r.bannedUntil,
        later);
  }

  lemma CodeStep(t: Trace, at: int, later: int)
    requires Inv(t) && t.clock <= at <= later && !Banned(t.r, at)
    ensures Inv(Step(t, WrongCode(at, later)))
  {
    var r, next := t.r, Step(t, WrongCode(at, later));
    var count := Count(r.codeFails, r.codeFailsUntil, at) + 1;
    assert count <= CODE_BAN_AFTER;
    var bannedUntil := if count == CODE_BAN_AFTER then later + CODE_BAN else r.bannedUntil;
    assert next.r == r.(codeFails := count, codeFailsUntil := at + WINDOW, bannedUntil := bannedUntil);
    CounterAppends(r.codeFails, r.codeFailsUntil, r.bannedUntil, t.codes, CODE_BAN_AFTER, t.clock, at,
        next.r.bannedUntil, later);
    CounterRests(r.fails, r.failsUntil, r.bannedUntil, t.passwords, LOGIN_BAN_AFTER, t.clock, next.r.bannedUntil,
        later);
  }

  lemma StepKeepsInv(t: Trace, e: Event)
    requires Inv(t) && t.clock <= e.at <= Ends(e)
    ensures Inv(Step(t, e))
  {
    if e.WrongPassword? && !Banned(t.r, e.at) {
      PasswordStep(t, e.at, e.later);
    } else if e.WrongCode? && !Banned(t.r, e.at) {
      CodeStep(t, e.at, e.later);
    } else {
      var next := Step(t, e);
      CounterRests(t.r.fails, t.r.failsUntil, t.r.bannedUntil, t.passwords, LOGIN_BAN_AFTER, t.clock,
          next.r.bannedUntil, next.clock);
      CounterRests(t.r.codeFails, t.r.codeFailsUntil, t.r.bannedUntil, t.codes, CODE_BAN_AFTER, t.clock,
          next.r.bannedUntil, next.clock);
    }
  }

  lemma {:induction false} PlayKeepsInv(t: Trace, events: seq<Event>)
    requires Inv(t) && Serial(t.clock, events)
    ensures Inv(Play(t, events))
    decreases |events|
  {
    if events != [] {
      StepKeepsInv(t, events[0]);
      PlayKeepsInv(Step(t, events[0]), events[1..]);
    }
  }

  /** Over any serial run of a non-immune address, without reset or unban, the password counter never
      passes 6 and the code counter never passes 15; so the day-long ban meant for 12 wrong passwords
      is never imposed. */
  lemma CountersStopAtTheBan(start: int, events: seq<Event>)
    requires Serial(start, events)
    ensures var t := Play(Begin(start), events);
            t.r.fails <= LOGIN_BAN_AFTER && t.r.codeFails <= CODE_BAN_AFTER && t.longBans == 0
  {
    PlayKeepsInv(Begin(start), events);
  }

  lemma {:induction false} SpacedBound(times: seq<int>, limit: nat, i: nat, j: nat)
    requires limit > 0 && Sorted(times) && Spaced(times, limit) && i <= j < |times|
    ensures j - i + 1 <= limit * ((times[j] - times[i]) / WINDOW + 1)
    decreases j - i
  {
    var span := times[j] - times[i];
    if j < i + limit {
      assert span / WINDOW >= 0;
      assert limit * 1 <= limit * (span / WINDOW + 1);
    } else {
      var k := i + limit;
      SpacedBound(times, limit, k, j);
      var rest := times[j] - times[k];
      assert rest / WINDOW + 1 <= span / WINDOW;
      assert limit * (rest / WINDOW + 1) + limit <= limit * (span / WINDOW + 1) by {
        Scale(limit, rest / WINDOW + 2, span / WINDOW + 1);
      }
    }
  }

  lemma Scale(limit: nat, a: int, b: int)
    requires a <= b
    ensures limit * a <= limit * b
    ensures limit * (a - 1) + limit == limit * a
  {
  }

  /** In any span of D seconds of such a run there are at most 6 * (D / 30 min + 1) wrong-password
      answers, and at most 15 * (D / 30 min + 1) wrong-code answers. */
  lemma AnswerRateIsBounded(start: int, events: seq<Event>, d: nat, i: nat, j: nat)
    requires Serial(start, events)
    ensures var times := Play(Begin(start), events).passwords;
            i <= j < |times| && times[j] - times[i] <= d ==> j - i + 1 <= LOGIN_BAN_AFTER * (d / WINDOW + 1)
    ensures var times := Play(Begin(start), events).codes;
            i <= j < |times| && times[j] - times[i] <= d ==> j - i + 1 <= CODE_BAN_AFTER * (d / WINDOW + 1)
  {
    PlayKeepsInv(Begin(start), events);
    var t := Play(Begin(start), events);
    if i <= j < |t.passwords| {
      SpacedBound(t.passwords, LOGIN_BAN_AFTER, i, j);
    }
    if i <= j < |t.codes| {
      SpacedBound(t.codes, CODE_BAN_AFTER, i, j);
    }
  }

  // ----- how long a ban lasts -----

  /** Wrong passwords of an address, each within half an hour of the one before it (`since`). */
  ghost predicate InARow(since: int, events: seq<Event>)
    decreases |events|
  {
    events != [] ==>
      && events[0].WrongPassword? && since <= events[0].at <= events[0].later && events[0].at < since + 30 * 60
      && InARow(events[0].at, events[1..])
  }

  ghost predicate CodesInARow(since: int, events: seq<Event>)
    decreases |events|
  {
    events != [] ==>
      && events[0].WrongCode? && since <= events[0].at <= events[0].later && events[0].at < since + 30 * 60
      && CodesInARow(events[0].at, events[1..])
  }

  lemma {:induction false} PasswordsCount(t: Trace, since: int, events: seq<Event>)
    requires InARow(since, events) && !Banned(t.r, since) && t.r.fails + |events| <= 6
    requires t.r.fails > 0 ==> t.r.failsUntil == since + 30 * 60
    ensures var end := Play(t, events);
            && end.r.fails == t.r.fails + |events|
            && |end.passwords| == |t.passwords| + |events| && end.codes == t.codes
            && (events != [] && t.r.fails + |events| == 6 ==>
                end.r.bannedUntil == Ends(events[|events| - 1]) + 30 * 60)
            && (t.r.fails + |events| < 6 ==> end.r.bannedUntil == t.r.bannedUntil)
    decreases |events|
  {
    if |events| == 1 {
      assert Play(t, events) == Step(t, events[0]);
    } else if events != [] {
      PasswordsCount(Step(t, events[0]), events[0].at, events[1..]);
    }
  }

  /** Up to five wrong passwords in a row leave an address in; the sixth bans it for exactly half an hour. */
  lemma SixthPasswordBans(start: int, events: seq<Event>)
    requires InARow(start, events) && |events| <= 6
    ensures var end := Play(Begin(start), events);
            && end.r.fails == |events| && |end.passwords| == |events|
            && forall now :: now >= start ==>
                 (Banned(end.r, now) <==> |events| == 6 && now < Ends(events[5]) + 30 * 60)
  {
    PasswordsCount(Begin(start), start, events);
  }

  lemma {:induction false} CodesCount(t: Trace, since: int, events: seq<Event>)
    requires CodesInARow(since, events) && !Banned(t.r, since) && t.r.codeFails + |events| <= 15
    requires t.r.codeFails > 0 ==> t.r.codeFailsUntil == since + 30 * 60
    ensures var end := Play(t, events);
            && end.r.codeFails == t.r.codeFails + |events|
            && |end.codes| == |t.codes| + |events| && end.passwords == t.passwords
            && (events != [] && t.r.codeFails + |events| == 15 ==>
                end.r.bannedUntil == Ends(events[|events| - 1]) + 60 * 60)
            && (t.r.codeFails + |events| < 15 ==> end.r.bannedUntil == t.r.bannedUntil)
    decreases |events|
  {
    if |events| == 1 {
      assert Play(t, events) == Step(t, events[0]);
    } else if events != [] {
      CodesCount(Step(t, events[0]), events[0].at, events[1..]);
    }
  }

  /** Up to fourteen wrong codes in a row leave it in; the fifteenth bans it for exactly an hour. */
  lemma FifteenthCodeBans(start: int, events: seq<Event>)
    requires CodesInARow(start, events) && |events| <= 15
    ensures var end := Play(Begin(start), events);
            && end.r.codeFails == |events| && |end.codes| == |events|
            && forall now :: now >= start ==>
                 (Banned(end.r, now) <==> |events| == 15 && now < Ends(events[14]) + 60 * 60)
  {
    CodesCount(Begin(start), start, events);
  }

  /** A counter forgets after half an hour without a failure. */
  lemma CountersForget(r: IpRecord, immune: bool, now: int, later: int, moment: int)
    requires moment >= now
    ensures var (after, _) := AfterLoginFailure(r, immune, now, later);
            Count(after.fails, after.failsUntil, moment) == 0 <==> moment >= now + 30 * 60
    ensures var (after, _) := AfterCodeFailure(r, immune, now, later);
            Count(after.codeFails, after.codeFailsUntil, moment) == 0 <==> moment >= now + 30 * 60
  {
  }

  /** Twelve failures in the counter would mean a day's ban, and the code's ban of fifteen an hour's, for an
      address that is not immune. */
  lemma BanLengthsExactly(r: IpRecord, immune: bool, now: int, later: int)
    ensures var (after, ban) := AfterLoginFailure(r, immune, now, later);
            && ban == (if after.fails >= 12 then Some(24 * 60 * 60)
                       else if after.fails >= 6 then Some(30 * 60)
                       else None)
            && after.bannedUntil == if ban.Some? && !immune then later + ban.value else r.bannedUntil
    ensures var (after, locked) := AfterCodeFailure(r, immune, now, later);
            && (locked <==> after.codeFails >= 15)
            && after.bannedUntil == if locked && !immune then later + 60 * 60 else r.bannedUntil
  {
  }

  /** In a run a scanner's request bans its address for a day, unless it is banned already. */
  lemma ScannerIsBanned(t: Trace, at: int, moment: int)
    requires !Banned(t.r, at)
    ensures Banned(Step(t, ScannerAgent(at)).r, moment) <==> moment < at + 24 * 60 * 60
  {
  }
}
