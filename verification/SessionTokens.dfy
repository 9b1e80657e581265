/**
 Sliding sessions: a token lives seven days unused, is reissued on use once it is an hour old, and no
 token of a session outlives thirty days after the login. Times are whole seconds.
 */
module SessionTokens {
  import opened Prelude

  const MINUTE := 60
  const HOUR := 3600
  const DAY := 86400
  const LIFETIME := 7 * DAY
  const ABSOLUTE_MAX := 30 * DAY
  const RENEW_AFTER := HOUR

  /** The claims that carry time. `start` is the login instant, 0 when the claim is left out. */
  datatype Claims = Claims(issuedAt: int, notBefore: int, expires: int, start: int)

  /** The `exp` and `nbf` checks (sections 4.1.4 and 4.1.5 of RFC 7519). */
  predicate InTime(c: Claims, now: int) {
    c.notBefore <= now < c.expires
  }

  method IssueSessionToken(now: int, start: int) returns (token: Option<Claims>)
    ensures token == Issued(now, start)
    ensures token.Some? <==> now + 60 < start + 30 * 24 * 3600
    ensures token.Some? ==> token.value.expires == Min(start + 30 * 24 * 3600, now + 7 * 24 * 3600)
    ensures token.Some? ==> InTime(token.value, now)
  {
    var exp := now + LIFETIME;
    var hard := start + ABSOLUTE_MAX;
    if hard < exp {
      exp := hard;
    }
    if !(exp > now + MINUTE) {
      return None;
    }
    return Some(Claims(now, now, exp, start));
  }

  function Issued(now: int, start: int): Option<Claims> {
    var exp := Min(now + LIFETIME, start + ABSOLUTE_MAX);
    if exp > now + MINUTE then Some(Claims(now, now, exp, start)) else None
  }

  function SessionStartOf(c: Claims): int {
    if c.start > 0 then c.start else c.issuedAt
  }

  /** What a request with token c makes of the session: a fresh token, when one is due and the cap
      leaves room for it. */
  function RenewIfDue(c: Claims, now: int): Option<Claims> {
    if now - c.issuedAt < RENEW_AFTER then None else Issued(now, SessionStartOf(c))
  }

  /** The latest token a client holds after a request at `now` with token c, if c is accepted. */
  function Use(c: Claims, now: int): Option<Claims> {
    if !InTime(c, now) then None
    else if RenewIfDue(c, now).Some? then RenewIfDue(c, now)
    else Some(c)
  }

  /** A client that always presents its latest token; None once a request is refused. */
  function Visit(c: Claims, times: seq<int>): Option<Claims>
    decreases |times|
  {
    if times == [] then Some(c)
    else match Use(c, times[0])
      case None => None
      case Some(next) => Visit(next, times[1..])
  }

  /** The session start survives a renewal exactly when it was recorded (a clock after 1970) or the
      renewal happens at that very second. */
  lemma StartSurvivesRenewal(c: Claims, now: int)
    requires RenewIfDue(c, now).Some?
    ensures RenewIfDue(c, now).value.start == c.start <==> (c.start > 0 || c.issuedAt == c.start)
  {
  }

  /** A token of the session that began at `start`. */
  ghost predicate OfSession(c: Claims, start: int) {
    && c.start == start && start <= c.issuedAt && c.notBefore == c.issuedAt
    && c.expires == Min(c.issuedAt + LIFETIME, start + ABSOLUTE_MAX)
  }

  lemma {:induction false} SessionDiesAtCap(c: Claims, start: int, times: seq<int>)
    requires start > 0 && OfSession(c, start)
    ensures var last := Visit(c, times);
            last.Some? ==>
              && OfSession(last.value, start)
              && last.value.expires <= start + 30 * 24 * 3600
              && forall now :: now >= start + 30 * 24 * 3600 ==> !InTime(last.value, now)
    decreases |times|
  {
    if times != [] && Use(c, times[0]).Some? {
      SessionDiesAtCap(Use(c, times[0]).value, start, times[1..]);
    }
  }

  const GAP := LIFETIME - HOUR

  /** Requests in order, the first within `gap` of `since` and each later one within `gap` of the one
      before it. */
  ghost predicate Regular(since: int, times: seq<int>, gap: int) {
    && (times != [] ==> since <= times[0] <= since + gap)
    && (forall i :: 0 < i < |times| ==> times[i - 1] <= times[i] <= times[i - 1] + gap)
  }

  lemma {:induction false} StaysAlive(c: Claims, start: int, since: int, times: seq<int>)
    requires start > 0 && OfSession(c, start)
    requires c.issuedAt <= since < c.issuedAt + HOUR
    requires Regular(since, times, GAP)
    requires forall i :: 0 <= i < |times| ==> times[i] < start + ABSOLUTE_MAX - MINUTE
    ensures Visit(c, times).Some?
    decreases |times|
  {
    if times != [] {
      var now, rest := times[0], times[1..];
      assert InTime(c, now);
      assert forall i :: 0 <= i < |rest| ==> rest[i] == times[i + 1];
      StaysAlive(Use(c, now).value, start, now, rest);
    }
  }

  /** A session survives while used: a client whose requests are never more than seven days less an
      hour apart is accepted every time before start + 30 days - 60 s. */
  lemma ActiveClientIsNeverLoggedOut(start: int, times: seq<int>)
    requires start > 0 && Regular(start, times, 7 * 24 * 3600 - 3600)
    requires forall i :: 0 <= i < |times| ==> times[i] < start + 30 * 24 * 3600 - 60
    ensures Issued(start, start).Some? && Visit(Issued(start, start).value, times).Some?
  {
    StaysAlive(Issued(start, start).value, start, start, times);
  }

  /** Neither bound can be widened: one second more between two requests, or a request in the last
      minute, is refused for some client. */
  lemma BoundsAreTight(start: int)
    ensures var first := Issued(start, start).value;
            && var late := [start + HOUR - 1, start + HOUR - 1 + GAP + 1];
            && Regular(start, late, GAP + 1) && Visit(first, late).None?
    ensures var token := Issued(start + 23 * DAY - MINUTE, start).value;
            var last := start + ABSOLUTE_MAX - MINUTE;
            OfSession(token, start) && Visit(token, [last - 1]).Some? && Visit(token, [last]).None?
  {
    var first := Issued(start, start).value;
    var late := [start + HOUR - 1, start + HOUR - 1 + GAP + 1];
    assert Use(first, late[0]) == Some(first);
    assert late[1..] == [start + LIFETIME];
    assert Visit(first, late[1..]).None?;
    var token := Issued(start + 23 * DAY - MINUTE, start).value;
    assert token.expires == start + ABSOLUTE_MAX - MINUTE;
    assert Use(token, start + ABSOLUTE_MAX - MINUTE - 1).Some?;
  }
}
