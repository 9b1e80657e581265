/**
 What a login gives its user, and how long: the session it opens, everything that ends it, and what an
 address that is banned still gets.
 */
module SessionLife {
  import opened Prelude
  import opened SessionTokens
  import opened LoginLockout
  import opened AuthServer
  import opened AuthSafety

  // ----- the password -----

  /** The token is new, and the only new one. */
  ghost predicate OneSigned(s: Server, s': Server, jti: Jti) {
    jti !in s.signed && jti in s'.signed && s'.signed == s.signed[jti := s'.signed[jti]]
  }

  /** The right password of a known user from an address that is not banned is answered with one token, good
      for the second step from the same device for five minutes from now and no longer; nothing else changes. Any other
      password gives no token. */
  lemma PasswordOpensSecondStep(env: Setting, s: Server, uid: Uid, right: bool, ip: Ip, device: Device)
    requires TokensOk(s)
    ensures var after := AfterLoginStep1(env, s, uid, right, ip, device);
            if right && uid in s.versions && !Gated(env, s, ip) then
              && OneSigned(s, after, s.nextJti) && after.ips == s.ips && after.replies == s.replies
              && after.signed[s.nextJti].uid == uid
              && (forall t, d :: t >= s.now ==>
                    (TempTokenAccepted(after.(now := t), s.nextJti, d) <==> t < s.now + 5 * 60 && d == device))
            else after.signed == s.signed
  {
  }

  // ----- the code -----

  /** The last thing said is a login. */
  predicate SaysLoggedIn(s: Server, s': Server) {
    |s'.replies| == |s.replies| + 1 && s'.replies[|s.replies|].answer.LoggedIn?
  }

  ghost predicate FreshSession(s: Server, s': Server, jti: Jti, uid: Uid, device: Device) {
    && OneSigned(s, s', jti) && s'.signed[jti].uid == uid && s'.signed[jti].verified
    && SessionAccepted(s', jti, device)
    && s'.signed[jti].time.expires == s.now + 7 * 24 * 3600 && SessionStartOf(s'.signed[jti].time) == s.now
  }

  /** What else the login does: the second-step token and the code are used up, both counters of the address
      are back at zero, its ban and every other address stay. */
  ghost predicate ClearsAddress(s: Server, s': Server, ip: Ip) {
    && ip in s'.ips && s'.ips == s.ips[ip := s'.ips[ip]] && s'.versions == s.versions
    && Count(s'.ips[ip].fails, s'.ips[ip].failsUntil, s.now) == 0
    && Count(s'.ips[ip].codeFails, s'.ips[ip].codeFailsUntil, s.now) == 0
    && s'.ips[ip].bannedUntil == IpOf(s, ip).bannedUntil
  }

  /** A right code that is not used up logs in, and nothing else does: it opens exactly one session, for the
      user who gave the password, accepted at once from the device both came from and good for seven days. */
  lemma LoginOpensSession(env: Setting, s: Server, jti: Jti, code: Code, ip: Ip, device: Device)
    requires TokensOk(s)
    ensures var after := AfterVerify(env, s, jti, code, ip, device);
            && (SaysLoggedIn(s, after) <==>
                CodeChecked(env, s, jti, code, ip, device) && !CodeIsUsed(s, s.signed[jti].uid, code))
            && (!SaysLoggedIn(s, after) ==> after.signed == s.signed)
            && (SaysLoggedIn(s, after) ==>
                  && FreshSession(s, after, s.nextJti, s.signed[jti].uid, device)
                  && !TempTokenAccepted(after, jti, device) && CodeIsUsed(after, s.signed[jti].uid, code)
                  && ClearsAddress(s, after, ip))
  {
    if CodeChecked(env, s, jti, code, ip, device) {
      var uid := s.signed[jti].uid;
      if CodeIsUsed(s, uid, code) {
        hide VerifyCode;
        hide TokensOk;
      } else {
        PromptHandler(env, s, jti, code, ip, device);
        hide AfterVerify;
        RightCodeOpens(s, jti, code, ip, device);
        hide LockAndLogin;
      }
    } else {
      hide VerifyCode;
      hide TokensOk;
      NoLoginWithout(env, s, jti, code, ip, device);
    }
  }

  lemma NoLoginWithout(env: Setting, s: Server, jti: Jti, code: Code, ip: Ip, device: Device)
    requires !CodeChecked(env, s, jti, code, ip, device)
    ensures var after := AfterVerify(env, s, jti, code, ip, device);
            !SaysLoggedIn(s, after) && after.signed == s.signed
  {
    hide VerifyCode;
    hide AfterCodeFailure;
  }

  lemma RightCodeOpens(s: Server, jti: Jti, code: Code, ip: Ip, device: Device)
    requires TokensOk(s) && TempTokenAccepted(s, jti, device) && !CodeIsUsed(s, s.signed[jti].uid, code)
    ensures var after := LockAndLogin(s, jti, code, ip, device);
            && SaysLoggedIn(s, after) && FreshSession(s, after, s.nextJti, s.signed[jti].uid, device)
            && !TempTokenAccepted(after, jti, device) && CodeIsUsed(after, s.signed[jti].uid, code)
            && ClearsAddress(s, after, ip)
  {
    IssuedNow(s.now);
    hide Issued;
  }

  lemma IssuedNow(now: int)
    ensures Issued(now, now).Some?
    ensures var time := Issued(now, now).value;
            && time.issuedAt == now && InTime(time, now) && time.expires == now + 7 * 24 * 3600
            && SessionStartOf(time) == now
  {
  }

  // ----- the session lives on -----

  /** The token's own logout, from an address and a device that get through. */
  predicate LogsOut(env: Setting, s: Server, e: ServerEvent, jti: Jti) {
    e.LogOut? && e.jti == jti && !Gated(env, s, e.ip) && SessionAccepted(s, jti, e.device)
  }

  predicate LogsOutOnTheWay(env: Setting, s: Server, events: seq<ServerEvent>, jti: Jti)
    decreases |events|
  {
    events != [] &&
    (LogsOut(env, s, events[0], jti) || LogsOutOnTheWay(env, ServerStep(env, s, events[0]), events[1..], jti))
  }

  /** A session token whose revocation nobody asked for. */
  ghost predicate Untouched(s: Server, jti: Jti) {
    jti in s.signed && s.signed[jti].verified && jti !in s.revoked
  }

  /** The token, its blacklist entry, the clock and the users' versions are as before. */
  ghost predicate Spares(s: Server, s': Server, jti: Jti) {
    && s'.now == s.now && s'.versions == s.versions
    && (jti in s.signed ==> jti in s'.signed && s'.signed[jti] == s.signed[jti])
    && (jti !in s.revoked ==> jti !in s'.revoked)
  }

  lemma WrongCodeSpares(env: Setting, s: Server, j: Jti, ip: Ip, jti: Jti)
    requires j in s.signed && j != jti
    ensures Spares(s, WrongCodeGiven(env, s, j, ip), jti)
  {
    hide AfterCodeFailure;
    hide IpOf;
  }

  lemma LoginSpares(s: Server, j: Jti, code: Code, ip: Ip, device: Device, jti: Jti)
    requires TokensOk(s) && j in s.signed && s.signed[j].uid in s.versions && j != jti
    ensures Spares(s, LockAndLogin(s, j, code, ip, device), jti)
  {
    hide IpOf;
    hide Issued;
    assert s.nextJti !in s.signed;
    hide TokensOk;
    IssuedNow(s.now);
  }

  lemma VerifySpares(env: Setting, s: Server, j: Jti, code: Code, ip: Ip, device: Device, jti: Jti)
    requires TokensOk(s) && Untouched(s, jti)
    ensures Spares(s, AfterVerify(env, s, j, code, ip, device), jti)
  {
    if CodeChecked(env, s, j, code, ip, device) {
      LoginSpares(s, j, code, ip, device, jti);
    } else if !Gated(env, s, ip) && TempTokenAccepted(s, j, device) {
      WrongCodeSpares(env, s, j, ip, jti);
    }
    hide WrongCodeGiven;
    hide LockAndLogin;
    hide VerifyCode;
    hide TokensOk;
  }

  lemma RequestSpares(env: Setting, s: Server, j: Jti, ip: Ip, device: Device, jti: Jti)
    requires TokensOk(s) && Untouched(s, jti)
    ensures Spares(s, AfterRequest(env, s, j, ip, device), jti)
    ensures !LogsOut(env, s, LogOut(j, ip, device), jti) ==> Spares(s, AfterLogout(env, s, j, ip, device), jti)
  {
    hide RenewIfDue;
  }

  lemma StepSpares(env: Setting, s: Server, e: ServerEvent, jti: Jti)
    requires TokensOk(s) && Untouched(s, jti) && !LogsOut(env, s, e, jti)
    ensures var next := ServerStep(env, s, e);
            Untouched(next, jti) && next.signed[jti] == s.signed[jti] && s.now <= next.now
  {
    match e
    case Verify(j, code, ip, device) =>
      VerifySpares(env, s, j, code, ip, device, jti);
      hide AfterVerify;
    case Request(j, ip, device) =>
      RequestSpares(env, s, j, ip, device, jti);
      hide AfterRequest;
    case LogOut(j, ip, device) =>
      RequestSpares(env, s, j, ip, device, jti);
      hide AfterLogout;
    case _ =>
  }

  lemma LogoutKills(env: Setting, s: Server, e: ServerEvent, jti: Jti)
    requires AuthSafety.Inv(s) && LogsOut(env, s, e, jti)
    ensures Dead(ServerStep(env, s, e), jti)
  {
    RequireAuthKeeps(env, s, jti, e.ip, e.device);
  }

  lemma {:induction false} SessionRun(env: Setting, s: Server, events: seq<ServerEvent>, jti: Jti)
    requires AuthSafety.Inv(s) && Untouched(s, jti)
    ensures var end := Serve(env, s, events);
            if LogsOutOnTheWay(env, s, events, jti) then Dead(end, jti)
            else Untouched(end, jti) && end.signed[jti] == s.signed[jti] && s.now <= end.now
    decreases |events|
  {
    if events != [] {
      var next := ServerStep(env, s, events[0]);
      ServerStepKeeps(env, s, events[0]);
      if LogsOut(env, s, events[0], jti) {
        LogoutKills(env, s, events[0], jti);
        hide ServerStep;
        hide AuthSafety.Inv;
        RevokedStaysRevoked(env, next, events[1..], jti);
      } else {
        StepSpares(env, s, events[0], jti);
        hide ServerStep;
        hide AuthSafety.Inv;
        SessionRun(env, next, events[1..], jti);
      }
    }
  }

  /** Exactly how a session ends: in every continuation its token is accepted from its device until it expires,
      its user's version is bumped, or it is logged out itself; nothing anybody else does ends it. */
  lemma SessionEndsExactly(env: Setting, s: Server, events: seq<ServerEvent>, jti: Jti, device: Device)
    requires AuthSafety.Inv(s) && SessionAccepted(s, jti, device) && jti !in s.revoked
    ensures var end := Serve(env, s, events);
            var uid := s.signed[jti].uid;
            SessionAccepted(end, jti, device) <==>
              && end.now < s.signed[jti].time.expires
              && uid in end.versions && end.versions[uid] == s.versions[uid]
              && !LogsOutOnTheWay(env, s, events, jti)
  {
    SessionRun(env, s, events, jti);
    var end := Serve(env, s, events);
    if LogsOutOnTheWay(env, s, events, jti) {
      DeadIsRefused(end, jti, device);
    }
    hide Serve;
    hide LogsOutOnTheWay;
    hide AuthSafety.Inv;
  }

  /** A version bump ends every session of its user, and no other. */
  lemma BumpEndsSessions(env: Setting, s: Server, uid: Uid, steps: nat, jti: Jti, device: Device)
    requires SessionAccepted(s, jti, device) && steps > 0
    ensures SessionAccepted(ServerStep(env, s, BumpVersion(uid, steps)), jti, device) <==> s.signed[jti].uid != uid
    ensures s.signed[jti].uid == uid ==> AuthSafety.Outdated(ServerStep(env, s, BumpVersion(uid, steps)), jti)
  {
  }

  // ----- requests -----

  /** A renewal is due an hour after the token was issued, and possible until a minute before day 30. */
  predicate RenewalDue(c: Claims, now: int) {
    now - c.issuedAt >= 3600 && now + 60 < SessionStartOf(c) + 30 * 24 * 3600
  }

  /** A request is answered exactly when its session is accepted; when a renewal is due it signs exactly one
      token, of the same user, version, device and session start, accepted at once; nothing else changes. */
  lemma RequestRenews(env: Setting, s: Server, jti: Jti, ip: Ip, device: Device)
    requires TokensOk(s)
    ensures var after := AfterRequest(env, s, jti, ip, device);
            var through := !Gated(env, s, ip) && SessionAccepted(s, jti, device);
            && |after.replies| == |s.replies| + 1 && after.replies[..|s.replies|] == s.replies
            && (after.replies[|s.replies|].answer.SessionOk? <==> through)
            && after == s.(signed := after.signed, nextJti := after.nextJti, replies := after.replies)
            && (if through && RenewalDue(s.signed[jti].time, s.now) then
                  && OneSigned(s, after, s.nextJti) && SessionAccepted(after, s.nextJti, device)
                  && after.signed[s.nextJti] == s.signed[jti].(time := after.signed[s.nextJti].time)
                  && after.signed[s.nextJti].time.start == SessionStartOf(s.signed[jti].time)
                  && after.signed[s.nextJti].time.expires ==
                     Min(s.now + 7 * 24 * 3600, SessionStartOf(s.signed[jti].time) + 30 * 24 * 3600)
                else after.signed == s.signed)
  {
    if !Gated(env, s, ip) && SessionAccepted(s, jti, device) {
      RenewalExactly(s.signed[jti].time, s.now);
      RequestThrough(env, s, jti, ip, device);
      hide AfterRequest;
    } else {
      hide TokensOk;
      RequestNotThrough(env, s, jti, ip, device);
      hide AfterRequest;
    }
  }

  lemma RequestNotThrough(env: Setting, s: Server, jti: Jti, ip: Ip, device: Device)
    requires Gated(env, s, ip) || !SessionAccepted(s, jti, device)
    ensures exists reply: Reply :: AfterRequest(env, s, jti, ip, device) == s.(replies := s.replies + [reply])
                                   && !reply.answer.SessionOk?
  {
    var reply := RequestReply(env, s, jti, ip, device);
    hide SessionAccepted;
    assert AfterRequest(env, s, jti, ip, device) == s.(replies := s.replies + [reply]);
  }

  lemma RenewalExactly(c: Claims, now: int)
    ensures RenewIfDue(c, now).Some? <==> RenewalDue(c, now)
    ensures RenewalDue(c, now) ==>
              var time := RenewIfDue(c, now).value;
              && InTime(time, now) && time.start == SessionStartOf(c)
              && time.expires == Min(now + 7 * 24 * 3600, SessionStartOf(c) + 30 * 24 * 3600)
  {
  }

  lemma RequestThrough(env: Setting, s: Server, jti: Jti, ip: Ip, device: Device)
    requires TokensOk(s) && !Gated(env, s, ip) && SessionAccepted(s, jti, device)
    ensures var after := AfterRequest(env, s, jti, ip, device);
            var renewed := RenewIfDue(s.signed[jti].time, s.now);
            && after.replies == s.replies + [Reply(jti, ip, s.signed[jti].uid, s.now, SessionOk)]
            && after == s.(signed := after.signed, nextJti := after.nextJti, replies := after.replies)
            && (if renewed.Some?
                then s.nextJti !in s.signed && s.nextJti !in s.revoked
                     && after.signed == s.signed[s.nextJti := s.signed[jti].(time := renewed.value)]
                else after.signed == s.signed)
  {
    hide RenewIfDue;
  }

  // ----- refusals -----

  /** Which refusal a second-step token gets: the first of these that applies. */
  lemma TempRefusalsExactly(s: Server, jti: Jti, device: Device)
    ensures var why := TempRefusal(s, jti, device);
            var good := jti in s.signed && InTime(s.signed[jti].time, s.now) && !s.signed[jti].verified;
            && (why == Some(Invalid) <==> !good)
            && (why == Some(Revoked) <==> good && IsRevoked(s, jti))
            && (why == Some(OtherDevice) <==> good && !IsRevoked(s, jti) && s.signed[jti].device != device)
            && (why == Some(NoUser) <==>
                good && !IsRevoked(s, jti) && s.signed[jti].device == device && s.signed[jti].uid !in s.versions)
            && why != Some(Unverified) && why != Some(Outdated)
  {
  }

  /** And a session token. */
  lemma SessionRefusalsExactly(s: Server, jti: Jti, device: Device)
    ensures var why := SessionRefusal(s, jti, device);
            var good := jti in s.signed && InTime(s.signed[jti].time, s.now);
            var live := good && s.signed[jti].verified && !IsRevoked(s, jti);
            var known := live && s.signed[jti].device == device && s.signed[jti].uid in s.versions;
            && (why == Some(Invalid) <==> !good)
            && (why == Some(Unverified) <==> good && !s.signed[jti].verified)
            && (why == Some(Revoked) <==> good && s.signed[jti].verified && IsRevoked(s, jti))
            && (why == Some(OtherDevice) <==> live && s.signed[jti].device != device)
            && (why == Some(NoUser) <==> live && s.signed[jti].device == device && !known)
            && (why == Some(Outdated) <==> known && s.versions[s.signed[jti].uid] != s.signed[jti].version)
  {
  }

  // ----- banned addresses -----

  /** From s to s' the address was told only that it is blocked, and its record stayed. */
  ghost predicate ShutOut(s: Server, s': Server, ip: Ip) {
    && s.replies <= s'.replies && s.now <= s'.now
    && (forall i :: |s.replies| <= i < |s'.replies| && s'.replies[i].ip == ip ==> s'.replies[i].answer == Blocked)
    && ip in s.ips && ip in s'.ips && s'.ips[ip] == s.ips[ip]
  }

  lemma VerifyShutsOut(env: Setting, s: Server, jti: Jti, code: Code, from: Ip, device: Device, ip: Ip)
    requires ip in s.ips && Gated(env, s, ip)
    ensures ShutOut(s, AfterVerify(env, s, jti, code, from, device), ip)
  {
    if CodeChecked(env, s, jti, code, from, device) {
      PromptHandler(env, s, jti, code, from, device);
      LoginShutsOut(env, s, jti, code, from, device, ip);
    } else if !Gated(env, s, from) && TempTokenAccepted(s, jti, device) {
      WrongCodeShutsOut(env, s, jti, from, ip);
    }
    hide VerifyCode;
    hide WrongCodeGiven;
    hide LockAndLogin;
    hide TempTokenAccepted;
  }

  lemma LoginShutsOut(env: Setting, s: Server, jti: Jti, code: Code, from: Ip, device: Device, ip: Ip)
    requires ip in s.ips && Gated(env, s, ip) && !Gated(env, s, from)
    requires jti in s.signed && s.signed[jti].uid in s.versions
    ensures ShutOut(s, LockAndLogin(s, jti, code, from, device), ip)
  {
    hide Issued;
    IssuedNow(s.now);
  }

  lemma WrongCodeShutsOut(env: Setting, s: Server, jti: Jti, from: Ip, ip: Ip)
    requires ip in s.ips && Gated(env, s, ip) && !Gated(env, s, from) && jti in s.signed
    ensures ShutOut(s, WrongCodeGiven(env, s, jti, from), ip)
  {
    hide AfterCodeFailure;
  }

  lemma RequestShutsOut(env: Setting, s: Server, jti: Jti, from: Ip, device: Device, ip: Ip)
    requires ip in s.ips && Gated(env, s, ip)
    ensures ShutOut(s, AfterRequest(env, s, jti, from, device), ip)
    ensures ShutOut(s, AfterLogout(env, s, jti, from, device), ip)
  {
    hide RenewIfDue;
    RequestShape(env, s, jti, from, device);
  }

  lemma StepShutsOut(env: Setting, s: Server, e: ServerEvent, ip: Ip)
    requires ip in s.ips && Gated(env, s, ip)
    ensures ShutOut(s, ServerStep(env, s, e), ip)
    ensures (e.Password? || e.Trap?) && e.ip == ip ==> ServerStep(env, s, e) == s
  {
    match e
    case Verify(jti, code, from, device) =>
      VerifyShutsOut(env, s, jti, code, from, device, ip);
      hide AfterVerify;
    case Request(jti, from, device) =>
      RequestShutsOut(env, s, jti, from, device, ip);
      hide AfterRequest;
    case LogOut(jti, from, device) =>
      RequestShutsOut(env, s, jti, from, device, ip);
      hide AfterLogout;
    case _ =>
  }

  function Elapsed(events: seq<ServerEvent>): nat {
    if events == [] then 0 else (if events[0].Tick? then events[0].seconds else 0) + Elapsed(events[1..])
  }

  /** Handlers take no time; the clock moves by its own steps only. */
  lemma {:induction false} ClockRuns(env: Setting, s: Server, events: seq<ServerEvent>)
    ensures Serve(env, s, events).now == s.now + Elapsed(events)
    decreases |events|
  {
    if events != [] {
      ClockSteps(env, s, events[0]);
      hide ServerStep;
      ClockRuns(env, ServerStep(env, s, events[0]), events[1..]);
    }
  }

  lemma ClockSteps(env: Setting, s: Server, e: ServerEvent)
    ensures ServerStep(env, s, e).now == s.now + if e.Tick? then e.seconds else 0
  {
    match e
    case Verify(jti, code, ip, device) =>
      VerifyShape(env, s, jti, code, ip, device);
      hide AfterVerify;
    case Request(jti, ip, device) =>
      RequestShape(env, s, jti, ip, device);
      hide AfterRequest;
    case LogOut(jti, ip, device) =>
      LogoutShape(env, s, jti, ip, device);
      hide AfterLogout;
    case _ =>
  }

  /** A banned address is shut out: whatever it and everybody else send until its ban is over, it is told only
      that it is blocked, and its ban is neither shortened nor prolonged. */
  lemma {:induction false} BannedIsShutOut(env: Setting, s: Server, events: seq<ServerEvent>, ip: Ip)
    requires ip in s.ips && ip !in env.immune && Serve(env, s, events).now < s.ips[ip].bannedUntil
    ensures ShutOut(s, Serve(env, s, events), ip)
    decreases |events|
  {
    ClockRuns(env, s, events);
    if events != [] {
      var next := ServerStep(env, s, events[0]);
      StepShutsOut(env, s, events[0], ip);
      hide ServerStep;
      BannedIsShutOut(env, next, events[1..], ip);
      var end := Serve(env, next, events[1..]);
      forall i | |s.replies| <= i < |end.replies| && end.replies[i].ip == ip ensures end.replies[i].answer == Blocked {
        if i < |next.replies| {
          assert end.replies[i] == next.replies[i];
        }
      }
    }
  }

  /** A trap bans an address that is neither immune nor banned already for exactly a day. */
  lemma TrapBansForADay(env: Setting, s: Server, ip: Ip)
    ensures var after := AfterTrap(env, s, ip);
            && (ip in env.immune || Gated(env, s, ip) ==> after == s)
            && (ip !in env.immune && !Gated(env, s, ip) ==>
                  && after == s.(ips := after.ips) && ip in after.ips && after.ips == s.ips[ip := after.ips[ip]]
                  && (forall t :: Gated(env, after.(now := t), ip) <==> t < s.now + 24 * 3600)
                  && after.ips[ip] == IpOf(s, ip).(bannedUntil := after.ips[ip].bannedUntil))
  {
  }

  /** A blacklist entry and a token's counter last exactly their time. */
  lemma KeysLastExactly(env: Setting, s: Server, jti: Jti, ip: Ip, seconds: int, moment: int)
    requires jti in s.signed
    ensures IsRevoked(Revoke(s, jti, seconds).(now := moment), jti) <==> moment < s.now + seconds
    ensures moment >= s.now ==>
              TokenFailCount(WrongCodeGiven(env, s, jti, ip).(now := moment), jti) ==
              if moment < s.now + 10 * 60 then TokenFailCount(s, jti) + 1 else 0
  {
  }
}
