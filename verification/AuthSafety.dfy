/**
 What every run of the login and session handlers keeps: revocation outlasts the token, a second-step
 token works once, wrong codes are bounded, and no one-time code is accepted twice for its step.
 */
module AuthSafety {
  import opened Prelude
  import opened SessionTokens
  import opened LoginLockout
  import opened AuthServer

  // ----- invariants -----

  /** Tokens live at most seven days, second-step tokens exactly five minutes, and every key refers to
      a token that was signed. */
  ghost predicate TokensOk(s: Server) {
    && (forall j :: j in s.signed ==>
          && j < s.nextJti && s.signed[j].time.issuedAt <= s.now
          && s.signed[j].time.expires <= s.signed[j].time.issuedAt + LIFETIME
          && (!s.signed[j].verified ==> s.signed[j].time.expires == s.signed[j].time.issuedAt + TEMP_LIFETIME))
    && (forall j :: j in s.revoked ==> j in s.signed)
    && (forall j :: j in s.tokenFails ==> j in s.signed)
    && (forall i :: 0 <= i < |s.replies| && (s.replies[i].answer.LoggedIn? || s.replies[i].answer.CodeWrong?) ==>
        s.replies[i].jti in s.signed)
  }

  /** The blacklist entry reaches the token's own expiry. */
  ghost predicate Dead(s: Server, jti: Jti) {
    jti in s.signed && jti in s.revoked && s.signed[jti].time.expires <= s.revoked[jti]
  }

  datatype Which = Logins | WrongCodes | UnlockedWrongCodes | LockedWrongCodes

  predicate Is(which: Which, answer: Answer) {
    match which
    case Logins => answer.LoggedIn?
    case WrongCodes => answer.CodeWrong?
    case UnlockedWrongCodes => answer.CodeWrong? && !answer.locked
    case LockedWrongCodes => answer == CodeWrong(true)
  }

  /** How often token jti was answered that way. */
  function Matching(replies: seq<Reply>, jti: Jti, which: Which): nat {
    if replies == [] then 0
    else
      var last := replies[|replies| - 1];
      Matching(replies[..|replies| - 1], jti, which) + (if last.jti == jti && Is(which, last.answer) then 1 else 0)
  }

  lemma MatchingGrows(replies: seq<Reply>, reply: Reply, jti: Jti, which: Which)
    ensures Matching(replies + [reply], jti, which) ==
            Matching(replies, jti, which) + (if reply.jti == jti && Is(which, reply.answer) then 1 else 0)
  {
    assert (replies + [reply])[..|replies|] == replies;
  }

  /** The per-token counter counts every wrong code given with the token: its window is twice the
      token's life. */
  ghost predicate FailsOk(s: Server, j: Jti) {
    && (j in s.tokenFails ==>
          j in s.signed && s.tokenFails[j].count == Matching(s.replies, j, WrongCodes)
          && s.tokenFails[j].until >= s.signed[j].time.issuedAt + TOKEN_FAIL_WINDOW)
    && (j !in s.tokenFails ==> Matching(s.replies, j, WrongCodes) == 0)
    && Matching(s.replies, j, UnlockedWrongCodes) <= Matching(s.replies, j, WrongCodes)
    && (Dead(s, j)
        || (Matching(s.replies, j, UnlockedWrongCodes) < TOKEN_MAX_FAILS && Matching(s.replies, j, Logins) == 0))
    && Matching(s.replies, j, UnlockedWrongCodes) <= TOKEN_MAX_FAILS
    && Matching(s.replies, j, Logins) <= 1
  }

  ghost predicate Inv(s: Server) {
    TokensOk(s) && forall j: Jti :: FailsOk(s, j)
  }

  lemma BootOk(now: int, versions: map<Uid, nat>)
    ensures Inv(Boot(now, versions))
  {
  }

  // ----- each handler keeps them -----

  /** A step that signs at most one token, says at most one harmless thing and only lengthens
      revocations. */
  ghost predicate Mild(s: Server, s': Server) {
    && s.now <= s'.now && s.signed.Keys <= s'.signed.Keys
    && (forall j :: j in s.signed ==> s'.signed[j] == s.signed[j])
    && (forall j :: j in s.revoked ==> j in s'.revoked && s.revoked[j] <= s'.revoked[j])
    && s'.tokenFails == s.tokenFails
    && (s'.replies == s.replies
        || exists r :: s'.replies == s.replies + [r] && !r.answer.LoggedIn? && !r.answer.CodeWrong?)
  }

  lemma MildCounts(s: Server, s': Server, j: Jti, which: Which)
    requires Mild(s, s')
    ensures Matching(s'.replies, j, which) == Matching(s.replies, j, which)
  {
    if s'.replies != s.replies {
      var r :| s'.replies == s.replies + [r] && !r.answer.LoggedIn? && !r.answer.CodeWrong?;
      MatchingGrows(s.replies, r, j, which);
    }
  }

  lemma MildKeepsFails(s: Server, s': Server, j: Jti)
    requires FailsOk(s, j) && Mild(s, s')
    ensures FailsOk(s', j)
  {
    assert Dead(s, j) ==> Dead(s', j);
    MildCounts(s, s', j, WrongCodes);
    MildCounts(s, s', j, UnlockedWrongCodes);
    MildCounts(s, s', j, Logins);
  }

  lemma SayMild(s: Server, jti: Jti, ip: Ip, uid: Uid, answer: Answer)
    requires Inv(s) && !answer.LoggedIn? && !answer.CodeWrong?
    ensures Inv(Said(s, jti, ip, uid, answer))
  {
    var s' := Said(s, jti, ip, uid, answer);
    assert s'.replies == s.replies + [Reply(jti, ip, uid, s.now, answer)];
    forall j: Jti ensures FailsOk(s', j) {
      MildKeepsFails(s, s', j);
    }
  }

  lemma SignKeeps(s: Server, token: Token)
    requires Inv(s)
    requires token.time.issuedAt == s.now && token.time.expires <= s.now + LIFETIME
    requires !token.verified ==> token.time.expires == s.now + TEMP_LIFETIME
    ensures Inv(Sign(s, token))
  {
    forall j: Jti ensures FailsOk(Sign(s, token), j) {
      MildKeepsFails(s, Sign(s, token), j);
    }
  }

  lemma RevokeKeeps(s: Server, jti: Jti, seconds: int)
    requires Inv(s) && jti in s.signed && !IsRevoked(s, jti) && seconds >= 0
    ensures Inv(Revoke(s, jti, seconds))
    ensures seconds >= LIFETIME ==> Dead(Revoke(s, jti, seconds), jti)
    ensures seconds >= TEMP_LIFETIME && !s.signed[jti].verified ==> Dead(Revoke(s, jti, seconds), jti)
  {
    forall j: Jti ensures FailsOk(Revoke(s, jti, seconds), j) {
      MildKeepsFails(s, Revoke(s, jti, seconds), j);
    }
  }

  lemma RequireAuthKeeps(env: Setting, s: Server, jti: Jti, ip: Ip, device: Device)
    requires Inv(s)
    ensures Inv(AfterRequest(env, s, jti, ip, device)) && Inv(AfterLogout(env, s, jti, ip, device))
    ensures !Gated(env, s, ip) && SessionAccepted(s, jti, device) ==> Dead(AfterLogout(env, s, jti, ip, device), jti)
  {
    if Gated(env, s, ip) {
      SayMild(s, jti, ip, 0, Blocked);
    } else if !SessionAccepted(s, jti, device) {
      SayMild(s, jti, ip, 0, Rejected(SessionRefusal(s, jti, device).value));
    } else {
      var token := s.signed[jti];
      var renewed := RenewIfDue(token.time, s.now);
      var s1 := if renewed.Some? then Sign(s, token.(time := renewed.value)) else s;
      if renewed.Some? {
        SignKeeps(s, token.(time := renewed.value));
      }
      SayMild(s1, jti, ip, token.uid, SessionOk);
      RevokeKeeps(Said(s1, jti, ip, token.uid, SessionOk), jti, LIFETIME);
    }
  }

  /** While a second-step token is alive its counter is live, so the next wrong code is number
      count + 1. */
  lemma CounterIsLive(s: Server, jti: Jti)
    requires Inv(s) && jti in s.signed && !s.signed[jti].verified && InTime(s.signed[jti].time, s.now)
    ensures TokenFailCount(s, jti) == Matching(s.replies, jti, WrongCodes)
  {
    assert FailsOk(s, jti);
  }

  lemma LiveTokenIsNotDead(s: Server, jti: Jti)
    requires jti in s.signed && InTime(s.signed[jti].time, s.now) && !IsRevoked(s, jti)
    ensures !Dead(s, jti)
  {
  }

  lemma WrongCodeKeeps(env: Setting, s: Server, jti: Jti, ip: Ip, device: Device)
    requires Inv(s) && TempTokenAccepted(s, jti, device)
    ensures Inv(WrongCodeGiven(env, s, jti, ip))
  {
    hide AfterCodeFailure;
    hide IpOf;
    hide Matching;
    hide FailsOk;
    CounterIsLive(s, jti);
    LiveTokenIsNotDead(s, jti);
    forall j: Jti ensures FailsOk(WrongCodeGiven(env, s, jti, ip), j) {
      assert FailsOk(s, j);
      if j == jti {
        WrongCodeCounts(env, s, jti, ip);
      } else {
        WrongCodeElsewhere(env, s, jti, ip, j);
      }
    }
  }

  lemma WrongCodeElsewhere(env: Setting, s: Server, jti: Jti, ip: Ip, j: Jti)
    requires jti in s.signed && FailsOk(s, j) && j != jti
    ensures FailsOk(WrongCodeGiven(env, s, jti, ip), j)
  {
    hide AfterCodeFailure;
    hide IpOf;
    hide Matching;
    var s' := WrongCodeGiven(env, s, jti, ip);
    var reply := s'.replies[|s.replies|];
    MatchingGrows(s.replies, reply, j, WrongCodes);
    MatchingGrows(s.replies, reply, j, UnlockedWrongCodes);
    MatchingGrows(s.replies, reply, j, Logins);
    assert Dead(s, j) ==> Dead(s', j);
  }

  lemma WrongCodeCounts(env: Setting, s: Server, jti: Jti, ip: Ip)
    requires jti in s.signed && FailsOk(s, jti) && !Dead(s, jti)
    requires TokenFailCount(s, jti) == Matching(s.replies, jti, WrongCodes)
    requires s.signed[jti].time.issuedAt <= s.now && s.signed[jti].time.expires <= s.now + TEMP_REVOKED
    ensures FailsOk(WrongCodeGiven(env, s, jti, ip), jti)
  {
    hide AfterCodeFailure;
    hide IpOf;
    hide Matching;
    var s' := WrongCodeGiven(env, s, jti, ip);
    var reply := s'.replies[|s.replies|];
    MatchingGrows(s.replies, reply, jti, WrongCodes);
    MatchingGrows(s.replies, reply, jti, UnlockedWrongCodes);
    MatchingGrows(s.replies, reply, jti, Logins);
    var fails := TokenFailCount(s, jti) + 1;
    assert s'.tokenFails[jti] == Fails(fails, s.now + TOKEN_FAIL_WINDOW);
    if !reply.answer.locked && fails >= TOKEN_MAX_FAILS {
      assert s'.revoked[jti] == s.now + TEMP_REVOKED;
      assert Dead(s', jti);
    }
  }

  /** Keys that no invariant mentions may change. */
  lemma OtherKeys(s: Server, s': Server)
    requires Inv(s) && s' == s.(used := s'.used, ips := s'.ips)
    ensures Inv(s')
  {
    forall j: Jti ensures FailsOk(s', j) {
      MildKeepsFails(s, s', j);
    }
  }

  lemma SayLogin(s: Server, jti: Jti, ip: Ip, uid: Uid, code: Code)
    requires Inv(s) && Dead(s, jti) && Matching(s.replies, jti, Logins) == 0
    ensures Inv(Said(s, jti, ip, uid, LoggedIn(code))) && Dead(Said(s, jti, ip, uid, LoggedIn(code)), jti)
  {
    hide Matching;
    var s' := Said(s, jti, ip, uid, LoggedIn(code));
    var reply := Reply(jti, ip, uid, s.now, LoggedIn(code));
    forall j: Jti ensures FailsOk(s', j) {
      assert FailsOk(s, j);
      MatchingGrows(s.replies, reply, j, WrongCodes);
      MatchingGrows(s.replies, reply, j, UnlockedWrongCodes);
      MatchingGrows(s.replies, reply, j, Logins);
    }
  }

  lemma NoLoginYet(s: Server, jti: Jti, device: Device)
    requires Inv(s) && TempTokenAccepted(s, jti, device)
    ensures Matching(s.replies, jti, Logins) == 0
  {
    LiveTokenIsNotDead(s, jti);
    assert FailsOk(s, jti);
  }

  lemma LoginKeeps(env: Setting, s: Server, jti: Jti, code: Code, ip: Ip, device: Device)
    requires Inv(s) && !Gated(env, s, ip) && TempTokenAccepted(s, jti, device)
    requires VerifyCode(env, s.signed[jti].uid, code, s.now) && !CodeIsUsed(s, s.signed[jti].uid, code)
    ensures Inv(AfterVerify(env, s, jti, code, ip, device))
    ensures Dead(AfterVerify(env, s, jti, code, ip, device), jti)
  {
    NoLoginYet(s, jti, device);
    hide Inv;
    hide Dead;
    var token := s.signed[jti];
    RevokeKeeps(s, jti, TEMP_REVOKED);
    var s1 := Revoke(s, jti, TEMP_REVOKED);
    var session := Token(token.uid, s.versions[token.uid], device, true, Issued(s.now, s.now).value);
    SignKeeps(s1, session);
    var s' := AfterVerify(env, s, jti, code, ip, device);
    var s2 := Sign(s1, session).(used := s'.used, ips := s'.ips);
    OtherKeys(Sign(s1, session), s2);
    SayLogin(s2, jti, ip, token.uid, code);
    assert s' == Said(s2, jti, ip, token.uid, LoggedIn(code));
  }

  lemma VerifyKeeps(env: Setting, s: Server, jti: Jti, code: Code, ip: Ip, device: Device)
    requires Inv(s)
    ensures Inv(AfterVerify(env, s, jti, code, ip, device))
  {
    if Gated(env, s, ip) {
      SayMild(s, jti, ip, 0, Blocked);
    } else if !TempTokenAccepted(s, jti, device) {
      SayMild(s, jti, ip, 0, Rejected(TempRefusal(s, jti, device).value));
    } else if !VerifyCode(env, s.signed[jti].uid, code, s.now) {
      WrongCodeKeeps(env, s, jti, ip, device);
    } else if CodeIsUsed(s, s.signed[jti].uid, code) {
      SayMild(s, jti, ip, s.signed[jti].uid, CodeReused);
    } else {
      LoginKeeps(env, s, jti, code, ip, device);
    }
  }

  lemma ClockAndVersionsKeep(s: Server, seconds: nat, versions: map<Uid, nat>)
    requires Inv(s)
    ensures Inv(s.(now := s.now + seconds, versions := versions))
  {
    var s' := s.(now := s.now + seconds, versions := versions);
    forall j: Jti ensures FailsOk(s', j) {
      MildKeepsFails(s, s', j);
    }
  }

  lemma ServerStepKeeps(env: Setting, s: Server, e: ServerEvent)
    requires Inv(s)
    ensures Inv(ServerStep(env, s, e))
  {
    hide Inv;
    hide AfterVerify;
    hide AfterRequest;
    hide AfterLogout;
    match e
    case Tick(seconds) => ClockAndVersionsKeep(s, seconds, s.versions);
    case BumpVersion(uid, steps) =>
      if uid in s.versions {
        ClockAndVersionsKeep(s, 0, s.versions[uid := s.versions[uid] + steps]);
      }
    case Verify(jti, code, ip, device) => VerifyKeeps(env, s, jti, code, ip, device);
    case Request(jti, ip, device) => RequireAuthKeeps(env, s, jti, ip, device);
    case LogOut(jti, ip, device) => RequireAuthKeeps(env, s, jti, ip, device);
    case Trap(ip) => OtherKeys(s, AfterTrap(env, s, ip));
    case Password(uid, right, ip, device) =>
      if right && uid in s.versions {
        SignKeeps(s, Token(uid, s.versions[uid], device, false, Claims(s.now, s.now, s.now + TEMP_LIFETIME, 0)));
      } else {
        OtherKeys(s, AfterLoginStep1(env, s, uid, right, ip, device));
      }
  }

  lemma {:induction false} ServeKeeps(env: Setting, s: Server, events: seq<ServerEvent>)
    requires Inv(s)
    ensures Inv(Serve(env, s, events))
    decreases |events|
  {
    if events != [] {
      ServerStepKeeps(env, s, events[0]);
      ServeKeeps(env, ServerStep(env, s, events[0]), events[1..]);
    }
  }

  // ----- second-step tokens -----

  /** In any run a second-step token logs in at most once, and at most five wrong codes are answered
      on it as less than one too many for their address. */
  lemma SecondStepTokenIsSingleUse(env: Setting, now: int, versions: map<Uid, nat>, events: seq<ServerEvent>, jti: Jti)
    ensures var replies := Serve(env, Boot(now, versions), events).replies;
            && Matching(replies, jti, Logins) <= 1
            && Matching(replies, jti, UnlockedWrongCodes) <= TOKEN_MAX_FAILS
            && (Matching(replies, jti, WrongCodes) > TOKEN_MAX_FAILS ==>
                exists i :: 0 <= i < |replies| && replies[i].jti == jti && replies[i].answer == CodeWrong(true))
  {
    BootOk(now, versions);
    ServeKeeps(env, Boot(now, versions), events);
    var replies := Serve(env, Boot(now, versions), events).replies;
    assert FailsOk(Serve(env, Boot(now, versions), events), jti);
    if Matching(replies, jti, WrongCodes) > Matching(replies, jti, UnlockedWrongCodes) {
      LockedAnswerExists(replies, jti);
    }
  }

  lemma {:induction false} LockedAnswerExists(replies: seq<Reply>, jti: Jti)
    requires Matching(replies, jti, WrongCodes) > Matching(replies, jti, UnlockedWrongCodes)
    ensures exists i :: 0 <= i < |replies| && replies[i].jti == jti && replies[i].answer == CodeWrong(true)
  {
    var last := replies[|replies| - 1];
    if !(last.jti == jti && last.answer == CodeWrong(true)) {
      LockedAnswerExists(replies[..|replies| - 1], jti);
      var i :| 0 <= i < |replies| - 1 && replies[..|replies| - 1][i].jti == jti
          && replies[..|replies| - 1][i].answer == CodeWrong(true);
      assert replies[i].answer == CodeWrong(true);
    }
  }

  /** Is this wrong code answered as the one too many for its address? A ban follows unless the address
      is immune. */
  predicate ReachesAddressLimit(s: Server, ip: Ip) {
    Count(IpOf(s, ip).codeFails, IpOf(s, ip).codeFailsUntil, s.now) + 1 >= CODE_BAN_AFTER
  }

  /** Exactly when a wrong code consumes the token: it is at least the fifth given with it and the count
      of its address stays below the limit, because the address limit is answered first. */
  lemma WrongCodeConsumesExactly(env: Setting, s: Server, jti: Jti, ip: Ip, device: Device)
    requires Inv(s) && TempTokenAccepted(s, jti, device)
    ensures Dead(WrongCodeGiven(env, s, jti, ip), jti)
            <==> Matching(s.replies, jti, WrongCodes) + 1 >= TOKEN_MAX_FAILS && !ReachesAddressLimit(s, ip)
  {
    CounterIsLive(s, jti);
    LiveTokenIsNotDead(s, jti);
  }

  lemma LockingAnswerKeepsToken(env: Setting, s: Server, jti: Jti, ip: Ip, other: Ip, device: Device)
    requires TempTokenAccepted(s, jti, device) && ReachesAddressLimit(s, ip) && ip != other
    ensures var after := WrongCodeGiven(env, s, jti, ip);
            && TempTokenAccepted(after, jti, device)
            && after.signed == s.signed && after.now == s.now
            && (Gated(env, after, other) <==> Gated(env, s, other))
  {
  }

  lemma WrongCodeIsCounted(env: Setting, s: Server, jti: Jti, ip: Ip)
    requires jti in s.signed
    ensures Matching(WrongCodeGiven(env, s, jti, ip).replies, jti, WrongCodes)
            == Matching(s.replies, jti, WrongCodes) + 1
  {
    hide AfterCodeFailure;
    hide IpOf;
    hide Matching;
    MatchingGrows(s.replies, WrongCodeGiven(env, s, jti, ip).replies[|s.replies|], jti, WrongCodes);
  }

  /** So the documented limit of five wrong codes per token fails: the fifth reaches the limit of the
      address it came from and leaves the token, and a sixth from another address is still looked at. */
  lemma SixthWrongCodeIsAnswered(env: Setting, s: Server, jti: Jti, ip: Ip, other: Ip, code: Code, device: Device)
    requires TempTokenAccepted(s, jti, device) && ip != other
    requires !VerifyCode(env, s.signed[jti].uid, code, s.now)
    requires Matching(s.replies, jti, WrongCodes) == 4 && ReachesAddressLimit(s, ip)
    requires !Gated(env, s, ip) && !Gated(env, s, other)
    ensures var fifth := AfterVerify(env, s, jti, code, ip, device);
            var sixth := AfterVerify(env, fifth, jti, code, other, device);
            Matching(sixth.replies, jti, WrongCodes) == 6
  {
    var fifth := WrongCodeGiven(env, s, jti, ip);
    LockingAnswerKeepsToken(env, s, jti, ip, other, device);
    WrongCodeIsCounted(env, s, jti, ip);
    WrongCodeIsCounted(env, fifth, jti, other);
  }

  // ----- revocation -----

  /** An answer given only after the token passed every check. */
  predicate GotThrough(reply: Reply, jti: Jti) {
    && reply.jti == jti
    && (reply.answer.SessionOk? || reply.answer.LoggedIn? || reply.answer.CodeWrong? || reply.answer.CodeReused?)
  }

  lemma DeadIsRefused(s: Server, jti: Jti, device: Device)
    requires Dead(s, jti)
    ensures s.signed[jti].time.expires <= s.now || IsRevoked(s, jti)
    ensures !TempTokenAccepted(s, jti, device) && !SessionAccepted(s, jti, device)
  {
  }

  /** From s to s' nothing was answered that shows jti got through. */
  ghost predicate Refuses(s: Server, s': Server, jti: Jti) {
    && s.replies <= s'.replies
    && forall k :: |s.replies| <= k < |s'.replies| ==> !GotThrough(s'.replies[k], jti)
  }

  lemma RefusesOn(a: Server, b: Server, c: Server, jti: Jti)
    requires Refuses(a, b, jti) && Refuses(b, c, jti)
    ensures Refuses(a, c, jti)
  {
  }

  /** Token jti and its blacklist entry are as before, and it did not get through. */
  ghost predicate LeftAlone(s: Server, s': Server, jti: Jti) {
    && Refuses(s, s', jti)
    && s'.now == s.now && s'.versions == s.versions
    && (jti in s.signed ==> jti in s'.signed && s'.signed[jti] == s.signed[jti])
    && (jti in s.revoked ==> jti in s'.revoked && s'.revoked[jti] == s.revoked[jti])
  }

  lemma WrongCodeOthers(env: Setting, s: Server, j: Jti, ip: Ip, jti: Jti)
    requires j in s.signed && j != jti
    ensures LeftAlone(s, WrongCodeGiven(env, s, j, ip), jti)
  {
  }

  lemma LoginOthers(env: Setting, s: Server, j: Jti, code: Code, ip: Ip, device: Device, jti: Jti)
    requires TokensOk(s) && jti in s.signed && j != jti && !Gated(env, s, ip) && TempTokenAccepted(s, j, device)
    requires VerifyCode(env, s.signed[j].uid, code, s.now) && !CodeIsUsed(s, s.signed[j].uid, code)
    ensures LeftAlone(s, AfterVerify(env, s, j, code, ip, device), jti)
  {
  }

  lemma VerifyOthers(env: Setting, s: Server, j: Jti, code: Code, ip: Ip, device: Device, jti: Jti)
    requires TokensOk(s) && jti in s.signed
    requires j == jti ==> !TempTokenAccepted(s, jti, device)
    ensures LeftAlone(s, AfterVerify(env, s, j, code, ip, device), jti)
  {
    if !Gated(env, s, ip) && TempTokenAccepted(s, j, device) {
      if !VerifyCode(env, s.signed[j].uid, code, s.now) {
        WrongCodeOthers(env, s, j, ip, jti);
      } else if !CodeIsUsed(s, s.signed[j].uid, code) {
        LoginOthers(env, s, j, code, ip, device, jti);
      }
    }
  }

  lemma SayLeavesAlone(s: Server, j: Jti, ip: Ip, uid: Uid, answer: Answer, jti: Jti)
    requires j == jti ==> answer.Blocked? || answer.Rejected?
    ensures LeftAlone(s, Said(s, j, ip, uid, answer), jti)
  {
  }

  lemma SignLeavesAlone(s: Server, token: Token, jti: Jti)
    requires TokensOk(s) && jti in s.signed
    ensures LeftAlone(s, Sign(s, token), jti)
  {
  }

  lemma LeftAloneTwice(a: Server, b: Server, c: Server, jti: Jti)
    requires jti in a.signed && LeftAlone(a, b, jti) && LeftAlone(b, c, jti)
    ensures LeftAlone(a, c, jti)
  {
  }

  lemma RequestLeavesAlone(env: Setting, s: Server, j: Jti, ip: Ip, device: Device, jti: Jti)
    requires TokensOk(s) && jti in s.signed
    requires j == jti ==> !SessionAccepted(s, jti, device)
    ensures LeftAlone(s, AfterRequest(env, s, j, ip, device), jti)
  {
    hide LeftAlone;
    hide TokensOk;
    if Gated(env, s, ip) {
      SayLeavesAlone(s, j, ip, 0, Blocked, jti);
    } else if !SessionAccepted(s, j, device) {
      SayLeavesAlone(s, j, ip, 0, Rejected(SessionRefusal(s, j, device).value), jti);
    } else {
      hide Said;
      hide Sign;
      var token := s.signed[j];
      var renewed := RenewIfDue(token.time, s.now);
      if renewed.Some? {
        var s1 := Sign(s, token.(time := renewed.value));
        SignLeavesAlone(s, token.(time := renewed.value), jti);
        SayLeavesAlone(s1, j, ip, token.uid, SessionOk, jti);
        LeftAloneTwice(s, s1, Said(s1, j, ip, token.uid, SessionOk), jti);
      } else {
        SayLeavesAlone(s, j, ip, token.uid, SessionOk, jti);
      }
    }
  }

  lemma LogoutLeavesAlone(env: Setting, s: Server, j: Jti, ip: Ip, device: Device, jti: Jti)
    requires TokensOk(s) && jti in s.signed
    requires j == jti ==> !SessionAccepted(s, jti, device)
    ensures LeftAlone(s, AfterLogout(env, s, j, ip, device), jti)
  {
    RequestLeavesAlone(env, s, j, ip, device, jti);
    hide AfterRequest;
    hide TokensOk;
  }

  lemma RequestOthers(env: Setting, s: Server, j: Jti, ip: Ip, device: Device, jti: Jti)
    requires TokensOk(s) && jti in s.signed
    requires j == jti ==> !SessionAccepted(s, jti, device)
    ensures LeftAlone(s, AfterRequest(env, s, j, ip, device), jti)
    ensures LeftAlone(s, AfterLogout(env, s, j, ip, device), jti)
  {
    hide LeftAlone;
    hide AfterRequest;
    hide AfterLogout;
    RequestLeavesAlone(env, s, j, ip, device, jti);
    LogoutLeavesAlone(env, s, j, ip, device, jti);
  }

  lemma DeadStaysDeadStep(env: Setting, s: Server, e: ServerEvent, jti: Jti)
    requires Inv(s) && Dead(s, jti)
    ensures Dead(ServerStep(env, s, e), jti) && Refuses(s, ServerStep(env, s, e), jti)
  {
    match e
    case Verify(j, code, ip, device) =>
      DeadIsRefused(s, jti, device);
      VerifyOthers(env, s, j, code, ip, device, jti);
    case Request(j, ip, device) =>
      DeadIsRefused(s, jti, device);
      RequestOthers(env, s, j, ip, device, jti);
    case LogOut(j, ip, device) =>
      DeadIsRefused(s, jti, device);
      RequestOthers(env, s, j, ip, device, jti);
    case _ =>
  }

  /** A revoked token is never accepted again although its blacklist entry expires: in every
      continuation no answer shows it got through. */
  lemma {:induction false} RevokedStaysRevoked(env: Setting, s: Server, events: seq<ServerEvent>, jti: Jti)
    requires Inv(s) && Dead(s, jti)
    ensures Dead(Serve(env, s, events), jti) && Refuses(s, Serve(env, s, events), jti)
    decreases |events|
  {
    if events != [] {
      var next := ServerStep(env, s, events[0]);
      DeadStaysDeadStep(env, s, events[0], jti);
      ServerStepKeeps(env, s, events[0]);
      RevokedStaysRevoked(env, next, events[1..], jti);
      RefusesOn(s, next, Serve(env, next, events[1..]), jti);
    }
  }

  /** Logout revokes the token it was called with for good. The renewal in front of it still runs, so
      the answer carries a fresh live token of the same session exactly when one was due. */
  lemma LogoutExactly(env: Setting, s: Server, jti: Jti, ip: Ip, device: Device)
    requires Inv(s) && !Gated(env, s, ip) && SessionAccepted(s, jti, device)
    ensures var after := AfterLogout(env, s, jti, ip, device);
            var time := s.signed[jti].time;
            && Inv(after) && Dead(after, jti)
            && ((exists k :: k in after.signed && k !in s.signed && SessionAccepted(after, k, device))
                <==> s.now - time.issuedAt >= 3600 && s.now + 60 < SessionStartOf(time) + 30 * 24 * 3600)
  {
    RequireAuthKeeps(env, s, jti, ip, device);
    var after := AfterLogout(env, s, jti, ip, device);
    assert s.nextJti !in s.signed && s.nextJti !in s.revoked;
    if s.nextJti in after.signed {
      assert SessionAccepted(after, s.nextJti, device);
    }
  }

  /** A session token signed under an older version of its user. */
  ghost predicate Outdated(s: Server, jti: Jti) {
    && jti in s.signed && s.signed[jti].verified
    && s.signed[jti].uid in s.versions && s.signed[jti].version < s.versions[s.signed[jti].uid]
  }

  lemma OutdatedStep(env: Setting, s: Server, e: ServerEvent, jti: Jti)
    requires Inv(s) && Outdated(s, jti)
    ensures Outdated(ServerStep(env, s, e), jti) && Refuses(s, ServerStep(env, s, e), jti)
  {
    match e
    case Verify(j, code, ip, device) => VerifyOthers(env, s, j, code, ip, device, jti);
    case Request(j, ip, device) => RequestOthers(env, s, j, ip, device, jti);
    case LogOut(j, ip, device) => RequestOthers(env, s, j, ip, device, jti);
    case _ =>
  }

  /** A version bump (password change, lockdown) ends every session of the user: a session token with
      an older version never gets through again. */
  lemma {:induction false} OldVersionsAreOut(env: Setting, s: Server, events: seq<ServerEvent>, jti: Jti)
    requires Inv(s) && Outdated(s, jti)
    ensures Refuses(s, Serve(env, s, events), jti)
    decreases |events|
  {
    if events != [] {
      var next := ServerStep(env, s, events[0]);
      OutdatedStep(env, s, events[0], jti);
      ServerStepKeeps(env, s, events[0]);
      OldVersionsAreOut(env, next, events[1..], jti);
      RefusesOn(s, next, Serve(env, next, events[1..]), jti);
    }
  }

  /** A second-step token is not covered: it is accepted after the bump exactly when it was before,
      although the password change is meant to end all prior tokens. */
  lemma BumpSparesSecondStepTokens(env: Setting, s: Server, uid: Uid, steps: nat, jti: Jti, device: Device)
    ensures TempTokenAccepted(ServerStep(env, s, BumpVersion(uid, steps)), jti, device) <==>
              TempTokenAccepted(s, jti, device)
  {
  }

  // ----- one-time codes -----

  /** Each login keeps its code locked for 90 seconds, and no other login of that user with that code
      falls inside. */
  ghost predicate UsedOk(s: Server) {
    && (forall i :: 0 <= i < |s.replies| && s.replies[i].answer.LoggedIn? ==> LockHolds(s, s.replies[i]))
    && (forall i, j :: 0 <= i < j < |s.replies| && SameCode(s.replies[i], s.replies[j]) ==>
        s.replies[i].at + CODE_USED <= s.replies[j].at)
  }

  ghost predicate LockHolds(s: Server, login: Reply)
    requires login.answer.LoggedIn?
  {
    var key := (login.uid, login.answer.code);
    login.at <= s.now && key in s.used && login.at + CODE_USED <= s.used[key]
  }

  predicate SameCode(a: Reply, b: Reply) {
    a.answer.LoggedIn? && a.answer == b.answer && a.uid == b.uid
  }

  /** Answers that are not logins leave the locks as they are. */
  lemma UsedQuiet(s: Server, s': Server, extra: seq<Reply>)
    requires UsedOk(s) && s.now <= s'.now && s'.used == s.used
    requires s'.replies == s.replies + extra && (extra == [] || (|extra| == 1 && !extra[0].answer.LoggedIn?))
    ensures UsedOk(s')
  {
    forall i | 0 <= i < |s'.replies| && s'.replies[i].answer.LoggedIn? ensures LockHolds(s', s'.replies[i]) {
      assert s'.replies[i] == s.replies[i] && LockHolds(s, s.replies[i]);
    }
  }

  /** A login whose code was free takes the lock. */
  lemma UsedLogin(s: Server, s': Server, login: Reply)
    requires UsedOk(s) && s.now == s'.now == login.at && login.answer.LoggedIn?
    requires s'.replies == s.replies + [login] && !CodeIsUsed(s, login.uid, login.answer.code)
    requires s'.used == s.used[(login.uid, login.answer.code) := s.now + CODE_USED]
    ensures UsedOk(s')
  {
    forall i | 0 <= i < |s.replies| && s.replies[i].answer.LoggedIn?
      ensures LockHolds(s', s.replies[i]) && (SameCode(s.replies[i], login) ==> s.replies[i].at + CODE_USED <= login.at)
    {
      assert LockHolds(s, s.replies[i]);
    }
  }

  /** One answer per call; the used-code locks move only with a login. */
  ghost predicate AnswersOnce(s: Server, s': Server, reply: Reply) {
    && s'.now == s.now && s'.replies == s.replies + [reply]
    && (!reply.answer.LoggedIn? ==> s'.used == s.used)
    && (reply.answer.LoggedIn? ==>
          && reply.at == s.now && !CodeIsUsed(s, reply.uid, reply.answer.code)
          && s'.used == s.used[(reply.uid, reply.answer.code) := s.now + CODE_USED])
  }

  lemma WrongCodeShape(env: Setting, s: Server, jti: Jti, ip: Ip)
    requires jti in s.signed
    ensures exists reply :: AnswersOnce(s, WrongCodeGiven(env, s, jti, ip), reply)
  {
    var s' := WrongCodeGiven(env, s, jti, ip);
    assert AnswersOnce(s, s', s'.replies[|s.replies|]);
  }

  lemma LockShape(s: Server, jti: Jti, code: Code, ip: Ip, device: Device)
    requires jti in s.signed && s.signed[jti].uid in s.versions
    ensures exists reply :: AnswersOnce(s, LockAndLogin(s, jti, code, ip, device), reply)
  {
    var s' := LockAndLogin(s, jti, code, ip, device);
    assert AnswersOnce(s, s', s'.replies[|s.replies|]);
  }

  lemma VerifyShape(env: Setting, s: Server, jti: Jti, code: Code, ip: Ip, device: Device)
    ensures exists reply :: AnswersOnce(s, AfterVerify(env, s, jti, code, ip, device), reply)
  {
    hide WrongCodeGiven;
    hide LockAndLogin;
    var s' := AfterVerify(env, s, jti, code, ip, device);
    if Gated(env, s, ip) {
      assert AnswersOnce(s, s', Reply(jti, ip, 0, s.now, Blocked));
    } else if !TempTokenAccepted(s, jti, device) {
      assert AnswersOnce(s, s', Reply(jti, ip, 0, s.now, Rejected(TempRefusal(s, jti, device).value)));
    } else if !VerifyCode(env, s.signed[jti].uid, code, s.now) {
      WrongCodeShape(env, s, jti, ip);
    } else {
      LockShape(s, jti, code, ip, device);
    }
  }

  function RequestReply(env: Setting, s: Server, jti: Jti, ip: Ip, device: Device): Reply {
    if Gated(env, s, ip) then Reply(jti, ip, 0, s.now, Blocked)
    else if !SessionAccepted(s, jti, device)
    then Reply(jti, ip, 0, s.now, Rejected(SessionRefusal(s, jti, device).value))
    else Reply(jti, ip, s.signed[jti].uid, s.now, SessionOk)
  }

  lemma RequestShape(env: Setting, s: Server, jti: Jti, ip: Ip, device: Device)
    ensures AnswersOnce(s, AfterRequest(env, s, jti, ip, device), RequestReply(env, s, jti, ip, device))
  {
  }

  lemma LogoutShape(env: Setting, s: Server, jti: Jti, ip: Ip, device: Device)
    ensures AnswersOnce(s, AfterLogout(env, s, jti, ip, device), RequestReply(env, s, jti, ip, device))
  {
    RequestShape(env, s, jti, ip, device);
  }

  lemma UsedAnswer(s: Server, s': Server)
    requires UsedOk(s) && exists reply :: AnswersOnce(s, s', reply)
    ensures UsedOk(s')
  {
    var reply :| AnswersOnce(s, s', reply);
    if reply.answer.LoggedIn? {
      UsedLogin(s, s', reply);
    } else {
      UsedQuiet(s, s', [reply]);
    }
  }

  lemma UsedStep(env: Setting, s: Server, e: ServerEvent)
    requires UsedOk(s)
    ensures UsedOk(ServerStep(env, s, e))
  {
    match e
    case Verify(jti, code, ip, device) =>
      VerifyShape(env, s, jti, code, ip, device);
      UsedAnswer(s, AfterVerify(env, s, jti, code, ip, device));
    case Request(jti, ip, device) =>
      RequestShape(env, s, jti, ip, device);
      UsedAnswer(s, AfterRequest(env, s, jti, ip, device));
    case LogOut(jti, ip, device) =>
      LogoutShape(env, s, jti, ip, device);
      UsedAnswer(s, AfterLogout(env, s, jti, ip, device));
    case _ => UsedQuiet(s, ServerStep(env, s, e), []);
  }

  lemma {:induction false} UsedRun(env: Setting, s: Server, events: seq<ServerEvent>)
    requires UsedOk(s)
    ensures UsedOk(Serve(env, s, events))
    decreases |events|
  {
    if events != [] {
      UsedStep(env, s, events[0]);
      UsedRun(env, ServerStep(env, s, events[0]), events[1..]);
    }
  }

  /** No run accepts the code of one step twice for a user: two logins with the same code never fall
      into the 90 seconds in which that step is good. */
  lemma CodeAcceptedOncePerStep(env: Setting, now: int, versions: map<Uid, nat>, events: seq<ServerEvent>, step: int,
                                i: nat, j: nat)
    requires var replies := Serve(env, Boot(now, versions), events).replies;
             && i < j < |replies| && SameCode(replies[i], replies[j])
             && replies[i].answer.code == env.codes(replies[i].uid, step)
    ensures var replies := Serve(env, Boot(now, versions), events).replies;
            !(StepLives(step, replies[i].at) && StepLives(step, replies[j].at))
  {
    UsedRun(env, Boot(now, versions), events);
  }

  // ----- a handler that is slow between the code check and the lock -----

  /** The handler has come past the code check at this moment. */
  predicate CodeChecked(env: Setting, s: Server, jti: Jti, code: Code, ip: Ip, device: Device) {
    !Gated(env, s, ip) && TempTokenAccepted(s, jti, device) && VerifyCode(env, s.signed[jti].uid, code, s.now)
  }

  predicate LetsIn(s: Server, jti: Jti, code: Code, ip: Ip, device: Device)
    requires jti in s.signed && s.signed[jti].uid in s.versions
  {
    var replies := LockAndLogin(s, jti, code, ip, device).replies;
    replies != [] && replies[|replies| - 1] == Reply(jti, ip, s.signed[jti].uid, s.now, LoggedIn(code))
  }

  /** A handler that checks and locks at one moment is the handler of the step system. */
  lemma PromptHandler(env: Setting, s: Server, jti: Jti, code: Code, ip: Ip, device: Device)
    requires CodeChecked(env, s, jti, code, ip, device)
    ensures AfterVerify(env, s, jti, code, ip, device) == LockAndLogin(s, jti, code, ip, device)
  {
  }

  /** A second handler with a code a login has locked is let in exactly from 90 seconds after that lock on.
      If it checked the code while the step was good, it must then have waited longer between check and
      lock than the first lock came after the start of the step's life: a prompt handler is not let in. */
  lemma ReplayNeedsALateLock(t: Server, login: Reply, jti: Jti, code: Code, ip: Ip, device: Device)
    requires login.answer == LoggedIn(code) && LockHolds(t, login)
    requires t.used[(login.uid, code)] == login.at + CODE_USED
    requires jti in t.signed && t.signed[jti].uid == login.uid && login.uid in t.versions
    ensures LetsIn(t, jti, code, ip, device) <==> t.now >= login.at + 90
    ensures forall step, checked :: StepLives(step, checked) && LetsIn(t, jti, code, ip, device) ==>
              t.now - checked > login.at - (step - 1) * 30
  {
    if t.now < login.at + CODE_USED {
      assert CodeIsUsed(t, login.uid, code);
    }
  }

  function Later(s: Server, seconds: nat): Server {
    s.(now := s.now + seconds)
  }

  /** And one second is enough: the first handler logs in at the first second of the step's life, the
      second one checks in its last second and takes the lock a second later; both are let in. */
  lemma LateLockReplays(env: Setting, s: Server, first: Jti, second: Jti, code: Code, ip: Ip, device: Device, step: int)
    requires TokensOk(s) && first != second && CodeChecked(env, s, first, code, ip, device)
    requires TempTokenAccepted(s, second, device)
    requires s.signed[second].uid == s.signed[first].uid && s.signed[second].time.expires > s.now + 89
    requires s.now == (step - 1) * 30 && env.codes(s.signed[first].uid, step) == code
    requires !CodeIsUsed(s, s.signed[first].uid, code)
    ensures AfterVerify(env, s, first, code, ip, device) == LockAndLogin(s, first, code, ip, device)
    ensures LetsIn(s, first, code, ip, device) && StepLives(step, s.now)
    ensures var checking := Later(LockAndLogin(s, first, code, ip, device), 89);
            && StepLives(step, checking.now) && CodeChecked(env, checking, second, code, ip, device)
            && !LetsIn(checking, second, code, ip, device)
            && LetsIn(Later(checking, 1), second, code, ip, device)
  {
    PromptHandler(env, s, first, code, ip, device);
    var uid := s.signed[first].uid;
    var checking := Later(LockAndLogin(s, first, code, ip, device), 89);
    assert checking.used[(uid, code)] == s.now + CODE_USED;
    assert checking.signed[second] == s.signed[second];
    VerifyCodeIsWindow(env, uid, code, checking.now);
  }
}
