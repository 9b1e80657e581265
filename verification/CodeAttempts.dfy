/**
 How many wrong codes one second-step token really takes: five, and one more for every address that is
 locked on the way; without end from an immune address whose counter is full.
 */
module CodeAttempts {
  import opened Prelude
  import opened SessionTokens
  import opened LoginLockout
  import opened AuthServer
  import opened AuthSafety

  // ----- an address is locked at most once per token -----

  predicate Locked(env: Setting, reply: Reply) {
    reply.answer == CodeWrong(true) && reply.ip !in env.immune
  }

  /** The ban a locking answer left behind outlives the token. */
  ghost predicate BanHolds(s: Server, reply: Reply) {
    && reply.jti in s.signed && !s.signed[reply.jti].verified
    && s.signed[reply.jti].time.issuedAt <= reply.at
    && reply.ip in s.ips && reply.at + CODE_BAN <= s.ips[reply.ip].bannedUntil
  }

  ghost predicate LocksOk(env: Setting, s: Server) {
    && (forall i :: 0 <= i < |s.replies| && Locked(env, s.replies[i]) ==> BanHolds(s, s.replies[i]))
    && (forall i, j :: 0 <= i < j < |s.replies| && Locked(env, s.replies[i]) && Locked(env, s.replies[j]) ==>
          s.replies[i].jti != s.replies[j].jti || s.replies[i].ip != s.replies[j].ip)
  }

  /** Tokens are kept and no ban is cut short. */
  ghost predicate KeepsBans(s: Server, s': Server) {
    && (forall j :: j in s.signed ==> j in s'.signed && s'.signed[j] == s.signed[j])
    && (forall ip :: ip in s.ips ==> ip in s'.ips && s.ips[ip].bannedUntil <= s'.ips[ip].bannedUntil)
  }

  lemma NothingLocked(env: Setting, s: Server, s': Server, extra: seq<Reply>)
    requires LocksOk(env, s) && KeepsBans(s, s')
    requires s'.replies == s.replies + extra && (extra == [] || (|extra| == 1 && !Locked(env, extra[0])))
    ensures LocksOk(env, s')
  {
    forall i | 0 <= i < |s'.replies| && Locked(env, s'.replies[i])
      ensures i < |s.replies| && BanHolds(s', s'.replies[i])
    {
      assert s'.replies[i] == s.replies[i] && BanHolds(s, s.replies[i]);
    }
  }

  lemma OneLocked(env: Setting, s: Server, s': Server, reply: Reply)
    requires LocksOk(env, s) && KeepsBans(s, s') && s'.replies == s.replies + [reply] && BanHolds(s', reply)
    requires forall i :: 0 <= i < |s.replies| && Locked(env, s.replies[i]) ==>
        s.replies[i].jti != reply.jti || s.replies[i].ip != reply.ip
    ensures LocksOk(env, s')
  {
    forall i | 0 <= i < |s'.replies| && Locked(env, s'.replies[i]) ensures BanHolds(s', s'.replies[i]) {
      if i < |s.replies| {
        assert s'.replies[i] == s.replies[i] && BanHolds(s, s.replies[i]);
      }
    }
  }

  /** An address that was locked on this token is still banned when the token is presented from it. */
  lemma LockedBefore(env: Setting, s: Server, jti: Jti, ip: Ip, device: Device, i: nat)
    requires AuthSafety.Inv(s) && LocksOk(env, s) && !Gated(env, s, ip) && TempTokenAccepted(s, jti, device)
    requires i < |s.replies| && Locked(env, s.replies[i])
    ensures s.replies[i].jti != jti || s.replies[i].ip != ip
  {
    assert BanHolds(s, s.replies[i]);
  }

  lemma WrongCodeLocks(env: Setting, s: Server, jti: Jti, ip: Ip, device: Device)
    requires AuthSafety.Inv(s) && LocksOk(env, s) && !Gated(env, s, ip) && TempTokenAccepted(s, jti, device)
    ensures LocksOk(env, WrongCodeGiven(env, s, jti, ip))
  {
    var s' := WrongCodeGiven(env, s, jti, ip);
    var reply := s'.replies[|s.replies|];
    WrongCodeBans(env, s, jti, ip);
    forall i: nat | i < |s.replies| && Locked(env, s.replies[i])
      ensures s.replies[i].jti != jti || s.replies[i].ip != ip
    {
      LockedBefore(env, s, jti, ip, device, i);
    }
    hide WrongCodeGiven;
    if Locked(env, reply) {
      OneLocked(env, s, s', reply);
    } else {
      NothingLocked(env, s, s', [reply]);
    }
  }

  lemma WrongCodeBans(env: Setting, s: Server, jti: Jti, ip: Ip)
    requires TokensOk(s) && jti in s.signed && !s.signed[jti].verified && !Gated(env, s, ip)
    ensures var s' := WrongCodeGiven(env, s, jti, ip);
            && KeepsBans(s, s') && |s'.replies| == |s.replies| + 1
            && var reply := s'.replies[|s.replies|];
            && s'.replies == s.replies + [reply] && reply.jti == jti && reply.ip == ip
            && (Locked(env, reply) ==> BanHolds(s', reply))
  {
    hide TokenFailCount;
    hide Count;
  }

  lemma LoginLocks(env: Setting, s: Server, jti: Jti, code: Code, ip: Ip, device: Device)
    requires TokensOk(s) && LocksOk(env, s) && jti in s.signed && s.signed[jti].uid in s.versions
    ensures LocksOk(env, LockAndLogin(s, jti, code, ip, device))
  {
    var s' := LockAndLogin(s, jti, code, ip, device);
    var reply := s'.replies[|s.replies|];
    assert s'.replies == s.replies + [reply] && !Locked(env, reply);
    assert KeepsBans(s, s');
    hide LockAndLogin;
    NothingLocked(env, s, s', [reply]);
  }

  lemma SayLocks(env: Setting, s: Server, jti: Jti, ip: Ip, uid: Uid, answer: Answer)
    requires LocksOk(env, s) && !answer.CodeWrong?
    ensures LocksOk(env, Said(s, jti, ip, uid, answer))
  {
    NothingLocked(env, s, Said(s, jti, ip, uid, answer), [Reply(jti, ip, uid, s.now, answer)]);
  }

  lemma SignLocks(env: Setting, s: Server, token: Token)
    requires TokensOk(s) && LocksOk(env, s)
    ensures LocksOk(env, Sign(s, token))
  {
    NothingLocked(env, s, Sign(s, token), []);
  }

  lemma VerifyLocks(env: Setting, s: Server, jti: Jti, code: Code, ip: Ip, device: Device)
    requires AuthSafety.Inv(s) && LocksOk(env, s)
    ensures LocksOk(env, AfterVerify(env, s, jti, code, ip, device))
  {
    hide LocksOk;
    hide Said;
    hide WrongCodeGiven;
    hide LockAndLogin;
    if Gated(env, s, ip) {
      SayLocks(env, s, jti, ip, 0, Blocked);
    } else if !TempTokenAccepted(s, jti, device) {
      SayLocks(env, s, jti, ip, 0, Rejected(TempRefusal(s, jti, device).value));
    } else if !VerifyCode(env, s.signed[jti].uid, code, s.now) {
      WrongCodeLocks(env, s, jti, ip, device);
    } else {
      LoginLocks(env, s, jti, code, ip, device);
    }
  }

  lemma RequestLocks(env: Setting, s: Server, jti: Jti, ip: Ip, device: Device)
    requires AuthSafety.Inv(s) && LocksOk(env, s)
    ensures LocksOk(env, AfterRequest(env, s, jti, ip, device)) && LocksOk(env, AfterLogout(env, s, jti, ip, device))
  {
    RequestAnswers(env, s, jti, ip, device);
    hide LocksOk;
    var s' := AfterRequest(env, s, jti, ip, device);
    hide AfterRequest;
    RevokeLocks(env, s', jti);
  }

  lemma RequestAnswers(env: Setting, s: Server, jti: Jti, ip: Ip, device: Device)
    requires AuthSafety.Inv(s) && LocksOk(env, s)
    ensures LocksOk(env, AfterRequest(env, s, jti, ip, device))
  {
    hide LocksOk;
    hide Said;
    hide Sign;
    if Gated(env, s, ip) {
      SayLocks(env, s, jti, ip, 0, Blocked);
    } else if !SessionAccepted(s, jti, device) {
      SayLocks(env, s, jti, ip, 0, Rejected(SessionRefusal(s, jti, device).value));
    } else {
      var token := s.signed[jti];
      var renewed := RenewIfDue(token.time, s.now);
      if renewed.Some? {
        SignLocks(env, s, token.(time := renewed.value));
        SayLocks(env, Sign(s, token.(time := renewed.value)), jti, ip, token.uid, SessionOk);
      } else {
        SayLocks(env, s, jti, ip, token.uid, SessionOk);
      }
    }
  }

  lemma RevokeLocks(env: Setting, s: Server, jti: Jti)
    requires LocksOk(env, s)
    ensures LocksOk(env, Revoke(s, jti, LIFETIME))
  {
    NothingLocked(env, s, Revoke(s, jti, LIFETIME), []);
  }

  lemma ClockLocks(env: Setting, s: Server, seconds: nat, versions: map<Uid, nat>)
    requires LocksOk(env, s)
    ensures LocksOk(env, s.(now := s.now + seconds)) && LocksOk(env, s.(versions := versions))
  {
    NothingLocked(env, s, s.(now := s.now + seconds), []);
    NothingLocked(env, s, s.(versions := versions), []);
  }

  /** A ban written by another handler overwrites none that is still running: the gate is in front. */
  lemma BanLocks(env: Setting, s: Server, s': Server, ip: Ip)
    requires LocksOk(env, s)
    requires s' == s || (!Gated(env, s, ip) && ip in s'.ips && s' == s.(ips := s.ips[ip := s'.ips[ip]]))
    requires s' != s ==>
        s'.ips[ip].bannedUntil == IpOf(s, ip).bannedUntil || (ip !in env.immune && s'.ips[ip].bannedUntil >= s.now)
    ensures LocksOk(env, s')
  {
    assert KeepsBans(s, s');
    NothingLocked(env, s, s', []);
  }

  lemma PasswordLocks(env: Setting, s: Server, uid: Uid, right: bool, ip: Ip, device: Device)
    requires TokensOk(s) && LocksOk(env, s)
    ensures LocksOk(env, AfterLoginStep1(env, s, uid, right, ip, device))
  {
    hide LocksOk;
    if right && uid in s.versions {
      SignLocks(env, s, Token(uid, s.versions[uid], device, false, Claims(s.now, s.now, s.now + TEMP_LIFETIME, 0)));
    } else {
      BanLocks(env, s, AfterLoginStep1(env, s, uid, right, ip, device), ip);
    }
  }

  lemma TrapLocks(env: Setting, s: Server, ip: Ip)
    requires LocksOk(env, s)
    ensures LocksOk(env, AfterTrap(env, s, ip))
  {
    hide LocksOk;
    BanLocks(env, s, AfterTrap(env, s, ip), ip);
  }

  lemma StepLocks(env: Setting, s: Server, e: ServerEvent)
    requires AuthSafety.Inv(s) && LocksOk(env, s)
    ensures LocksOk(env, ServerStep(env, s, e))
  {
    hide LocksOk;
    hide AfterVerify;
    hide AfterRequest;
    hide AfterLogout;
    hide AfterTrap;
    hide AfterLoginStep1;
    match e
    case Tick(seconds) => ClockLocks(env, s, seconds, s.versions);
    case Password(uid, right, ip, device) => PasswordLocks(env, s, uid, right, ip, device);
    case Trap(ip) => TrapLocks(env, s, ip);
    case Verify(jti, code, ip, device) => VerifyLocks(env, s, jti, code, ip, device);
    case Request(jti, ip, device) => RequestLocks(env, s, jti, ip, device);
    case LogOut(jti, ip, device) => RequestLocks(env, s, jti, ip, device);
    case BumpVersion(uid, steps) =>
      if uid in s.versions {
        ClockLocks(env, s, 0, s.versions[uid := s.versions[uid] + steps]);
      }
  }

  lemma {:induction false} RunLocks(env: Setting, s: Server, events: seq<ServerEvent>)
    requires AuthSafety.Inv(s) && LocksOk(env, s)
    ensures LocksOk(env, Serve(env, s, events))
    decreases |events|
  {
    hide LocksOk;
    hide AuthSafety.Inv;
    hide ServerStep;
    if events != [] {
      StepLocks(env, s, events[0]);
      ServerStepKeeps(env, s, events[0]);
      RunLocks(env, ServerStep(env, s, events[0]), events[1..]);
    }
  }

  // ----- the bound over whole runs -----

  /** The addresses that were locked by a wrong code on the token. */
  function LockedBy(env: Setting, replies: seq<Reply>, jti: Jti): set<Ip> {
    set i | 0 <= i < |replies| && replies[i].jti == jti && Locked(env, replies[i]) :: replies[i].ip
  }

  /** How many wrong codes were answered on the token to addresses that are not immune. */
  function WrongFrom(env: Setting, replies: seq<Reply>, jti: Jti): nat {
    if replies == [] then 0
    else
      var last := replies[|replies| - 1];
      var counts := last.jti == jti && last.answer.CodeWrong? && last.ip !in env.immune;
      WrongFrom(env, replies[..|replies| - 1], jti) + if counts then 1 else 0
  }

  ghost predicate OncePerAddress(env: Setting, replies: seq<Reply>) {
    forall i, j :: 0 <= i < j < |replies| && Locked(env, replies[i]) && Locked(env, replies[j]) ==>
      replies[i].jti != replies[j].jti || replies[i].ip != replies[j].ip
  }

  lemma LockedByGrows(env: Setting, front: seq<Reply>, last: Reply, jti: Jti)
    requires OncePerAddress(env, front + [last])
    ensures LockedBy(env, front + [last], jti) ==
            LockedBy(env, front, jti) + if last.jti == jti && Locked(env, last) then {last.ip} else {}
    ensures last.jti == jti && Locked(env, last) ==> last.ip !in LockedBy(env, front, jti)
  {
    var all := front + [last];
    assert all[|front|] == last;
    assert forall i :: 0 <= i < |front| ==> all[i] == front[i];
  }

  lemma {:induction false} WrongSplits(env: Setting, replies: seq<Reply>, jti: Jti)
    requires OncePerAddress(env, replies)
    ensures WrongFrom(env, replies, jti) <= Matching(replies, jti, UnlockedWrongCodes) + |LockedBy(env, replies, jti)|
  {
    if replies != [] {
      var front, last := replies[..|replies| - 1], replies[|replies| - 1];
      assert replies == front + [last];
      WrongSplits(env, front, jti);
      LockedByGrows(env, front, last, jti);
    }
  }

  /** In any run at most five wrong codes are answered on one second-step token, and one more for every
      address that is locked by one of them; codes from immune addresses aside. */
  lemma WrongCodesAreBounded(env: Setting, now: int, versions: map<Uid, nat>, events: seq<ServerEvent>, jti: Jti)
    ensures var replies := Serve(env, Boot(now, versions), events).replies;
            WrongFrom(env, replies, jti) <= TOKEN_MAX_FAILS + |LockedBy(env, replies, jti)|
  {
    var start := Boot(now, versions);
    BootOk(now, versions);
    RunLocks(env, start, events);
    ServeKeeps(env, start, events);
    var end := Serve(env, start, events);
    hide Serve;
    assert FailsOk(end, jti);
    WrongSplits(env, end.replies, jti);
  }

  // ----- immune addresses -----

  /** The same token, the same address, one code after the other. */
  function Guesses(jti: Jti, codes: seq<Code>, ip: Ip, device: Device): (events: seq<ServerEvent>)
    ensures |events| == |codes|
  {
    if codes == [] then [] else [Verify(jti, codes[0], ip, device)] + Guesses(jti, codes[1..], ip, device)
  }

  lemma ImmuneGuess(env: Setting, s: Server, jti: Jti, code: Code, ip: Ip, device: Device)
    requires ip in env.immune && ReachesAddressLimit(s, ip) && TempTokenAccepted(s, jti, device)
    requires !VerifyCode(env, s.signed[jti].uid, code, s.now)
    ensures var after := AfterVerify(env, s, jti, code, ip, device);
            && ReachesAddressLimit(after, ip) && TempTokenAccepted(after, jti, device)
            && after.now == s.now && after.signed == s.signed
            && Matching(after.replies, jti, WrongCodes) == Matching(s.replies, jti, WrongCodes) + 1
  {
    WrongCodeIsCounted(env, s, jti, ip);
  }

  /** An immune address is never banned and, once its counter is full, never consumes the token: every
      further guess from it is answered, however many there are. */
  lemma {:induction false} ImmuneAddressGuessesOn(env: Setting, s: Server, jti: Jti, codes: seq<Code>, ip: Ip,
                                                  device: Device)
    requires ip in env.immune && ReachesAddressLimit(s, ip) && TempTokenAccepted(s, jti, device)
    requires forall i :: 0 <= i < |codes| ==> !VerifyCode(env, s.signed[jti].uid, codes[i], s.now)
    ensures var after := Serve(env, s, Guesses(jti, codes, ip, device));
            && TempTokenAccepted(after, jti, device)
            && Matching(after.replies, jti, WrongCodes) == Matching(s.replies, jti, WrongCodes) + |codes|
    decreases |codes|
  {
    hide AfterVerify;
    hide Matching;
    hide TempTokenAccepted;
    hide VerifyCode;
    if codes != [] {
      AcceptedIsSigned(s, jti, device);
      ImmuneGuess(env, s, jti, codes[0], ip, device);
      var next := AfterVerify(env, s, jti, codes[0], ip, device);
      var events := Guesses(jti, codes, ip, device);
      assert events[1..] == Guesses(jti, codes[1..], ip, device);
      assert ServerStep(env, s, events[0]) == next;
      ImmuneAddressGuessesOn(env, next, jti, codes[1..], ip, device);
    }
  }

  lemma AcceptedIsSigned(s: Server, jti: Jti, device: Device)
    requires TempTokenAccepted(s, jti, device)
    ensures jti in s.signed
  {
  }

  // ----- the bound is reached -----

  /** A second-step token good for a guess, with this many wrong codes counted on it. */
  ghost predicate Good(s: Server, jti: Jti, uid: Uid, device: Device, wrong: nat) {
    TempTokenAccepted(s, jti, device) && s.signed[jti].uid == uid && TokenFailCount(s, jti) == wrong
  }

  /** An address that is not banned, with this many wrong codes in its window. */
  ghost predicate Open(env: Setting, s: Server, ip: Ip, wrong: nat) {
    !Gated(env, s, ip) && Count(IpOf(s, ip).codeFails, IpOf(s, ip).codeFailsUntil, s.now) == wrong
  }

  /** The stage of the guesses: one user, one wrong code, one instant. */
  datatype Scene = Scene(uid: Uid, device: Device, code: Code, now: int)

  ghost predicate On(env: Setting, s: Server, scene: Scene) {
    && AuthSafety.Inv(s) && s.now == scene.now && scene.uid in s.versions
    && !VerifyCode(env, scene.uid, scene.code, scene.now)
  }

  /** Only this address's record has changed. */
  ghost predicate Touches(s: Server, s': Server, ip: Ip) {
    ip in s'.ips && s'.ips == s.ips[ip := s'.ips[ip]] && s'.now == s.now
  }

  lemma OtherStaysOpen(env: Setting, s: Server, s': Server, ip: Ip, other: Ip, wrong: nat)
    requires Touches(s, s', ip) && other != ip
    ensures Open(env, s', other, wrong) <==> Open(env, s, other, wrong)
  {
  }

  lemma GuessIsWrong(env: Setting, s: Server, jti: Jti, code: Code, ip: Ip, device: Device)
    requires !Gated(env, s, ip) && TempTokenAccepted(s, jti, device) && !VerifyCode(env, s.signed[jti].uid, code, s.now)
    ensures AfterVerify(env, s, jti, code, ip, device) == WrongCodeGiven(env, s, jti, ip)
  {
  }

  /** One guess: both counters go up, and the token stays good below its limit or when the address is over
      its own. */
  lemma Guess(env: Setting, s: Server, scene: Scene, jti: Jti, ip: Ip, f: nat, c: nat)
    requires On(env, s, scene) && Good(s, jti, scene.uid, scene.device, f) && Open(env, s, ip, c)
    ensures var after := AfterVerify(env, s, jti, scene.code, ip, scene.device);
            && Touches(s, after, ip) && after.versions == s.versions && after.nextJti == s.nextJti
            && after.replies == s.replies + [Reply(jti, ip, scene.uid, s.now, CodeWrong(c + 1 >= CODE_BAN_AFTER))]
            && (c + 1 < CODE_BAN_AFTER ==> Open(env, after, ip, c + 1))
            && (f + 1 < TOKEN_MAX_FAILS || c + 1 >= CODE_BAN_AFTER ==> Good(after, jti, scene.uid, scene.device, f + 1))
  {
    GuessIsWrong(env, s, jti, scene.code, ip, scene.device);
    hide AfterVerify;
    hide VerifyCode;
    hide AuthSafety.Inv;
  }

  lemma GuessStaysOn(env: Setting, s: Server, scene: Scene, jti: Jti, ip: Ip)
    requires On(env, s, scene)
    ensures AuthSafety.Inv(AfterVerify(env, s, jti, scene.code, ip, scene.device))
  {
    ServerStepKeeps(env, s, Verify(jti, scene.code, ip, scene.device));
  }

  lemma TallyGrows(env: Setting, front: seq<Reply>, last: Reply, jti: Jti)
    ensures var counts := last.jti == jti && last.answer.CodeWrong? && last.ip !in env.immune;
            WrongFrom(env, front + [last], jti) == WrongFrom(env, front, jti) + if counts then 1 else 0
    ensures LockedBy(env, front + [last], jti) ==
            LockedBy(env, front, jti) + if last.jti == jti && Locked(env, last) then {last.ip} else {}
  {
    var all := front + [last];
    assert all[..|front|] == front && all[|front|] == last;
    assert forall i :: 0 <= i < |front| ==> all[i] == front[i];
  }

  /** The same as a step of the server, with the tallies. */
  lemma GuessStep(env: Setting, s: Server, scene: Scene, jti: Jti, ip: Ip, f: nat, c: nat)
    returns (e: ServerEvent, next: Server)
    requires On(env, s, scene) && Good(s, jti, scene.uid, scene.device, f) && Open(env, s, ip, c)
    ensures next == Serve(env, s, [e]) && On(env, next, scene) && Touches(s, next, ip)
    ensures c + 1 < CODE_BAN_AFTER ==> Open(env, next, ip, c + 1)
    ensures f + 1 < TOKEN_MAX_FAILS || c + 1 >= CODE_BAN_AFTER ==> Good(next, jti, scene.uid, scene.device, f + 1)
    ensures ip !in env.immune ==>
              && WrongFrom(env, next.replies, jti) == WrongFrom(env, s.replies, jti) + 1
              && LockedBy(env, next.replies, jti) ==
                 LockedBy(env, s.replies, jti) + if c + 1 >= CODE_BAN_AFTER then {ip} else {}
  {
    e := Verify(jti, scene.code, ip, scene.device);
    next := AfterVerify(env, s, jti, scene.code, ip, scene.device);
    Guess(env, s, scene, jti, ip, f, c);
    GuessStaysOn(env, s, scene, jti, ip);
    OneEvent(env, s, e);
    assert ServerStep(env, s, e) == next;
    hide AfterVerify;
    hide Good;
    hide Open;
    hide Gated;
    hide AuthSafety.Inv;
    hide VerifyCode;
    TallyGrows(env, s.replies, next.replies[|s.replies|], jti);
    hide WrongFrom;
    hide LockedBy;
  }

  /** n guesses on one token, none of them one too many. */
  lemma {:induction false} GuessRun(env: Setting, s: Server, scene: Scene, jti: Jti, ip: Ip, f: nat, c: nat, n: nat)
    returns (events: seq<ServerEvent>, after: Server)
    requires On(env, s, scene) && Good(s, jti, scene.uid, scene.device, f) && Open(env, s, ip, c)
    requires f + n <= TOKEN_MAX_FAILS && c + n < CODE_BAN_AFTER && n > 0
    ensures after == Serve(env, s, events) && On(env, after, scene) && Touches(s, after, ip)
    ensures Open(env, after, ip, c + n)
    ensures f + n < TOKEN_MAX_FAILS ==> Good(after, jti, scene.uid, scene.device, f + n)
    ensures ip !in env.immune ==>
              && WrongFrom(env, after.replies, jti) == WrongFrom(env, s.replies, jti) + n
              && LockedBy(env, after.replies, jti) == LockedBy(env, s.replies, jti)
    decreases n
  {
    hide *;
    var e, next := GuessStep(env, s, scene, jti, ip, f, c);
    if n == 1 {
      events, after := [e], next;
    } else {
      var more;
      more, after := GuessRun(env, next, scene, jti, ip, f + 1, c + 1, n - 1);
      TouchesTwice(s, next, after, ip);
      ServeConcat(env, s, [e], more);
      events := [e] + more;
    }
  }

  lemma TouchesTwice(a: Server, b: Server, c: Server, ip: Ip)
    requires Touches(a, b, ip) && Touches(b, c, ip)
    ensures Touches(a, c, ip)
  {
  }

  lemma OneEvent(env: Setting, s: Server, e: ServerEvent)
    ensures Serve(env, s, [e]) == ServerStep(env, s, e)
  {
    hide ServerStep;
    assert [e][1..] == [];
  }

  lemma {:induction false} ServeConcat(env: Setting, s: Server, a: seq<ServerEvent>, b: seq<ServerEvent>)
    ensures Serve(env, s, a + b) == Serve(env, Serve(env, s, a), b)
    decreases |a|
  {
    hide ServerStep;
    if a == [] {
      assert a + b == b;
    } else {
      assert (a + b)[1..] == a[1..] + b;
      ServeConcat(env, ServerStep(env, s, a[0]), a[1..], b);
    }
  }

  /** The right password from an address that is not banned: a token nobody has guessed on. */
  lemma FreshToken(env: Setting, s: Server, scene: Scene, ip: Ip) returns (e: ServerEvent, after: Server, jti: Jti)
    requires On(env, s, scene) && !Gated(env, s, ip)
    ensures after == ServerStep(env, s, e) && On(env, after, scene)
    ensures after.ips == s.ips && after.replies == s.replies && Good(after, jti, scene.uid, scene.device, 0)
    ensures WrongFrom(env, after.replies, jti) == 0 && LockedBy(env, after.replies, jti) == {}
    ensures Matching(after.replies, jti, WrongCodes) == 0
  {
    e := Password(scene.uid, true, ip, scene.device);
    after, jti := ServerStep(env, s, e), s.nextJti;
    ServerStepKeeps(env, s, e);
    NothingOnUnsigned(env, s.replies, jti, s);
  }

  lemma {:induction false} NothingOnUnsigned(env: Setting, replies: seq<Reply>, jti: Jti, s: Server)
    requires TokensOk(s) && jti !in s.signed && replies <= s.replies
    ensures WrongFrom(env, replies, jti) == 0 && LockedBy(env, replies, jti) == {}
    ensures Matching(replies, jti, WrongCodes) == 0
  {
    if replies != [] {
      var front, last := replies[..|replies| - 1], replies[|replies| - 1];
      assert last == s.replies[|replies| - 1];
      NothingOnUnsigned(env, front, jti, s);
      assert replies == front + [last];
      TallyGrows(env, front, last, jti);
    }
  }

  /** n wrong codes from one address, on a token of their own. */
  lemma SpendToken(env: Setting, s: Server, scene: Scene, ip: Ip, c: nat, n: nat)
    returns (events: seq<ServerEvent>, after: Server)
    requires On(env, s, scene) && Open(env, s, ip, c)
    requires 0 < n <= TOKEN_MAX_FAILS && c + n < CODE_BAN_AFTER
    ensures after == Serve(env, s, events) && On(env, after, scene) && Touches(s, after, ip)
    ensures Open(env, after, ip, c + n)
  {
    var e, issued, jti := FreshToken(env, s, scene, ip);
    SameRecords(env, s, issued, ip, c);
    var guesses;
    guesses, after := GuessRun(env, issued, scene, jti, ip, 0, c, n);
    OneEvent(env, s, e);
    ServeConcat(env, s, [e], guesses);
    events := [e] + guesses;
  }

  lemma SameRecords(env: Setting, s: Server, s': Server, ip: Ip, c: nat)
    requires s'.ips == s.ips && s'.now == s.now
    ensures Open(env, s', ip, c) <==> Open(env, s, ip, c)
  {
  }

  /** Fourteen wrong codes from one address, on three tokens: one below its limit. */
  lemma WarmUp(env: Setting, s: Server, scene: Scene, ip: Ip) returns (events: seq<ServerEvent>, after: Server)
    requires On(env, s, scene) && Open(env, s, ip, 0)
    ensures after == Serve(env, s, events) && On(env, after, scene) && Touches(s, after, ip) && Open(env, after, ip, 14)
  {
    var a, s1 := SpendToken(env, s, scene, ip, 0, 5);
    var b, s2 := SpendToken(env, s1, scene, ip, 5, 5);
    var c;
    c, after := SpendToken(env, s2, scene, ip, 10, 4);
    ServeConcat(env, s, a, b);
    ServeConcat(env, s, a + b, c);
    events := a + b + c;
  }

  ghost predicate AllOpen(env: Setting, s: Server, ips: seq<Ip>, wrong: nat) {
    forall i :: 0 <= i < |ips| ==> Open(env, s, ips[i], wrong)
  }

  predicate Distinct(ips: seq<Ip>) {
    forall i, j :: 0 <= i < j < |ips| ==> ips[i] != ips[j]
  }

  lemma OthersStayOpen(env: Setting, s: Server, s': Server, ip: Ip, ips: seq<Ip>, wrong: nat)
    requires Touches(s, s', ip) && ip !in ips && AllOpen(env, s, ips, wrong)
    ensures AllOpen(env, s', ips, wrong)
  {
    hide Open;
    hide Touches;
    forall i | 0 <= i < |ips| ensures Open(env, s', ips[i], wrong) {
      OtherStaysOpen(env, s, s', ip, ips[i], wrong);
    }
  }

  lemma {:induction false} WarmAll(env: Setting, s: Server, scene: Scene, ips: seq<Ip>, warm: seq<Ip>, other: Ip)
    returns (events: seq<ServerEvent>, after: Server)
    requires On(env, s, scene) && AllOpen(env, s, ips, 0) && AllOpen(env, s, warm, 14) && Open(env, s, other, 0)
    requires Distinct(ips) && (forall ip :: ip in ips ==> ip !in env.immune && ip !in warm && ip != other)
    ensures after == Serve(env, s, events) && On(env, after, scene)
    ensures AllOpen(env, after, warm + ips, 14) && Open(env, after, other, 0)
    decreases |ips|
  {
    hide On;
    hide Open;
    hide Touches;
    if ips == [] {
      events, after := [], s;
      assert warm + ips == warm;
    } else {
      var ip, rest := ips[0], ips[1..];
      assert ip in ips;
      var a, s1 := WarmUp(env, s, scene, ip);
      OthersStayOpen(env, s, s1, ip, rest, 0);
      OthersStayOpen(env, s, s1, ip, warm, 14);
      OtherStaysOpen(env, s, s1, ip, other, 0);
      var b;
      b, after := WarmAll(env, s1, scene, rest, warm + [ip], other);
      assert warm + [ip] + rest == warm + ips;
      ServeConcat(env, s, a, b);
      events := a + b;
    }
  }

  function Members(ips: seq<Ip>): set<Ip> {
    set i | 0 <= i < |ips| :: ips[i]
  }

  lemma MembersFront(ips: seq<Ip>)
    requires ips != []
    ensures Members(ips) == {ips[0]} + Members(ips[1..])
  {
    assert forall i :: 0 <= i < |ips[1..]| ==> ips[i + 1] == ips[1..][i];
  }

  lemma DistinctFront(ips: seq<Ip>)
    requires ips != [] && Distinct(ips)
    ensures Distinct(ips[1..]) && ips[0] !in ips[1..]
    ensures forall ip :: ip in ips[1..] ==> ip in ips
  {
  }

  lemma OpenFront(env: Setting, s: Server, ips: seq<Ip>)
    requires ips != [] && AllOpen(env, s, ips, 14)
    ensures Open(env, s, ips[0], 14) && AllOpen(env, s, ips[1..], 14)
  {
    hide Open;
  }

  /** One locking guess from each address; the token lives on. */
  lemma {:induction false} LockAll(env: Setting, s: Server, scene: Scene, jti: Jti, f: nat, ips: seq<Ip>, other: Ip,
                                   c: nat)
    returns (events: seq<ServerEvent>, after: Server)
    requires On(env, s, scene) && Good(s, jti, scene.uid, scene.device, f) && AllOpen(env, s, ips, 14)
    requires Open(env, s, other, c)
    requires Distinct(ips) && (forall ip :: ip in ips ==> ip !in env.immune && ip != other)
    ensures after == Serve(env, s, events) && On(env, after, scene)
    ensures Good(after, jti, scene.uid, scene.device, f + |ips|) && Open(env, after, other, c)
    ensures WrongFrom(env, after.replies, jti) == WrongFrom(env, s.replies, jti) + |ips|
    ensures LockedBy(env, after.replies, jti) == LockedBy(env, s.replies, jti) + Members(ips)
    decreases |ips|
  {
    if ips == [] {
      events, after := [], s;
    } else {
      var ip, rest := ips[0], ips[1..];
      assert ip in ips;
      hide *;
      DistinctFront(ips);
      OpenFront(env, s, ips);
      var e, next := GuessStep(env, s, scene, jti, ip, f, 14);
      OthersStayOpen(env, s, next, ip, rest, 14);
      OtherStaysOpen(env, s, next, ip, other, c);
      var more;
      more, after := LockAll(env, next, scene, jti, f + 1, rest, other, c);
      ServeConcat(env, s, [e], more);
      events := [e] + more;
      MembersFront(ips);
    }
  }

  lemma {:induction false} MembersCount(ips: seq<Ip>)
    requires Distinct(ips)
    ensures |Members(ips)| == |ips|
  {
    if ips != [] {
      var front, last := ips[..|ips| - 1], ips[|ips| - 1];
      MembersCount(front);
      assert Members(ips) == Members(front) + {last};
      assert last !in Members(front);
    }
  }

  /** Every address is brought to the brink, and a new token is issued. */
  lemma Prepare(env: Setting, s: Server, scene: Scene, ips: seq<Ip>, other: Ip)
    returns (events: seq<ServerEvent>, after: Server, jti: Jti)
    requires On(env, s, scene) && AllOpen(env, s, ips, 0) && Open(env, s, other, 0)
    requires Distinct(ips) && forall ip :: ip in ips ==> ip !in env.immune && ip != other
    ensures after == Serve(env, s, events) && On(env, after, scene)
    ensures AllOpen(env, after, ips, 14) && Open(env, after, other, 0) && Good(after, jti, scene.uid, scene.device, 0)
    ensures WrongFrom(env, after.replies, jti) == 0 && LockedBy(env, after.replies, jti) == {}
  {
    assert AllOpen(env, s, [], 14);
    hide *;
    var a, s1 := WarmAll(env, s, scene, ips, [], other);
    assert [] + ips == ips;
    IsOpen(env, s1, other, 0);
    var e;
    e, after, jti := FreshToken(env, s1, scene, other);
    SameRecords(env, s1, after, other, 0);
    KeepOpen(env, s1, after, ips);
    OneEvent(env, s1, e);
    ServeConcat(env, s, a, [e]);
    events := a + [e];
  }

  /** Four codes from another address, a locking one from each of these, and a last one. */
  lemma Harvest(env: Setting, s: Server, scene: Scene, jti: Jti, ips: seq<Ip>, other: Ip)
    returns (events: seq<ServerEvent>, after: Server)
    requires On(env, s, scene) && AllOpen(env, s, ips, 14) && Open(env, s, other, 0)
    requires Good(s, jti, scene.uid, scene.device, 0) && other !in env.immune
    requires Distinct(ips) && forall ip :: ip in ips ==> ip !in env.immune && ip != other
    ensures after == Serve(env, s, events)
    ensures WrongFrom(env, after.replies, jti) == WrongFrom(env, s.replies, jti) + TOKEN_MAX_FAILS + |ips|
    ensures LockedBy(env, after.replies, jti) == LockedBy(env, s.replies, jti) + Members(ips)
  {
    assert TOKEN_MAX_FAILS == 5 && CODE_BAN_AFTER == 15;
    hide *;
    var a, s1 := GuessRun(env, s, scene, jti, other, 0, 0, 4);
    OthersStayOpen(env, s, s1, other, ips, 14);
    var b, s2 := LockAll(env, s1, scene, jti, 4, ips, other, 4);
    var last;
    last, after := GuessStep(env, s2, scene, jti, other, 4 + |ips|, 4);
    ServeConcat(env, s, a, b);
    ServeConcat(env, s, a + b, [last]);
    events := a + b + [last];
  }

  /** From a fresh start on, for any number of addresses: each gives fourteen wrong codes on tokens of their
      own; then one token takes four codes from yet another address, a locking one from each of them, and
      a last one, which consumes it. That is five and one for every address locked. */
  lemma BoundIsReached(env: Setting, version: nat, scene: Scene, ips: seq<Ip>, other: Ip)
    returns (events: seq<ServerEvent>, jti: Jti)
    requires Distinct(ips) && other !in ips && other !in env.immune && forall ip :: ip in ips ==> ip !in env.immune
    requires !VerifyCode(env, scene.uid, scene.code, scene.now)
    ensures var replies := Serve(env, Boot(scene.now, map[scene.uid := version]), events).replies;
            && WrongFrom(env, replies, jti) == TOKEN_MAX_FAILS + |ips|
            && LockedBy(env, replies, jti) == Members(ips) && |Members(ips)| == |ips|
  {
    var boot := Boot(scene.now, map[scene.uid := version]);
    BootOk(scene.now, map[scene.uid := version]);
    AllOpenAtBoot(env, boot, ips);
    AllOpenAtBoot(env, boot, [other]);
    assert [other][0] == other;
    assert On(env, boot, scene);
    MembersCount(ips);
    hide *;
    var a, s;
    a, s, jti := Prepare(env, boot, scene, ips, other);
    var b, after := Harvest(env, s, scene, jti, ips, other);
    ServeConcat(env, boot, a, b);
    assert {} + Members(ips) == Members(ips);
    events := a + b;
  }

  lemma AllOpenAtBoot(env: Setting, boot: Server, ips: seq<Ip>)
    requires boot.ips == map[]
    ensures AllOpen(env, boot, ips, 0)
  {
  }

  lemma IsOpen(env: Setting, s: Server, ip: Ip, wrong: nat)
    requires Open(env, s, ip, wrong)
    ensures !Gated(env, s, ip)
  {
  }

  lemma KeepOpen(env: Setting, s: Server, s': Server, ips: seq<Ip>)
    requires AllOpen(env, s, ips, 14) && s'.ips == s.ips && s'.now == s.now
    ensures AllOpen(env, s', ips, 14)
  {
    hide Open;
    forall i | 0 <= i < |ips| ensures Open(env, s', ips[i], 14) {
      SameRecords(env, s, s', ips[i], 14);
    }
  }

  /** In particular six, with one address locked. */
  lemma SixWrongCodesOnOneToken(env: Setting, version: nat, scene: Scene, ip: Ip, other: Ip)
    returns (events: seq<ServerEvent>, jti: Jti)
    requires ip != other && ip !in env.immune && other !in env.immune
    requires !VerifyCode(env, scene.uid, scene.code, scene.now)
    ensures var replies := Serve(env, Boot(scene.now, map[scene.uid := version]), events).replies;
            WrongFrom(env, replies, jti) == 6 && LockedBy(env, replies, jti) == {ip}
  {
    events, jti := BoundIsReached(env, version, scene, [ip], other);
    assert Members([ip]) == {ip};
  }

  /** Nor is there a bound for an immune address: from a fresh start it gives fourteen wrong codes on tokens
      of their own, and then as many as it likes on one more token, all answered, and the token stays good. */
  lemma ImmuneAddressHasNoBound(env: Setting, version: nat, scene: Scene, ip: Ip, codes: seq<Code>)
    returns (events: seq<ServerEvent>, jti: Jti)
    requires ip in env.immune && !VerifyCode(env, scene.uid, scene.code, scene.now)
    requires forall i :: 0 <= i < |codes| ==> !VerifyCode(env, scene.uid, codes[i], scene.now)
    ensures var after := Serve(env, Boot(scene.now, map[scene.uid := version]), events);
            TempTokenAccepted(after, jti, scene.device) && Matching(after.replies, jti, WrongCodes) == |codes|
  {
    var boot := Boot(scene.now, map[scene.uid := version]);
    BootOk(scene.now, map[scene.uid := version]);
    AllOpenAtBoot(env, boot, [ip]);
    assert [ip][0] == ip && On(env, boot, scene);
    var a, s1 := WarmUp(env, boot, scene, ip);
    var e, s2;
    IsOpen(env, s1, ip, 14);
    e, s2, jti := FreshToken(env, s1, scene, ip);
    SameRecords(env, s1, s2, ip, 14);
    var guesses := Guesses(jti, codes, ip, scene.device);
    GoodAndFull(env, s2, scene, jti, ip);
    OneEvent(env, s1, e);
    hide *;
    ImmuneAddressGuessesOn(env, s2, jti, codes, ip, scene.device);
    ServeConcat(env, boot, a, [e]);
    ServeConcat(env, boot, a + [e], guesses);
    events := a + [e] + guesses;
  }

  lemma GoodAndFull(env: Setting, s: Server, scene: Scene, jti: Jti, ip: Ip)
    requires On(env, s, scene) && Good(s, jti, scene.uid, scene.device, 0) && Open(env, s, ip, 14)
    ensures ReachesAddressLimit(s, ip) && TempTokenAccepted(s, jti, scene.device)
    ensures jti in s.signed && s.signed[jti].uid == scene.uid && s.now == scene.now
  {
    hide TempTokenAccepted;
    AcceptedIsSigned(s, jti, scene.device);
  }
}
