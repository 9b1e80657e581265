/**
 Login with a one-time code, sessions and their revocation, as handlers over signed tokens, Redis
 keys with a time to live and the users table. A token is its claims, a signature the fact that the
 server signed it.
 */
module AuthServer {
  import opened Prelude
  import opened SessionTokens
  import opened LoginLockout

  type Jti = nat
  type Uid = nat
  type Code = string
  type Device = string

  const TEMP_LIFETIME := 300
  const TEMP_REVOKED := 600
  const CODE_USED := 90
  const TOKEN_MAX_FAILS := 5
  const TOKEN_FAIL_WINDOW := 600
  const PERIOD := 30

  /** `verified`: the one-time code was given. A token without a not-before claim carries its issue
      time there; it is never presented earlier. */
  datatype Token = Token(uid: Uid, version: nat, device: Device, verified: bool, time: Claims)

  datatype Fails = Fails(count: nat, until: int)

  /** Why a token is refused, in the handlers' own words. */
  datatype Refusal = Invalid | Unverified | Revoked | OtherDevice | NoUser | Outdated

  /** `locked`: the address counter has reached its limit; an address that is not immune is banned. */
  datatype Answer =
    | SessionOk | LoggedIn(code: Code) | CodeWrong(locked: bool) | CodeReused | Rejected(why: Refusal) | Blocked
  datatype Reply = Reply(jti: Jti, ip: Ip, uid: Uid, at: int, answer: Answer)

  datatype Server = Server(
    now: int,
    nextJti: Jti,
    signed: map<Jti, Token>,
    revoked: map<Jti, int>,
    tokenFails: map<Jti, Fails>,
    ips: map<Ip, IpRecord>,
    used: map<(Uid, Code), int>,
    versions: map<Uid, nat>,
    replies: seq<Reply>)

  /** What the clients and the secrets contribute: exempt addresses, and the code of a user's secret
      in each 30-second step. */
  datatype Setting = Setting(immune: set<Ip>, codes: (Uid, int) -> Code)

  // ----- one-time codes -----

  /** The code matches the current step or one of its neighbours (section 5.2 of RFC 6238). */
  predicate VerifyCode(env: Setting, uid: Uid, code: Code, now: int) {
    var step := now / PERIOD;
    env.codes(uid, step - 1) == code || env.codes(uid, step) == code || env.codes(uid, step + 1) == code
  }

  /** A step's code is good for exactly 90 seconds. */
  predicate StepLives(step: int, now: int) {
    (step - 1) * 30 <= now < (step + 2) * 30
  }

  lemma VerifyCodeIsWindow(env: Setting, uid: Uid, code: Code, now: int)
    ensures VerifyCode(env, uid, code, now) <==> exists step :: StepLives(step, now) && env.codes(uid, step) == code
  {
    var step := now / PERIOD;
    assert StepLives(step - 1, now) && StepLives(step, now) && StepLives(step + 1, now);
    forall other | StepLives(other, now) ensures other in {step - 1, step, step + 1} {
    }
  }

  // ----- handlers -----

  function IpOf(s: Server, ip: Ip): IpRecord {
    if ip in s.ips then s.ips[ip] else NoRecord(s.now)
  }

  predicate Gated(env: Setting, s: Server, ip: Ip) {
    ip !in env.immune && Banned(IpOf(s, ip), s.now)
  }

  predicate IsRevoked(s: Server, jti: Jti) {
    jti in s.revoked && s.now < s.revoked[jti]
  }

  function Said(s: Server, jti: Jti, ip: Ip, uid: Uid, answer: Answer): Server {
    s.(replies := s.replies + [Reply(jti, ip, uid, s.now, answer)])
  }

  function Sign(s: Server, token: Token): Server {
    s.(signed := s.signed[s.nextJti := token], nextJti := s.nextJti + 1)
  }

  function Revoke(s: Server, jti: Jti, seconds: int): Server {
    s.(revoked := s.revoked[jti := s.now + seconds])
  }

  /** The right password: a five-minute token for the second step. */
  function PasswordAccepted(s: Server, uid: Uid, device: Device): Server {
    if uid !in s.versions then s
    else Sign(s, Token(uid, s.versions[uid], device, false, Claims(s.now, s.now, s.now + TEMP_LIFETIME, 0)))
  }

  /** The first step of a login; an unknown user counts as a wrong password. */
  function AfterLoginStep1(env: Setting, s: Server, uid: Uid, right: bool, ip: Ip, device: Device): Server {
    if Gated(env, s, ip) then s
    else if right && uid in s.versions then PasswordAccepted(s, uid, device)
    else s.(ips := s.ips[ip := AfterLoginFailure(IpOf(s, ip), ip in env.immune, s.now, s.now).0])
  }

  /** A scanner's user agent or a honeypot path: a day's ban, except for immune addresses. */
  function AfterTrap(env: Setting, s: Server, ip: Ip): Server {
    if ip in env.immune || Gated(env, s, ip) then s
    else s.(ips := s.ips[ip := BlacklistIp(IpOf(s, ip), false, s.now, SCANNER_BAN)])
  }

  /** The checks a second-step token passes before the code is looked at. */
  predicate TempTokenAccepted(s: Server, jti: Jti, device: Device) {
    && jti in s.signed && InTime(s.signed[jti].time, s.now) && !s.signed[jti].verified
    && !IsRevoked(s, jti) && s.signed[jti].device == device && s.signed[jti].uid in s.versions
  }

  /** The first check such a token fails. */
  function TempRefusal(s: Server, jti: Jti, device: Device): (why: Option<Refusal>)
    ensures why.None? <==> TempTokenAccepted(s, jti, device)
  {
    if jti !in s.signed || !InTime(s.signed[jti].time, s.now) || s.signed[jti].verified then Some(Invalid)
    else if IsRevoked(s, jti) then Some(Revoked)
    else if s.signed[jti].device != device then Some(OtherDevice)
    else if s.signed[jti].uid !in s.versions then Some(NoUser)
    else None
  }

  function TokenFailCount(s: Server, jti: Jti): nat {
    if jti in s.tokenFails && s.now < s.tokenFails[jti].until then s.tokenFails[jti].count else 0
  }

  /** A wrong code counts per token and per address; the token is consumed by the fifth, unless this
      very answer is the one that locks the address. */
  function WrongCodeGiven(env: Setting, s: Server, jti: Jti, ip: Ip): Server
    requires jti in s.signed
  {
    var fails := TokenFailCount(s, jti) + 1;
    var (record, locked) := AfterCodeFailure(IpOf(s, ip), ip in env.immune, s.now, s.now);
    var s1 := s.(tokenFails := s.tokenFails[jti := Fails(fails, s.now + TOKEN_FAIL_WINDOW)],
        ips := s.ips[ip := record]);
    if locked then Said(s1, jti, ip, s.signed[jti].uid, CodeWrong(true))
    else Said(if fails >= TOKEN_MAX_FAILS then Revoke(s1, jti, TEMP_REVOKED) else s1, jti, ip, s.signed[jti].uid,
        CodeWrong(false))
  }

  function CodeIsUsed(s: Server, uid: Uid, code: Code): bool {
    (uid, code) in s.used && s.now < s.used[(uid, code)]
  }

  /** The code's lock is taken: consume the token, sign a session, clear the address's counters. */
  function LoginCompleted(s: Server, jti: Jti, code: Code, ip: Ip, device: Device): Server
    requires jti in s.signed && s.signed[jti].uid in s.versions
  {
    var uid := s.signed[jti].uid;
    var record := IpOf(s, ip).(fails := 0, failsUntil := s.now, codeFails := 0, codeFailsUntil := s.now);
    var session := Token(uid, s.versions[uid], device, true, Issued(s.now, s.now).value);
    Said(Sign(Revoke(s, jti, TEMP_REVOKED), session).(ips := s.ips[ip := record]), jti, ip, uid, LoggedIn(code))
  }

  /** Behind the code check: take the code's lock, and log in unless it was taken. */
  function LockAndLogin(s: Server, jti: Jti, code: Code, ip: Ip, device: Device): Server
    requires jti in s.signed && s.signed[jti].uid in s.versions
  {
    var uid := s.signed[jti].uid;
    if CodeIsUsed(s, uid, code) then Said(s, jti, ip, uid, CodeReused)
    else LoginCompleted(s.(used := s.used[(uid, code) := s.now + CODE_USED]), jti, code, ip, device)
  }

  function AfterVerify(env: Setting, s: Server, jti: Jti, code: Code, ip: Ip, device: Device): Server {
    if Gated(env, s, ip) then Said(s, jti, ip, 0, Blocked)
    else if !TempTokenAccepted(s, jti, device) then Said(s, jti, ip, 0, Rejected(TempRefusal(s, jti, device).value))
    else
      var token := s.signed[jti];
      if !VerifyCode(env, token.uid, code, s.now) then WrongCodeGiven(env, s, jti, ip)
      else LockAndLogin(s, jti, code, ip, device)
  }

  predicate SessionAccepted(s: Server, jti: Jti, device: Device) {
    && jti in s.signed && InTime(s.signed[jti].time, s.now) && s.signed[jti].verified
    && !IsRevoked(s, jti) && s.signed[jti].device == device
    && s.signed[jti].uid in s.versions && s.versions[s.signed[jti].uid] == s.signed[jti].version
  }

  function SessionRefusal(s: Server, jti: Jti, device: Device): (why: Option<Refusal>)
    ensures why.None? <==> SessionAccepted(s, jti, device)
  {
    if jti !in s.signed || !InTime(s.signed[jti].time, s.now) then Some(Invalid)
    else if !s.signed[jti].verified then Some(Unverified)
    else if IsRevoked(s, jti) then Some(Revoked)
    else if s.signed[jti].device != device then Some(OtherDevice)
    else if s.signed[jti].uid !in s.versions then Some(NoUser)
    else if s.versions[s.signed[jti].uid] != s.signed[jti].version then Some(Outdated)
    else None
  }

  /** Any authenticated request: check the token, then slide the session. */
  function AfterRequest(env: Setting, s: Server, jti: Jti, ip: Ip, device: Device): Server {
    if Gated(env, s, ip) then Said(s, jti, ip, 0, Blocked)
    else if !SessionAccepted(s, jti, device) then Said(s, jti, ip, 0, Rejected(SessionRefusal(s, jti, device).value))
    else
      var token := s.signed[jti];
      var renewed := RenewIfDue(token.time, s.now);
      var s1 := if renewed.Some? then Sign(s, token.(time := renewed.value)) else s;
      Said(s1, jti, ip, token.uid, SessionOk)
  }

  function AfterLogout(env: Setting, s: Server, jti: Jti, ip: Ip, device: Device): Server {
    var s1 := AfterRequest(env, s, jti, ip, device);
    if !Gated(env, s, ip) && SessionAccepted(s, jti, device) then Revoke(s1, jti, LIFETIME) else s1
  }

  datatype ServerEvent =
    | Tick(seconds: nat)
    | Password(uid: Uid, right: bool, ip: Ip, device: Device)
    | Trap(ip: Ip)
    | Verify(jti: Jti, code: Code, ip: Ip, device: Device)
    | Request(jti: Jti, ip: Ip, device: Device)
    | LogOut(jti: Jti, ip: Ip, device: Device)
    | BumpVersion(uid: Uid, steps: nat)

  function ServerStep(env: Setting, s: Server, e: ServerEvent): Server {
    match e
    case Tick(seconds) => s.(now := s.now + seconds)
    case Password(uid, right, ip, device) => AfterLoginStep1(env, s, uid, right, ip, device)
    case Trap(ip) => AfterTrap(env, s, ip)
    case Verify(jti, code, ip, device) => AfterVerify(env, s, jti, code, ip, device)
    case Request(jti, ip, device) => AfterRequest(env, s, jti, ip, device)
    case LogOut(jti, ip, device) => AfterLogout(env, s, jti, ip, device)
    case BumpVersion(uid, steps) =>
      if uid in s.versions then s.(versions := s.versions[uid := s.versions[uid] + steps]) else s
  }

  function Serve(env: Setting, s: Server, events: seq<ServerEvent>): Server
    decreases |events|
  {
    if events == [] then s else Serve(env, ServerStep(env, s, events[0]), events[1..])
  }

  function Boot(now: int, versions: map<Uid, nat>): Server {
    Server(now, 0, map[], map[], map[], map[], map[], versions, [])
  }

  // ----- the handlers as the process runs them -----

  class AuthService {
    const env: Setting
    var now: int
    var nextJti: Jti
    var signed: map<Jti, Token>
    var revoked: map<Jti, int>
    var tokenFails: map<Jti, Fails>
    var ips: map<Ip, IpRecord>
    var used: map<(Uid, Code), int>
    var versions: map<Uid, nat>
    var replies: seq<Reply>

    function State(): Server
      reads this
    {
      Server(now, nextJti, signed, revoked, tokenFails, ips, used, versions, replies)
    }

    constructor (env: Setting, start: int, versions: map<Uid, nat>)
      ensures State() == Boot(start, versions) && this.env == env
    {
      this.env := env;
      now, nextJti, signed, revoked, tokenFails := start, 0, map[], map[], map[];
      ips, used, this.versions, replies := map[], map[], versions, [];
    }

    method Say(jti: Jti, ip: Ip, uid: Uid, answer: Answer)
      modifies this`replies
      ensures State() == Said(old(State()), jti, ip, uid, answer)
    {
      replies := replies + [Reply(jti, ip, uid, now, answer)];
    }

    method BlacklistJti(jti: Jti, seconds: int)
      modifies this`revoked
      ensures State() == Revoke(old(State()), jti, seconds)
    {
      revoked := revoked[jti := now + seconds];
    }

    method SignToken(token: Token)
      modifies this`signed, this`nextJti
      ensures State() == Sign(old(State()), token)
    {
      signed := signed[nextJti := token];
      nextJti := nextJti + 1;
    }

    method RecordLoginFailure(ip: Ip)
      modifies this`ips
      ensures ips == old(ips)[ip := AfterLoginFailure(old(IpOf(State(), ip)), ip in env.immune, now, now).0]
    {
      var r := if ip in ips then ips[ip] else NoRecord(now);
      var fails := if now < r.failsUntil then r.fails + 1 else 1;
      r := r.(fails := fails, failsUntil := now + WINDOW);
      if fails >= LOGIN_BAN_AFTER && ip !in env.immune {
        r := r.(bannedUntil := now + if fails >= LOGIN_LONG_BAN_AFTER then LONG_BAN else LOGIN_BAN);
      }
      ips := ips[ip := r];
    }

    method LoginStep1(uid: Uid, right: bool, ip: Ip, device: Device)
      modifies this
      ensures State() == AfterLoginStep1(env, old(State()), uid, right, ip, device)
    {
      if Gated(env, State(), ip) {
        return;
      }
      if uid !in versions || !right {
        RecordLoginFailure(ip);
        return;
      }
      SignToken(Token(uid, versions[uid], device, false, Claims(now, now, now + TEMP_LIFETIME, 0)));
    }

    method SpringTrap(ip: Ip)
      modifies this`ips
      ensures State() == AfterTrap(env, old(State()), ip)
    {
      if ip in env.immune || Gated(env, State(), ip) {
        return;
      }
      var r := if ip in ips then ips[ip] else NoRecord(now);
      ips := ips[ip := r.(bannedUntil := now + SCANNER_BAN)];
    }

    /** Counts a wrong code per token and per address. */
    method RecordTotpFailure(jti: Jti, ip: Ip) returns (exhausted: bool, ipLocked: bool)
      modifies this`tokenFails, this`ips
      ensures var s := old(State());
              var fails := TokenFailCount(s, jti) + 1;
              var (record, locked) := AfterCodeFailure(IpOf(s, ip), ip in env.immune, now, now);
              && State() == s.(tokenFails := s.tokenFails[jti := Fails(fails, now + TOKEN_FAIL_WINDOW)],
                  ips := s.ips[ip := record])
              && exhausted == (fails >= TOKEN_MAX_FAILS) && ipLocked == locked
    {
      var fails := 1;
      if jti in tokenFails && now < tokenFails[jti].until {
        fails := tokenFails[jti].count + 1;
      }
      tokenFails := tokenFails[jti := Fails(fails, now + TOKEN_FAIL_WINDOW)];
      exhausted := fails >= TOKEN_MAX_FAILS;

      var r := if ip in ips then ips[ip] else NoRecord(now);
      var codeFails := if now < r.codeFailsUntil then r.codeFails + 1 else 1;
      r := r.(codeFails := codeFails, codeFailsUntil := now + WINDOW);
      ipLocked := codeFails >= CODE_BAN_AFTER;
      if ipLocked && ip !in env.immune {
        r := r.(bannedUntil := now + CODE_BAN);
      }
      ips := ips[ip := r];
    }

    /** Takes the 90-second lock on a code, unless it is taken. */
    method CheckAndSetTotpUsed(uid: Uid, code: Code) returns (unused: bool)
      modifies this`used
      ensures unused == !CodeIsUsed(old(State()), uid, code)
      ensures used == if unused then old(used)[(uid, code) := now + CODE_USED] else old(used)
    {
      if (uid, code) in used && now < used[(uid, code)] {
        return false;
      }
      used := used[(uid, code) := now + CODE_USED];
      return true;
    }

    method ResetLoginFailures(ip: Ip)
      modifies this`ips
      ensures ips ==
          old(ips)[ip := old(IpOf(State(), ip)).(fails := 0, failsUntil := now, codeFails := 0, codeFailsUntil := now)]
    {
      var r := if ip in ips then ips[ip] else NoRecord(now);
      ips := ips[ip := r.(fails := 0, failsUntil := now, codeFails := 0, codeFailsUntil := now)];
    }

    /** The wrong-code branch: the address lock is answered before the token is consumed. */
    method AnswerWrongCode(jti: Jti, ip: Ip)
      requires jti in signed
      modifies this
      ensures State() == WrongCodeGiven(env, old(State()), jti, ip)
    {
      var exhausted, ipLocked := RecordTotpFailure(jti, ip);
      if ipLocked {
        Say(jti, ip, signed[jti].uid, CodeWrong(true));
        return;
      }
      if exhausted {
        BlacklistJti(jti, TEMP_REVOKED);
      }
      Say(jti, ip, signed[jti].uid, CodeWrong(false));
    }

    /** The branch behind an unused right code: consume the token, open a session, clear counters. */
    method CompleteLogin(jti: Jti, code: Code, ip: Ip, device: Device)
      requires jti in signed && signed[jti].uid in versions
      modifies this
      ensures State() == LoginCompleted(old(State()), jti, code, ip, device)
    {
      var uid := signed[jti].uid;
      BlacklistJti(jti, TEMP_REVOKED);
      var session := IssueSessionToken(now, now);
      SignToken(Token(uid, versions[uid], device, true, session.value));
      ResetLoginFailures(ip);
      Say(jti, ip, uid, LoggedIn(code));
    }

    method CheckTempToken(jti: Jti, device: Device) returns (why: Option<Refusal>)
      ensures why == TempRefusal(State(), jti, device)
    {
      if jti !in signed || !InTime(signed[jti].time, now) || signed[jti].verified {
        return Some(Invalid);
      }
      if jti in revoked && now < revoked[jti] {
        return Some(Revoked);
      }
      if signed[jti].device != device {
        return Some(OtherDevice);
      }
      if signed[jti].uid !in versions {
        return Some(NoUser);
      }
      return None;
    }

    method Verify2FAStep2(jti: Jti, code: Code, ip: Ip, device: Device)
      modifies this
      ensures State() == AfterVerify(env, old(State()), jti, code, ip, device)
    {
      if Gated(env, State(), ip) {
        Say(jti, ip, 0, Blocked);
        return;
      }
      var refusal := CheckTempToken(jti, device);
      if refusal.Some? {
        Say(jti, ip, 0, Rejected(refusal.value));
        return;
      }
      var uid := signed[jti].uid;
      if !VerifyCode(env, uid, code, now) {
        AnswerWrongCode(jti, ip);
        return;
      }
      var unused := CheckAndSetTotpUsed(uid, code);
      if !unused {
        Say(jti, ip, uid, CodeReused);
        return;
      }
      CompleteLogin(jti, code, ip, device);
    }

    method CheckSession(jti: Jti, device: Device) returns (why: Option<Refusal>)
      ensures why == SessionRefusal(State(), jti, device)
    {
      if jti !in signed || !InTime(signed[jti].time, now) {
        return Some(Invalid);
      }
      var token := signed[jti];
      if !token.verified {
        return Some(Unverified);
      }
      if jti in revoked && now < revoked[jti] {
        return Some(Revoked);
      }
      if token.device != device {
        return Some(OtherDevice);
      }
      if token.uid !in versions {
        return Some(NoUser);
      }
      if versions[token.uid] != token.version {
        return Some(Outdated);
      }
      return None;
    }

    method RequireAuth(jti: Jti, ip: Ip, device: Device) returns (ok: bool)
      modifies this
      ensures State() == AfterRequest(env, old(State()), jti, ip, device)
      ensures ok <==> !Gated(env, old(State()), ip) && SessionAccepted(old(State()), jti, device)
    {
      if Gated(env, State(), ip) {
        Say(jti, ip, 0, Blocked);
        return false;
      }
      var refusal := CheckSession(jti, device);
      if refusal.Some? {
        Say(jti, ip, 0, Rejected(refusal.value));
        return false;
      }
      var token := signed[jti];
      if now - token.time.issuedAt >= RENEW_AFTER {
        var renewed := IssueSessionToken(now, SessionStartOf(token.time));
        if renewed.Some? {
          SignToken(token.(time := renewed.value));
        }
      }
      Say(jti, ip, token.uid, SessionOk);
      return true;
    }

    /** Runs behind RequireAuth. */
    method Logout(jti: Jti, ip: Ip, device: Device)
      modifies this
      ensures State() == AfterLogout(env, old(State()), jti, ip, device)
    {
      var ok := RequireAuth(jti, ip, device);
      if ok {
        BlacklistJti(jti, LIFETIME);
      }
    }
  }
}
