/**
 The global account lock in Redis: acquire-or-refresh and compare-and-delete, one key with a time to
 live. Over any interleaving of profiles and the clock, grants of the lock never overlap.
 */
module AccountLease {
  import opened Prelude

  type Profile = nat

  datatype Entry = Entry(holder: Profile, expires: int)
  datatype Lock = Lock(now: int, entry: Option<Entry>)

  /** What GET answers: an entry is gone from its expiry on. */
  function Holder(l: Lock): Option<Profile> {
    if l.entry.Some? && l.now < l.entry.value.expires then Some(l.entry.value.holder) else None
  }

  function AcquireOrRefresh(l: Lock, profile: Profile, ttl: int): (Lock, bool) {
    if Holder(l).None? || Holder(l) == Some(profile) then (l.(entry := Some(Entry(profile, l.now + ttl))), true)
    else (l, false)
  }

  function Release(l: Lock, profile: Profile): Lock {
    if Holder(l) == Some(profile) then l.(entry := None) else l
  }

  class AccountLock {
    var now: int
    var entry: Option<Entry>

    function State(): Lock
      reads this
    {
      Lock(now, entry)
    }

    constructor (start: int)
      ensures State() == Lock(start, None)
    {
      now, entry := start, None;
    }

    method Tick(seconds: nat)
      modifies this`now
      ensures now == old(now) + seconds
    {
      now := now + seconds;
    }

    /** Takes the lock when it is free and refreshes it for its holder; otherwise changes nothing and
        names the holder, as a second call finds the key by then (`reread`): it may have gone. */
    method AcquireAccountLock(profile: Profile, ttl: int, reread: Lock) returns (ok: bool, lockedBy: Option<Profile>)
      modifies this`entry
      ensures (State(), ok) == AcquireOrRefresh(old(State()), profile, ttl)
      ensures ok <==> old(Holder(State())) in {None, Some(profile)}
      ensures !ok ==> entry == old(entry) && lockedBy == Holder(reread)
      ensures !ok && reread == State() ==> lockedBy.Some? && lockedBy != Some(profile)
      ensures ok && ttl > 0 ==> Holder(State()) == Some(profile) == lockedBy
    {
      var cur := if entry.Some? && now < entry.value.expires then Some(entry.value.holder) else None;
      if cur.None? || cur == Some(profile) {
        entry := Some(Entry(profile, now + ttl));
        return true, Some(profile);
      }
      if reread.entry.Some? && reread.now < reread.entry.value.expires {
        return false, Some(reread.entry.value.holder);
      }
      return false, None;
    }

    method ReleaseAccountLock(profile: Profile)
      modifies this`entry
      ensures State() == Release(old(State()), profile)
      ensures old(Holder(State())) != Some(profile) ==> entry == old(entry)
      ensures Holder(State()) != Some(profile)
    {
      if entry.Some? && now < entry.value.expires && entry.value.holder == profile {
        entry := None;
      }
    }
  }

  // ----- runs -----

  datatype Event = Acquire(profile: Profile, ttl: int) | LetGo(profile: Profile) | Tick(seconds: nat)

  /** A grant begins when a free lock is taken; a refresh moves its end, a release by its holder cuts
      it at that instant. */
  datatype Grant = Grant(profile: Profile, from: int, until: int)

  datatype Trace = Trace(lock: Lock, grants: seq<Grant>)

  function CutLast(grants: seq<Grant>, until: int): seq<Grant>
    requires grants != []
  {
    var last := grants[|grants| - 1];
    grants[..|grants| - 1] + [last.(until := until)]
  }

  function Step(t: Trace, e: Event): Trace {
    match e
    case Tick(seconds) => t.(lock := t.lock.(now := t.lock.now + seconds))
    case Acquire(profile, ttl) =>
      var (lock, ok) := AcquireOrRefresh(t.lock, profile, ttl);
      if !ok then t
      else if Holder(t.lock).Some? && t.grants != [] then Trace(lock, CutLast(t.grants, t.lock.now + ttl))
      else Trace(lock, t.grants + [Grant(profile, t.lock.now, t.lock.now + ttl)])
    case LetGo(profile) =>
      if Holder(t.lock) == Some(profile) && t.grants != []
      then Trace(Release(t.lock, profile), CutLast(t.grants, t.lock.now))
      else t.(lock := Release(t.lock, profile))
  }

  function Play(t: Trace, events: seq<Event>): Trace
    decreases |events|
  {
    if events == [] then t else Play(Step(t, events[0]), events[1..])
  }

  function Idle(start: int): Trace {
    Trace(Lock(start, None), [])
  }

  ghost predicate PositiveTtls(events: seq<Event>) {
    forall i :: 0 <= i < |events| && events[i].Acquire? ==> events[i].ttl > 0
  }

  /** Grants follow one another in time, and the lock is held exactly by the last unexpired one. */
  ghost predicate Orderly(t: Trace) {
    && (forall i, j :: 0 <= i < j < |t.grants| ==> t.grants[i].until <= t.grants[j].from)
    && (forall i :: 0 <= i < |t.grants| ==> t.grants[i].from <= t.grants[i].until && t.grants[i].from <= t.lock.now)
    && (Holder(t.lock).Some? ==>
          && t.grants != []
          && var last := t.grants[|t.grants| - 1];
          && last.profile == Holder(t.lock).value && last.until == t.lock.entry.value.expires)
    && (Holder(t.lock).None? ==> forall i :: 0 <= i < |t.grants| ==> t.grants[i].until <= t.lock.now)
  }

  lemma TickOrderly(t: Trace, seconds: nat)
    requires Orderly(t)
    ensures Orderly(Step(t, Tick(seconds)))
  {
    if Holder(t.lock).Some? {
      var last := t.grants[|t.grants| - 1];
      assert forall i :: 0 <= i < |t.grants| - 1 ==> t.grants[i].until <= last.from;
    }
  }

  lemma AcquireOrderly(t: Trace, profile: Profile, ttl: int)
    requires Orderly(t) && ttl > 0
    ensures Orderly(Step(t, Acquire(profile, ttl)))
  {
  }

  lemma ReleaseOrderly(t: Trace, profile: Profile)
    requires Orderly(t)
    ensures Orderly(Step(t, LetGo(profile)))
  {
  }

  lemma StepOrderly(t: Trace, e: Event)
    requires Orderly(t) && (e.Acquire? ==> e.ttl > 0)
    ensures Orderly(Step(t, e))
  {
    hide Orderly;
    hide Step;
    match e
    case Tick(seconds) => TickOrderly(t, seconds);
    case Acquire(profile, ttl) => AcquireOrderly(t, profile, ttl);
    case LetGo(profile) => ReleaseOrderly(t, profile);
  }

  lemma {:induction false} PlayOrderly(t: Trace, events: seq<Event>)
    requires Orderly(t) && PositiveTtls(events)
    ensures Orderly(Play(t, events))
    decreases |events|
  {
    if events != [] {
      StepOrderly(t, events[0]);
      assert forall i :: 0 <= i < |events[1..]| ==> events[1..][i] == events[i + 1];
      PlayOrderly(Step(t, events[0]), events[1..]);
    }
  }

  /** Exclusion over every run: two grants never share an instant, whichever profiles hold them, and
      the profile that holds the lock now is the one whose grant covers now. */
  lemma GrantsNeverOverlap(start: int, events: seq<Event>, i: nat, j: nat, instant: int)
    requires PositiveTtls(events)
    requires i < j < |Play(Idle(start), events).grants|
    ensures var grants := Play(Idle(start), events).grants;
            !(grants[i].from <= instant < grants[i].until && grants[j].from <= instant < grants[j].until)
  {
    PlayOrderly(Idle(start), events);
  }

  lemma HeldExactlyByCoveringGrant(start: int, events: seq<Event>, profile: Profile)
    requires PositiveTtls(events)
    ensures var t := Play(Idle(start), events);
            Holder(t.lock) == Some(profile)
            <==> exists i :: 0 <= i < |t.grants| && t.grants[i].profile == profile
                             && t.grants[i].from <= t.lock.now < t.grants[i].until
  {
    PlayOrderly(Idle(start), events);
    var t := Play(Idle(start), events);
    if Holder(t.lock).Some? {
      var last := |t.grants| - 1;
      assert t.grants[last].from <= t.lock.now < t.grants[last].until;
      assert forall i :: 0 <= i < last ==> t.grants[i].until <= t.grants[last].from;
    }
  }

  /** A refused acquire and a release by a profile that does not hold the lock change nothing, so a
      run without them ends in the same place. */
  lemma RefusedStepsAreIdle(t: Trace, e: Event)
    requires (e.Acquire? && Holder(t.lock).Some? && Holder(t.lock) != Some(e.profile))
             || (e.LetGo? && Holder(t.lock) != Some(e.profile))
    ensures Step(t, e) == t
  {
  }

  /** A lease lasts exactly its time from the last acquire or refresh, or until its holder releases it; then the
      lock is anybody's. */
  lemma LeaseLastsExactly(l: Lock, profile: Profile, other: Profile, ttl: int, later: int)
    requires Holder(l).None? || Holder(l) == Some(profile)
    ensures var (held, ok) := AcquireOrRefresh(l, profile, ttl);
            && ok && (Holder(held.(now := later)) == Some(profile) <==> later < l.now + ttl)
            && (AcquireOrRefresh(held.(now := later), other, ttl).1 <==> other == profile || later >= l.now + ttl)
            && AcquireOrRefresh(Release(held, profile), other, ttl).1
  {
  }

  /** The clock and the calls move the lock of a run as they do outside it. */
  lemma StepMovesLock(t: Trace, e: Event)
    ensures Step(t, e).lock ==
            match e
            case Tick(seconds) => t.lock.(now := t.lock.now + seconds)
            case Acquire(profile, ttl) => AcquireOrRefresh(t.lock, profile, ttl).0
            case LetGo(profile) => Release(t.lock, profile)
  {
  }
}
