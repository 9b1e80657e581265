/**
 Which domain each attempt of a worker run goes to. A round that comes to choosing one aims at it,
 whether or not the daily cap then lets the attempt through; over a run the aims go round the list in
 force, so any n of them in a row visit n domains once each.
 */
module WorkerRotation {
  import opened Prelude
  import opened LaunchErrors
  import opened LaunchAttempt
  import opened TaskWorker
  import opened DailyCap

  /** A domain aimed at, the list it was chosen from, and whether an attempt followed. */
  datatype Aim = Aim(ad: string, list: seq<string>, launched: bool)

  function WithoutCap(cfg: Config): Config {
    cfg.(launchesPerDay := 0)
  }

  /** The domains a round chooses from: those the report shows room in, or the task's own list. */
  function InForce(adList: seq<string>, l: Locals, r: Round): seq<string> {
    if l.reportUsable && r.report.Ads? then r.report.available else adList
  }

  /** What the round would try without a daily cap. */
  function AimOf(cfg: Config, adList: seq<string>, l: Locals, r: Round): seq<Aim>
    requires adList != []
  {
    var free := Choose(WithoutCap(cfg), adList, l, r).0;
    if free.Try? then [Aim(free.ad, InForce(adList, l, r), Choose(cfg, adList, l, r).0.Try?)] else []
  }

  /** The aims of a run, in order. */
  function Aims(cfg: Config, adList: seq<string>, l: Locals, rounds: seq<Round>): seq<Aim>
    requires adList != []
    decreases |rounds|
  {
    if rounds == [] then []
    else
      var it := Iterate(cfg, adList, l, rounds[0]);
      AimOf(cfg, adList, l, rounds[0]) + if it.again then Aims(cfg, adList, it.locals, rounds[1..]) else []
  }

  /** Every domain has a name. */
  ghost predicate Named(adList: seq<string>, rounds: seq<Round>) {
    "" !in adList && forall i :: 0 <= i < |rounds| && rounds[i].report.Ads? ==> "" !in rounds[i].report.available
  }

  // ----- one round -----

  /** A round aims at the entry of the list in force that the count of earlier aims points at, and the cap
      only decides whether it tries it. */
  lemma RoundAims(cfg: Config, adList: seq<string>, l: Locals, r: Round)
    requires adList != [] && Named(adList, [r])
    ensures var aims := AimOf(cfg, adList, l, r);
            var it := Iterate(cfg, adList, l, r);
            && it.locals.adIdx == l.adIdx + |aims|
            && (aims != [] ==> aims[0].list != [] && aims[0].ad == aims[0].list[l.adIdx % |aims[0].list|])
            && AdsOf(it.launches) == Tried(aims)
  {
    assert [r][0] == r;
    hide LaunchOutcome;
    hide CapacityPollWait;
    hide PastDeadline;
    hide StartDay;
    ChoiceAims(cfg, adList, l, r);
    hide Choose;
  }

  lemma ChoiceAims(cfg: Config, adList: seq<string>, l: Locals, r: Round)
    requires adList != [] && "" !in InForce(adList, l, r)
    ensures var (choice, next) := Choose(cfg, adList, l, r);
            var aims := AimOf(cfg, adList, l, r);
            && next.adIdx == l.adIdx + |aims|
            && (aims != [] ==> aims[0].list != [] && aims[0].ad == aims[0].list[l.adIdx % |aims[0].list|])
            && (choice.Try? <==> aims != [] && aims[0].launched)
            && (choice.Try? ==> choice.ad == aims[0].ad)
  {
    var available := if l.reportUsable && r.report.Ads? then r.report.available else [];
    PickIsInForce(adList, StartDay(l, r.day).(reportUsable := l.reportUsable && r.report.Ads?), available);
    hide PickAd;
    hide PastDeadline;
  }

  lemma PickIsInForce(adList: seq<string>, l: Locals, available: seq<string>)
    requires adList != [] && "" !in available
    ensures var (ad, next) := PickAd(adList, l, available);
            var list := if available != [] then available else adList;
            ad == list[l.adIdx % |list|] && next == l.(adIdx := l.adIdx + 1)
  {
    if available != [] {
      assert available[l.adIdx % |available|] in available;
    }
  }

  function AdsOf(launches: seq<Launch>): (ads: seq<string>)
    ensures |ads| == |launches|
  {
    seq(|launches|, i requires 0 <= i < |launches| => launches[i].ad)
  }

  function Tried(aims: seq<Aim>): seq<string> {
    if aims == [] then [] else (if aims[0].launched then [aims[0].ad] else []) + Tried(aims[1..])
  }

  // ----- a whole run -----

  lemma {:induction false} TriedConcat(a: seq<Aim>, b: seq<Aim>)
    ensures Tried(a + b) == Tried(a) + Tried(b)
  {
    if a == [] {
      assert a + b == b;
    } else {
      assert (a + b)[1..] == a[1..] + b;
      TriedConcat(a[1..], b);
    }
  }

  /** The attempts of a run are its aims that the cap let through, in order. */
  lemma {:induction false} AttemptsAreAims(cfg: Config, adList: seq<string>, l: Locals, w: World, rounds: seq<Round>)
    requires adList != [] && Named(adList, rounds)
    ensures AdsOf(Run(cfg, adList, l, w, rounds).launches) == Tried(Aims(cfg, adList, l, rounds))
    decreases |rounds|
  {
    hide Iterate;
    hide AimOf;
    if rounds != [] {
      RoundAims(cfg, adList, l, rounds[0]);
      var it := Iterate(cfg, adList, l, rounds[0]);
      var aims := AimOf(cfg, adList, l, rounds[0]);
      if it.again {
        NamedRest(adList, rounds);
        AttemptsAreAims(cfg, adList, it.locals, it.world, rounds[1..]);
        TriedConcat(aims, Aims(cfg, adList, it.locals, rounds[1..]));
        var launches := it.launches + Run(cfg, adList, it.locals, it.world, rounds[1..]).launches;
        assert AdsOf(launches) == AdsOf(it.launches)
            + AdsOf(Run(cfg, adList, it.locals, it.world, rounds[1..]).launches);
      } else {
        assert aims + [] == aims;
      }
    }
  }

  lemma NamedRest(adList: seq<string>, rounds: seq<Round>)
    requires rounds != [] && Named(adList, rounds)
    ensures Named(adList, rounds[1..])
  {
    assert forall i :: 0 <= i < |rounds[1..]| ==> rounds[1..][i] == rounds[i + 1];
  }

  lemma {:induction false} AimsGoRoundFrom(cfg: Config, adList: seq<string>, l: Locals, rounds: seq<Round>, k: nat)
    requires adList != [] && Named(adList, rounds) && k < |Aims(cfg, adList, l, rounds)|
    ensures var aim := Aims(cfg, adList, l, rounds)[k];
            aim.list != [] && aim.ad == aim.list[(l.adIdx + k) % |aim.list|]
    decreases |rounds|
  {
    hide Iterate;
    hide AimOf;
    RoundAims(cfg, adList, l, rounds[0]);
    var it := Iterate(cfg, adList, l, rounds[0]);
    var aims := AimOf(cfg, adList, l, rounds[0]);
    OneAim(cfg, adList, l, rounds[0]);
    if k >= |aims| {
      NamedRest(adList, rounds);
      AimsGoRoundFrom(cfg, adList, it.locals, rounds[1..], k - |aims|);
    }
  }

  lemma OneAim(cfg: Config, adList: seq<string>, l: Locals, r: Round)
    requires adList != []
    ensures |AimOf(cfg, adList, l, r)| <= 1
  {
  }

  /** The aims of a run go round: whatever lists the reports show on the way, aim number k, from 0, is entry
      k modulo its length of the list in force. */
  lemma AimsGoRound(cfg: Config, adList: seq<string>, shapeHasReport: bool, rounds: seq<Round>, k: nat)
    requires adList != [] && Named(adList, rounds) && k < |Aims(cfg, adList, FirstLocals(shapeHasReport), rounds)|
    ensures var aim := Aims(cfg, adList, FirstLocals(shapeHasReport), rounds)[k];
            aim.list != [] && aim.ad in aim.list && aim.ad == aim.list[k % |aim.list|]
  {
    AimsGoRoundFrom(cfg, adList, FirstLocals(shapeHasReport), rounds, k);
  }

  predicate Distinct(list: seq<string>) {
    forall i, j :: 0 <= i < j < |list| ==> list[i] != list[j]
  }

  /** Aims i to i + n - 1 were chosen from the same n domains. */
  ghost predicate Window(aims: seq<Aim>, i: nat, list: seq<string>) {
    i + |list| <= |aims| && forall k :: i <= k < i + |list| ==> aims[k].list == list
  }

  /** While the list of n distinct domains stays the same, any n aims in a row visit each domain exactly
      once. */
  lemma EveryDomainOnce(cfg: Config, adList: seq<string>, shapeHasReport: bool, rounds: seq<Round>, i: nat,
                        list: seq<string>, ad: string)
    requires adList != [] && Named(adList, rounds) && Distinct(list) && ad in list
    requires Window(Aims(cfg, adList, FirstLocals(shapeHasReport), rounds), i, list)
    ensures var aims := Aims(cfg, adList, FirstLocals(shapeHasReport), rounds);
            exists k :: i <= k < i + |list| && aims[k].ad == ad
                        && forall m :: i <= m < i + |list| && aims[m].ad == ad ==> m == k
  {
    var aims := Aims(cfg, adList, FirstLocals(shapeHasReport), rounds);
    hide Aims;
    var n := |list|;
    forall m | i <= m < i + n ensures aims[m].ad == list[m % n] {
      AimsGoRound(cfg, adList, shapeHasReport, rounds, m);
    }
    var j :| 0 <= j < n && list[j] == ad;
    var k := Turn(i, n, j);
    forall m | i <= m < i + n && aims[m].ad == ad ensures m == k {
      SameTurn(i, n, m, k);
    }
  }

  /** The turn of index j among n in a row from i on. */
  lemma Turn(i: nat, n: nat, j: nat) returns (k: nat)
    requires j < n
    ensures i <= k < i + n && k % n == j
  {
    var from := i % n;
    assert i == n * (i / n) + from;
    if from <= j {
      k := n * (i / n) + j;
      ModuloOf(i / n, n, j);
    } else {
      k := n * (i / n + 1) + j;
      assert n * (i / n + 1) == n * (i / n) + n;
      ModuloOf(i / n + 1, n, j);
    }
  }

  lemma ModuloOf(q: nat, n: nat, j: nat)
    requires j < n
    ensures (n * q + j) % n == j
  {
    var x := n * q + j;
    UniqueParts(n, q, j, x / n, x % n);
  }

  lemma UniqueParts(n: nat, q: int, j: nat, p: int, k: nat)
    requires j < n && k < n && n * q + j == n * p + k
    ensures q == p && j == k
  {
    if q < p {
      Gap(n, q, p);
    } else if p < q {
      Gap(n, p, q);
    }
  }

  lemma Gap(n: nat, q: int, p: int)
    requires q < p
    ensures n * q + n <= n * p
  {
    assert n * p == n * q + n * (p - q);
    assert n * (p - q) == n * (p - q - 1) + n;
  }

  lemma SameTurn(i: nat, n: nat, m: nat, k: nat)
    requires i <= m < i + n && i <= k < i + n && m % n == k % n
    ensures m == k
  {
    if m < k {
      DifferentTurn(m, n, k);
    } else if k < m {
      DifferentTurn(k, n, m);
    }
  }

  lemma DifferentTurn(m: nat, n: nat, k: nat)
    requires m < k < m + n
    ensures m % n != k % n
  {
    var q, j, d := m / n, m % n, k - m;
    assert m == n * q + j;
    if j + d < n {
      ModuloOf(q, n, j + d);
    } else {
      assert n * (q + 1) == n * q + n;
      ModuloOf(q + 1, n, j + d - n);
    }
  }

  /** Without a daily cap every aim is tried. */
  lemma {:induction false} UncappedAimsAreTried(cfg: Config, adList: seq<string>, l: Locals, rounds: seq<Round>)
    requires adList != [] && cfg.launchesPerDay <= 0
    ensures forall k :: 0 <= k < |Aims(cfg, adList, l, rounds)| ==> Aims(cfg, adList, l, rounds)[k].launched
    decreases |rounds|
  {
    hide Iterate;
    if rounds != [] {
      UncappedAim(cfg, adList, l, rounds[0]);
      hide AimOf;
      var it := Iterate(cfg, adList, l, rounds[0]);
      if it.again {
        UncappedAimsAreTried(cfg, adList, it.locals, rounds[1..]);
      }
    }
  }

  lemma UncappedAim(cfg: Config, adList: seq<string>, l: Locals, r: Round)
    requires adList != [] && cfg.launchesPerDay <= 0
    ensures |AimOf(cfg, adList, l, r)| <= 1
    ensures AimOf(cfg, adList, l, r) != [] ==> AimOf(cfg, adList, l, r)[0].launched
  {
    hide PickAd;
  }

  lemma {:induction false} AllTried(aims: seq<Aim>)
    requires forall k :: 0 <= k < |aims| ==> aims[k].launched
    ensures |Tried(aims)| == |aims| && forall k :: 0 <= k < |aims| ==> Tried(aims)[k] == aims[k].ad
  {
    if aims != [] {
      AllTried(aims[1..]);
    }
  }

  /** So without a daily cap attempt number k of a run goes to entry k modulo its length of the list in force
      at that time: n attempts in a row on n domains try each once. */
  lemma AttemptsGoRound(cfg: Config, adList: seq<string>, shapeHasReport: bool, w: World, rounds: seq<Round>, k: nat)
    requires adList != [] && Named(adList, rounds) && cfg.launchesPerDay <= 0
    requires k < |Run(cfg, adList, FirstLocals(shapeHasReport), w, rounds).launches|
    ensures var aims := Aims(cfg, adList, FirstLocals(shapeHasReport), rounds);
            var launch := Run(cfg, adList, FirstLocals(shapeHasReport), w, rounds).launches[k];
            && k < |aims| && aims[k].list != [] && launch.ad == aims[k].list[k % |aims[k].list|]
  {
    var l := FirstLocals(shapeHasReport);
    var launches := Run(cfg, adList, l, w, rounds).launches;
    AttemptsAreAims(cfg, adList, l, w, rounds);
    UncappedAimsAreTried(cfg, adList, l, rounds);
    AllTried(Aims(cfg, adList, l, rounds));
    hide Run;
    hide Aims;
    assert AdsOf(launches)[k] == launches[k].ad;
    AimsGoRound(cfg, adList, shapeHasReport, rounds, k);
  }

  // ----- a round held back by the cap still takes its turn -----

  /** Three rounds of throttled attempts: two on one day, one on the next. */
  function ThreeRounds(w: World, day: int): seq<Round> {
    [Throttled(w, day, 0), Throttled(Counted(w, w.row.retries + 1), day, 1),
     Throttled(Counted(w, w.row.retries + 1), day + 1, 1)]
  }

  lemma HeldRound(cfg: Config, adList: seq<string>, l: Locals, w: World, day: int, token: Token)
    requires adList != [] && Quiet(w) && !l.reportUsable && cfg.launchesPerDay > 0 && cfg.retryMaxDays <= 0
    requires l.dayKey == Some(day) && l.launchesToday >= cfg.launchesPerDay
    ensures var it := Iterate(cfg, adList, l, Throttled(w, day, token));
            it.again && it.world == w && it.launches == [] && it.locals == l.(adIdx := l.adIdx + 1)
  {
  }

  lemma TriedRound(cfg: Config, adList: seq<string>, l: Locals, w: World, day: int, token: Token)
    requires adList != [] && "" !in adList && Quiet(w) && !l.reportUsable
    requires cfg.launchesPerDay == 1 && cfg.retryMaxDays <= 0 && l.dayKey != Some(day)
    ensures var it := Iterate(cfg, adList, l, Throttled(w, day, token));
            && it.again && it.world == Counted(w, w.row.retries + 1)
            && AdsOf(it.launches) == [adList[l.adIdx % |adList|]]
            && it.locals.dayKey == Some(day) && it.locals.launchesToday == 1 && !it.locals.reportUsable
            && it.locals.adIdx == l.adIdx + 1
  {
    ThrottledAttempt(w, w.row.retries + 1, token);
    hide LaunchOutcome;
    hide CapacityPollWait;
    assert Throttled(w, day, token).seen == w;
  }

  lemma RunStep(cfg: Config, adList: seq<string>, l: Locals, w: World, r: Round, rest: seq<Round>)
    requires adList != [] && Iterate(cfg, adList, l, r).again
    ensures var it := Iterate(cfg, adList, l, r);
            AdsOf(Run(cfg, adList, l, w, [r] + rest).launches)
            == AdsOf(it.launches) + AdsOf(Run(cfg, adList, it.locals, it.world, rest).launches)
  {
    hide Iterate;
    assert ([r] + rest)[1..] == rest;
  }

  /** A round that the daily cap holds back takes its turn all the same: with two domains, a cap of one and
      one held round a day, the attempts of both days go to the first domain. */
  lemma HeldRoundSkipsItsDomain(cfg: Config, first: string, second: string, w: World, day: int)
    requires first != "" && second != "" && Quiet(w) && cfg.launchesPerDay == 1 && cfg.retryMaxDays <= 0
    ensures AdsOf(Run(cfg, [first, second], FirstLocals(false), w, ThreeRounds(w, day)).launches) == [first, first]
  {
    hide Iterate;
    hide Run;
    hide AdsOf;
    var adList, rounds := [first, second], ThreeRounds(w, day);
    var l0 := FirstLocals(false);
    TriedRound(cfg, adList, l0, w, day, 0);
    var one := Iterate(cfg, adList, l0, rounds[0]);
    HeldRound(cfg, adList, one.locals, one.world, day, 1);
    var two := Iterate(cfg, adList, one.locals, rounds[1]);
    TriedRound(cfg, adList, two.locals, two.world, day + 1, 1);
    var three := Iterate(cfg, adList, two.locals, rounds[2]);
    RunStep(cfg, adList, l0, w, rounds[0], [rounds[1], rounds[2]]);
    RunStep(cfg, adList, one.locals, one.world, rounds[1], [rounds[2]]);
    RunStep(cfg, adList, two.locals, two.world, rounds[2], []);
    assert rounds == [rounds[0]] + [rounds[1], rounds[2]] && [rounds[1], rounds[2]] == [rounds[1]] + [rounds[2]];
    assert [rounds[2]] + [] == [rounds[2]];
    NothingRun(cfg, adList, three.locals, three.world);
  }

  lemma NothingRun(cfg: Config, adList: seq<string>, l: Locals, w: World)
    requires adList != []
    ensures Run(cfg, adList, l, w, []).launches == [] && AdsOf([]) == []
  {
  }
}
