/**
 The synchronous part of creating a task: one attempt per availability domain, then a final status
 written over whatever the row says by then.
 */
module TaskCreation {
  import opened Prelude
  import opened LaunchErrors
  import opened LaunchAttempt

  /** The domains of the task's own list or of its region; none when they cannot be read. */
  datatype Domains = Unknown | Known(names: seq<string>)

  /** NoReport: the shape has no capacity report, or the tenancy cannot use it. */
  datatype Report = NoReport | Room(names: seq<string>)

  /** One attempt as the environment plays it: the task as other handlers left it, and the call. */
  datatype SyncAttempt = SyncAttempt(day: int, seen: World, token: Token, attempt: AttemptEnv)

  datatype Creation = Creation(domains: Domains, report: Report, tries: seq<SyncAttempt>)

  function Targets(c: Creation): seq<string> {
    match (c.domains, c.report)
    case (Unknown, _) => []
    case (Known(names), NoReport) => names
    case (Known(_), Room(names)) => names
  }

  /** The region names its domains, and the script has an entry for every one that may be tried. */
  ghost predicate Scripted(c: Creation) {
    && (c.domains.Known? ==> c.domains.names != [])
    && |c.tries| >= |Targets(c)|
  }

  predicate EndsLoop(res: AttemptResult) {
    res.success || res.category in {FatalError, Cancelled}
  }

  datatype LoopEnd = LoopEnd(world: World, last: AttemptResult, attempts: nat)

  /** Attempts from number i + 1 on, `n` in all. */
  function Attempts(tries: seq<SyncAttempt>, i: nat, n: nat): LoopEnd
    requires i < n <= |tries|
    decreases n - i
  {
    var (world, res) := LaunchOutcome(tries[i].seen, i + 1, tries[i].token, tries[i].attempt);
    if EndsLoop(res) || i + 1 == n then LoopEnd(world, res, i + 1) else Attempts(tries, i + 1, n)
  }

  function Concluded(row: Row, res: AttemptResult): Row {
    if res.success then row.(status := Success, ocid := res.ocid)
    else if res.category.FatalError? then row.(status := Failed)
    else row.(status := Stopped)
  }

  /** What creation leaves, and how many attempts it made. */
  function Outcome(w: World, c: Creation): (World, nat)
    requires Scripted(c)
  {
    if c.domains.Unknown? then (w.(row := w.row.(status := Failed)), 0)
    else if Targets(c) == [] then (w.(row := w.row.(status := Stopped)), 0)
    else
      var end := Attempts(c.tries, 0, |Targets(c)|);
      (end.world.(row := Concluded(end.world.row, end.last)), end.attempts)
  }

  /** `tried`: the domains of the attempts, in order. */
  method CreateTask(site: LaunchSite, c: Creation) returns (attempts: nat, tried: seq<string>)
    requires Scripted(c)
    modifies site
    ensures (site.View(), attempts) == Outcome(old(site.View()), c)
    ensures |tried| == attempts
    ensures c.domains.Unknown? ==> tried == []
    ensures c.domains.Known? ==> tried <= if c.report.Room? then c.report.names else c.domains.names
  {
    hide LaunchOutcome;
    attempts, tried := 0, [];
    if c.domains.Unknown? {
      site.SetStatus(Failed);
      return;
    }
    var names := c.domains.names;
    if c.report.Room? {
      if c.report.names == [] {
        site.SetStatus(Stopped);
        return;
      }
      names := c.report.names;
    }
    var last := AttemptResult(false, false, None, CapacityFull);
    while attempts < |names| && !EndsLoop(last)
      invariant attempts <= |names| && tried == names[..attempts]
      invariant attempts == 0 ==> !EndsLoop(last)
      invariant if attempts == |names| || EndsLoop(last)
                then Attempts(c.tries, 0, |names|) == LoopEnd(site.View(), last, attempts)
                else Attempts(c.tries, 0, |names|) == Attempts(c.tries, attempts, |names|)
      decreases |names| - attempts
    {
      var try := c.tries[attempts];
      site.Observe(try.seen);
      last := site.AttemptLaunch(attempts + 1, try.token, try.attempt);
      tried := tried + [names[attempts]];
      attempts := attempts + 1;
    }
    if last.success {
      site.SetSuccess(last.ocid);
    } else if last.category.FatalError? {
      site.SetStatus(Failed);
    } else {
      site.SetStatus(Stopped);
    }
  }
}
