/**
 Building, merging and deleting ingress rules: the one-click actions append what is missing and never
 change which packets the list lets in beyond what was asked for.
 */
module RuleMerging {
  import opened Prelude
  import opened Dedup
  import opened Decimal
  import opened FirewallRules

  // ----- building a rule from what the user typed -----

  datatype RuleSpec = RuleSpec(protocol: string, portMin: int, portMax: int, stateless: bool)

  /** A normalised CIDR, opaque but for its family. */
  datatype Source = Source(text: string, v6: bool)

  datatype SpecError = BadSource | BadPorts | BadProtocol

  predicate AsksPorts(spec: RuleSpec) {
    spec.portMin > 0 || spec.portMax > 0
  }

  /** A bound that is 0 takes the value of the other. */
  function Lo(spec: RuleSpec): int {
    if spec.portMin == 0 then spec.portMax else spec.portMin
  }

  function Hi(spec: RuleSpec): int {
    if spec.portMax == 0 then spec.portMin else spec.portMax
  }

  predicate ValidPorts(spec: RuleSpec) {
    AsksPorts(spec) ==> 1 <= Lo(spec) <= Hi(spec) <= 65535
  }

  /** How the two bounds of a request read: none given (0 or less) means every port, one given means that port,
      two given are a range; a range must be in order and within 1 to 65535. */
  lemma PortsAskedExactly(spec: RuleSpec, port: int)
    ensures var lo, hi := spec.portMin, spec.portMax;
            && (AsksPorts(spec) <==> !(lo <= 0 && hi <= 0))
            && (lo > 0 && hi == 0 ==>
                  (ValidPorts(spec) <==> lo <= 65535) && (Lo(spec) <= port <= Hi(spec) <==> port == lo))
            && (lo == 0 && hi > 0 ==>
                  (ValidPorts(spec) <==> hi <= 65535) && (Lo(spec) <= port <= Hi(spec) <==> port == hi))
            && (lo > 0 && hi > 0 ==>
                  && (ValidPorts(spec) <==> lo <= hi <= 65535) && (Lo(spec) <= port <= Hi(spec) <==> lo <= port <= hi))
            && (AsksPorts(spec) && (lo < 0 || hi < 0) ==> !ValidPorts(spec))
  {
  }

  const TCP_NAMES := {"tcp", "6"}
  const UDP_NAMES := {"udp", "17"}
  const ICMP_NAMES := {"icmp", "1", "58", "icmpv6"}
  const ALL_NAMES := {"all", ""}

  function AskedName(spec: RuleSpec): string {
    Lower(TrimSpace(spec.protocol))
  }

  predicate KnownName(spec: RuleSpec) {
    AskedName(spec) in {"tcp", "6", "udp", "17", "icmp", "icmpv6", "1", "58", "all", ""}
  }

  /** The packets the user asked to let in, stated on the request and not on the rule. */
  predicate Asked(spec: RuleSpec, source: Source, covers: (string, int) -> bool, p: Packet) {
    && covers(source.text, p.address)
    && (AskedName(spec) in {"tcp", "6"} ==> p.protocol == "6")
    && (AskedName(spec) in {"udp", "17"} ==> p.protocol == "17")
    && (AskedName(spec) in {"icmp", "icmpv6", "1", "58"} ==> p.protocol == if source.v6 then "58" else "1")
    && (AskedName(spec) in {"tcp", "6", "udp", "17"} && AsksPorts(spec) ==>
          Lo(spec) <= p.destinationPort <= Hi(spec))
  }

  method BuildIngressRule(spec: RuleSpec, source: Option<Source>) returns (r: Result<Rule, SpecError>)
    ensures r.Ok? <==> source.Some? && ValidPorts(spec) && KnownName(spec)
    ensures r == Err(BadSource) <==> source.None?
    ensures r == Err(BadPorts) <==> source.Some? && !ValidPorts(spec)
    ensures r.Ok? ==> forall covers, p :: Admits(covers, r.value, p) <==> Asked(spec, source.value, covers, p)
    ensures r.Ok? ==>
              r.value.source == source.value.text && r.value.stateless == spec.stateless && NoSourcePorts(r.value)
    ensures r.Ok? ==> WellFormed(r.value)
    ensures r.Ok? && Without(source.value.text, '|') ==> Readable(r.value)
  {
    hide Lower;
    hide TrimSpace;
    if source.None? {
      return Err(BadSource);
    }
    var rule := Rule("", source.value.text, None, None, None, spec.stateless);
    var range: Option<PortRange> := None;
    if spec.portMin > 0 || spec.portMax > 0 {
      var lo, hi := spec.portMin, spec.portMax;
      if hi == 0 {
        hi := lo;
      }
      if lo == 0 {
        lo := hi;
      }
      if lo < 1 || hi > 65535 || lo > hi {
        return Err(BadPorts);
      }
      range := Some(PortRange(Some(lo), Some(hi)));
    }
    var options: Option<PortOptions> := if range.Some? then Some(PortOptions(range, None)) else None;
    var name := Lower(TrimSpace(spec.protocol));
    if name in TCP_NAMES {
      rule := rule.(protocol := "6", tcp := options);
    } else if name in UDP_NAMES {
      rule := rule.(protocol := "17", udp := options);
    } else if name in ICMP_NAMES {
      rule := rule.(protocol := if source.value.v6 then "58" else "1");
    } else if name in ALL_NAMES {
      rule := rule.(protocol := "all");
    } else {
      return Err(BadProtocol);
    }
    return Ok(rule);
  }

  // ----- merging -----

  function Merged(existing: seq<Rule>, wanted: seq<Rule>): seq<Rule> {
    existing + Missing(RuleKey, Keys(RuleKey, existing), wanted)
  }

  method MergeIngressRules(existing: seq<Rule>, wanted: seq<Rule>) returns (out: seq<Rule>, added: nat)
    ensures out == Merged(existing, wanted)
    ensures added == |out| - |existing|
  {
    hide RuleKey;
    var seen: set<string> := {};
    for i := 0 to |existing|
      invariant seen == Keys(RuleKey, existing[..i])
    {
      seen := seen + {RuleKey(existing[i])};
      KeysOfFront(RuleKey, existing, i);
    }
    assert existing[..|existing|] == existing;
    added, out := 0, existing;
    for i := 0 to |wanted|
      invariant out + Missing(RuleKey, seen, wanted[i..]) == Merged(existing, wanted)
      invariant |out| == |existing| + added
    {
      MissingStep(RuleKey, seen, wanted, i);
      Regroup(out, [wanted[i]], Missing(RuleKey, seen + {RuleKey(wanted[i])}, wanted[i + 1..]));
      var k := RuleKey(wanted[i]);
      if k in seen {
        continue;
      }
      seen := seen + {k};
      out := out + [wanted[i]];
      added := added + 1;
    }
  }

  /** The existing rules stay in front, and a second merge of the same rules adds nothing. */
  lemma MergeIsIdempotent(existing: seq<Rule>, wanted: seq<Rule>)
    ensures existing <= Merged(existing, wanted)
    ensures Merged(Merged(existing, wanted), wanted) == Merged(existing, wanted)
  {
    MissingTwiceIsNothing(RuleKey, existing, wanted);
  }

  // ----- what merging lets in -----

  /** Some rule that carries r's key in the end is of r's statefulness and admits the packet if r does. */
  ghost predicate StandsIn(key: Rule -> string, covers: (string, int) -> bool, existing: seq<Rule>, wanted: seq<Rule>,
                           r: Rule, p: Packet)
    requires r in wanted
  {
    KeyOfMember(key, wanted, r);
    exists a :: Keeps(key, existing, wanted, a, key(r)) && a.stateless == r.stateless
                && (Admits(covers, r, p) ==> Admits(covers, a, p))
  }

  /** Whatever the key: where every wanted rule has one that stands in for it, adding the missing rules
      lets in, tracked or untracked, exactly what the existing rules or the wanted rules let in. */
  lemma AddingMissingPreservesTraffic(key: Rule -> string, covers: (string, int) -> bool, existing: seq<Rule>,
                                      wanted: seq<Rule>, p: Packet, tracked: bool)
    requires forall r :: r in wanted ==> StandsIn(key, covers, existing, wanted, r, p)
    ensures Allowed(covers, existing + Missing(key, Keys(key, existing), wanted), p, tracked)
            <==> Allowed(covers, existing, p, tracked) || Allowed(covers, wanted, p, tracked)
  {
    var added := Missing(key, Keys(key, existing), wanted);
    MissingIsNew(key, Keys(key, existing), wanted);
    assert forall r :: r in existing + added <==> r in existing || r in added;
    if Allowed(covers, wanted, p, tracked) {
      var r :| r in wanted && r.stateless == !tracked && Admits(covers, r, p);
      assert StandsIn(key, covers, existing, wanted, r, p);
      KeyOfMember(key, wanted, r);
      KeepsExactly(key, existing, wanted, key(r));
      var a :| Keeps(key, existing, wanted, a, key(r)) && a.stateless == r.stateless && Admits(covers, a, p);
      assert a in existing + added;
    }
  }

  ghost predicate Clean(rules: seq<Rule>) {
    forall r :: r in rules ==> Readable(r) && NoSourcePorts(r)
  }

  /** Some rule that carries b's key in the end has source ports that include b's. */
  ghost predicate SourcePortsFit(existing: seq<Rule>, wanted: seq<Rule>, b: Rule)
    requires b in wanted
  {
    KeyOfMember(RuleKey, wanted, b);
    exists a :: Keeps(RuleKey, existing, wanted, a, RuleKey(b)) && SourcePortsWithin(b, a)
  }

  /** Deduplication preserves meaning for rules with and without source-port ranges, where the ranges of
      every wanted rule fit into those of a rule that carries its key in the end. */
  lemma MergePreservesWhereSourcePortsFit(covers: (string, int) -> bool, existing: seq<Rule>, wanted: seq<Rule>,
                                          p: Packet, tracked: bool)
    requires forall r :: r in existing + wanted ==> Readable(r)
    requires forall b :: b in wanted ==> SourcePortsFit(existing, wanted, b)
    ensures Allowed(covers, Merged(existing, wanted), p, tracked)
            <==> Allowed(covers, existing, p, tracked) || Allowed(covers, wanted, p, tracked)
  {
    forall b | b in wanted ensures StandsIn(RuleKey, covers, existing, wanted, b, p) {
      FittingStandsIn(covers, existing, wanted, b, p);
    }
    AddingMissingPreservesTraffic(RuleKey, covers, existing, wanted, p, tracked);
  }

  lemma FittingStandsIn(covers: (string, int) -> bool, existing: seq<Rule>, wanted: seq<Rule>, b: Rule, p: Packet)
    requires b in wanted && SourcePortsFit(existing, wanted, b)
    requires forall r :: r in existing + wanted ==> Readable(r)
    ensures StandsIn(RuleKey, covers, existing, wanted, b, p)
  {
    KeyOfMember(RuleKey, wanted, b);
    var a :| Keeps(RuleKey, existing, wanted, a, RuleKey(b)) && SourcePortsWithin(b, a);
    KeepsExactly(RuleKey, existing, wanted, RuleKey(b));
    MissingIsNew(RuleKey, Keys(RuleKey, existing), wanted);
    assert a in existing + wanted && b in existing + wanted;
    hide RuleKey;
    hide SourcePortsWithin;
    hide Admits;
    KeyIncludesExactly(a, b);
    KeyIsShape(a, b);
    assert a.stateless == b.stateless;
  }

  /** Rules without source-port ranges always fit. */
  lemma CleanFits(existing: seq<Rule>, wanted: seq<Rule>, b: Rule)
    requires Clean(existing) && Clean(wanted) && b in wanted
    ensures SourcePortsFit(existing, wanted, b)
  {
    KeyOfMember(RuleKey, wanted, b);
    KeepsExactly(RuleKey, existing, wanted, RuleKey(b));
    MissingIsNew(RuleKey, Keys(RuleKey, existing), wanted);
    hide RuleKey;
    var a :| Keeps(RuleKey, existing, wanted, a, RuleKey(b));
    assert a in existing || a in wanted;
    assert SourcePortsWithin(b, a);
  }

  /** Deduplication preserves meaning. */
  lemma MergePreservesTraffic(covers: (string, int) -> bool, existing: seq<Rule>, wanted: seq<Rule>, p: Packet,
                              tracked: bool)
    requires Clean(existing) && Clean(wanted)
    ensures Allowed(covers, Merged(existing, wanted), p, tracked)
            <==> Allowed(covers, existing, p, tracked) || Allowed(covers, wanted, p, tracked)
  {
    forall b | b in wanted ensures SourcePortsFit(existing, wanted, b) {
      CleanFits(existing, wanted, b);
    }
    hide SourcePortsFit;
    hide Allowed;
    hide RuleKey;
    MergePreservesWhereSourcePortsFit(covers, existing, wanted, p, tracked);
  }

  /** An existing rule swallows a wanted one under its key. Nothing is lost exactly when the source-port
      ranges of the wanted rule lie within those of the existing one. */
  lemma SwallowedExactly(a: Rule, b: Rule)
    requires Readable(a) && Readable(b) && RuleKey(a) == RuleKey(b)
    ensures Merged([a], [b]) == [a]
    ensures (forall covers, p, tracked :: Allowed(covers, [b], p, tracked) ==>
        Allowed(covers, Merged([a], [b]), p, tracked))
            <==> SourcePortsWithin(b, a)
  {
    KeysOfOne(RuleKey, a);
    MissingOne(RuleKey, Keys(RuleKey, [a]), b);
    KeyIncludesExactly(a, b);
    KeyIsShape(a, b);
    assert a.stateless == b.stateless;
    hide RuleKey;
    hide SourcePortsWithin;
    hide Admits;
    OneRule(a);
    OneRule(b);
    if Includes(a, b) {
    } else {
      var covers, p :| Admits(covers, b, p) && !Admits(covers, a, p);
      assert Allowed(covers, [b], p, !b.stateless) && !Allowed(covers, [a], p, !b.stateless);
    }
  }

  lemma OneRule(r: Rule)
    ensures forall covers, p, tracked :: Allowed(covers, [r], p, tracked) <==>
        r.stateless == !tracked && Admits(covers, r, p)
  {
    hide Admits;
    assert forall other :: other in [r] <==> other == r;
  }

  /** So a list that lets port 1 in keeps the rule asked for, open to all source ports, out. */
  lemma SourcePortRuleSwallows(covers: (string, int) -> bool)
    requires covers("s", 0)
    ensures var narrow := Rule("6", "s", Some(PortOptions(PORT_80, PORT_1)), None, None, false);
            var wide := Rule("6", "s", Some(PortOptions(PORT_80, None)), None, None, false);
            var p := Packet("6", 0, 2, 80, 0, 0);
            && Merged([narrow], [wide]) == [narrow]
            && Allowed(covers, [wide], p, true) && !Allowed(covers, Merged([narrow], [wide]), p, true)
  {
    var narrow := Rule("6", "s", Some(PortOptions(PORT_80, PORT_1)), None, None, false);
    var wide := Rule("6", "s", Some(PortOptions(PORT_80, None)), None, None, false);
    SourcePortsAreHidden(covers);
    hide RuleKey;
    KeysOfOne(RuleKey, narrow);
    MissingOne(RuleKey, Keys(RuleKey, [narrow]), wide);
    OneRule(narrow);
    OneRule(wide);
  }

  // ----- deletion -----

  method RemoveByKey(rules: seq<Rule>, key: string) returns (kept: seq<Rule>, removed: nat)
    ensures kept == Kept(RuleKey, rules, key) && removed == |rules| - |kept|
  {
    hide *;
    kept, removed := [], 0;
    assert rules[0..] == rules;
    for i := 0 to |rules|
      invariant kept + Kept(RuleKey, rules[i..], key) == Kept(RuleKey, rules, key)
      invariant |kept| + removed == i
    {
      KeptStep(RuleKey, rules, i, key);
      Regroup(kept, [rules[i]], Kept(RuleKey, rules[i + 1..], key));
      if RuleKey(rules[i]) == key {
        removed := removed + 1;
        continue;
      }
      kept := kept + [rules[i]];
    }
    assert rules[|rules|..] == [];
    KeptNothing(RuleKey, key);
  }

  /** Deleting the key of a rule takes away exactly the rules of its shape: the list then lets in
      exactly what its rules of other shapes let in. */
  lemma DeletionTakesOneShape(covers: (string, int) -> bool, rules: seq<Rule>, r: Rule, p: Packet, tracked: bool)
    requires Readable(r) && forall other :: other in rules ==> Readable(other)
    ensures Allowed(covers, Kept(RuleKey, rules, RuleKey(r)), p, tracked)
            <==> exists other :: other in rules && ShapeOf(other) != ShapeOf(r)
                                 && other.stateless == !tracked && Admits(covers, other, p)
  {
    KeptExactly(RuleKey, rules, RuleKey(r));
    forall other | other in rules ensures RuleKey(other) != RuleKey(r) <==> ShapeOf(other) != ShapeOf(r) {
      KeyIsShape(other, r);
    }
  }

  /** Adding a new rule and deleting it by its key restores the list. */
  lemma DeleteUndoesAdd(existing: seq<Rule>, r: Rule)
    requires RuleKey(r) !in Keys(RuleKey, existing)
    ensures Kept(RuleKey, Merged(existing, [r]), RuleKey(r)) == existing
  {
    MissingOne(RuleKey, Keys(RuleKey, existing), r);
    KeptWithoutLast(RuleKey, existing, r);
  }

  // ----- the list in the cloud -----

  const MAX_INGRESS_RULES := 200

  datatype ApiError = ReadFailed | TooManyRules | UpdateFailed | NoSuchRule

  class SecurityList {
    var ingress: seq<Rule>

    constructor (rules: seq<Rule>)
      ensures ingress == rules
    {
      ingress := rules;
    }

    /** All or nothing: an error, or nothing missing, leaves the list as it was. */
    method ApplyIngressRules(wanted: seq<Rule>, readOk: bool, updateOk: bool) returns (r: Result<nat, ApiError>)
      modifies this
      ensures r.Ok? ==> ingress == Merged(old(ingress), wanted) && r.value == |ingress| - |old(ingress)|
      ensures r.Err? ==> ingress == old(ingress)
      ensures r == Err(TooManyRules) <==>
              readOk && |Merged(old(ingress), wanted)| > 200 &&
              |Merged(old(ingress), wanted)| > |old(ingress)|
      ensures |old(ingress)| <= 200 ==> |ingress| <= 200
    {
      if !readOk {
        return Err(ReadFailed);
      }
      var merged, added := MergeIngressRules(ingress, wanted);
      if added == 0 {
        assert merged == ingress;
        return Ok(0);
      }
      if |merged| > MAX_INGRESS_RULES {
        return Err(TooManyRules);
      }
      if !updateOk {
        return Err(UpdateFailed);
      }
      ingress := merged;
      return Ok(added);
    }

    method DeleteSecurityRule(key: string, readOk: bool, updateOk: bool) returns (r: Result<nat, ApiError>)
      modifies this
      ensures r.Ok? ==> ingress == Kept(RuleKey, old(ingress), key) && r.value == |old(ingress)| - |ingress| > 0
      ensures r.Err? ==> ingress == old(ingress)
      ensures r == Err(NoSuchRule) <==> readOk && key !in Keys(RuleKey, old(ingress))
    {
      if !readOk {
        return Err(ReadFailed);
      }
      var kept, removed := RemoveByKey(ingress, key);
      KeptExactly(RuleKey, ingress, key);
      if removed == 0 {
        return Err(NoSuchRule);
      }
      if !updateOk {
        return Err(UpdateFailed);
      }
      ingress := kept;
      return Ok(removed);
    }
  }
}
