/**
 The minimal baseline of a subnet's security list: the one-pass recogniser, what reset writes, and the
 traffic a minimal list lets in.
 */
module SecurityBaseline {
  import opened Prelude
  import opened FirewallRules

  datatype EgressRule = EgressRule(protocol: string, destination: string)

  const ANY_V4 := "0.0.0.0/0"
  const ANY_V6 := "::/0"

  // ----- the baseline, as a multiset -----

  /** What the recogniser looks at in an ingress rule. */
  datatype Essence = Essence(protocol: string, source: string, icmp: Option<IcmpOptions>, stateless: bool)

  function EssenceOf(r: Rule): Essence {
    Essence(r.protocol, r.source, r.icmp, r.stateless)
  }

  function Essences(rules: seq<Rule>): multiset<Essence> {
    if rules == [] then multiset{} else Essences(rules[..|rules| - 1]) + multiset{EssenceOf(rules[|rules| - 1])}
  }

  /** Path MTU discovery from anywhere. */
  const PMTUD := Essence("1", ANY_V4, Some(IcmpOptions(Some(3), Some(4))), false)

  /** Destination unreachable from inside the VCN. */
  function Internal(vcnCidr: string): Essence {
    Essence("1", vcnCidr, Some(IcmpOptions(Some(3), None)), false)
  }

  function Baseline(vcnCidr: string): multiset<Essence> {
    multiset{PMTUD} + if vcnCidr != "" then multiset{Internal(vcnCidr)} else multiset{}
  }

  predicate OpenEgress(egress: seq<EgressRule>) {
    && EgressRule("all", "0.0.0.0/0") in egress
    && forall r :: r in egress ==> r.protocol == "all" && (r.destination == "0.0.0.0/0" || r.destination == "::/0")
  }

  predicate Minimal(ingress: seq<Rule>, egress: seq<EgressRule>, vcnCidr: string) {
    Essences(ingress) == Baseline(vcnCidr) && OpenEgress(egress)
  }

  lemma {:induction false} EssencesCount(rules: seq<Rule>, n: nat)
    requires n <= |rules|
    ensures Essences(rules[..n]) <= Essences(rules)
    ensures |Essences(rules)| == |rules|
  {
    if n < |rules| {
      EssencesCount(rules[..|rules| - 1], n);
      assert rules[..|rules| - 1][..n] == rules[..n];
    } else if rules != [] {
      EssencesCount(rules[..|rules| - 1], n - 1);
      assert rules[..n] == rules;
    } else {
      assert rules[..n] == rules;
    }
  }

  lemma EssencesFront(rules: seq<Rule>, n: nat)
    requires n < |rules|
    ensures Essences(rules[..n + 1]) == Essences(rules[..n]) + multiset{EssenceOf(rules[n])}
    ensures Essences(rules[..n + 1]) <= Essences(rules)
  {
    assert rules[..n + 1][..n] == rules[..n];
    EssencesCount(rules, n + 1);
  }

  /** The essences that two flags stand for. */
  function Flagged(pmtud: bool, internal: bool, vcnCidr: string): multiset<Essence> {
    (if pmtud then multiset{PMTUD} else multiset{}) + (if internal then multiset{Internal(vcnCidr)} else multiset{})
  }

  lemma FlagsDecide(pmtud: bool, internal: bool, vcnCidr: string)
    requires internal ==> vcnCidr != ""
    ensures Flagged(pmtud, internal, vcnCidr) == Baseline(vcnCidr) <==> pmtud && (vcnCidr != "" ==> internal)
  {
    assert Baseline(vcnCidr)[PMTUD] == 1;
    assert Flagged(pmtud, internal, vcnCidr)[PMTUD] == if pmtud then 1 else 0;
    if vcnCidr != "" {
      assert Baseline(vcnCidr)[Internal(vcnCidr)] == 1;
      assert Flagged(pmtud, internal, vcnCidr)[Internal(vcnCidr)] == if internal then 1 else 0;
    }
  }

  /** A rule that sets neither flag, or sets one again, has no place in the baseline. */
  lemma OneTooMany(rules: seq<Rule>, i: nat, pmtud: bool, internal: bool, vcnCidr: string)
    requires i < |rules| && Essences(rules[..i]) == Flagged(pmtud, internal, vcnCidr) && (internal ==> vcnCidr != "")
    requires EssenceOf(rules[i]) == PMTUD ==> pmtud
    requires vcnCidr != "" && EssenceOf(rules[i]) == Internal(vcnCidr) ==> internal
    ensures Essences(rules) != Baseline(vcnCidr)
  {
    var e := EssenceOf(rules[i]);
    EssencesFront(rules, i);
    assert Essences(rules)[e] >= Essences(rules[..i + 1])[e] == Flagged(pmtud, internal, vcnCidr)[e] + 1;
    assert Baseline(vcnCidr)[e] < Flagged(pmtud, internal, vcnCidr)[e] + 1;
  }

  method EgressIsOpen(egress: seq<EgressRule>) returns (open: bool)
    ensures open <==> OpenEgress(egress)
  {
    var v4 := false;
    for i := 0 to |egress|
      invariant forall j :: 0 <= j < i ==> egress[j].protocol == "all" && egress[j].destination in {ANY_V4, ANY_V6}
      invariant v4 <==> EgressRule("all", ANY_V4) in egress[..i]
    {
      if egress[i].protocol != "all" {
        return false;
      }
      if egress[i].destination == ANY_V4 {
        v4 := true;
      } else if egress[i].destination != ANY_V6 {
        return false;
      }
    }
    assert egress[..|egress|] == egress;
    return v4;
  }

  /** Two flags and one pass decide equality of multisets. */
  method IsMinimalSecurityList(ingress: seq<Rule>, egress: seq<EgressRule>, vcnCidr: string) returns (minimal: bool)
    ensures minimal <==> Minimal(ingress, egress, vcnCidr)
  {
    var pmtud, internal := false, false;
    for i := 0 to |ingress|
      invariant Essences(ingress[..i]) == Flagged(pmtud, internal, vcnCidr)
      invariant internal ==> vcnCidr != ""
    {
      hide Flagged;
      hide Baseline;
      var r := ingress[i];
      EssencesFront(ingress, i);
      if r.protocol != "1" || r.icmp.None? || r.icmp.value.kind != Some(3) || r.stateless {
        OneTooMany(ingress, i, pmtud, internal, vcnCidr);
        return false;
      }
      if r.source == ANY_V4 && r.icmp.value.code == Some(4) && !pmtud {
        FlagUp(pmtud, internal, vcnCidr);
        pmtud := true;
      } else if vcnCidr != "" && r.source == vcnCidr && r.icmp.value.code == None && !internal {
        FlagUp(pmtud, internal, vcnCidr);
        internal := true;
      } else {
        OneTooMany(ingress, i, pmtud, internal, vcnCidr);
        return false;
      }
    }
    assert ingress[..|ingress|] == ingress;
    FlagsDecide(pmtud, internal, vcnCidr);
    if !pmtud || (vcnCidr != "" && !internal) {
      return false;
    }
    minimal := EgressIsOpen(egress);
  }

  lemma FlagUp(pmtud: bool, internal: bool, vcnCidr: string)
    ensures !pmtud ==> Flagged(true, internal, vcnCidr) == Flagged(pmtud, internal, vcnCidr) + multiset{PMTUD}
    ensures !internal ==>
              Flagged(pmtud, true, vcnCidr) == Flagged(pmtud, internal, vcnCidr) + multiset{Internal(vcnCidr)}
  {
  }

  lemma BaselineWritten(ingress: seq<Rule>, vcnCidr: string)
    requires |ingress| == (if vcnCidr == "" then 1 else 2) && EssenceOf(ingress[0]) == PMTUD
    requires vcnCidr != "" ==> EssenceOf(ingress[1]) == Internal(vcnCidr)
    ensures Essences(ingress) == Baseline(vcnCidr)
  {
    assert ingress[..0] == [];
    EssencesFront(ingress, 0);
    if vcnCidr == "" {
      assert ingress[..1] == ingress;
    } else {
      EssencesFront(ingress, 1);
      assert ingress[..2] == ingress;
    }
  }

  // ----- what reset writes -----

  function VcnCidr(block: string, blocks: seq<string>): string {
    if block == "" && blocks != [] then blocks[0] else block
  }

  /** Reset writes a minimal list for every VCN, with or without a CIDR and IPv6 prefixes. */
  method ResetSecurityListToMinimal(block: string, blocks: seq<string>, ipv6: seq<string>)
    returns (ingress: seq<Rule>, egress: seq<EgressRule>)
    ensures Minimal(ingress, egress, VcnCidr(block, blocks))
    ensures block != "" ==> Minimal(ingress, egress, block)
    ensures block == "" ==> Minimal(ingress, egress, if blocks == [] then "" else blocks[0])
    ensures EgressRule("all", "::/0") in egress <==> ipv6 != []
  {
    var vcnCidr := block;
    if vcnCidr == "" && |blocks| > 0 {
      vcnCidr := blocks[0];
    }
    ingress := [Rule("1", ANY_V4, None, None, Some(IcmpOptions(Some(3), Some(4))), false)];
    if vcnCidr != "" {
      ingress := ingress + [Rule("1", vcnCidr, None, None, Some(IcmpOptions(Some(3), None)), false)];
    }
    BaselineWritten(ingress, vcnCidr);
    egress := [EgressRule("all", ANY_V4)];
    if |ipv6| > 0 {
      egress := egress + [EgressRule("all", ANY_V6)];
    }
  }

  /** A list that is minimal for one VCN is minimal for no other, in particular not when the VCN's CIDR
      could not be read. */
  lemma MinimalForOneVcn(ingress: seq<Rule>, egress: seq<EgressRule>, vcnCidr: string, other: string)
    requires Minimal(ingress, egress, vcnCidr)
    ensures Minimal(ingress, egress, other) <==> other == vcnCidr
  {
    if Minimal(ingress, egress, other) {
      assert vcnCidr != "" ==> Internal(vcnCidr) in Baseline(other);
      assert other != "" ==> Internal(other) in Baseline(vcnCidr);
    }
  }

  // ----- what a minimal list lets in -----

  lemma {:induction false} EssencesOccur(rules: seq<Rule>, e: Essence)
    ensures e in Essences(rules) <==> exists r :: r in rules && EssenceOf(r) == e
  {
    if rules != [] {
      var front, last := rules[..|rules| - 1], rules[|rules| - 1];
      EssencesOccur(front, e);
      assert rules == front + [last];
      assert last in rules;
    }
  }

  /** No minimal list opens a port: it lets in, tracked, the two kinds of ICMP it exists for and
      nothing else. */
  lemma MinimalOpensNoPort(covers: (string, int) -> bool, ingress: seq<Rule>, egress: seq<EgressRule>, vcnCidr: string,
                           p: Packet, tracked: bool)
    requires Minimal(ingress, egress, vcnCidr)
    ensures Allowed(covers, ingress, p, tracked) <==>
            && tracked && p.protocol == "1" && p.kind == 3
            && ((covers("0.0.0.0/0", p.address) && p.code == 4) || (vcnCidr != "" && covers(vcnCidr, p.address)))
  {
    forall r | r in ingress ensures EssenceOf(r) == PMTUD || (vcnCidr != "" && EssenceOf(r) == Internal(vcnCidr)) {
      EssencesOccur(ingress, EssenceOf(r));
    }
    EssencesOccur(ingress, PMTUD);
    EssencesOccur(ingress, Internal(vcnCidr));
    assert PMTUD in Baseline(vcnCidr);
    assert vcnCidr != "" ==> Internal(vcnCidr) in Baseline(vcnCidr);
  }
}
