/**
 Ingress rules of a security list: the printed key that identifies a rule, merging, deletion, and the
 traffic a list admits.
 */
module FirewallRules {
  import opened Prelude
  import opened Decimal

  datatype PortRange = PortRange(min: Option<int>, max: Option<int>)
  datatype PortOptions = PortOptions(destination: Option<PortRange>, source: Option<PortRange>)
  datatype IcmpOptions = IcmpOptions(kind: Option<int>, code: Option<int>)

  /** A missing protocol or source reads as the empty string, a missing statelessness as stateful. */
  datatype Rule = Rule(protocol: string, source: string, tcp: Option<PortOptions>, udp: Option<PortOptions>,
      icmp: Option<IcmpOptions>, stateless: bool)

  // ----- printing -----

  function PortRangeText(range: Option<PortRange>): string {
    match range
    case Some(PortRange(Some(min), Some(max))) => if min == max then Print(min) else Print(min) + "-" + Print(max)
    case _ => "ALL"
  }

  function IcmpText(icmp: IcmpOptions): string {
    match icmp
    case IcmpOptions(None, _) => "ALL"
    case IcmpOptions(Some(kind), None) => "type " + Print(kind)
    case IcmpOptions(Some(kind), Some(code)) => "type " + Print(kind) + " code " + Print(code)
  }

  function DescribePorts(r: Rule): string {
    if r.tcp.Some? then PortRangeText(r.tcp.value.destination)
    else if r.udp.Some? then PortRangeText(r.udp.value.destination)
    else if r.icmp.Some? then IcmpText(r.icmp.value)
    else "ALL"
  }

  function TcpText(r: Rule): string {
    if r.tcp.Some? then "tcp:" + PortRangeText(r.tcp.value.destination) else ""
  }

  function UdpText(r: Rule): string {
    if r.udp.Some? then "udp:" + PortRangeText(r.udp.value.destination) else ""
  }

  function IcmpPart(r: Rule): string {
    if r.icmp.Some? then "icmp:" + DescribePorts(r) else ""
  }

  function OptionsText(r: Rule): string {
    TcpText(r) + (UdpText(r) + IcmpPart(r))
  }

  function StateText(stateless: bool): string {
    if stateless then "|stateless" else ""
  }

  function KeyText(protocol: string, source: string, options: string, stateless: bool): string {
    protocol + ("|" + (source + ("|" + (options + StateText(stateless)))))
  }

  function RuleKey(r: Rule): string {
    KeyText(r.protocol, r.source, OptionsText(r), r.stateless)
  }

  // ----- what a rule lets in -----

  datatype Ports = AnyPort | Span(lo: int, hi: int)
  datatype Icmp = AnyIcmp | Kind(kind: int) | KindCode(kind: int, code: int)

  function PortsOf(range: Option<PortRange>): Ports {
    match range
    case Some(PortRange(Some(min), Some(max))) => Span(min, max)
    case _ => AnyPort
  }

  function IcmpOf(icmp: IcmpOptions): Icmp {
    match icmp
    case IcmpOptions(None, _) => AnyIcmp
    case IcmpOptions(Some(kind), None) => Kind(kind)
    case IcmpOptions(Some(kind), Some(code)) => KindCode(kind, code)
  }

  type Port = x: int | 0 <= x <= 65535

  /** An incoming packet; ports and ICMP fields matter for their own protocols. */
  datatype Packet = Packet(protocol: string, address: int, sourcePort: Port, destinationPort: Port, kind: int,
      code: int)

  predicate InPorts(ports: Ports, port: int) {
    ports.AnyPort? || ports.lo <= port <= ports.hi
  }

  predicate InIcmp(icmp: Icmp, p: Packet) {
    match icmp
    case AnyIcmp => true
    case Kind(kind) => p.kind == kind
    case KindCode(kind, code) => p.kind == kind && p.code == code
  }

  predicate PortsAdmit(options: Option<PortOptions>, p: Packet) {
    options.Some? ==>
      && InPorts(PortsOf(options.value.destination), p.destinationPort)
      && InPorts(PortsOf(options.value.source), p.sourcePort)
  }

  /** `covers(source, address)` is the CIDR test, which this model does not look into. */
  predicate Admits(covers: (string, int) -> bool, r: Rule, p: Packet) {
    && (r.protocol == "all" || r.protocol == p.protocol)
    && covers(r.source, p.address)
    && (p.protocol == "6" ==> PortsAdmit(r.tcp, p))
    && (p.protocol == "17" ==> PortsAdmit(r.udp, p))
    && (p.protocol in {"1", "58"} && r.icmp.Some? ==> InIcmp(IcmpOf(r.icmp.value), p))
  }

  /** Does the list let the packet in, with (`tracked`) or without connection tracking? */
  predicate Allowed(covers: (string, int) -> bool, rules: seq<Rule>, p: Packet, tracked: bool) {
    exists r :: r in rules && r.stateless == !tracked && Admits(covers, r, p)
  }

  // ----- the key is injective on effects -----

  /** What the key shows of a rule. */
  datatype Shape = Shape(protocol: string, source: string, tcp: Option<Ports>, udp: Option<Ports>, icmp: Option<Icmp>,
      stateless: bool)

  function ShapeOf(r: Rule): Shape {
    Shape(r.protocol, r.source,
          if r.tcp.Some? then Some(PortsOf(r.tcp.value.destination)) else None,
          if r.udp.Some? then Some(PortsOf(r.udp.value.destination)) else None,
          if r.icmp.Some? then Some(IcmpOf(r.icmp.value)) else None,
          r.stateless)
  }

  /** No bar in protocol or source, and an ICMP block stands alone. */
  ghost predicate Readable(r: Rule) {
    Without(r.protocol, '|') && Without(r.source, '|') && (r.icmp.Some? ==> r.tcp.None? && r.udp.None?)
  }

  ghost predicate NoSourcePorts(r: Rule) {
    && (r.tcp.Some? ==> PortsOf(r.tcp.value.source).AnyPort?)
    && (r.udp.Some? ==> PortsOf(r.udp.value.source).AnyPort?)
  }

  const PROTOCOL_NAMES := {"TCP", "UDP", "ICMP", "ICMPv6", "ALL"}

  /** Options of a rule go with its protocol, and its protocol is a number or "all". */
  ghost predicate WellFormed(r: Rule) {
    && (r.tcp.Some? ==> r.protocol == "6")
    && (r.udp.Some? ==> r.protocol == "17")
    && (r.icmp.Some? ==> r.protocol in {"1", "58"})
    && r.protocol !in PROTOCOL_NAMES
  }

  lemma PortTextChars(a: Option<PortRange>)
    ensures PortRangeText(a) != [] && forall i :: 0 <= i < |PortRangeText(a)| ==> PortRangeText(a)[i] in "0123456789-AL"
    ensures PortRangeText(a)[0] == 'A' <==> PortsOf(a).AnyPort?
  {
    assert forall c :: IsDigit(c) ==> c in "0123456789-AL";
  }

  lemma PortTextInjective(a: Option<PortRange>, b: Option<PortRange>)
    ensures PortRangeText(a) == PortRangeText(b) <==> PortsOf(a) == PortsOf(b)
  {
    PortTextChars(a);
    PortTextChars(b);
    if PortRangeText(a) == PortRangeText(b) && PortsOf(a).Span? {
      var Span(p, q) := PortsOf(a);
      var Span(r, s) := PortsOf(b);
      if p == q && r == s {
        PrintInjective(p, r);
      } else if p != q && r != s {
        PairInjective(p, q, r, s);
      } else {
        SingleIsNoPair(p, r, s);
        SingleIsNoPair(r, p, q);
      }
    }
  }

  function CodeTail(code: Option<int>): string {
    if code.Some? then " code " + Print(code.value) else ""
  }

  lemma IcmpTextForm(a: IcmpOptions)
    ensures a.kind.None? ==> IcmpText(a) == "ALL"
    ensures a.kind.Some? ==> IcmpText(a) == "type " + (Print(a.kind.value) + CodeTail(a.code))
    ensures IcmpText(a)[0] == 'A' <==> a.kind.None?
    ensures Without(IcmpText(a), '|')
  {
  }

  lemma IcmpTextInjective(a: IcmpOptions, b: IcmpOptions)
    ensures IcmpText(a) == IcmpText(b) <==> IcmpOf(a) == IcmpOf(b)
  {
    IcmpTextForm(a);
    IcmpTextForm(b);
    if IcmpText(a) == IcmpText(b) && a.kind.Some? {
      var x, y := Print(a.kind.value) + CodeTail(a.code), Print(b.kind.value) + CodeTail(b.code);
      assert x == ("type " + x)[5..] && y == ("type " + y)[5..];
      SplitUnique(Print(a.kind.value), CodeTail(a.code), Print(b.kind.value), CodeTail(b.code), ' ');
      PrintInjective(a.kind.value, b.kind.value);
      if a.code.Some? {
        assert CodeTail(a.code)[6..] == Print(a.code.value) && CodeTail(b.code)[6..] == Print(b.code.value);
        PrintInjective(a.code.value, b.code.value);
      }
    }
  }

  lemma UdpTextForm(r: Rule)
    ensures Without(UdpText(r), '|') && StartsAtOrEmpty(UdpText(r), 'u') && (UdpText(r) == "" <==> r.udp.None?)
  {
    if r.udp.Some? {
      PortTextChars(r.udp.value.destination);
    }
  }

  lemma TcpTextForm(r: Rule)
    ensures Without(TcpText(r), '|') && StartsAtOrEmpty(TcpText(r), 't') && (TcpText(r) == "" <==> r.tcp.None?)
  {
    if r.tcp.Some? {
      PortTextChars(r.tcp.value.destination);
    }
  }

  lemma IcmpPartForm(r: Rule)
    requires Readable(r)
    ensures Without(IcmpPart(r), '|') && StartsAtOrEmpty(IcmpPart(r), 'i') && (IcmpPart(r) == "" <==> r.icmp.None?)
    ensures r.icmp.Some? ==> IcmpPart(r) == "icmp:" + IcmpText(r.icmp.value)
  {
    if r.icmp.Some? {
      IcmpTextForm(r.icmp.value);
    }
  }

  /** The options text of a readable rule has no bar, and its first letter tells its first block. */
  lemma OptionsForm(r: Rule)
    requires Readable(r)
    ensures OptionsText(r) == if r.icmp.Some? then IcmpPart(r) else TcpText(r) + UdpText(r)
    ensures r.tcp.Some? <==> OptionsText(r) != "" && OptionsText(r)[0] == 't'
    ensures r.icmp.Some? <==> OptionsText(r) != "" && OptionsText(r)[0] == 'i'
    ensures Without(OptionsText(r), '|')
  {
    TcpTextForm(r);
    UdpTextForm(r);
    IcmpPartForm(r);
    if r.icmp.Some? {
      assert OptionsText(r) == IcmpPart(r);
    } else {
      assert UdpText(r) + IcmpPart(r) == UdpText(r);
    }
  }

  lemma UdpTextInjective(a: Rule, b: Rule)
    ensures UdpText(a) == UdpText(b) <==> ShapeOf(a).udp == ShapeOf(b).udp
  {
    if a.udp.Some? && b.udp.Some? {
      assert UdpText(a)[4..] == PortRangeText(a.udp.value.destination)
          && UdpText(b)[4..] == PortRangeText(b.udp.value.destination);
      PortTextInjective(a.udp.value.destination, b.udp.value.destination);
    }
  }

  lemma DropHead(head: string, p: string, u: string)
    ensures (head + p + u)[|head|..] == p + u
  {
  }

  lemma HeadedSplit(head: string, p: string, u: string, q: string, v: string)
    requires Without(p, 'u') && Without(q, 'u') && StartsAtOrEmpty(u, 'u') && StartsAtOrEmpty(v, 'u')
    requires head + p + u == head + q + v
    ensures p == q && u == v
  {
    DropHead(head, p, u);
    DropHead(head, q, v);
    SplitUnique(p, u, q, v, 'u');
  }

  lemma NoU(a: Option<PortRange>)
    ensures Without(PortRangeText(a), 'u')
  {
    PortTextChars(a);
  }

  lemma TcpInjective(a: Rule, b: Rule)
    requires a.tcp.Some? && b.tcp.Some? && TcpText(a) + UdpText(a) == TcpText(b) + UdpText(b)
    ensures ShapeOf(a).tcp == ShapeOf(b).tcp && ShapeOf(a).udp == ShapeOf(b).udp
  {
    var x, y := a.tcp.value.destination, b.tcp.value.destination;
    NoU(x);
    NoU(y);
    UdpTextForm(a);
    UdpTextForm(b);
    HeadedSplit("tcp:", PortRangeText(x), UdpText(a), PortRangeText(y), UdpText(b));
    PortTextInjective(x, y);
    UdpTextInjective(a, b);
  }

  lemma IcmpInjective(a: Rule, b: Rule)
    requires Readable(a) && Readable(b) && a.icmp.Some? && b.icmp.Some? && IcmpPart(a) == IcmpPart(b)
    ensures IcmpOf(a.icmp.value) == IcmpOf(b.icmp.value)
  {
    IcmpPartForm(a);
    IcmpPartForm(b);
    assert IcmpText(a.icmp.value) == IcmpPart(a)[5..] && IcmpText(b.icmp.value) == IcmpPart(b)[5..];
    IcmpTextInjective(a.icmp.value, b.icmp.value);
  }

  lemma OptionsInjective(a: Rule, b: Rule)
    requires Readable(a) && Readable(b) && OptionsText(a) == OptionsText(b)
    ensures ShapeOf(a).tcp == ShapeOf(b).tcp && ShapeOf(a).udp == ShapeOf(b).udp && ShapeOf(a).icmp == ShapeOf(b).icmp
  {
    OptionsForm(a);
    OptionsForm(b);
    if a.icmp.Some? {
      IcmpInjective(a, b);
    } else if a.tcp.Some? {
      TcpInjective(a, b);
    } else {
      assert TcpText(a) + UdpText(a) == UdpText(a) && TcpText(b) + UdpText(b) == UdpText(b);
      UdpTextInjective(a, b);
    }
  }

  lemma OptionsFollowShape(a: Rule, b: Rule)
    requires Readable(a) && Readable(b) && ShapeOf(a) == ShapeOf(b)
    ensures OptionsText(a) == OptionsText(b)
  {
    UdpTextInjective(a, b);
    if a.tcp.Some? {
      PortTextInjective(a.tcp.value.destination, b.tcp.value.destination);
    }
    if a.icmp.Some? {
      IcmpPartForm(a);
      IcmpPartForm(b);
      IcmpTextInjective(a.icmp.value, b.icmp.value);
    }
  }

  lemma KeySplits(p: string, s: string, o: string, st: bool, p': string, s': string, o': string, st': bool)
    requires Without(p, '|') && Without(s, '|') && Without(o, '|') && Without(p', '|') && Without(s', '|')
    requires Without(o', '|')
    requires KeyText(p, s, o, st) == KeyText(p', s', o', st')
    ensures p == p' && s == s' && o == o' && st == st'
  {
    var t, t' := "|" + (o + StateText(st)), "|" + (o' + StateText(st'));
    SplitUnique(p, "|" + (s + t), p', "|" + (s' + t'), '|');
    assert s + t == ("|" + (s + t))[1..] && s' + t' == ("|" + (s' + t'))[1..];
    SplitUnique(s, t, s', t', '|');
    assert o + StateText(st) == t[1..] && o' + StateText(st') == t'[1..];
    SplitUnique(o, StateText(st), o', StateText(st'), '|');
  }

  /** For readable rules the key is exactly the shape: equal keys mean the same protocol, source,
      ranges and statefulness, and nothing else decides. */
  lemma KeyIsShape(a: Rule, b: Rule)
    requires Readable(a) && Readable(b)
    ensures RuleKey(a) == RuleKey(b) <==> ShapeOf(a) == ShapeOf(b)
  {
    if RuleKey(a) == RuleKey(b) {
      OptionsForm(a);
      OptionsForm(b);
      KeySplits(a.protocol, a.source, OptionsText(a), a.stateless, b.protocol, b.source, OptionsText(b), b.stateless);
      OptionsInjective(a, b);
    }
    if ShapeOf(a) == ShapeOf(b) {
      OptionsFollowShape(a, b);
    }
  }

  /** Rules of one shape without source ports admit the same packets. */
  lemma ShapeDecidesTraffic(covers: (string, int) -> bool, a: Rule, b: Rule, p: Packet)
    requires NoSourcePorts(a) && NoSourcePorts(b) && ShapeOf(a) == ShapeOf(b)
    ensures Admits(covers, a, p) <==> Admits(covers, b, p)
  {
  }

  // ----- what the key does not show -----

  /** Where a's block admits some destination port, it admits every source port b's block admits. */
  ghost predicate BlockWithin(b: Option<PortOptions>, a: Option<PortOptions>) {
    a.Some? && b.Some? && (exists d: Port :: InPorts(PortsOf(a.value.destination), d)) ==>
      forall x: Port :: InPorts(PortsOf(b.value.source), x) ==> InPorts(PortsOf(a.value.source), x)
  }

  /** The source-port ranges of b lie within those of a, for the protocols a applies to. */
  ghost predicate SourcePortsWithin(b: Rule, a: Rule) {
    && (a.protocol in {"6", "all"} ==> BlockWithin(b.tcp, a.tcp))
    && (a.protocol in {"17", "all"} ==> BlockWithin(b.udp, a.udp))
  }

  /** Every packet b admits is admitted by a, wherever their sources lie. */
  ghost predicate Includes(a: Rule, b: Rule) {
    forall covers, p :: Admits(covers, b, p) ==> Admits(covers, a, p)
  }

  lemma WithinIncludes(a: Rule, b: Rule, covers: (string, int) -> bool, p: Packet)
    requires ShapeOf(a) == ShapeOf(b) && SourcePortsWithin(b, a) && Admits(covers, b, p)
    ensures Admits(covers, a, p)
  {
  }

  lemma BlockOutside(a: Option<PortOptions>, b: Option<PortOptions>) returns (d: Port, x: Port)
    requires !BlockWithin(b, a)
    ensures a.Some? && b.Some? && InPorts(PortsOf(a.value.destination), d)
    ensures InPorts(PortsOf(b.value.source), x) && !InPorts(PortsOf(a.value.source), x)
  {
    d :| InPorts(PortsOf(a.value.destination), d);
    x :| InPorts(PortsOf(b.value.source), x) && !InPorts(PortsOf(a.value.source), x);
  }

  /** A packet that tells two rules of one shape apart. */
  lemma OutsideTellsApart(a: Rule, b: Rule) returns (covers: (string, int) -> bool, p: Packet)
    requires ShapeOf(a) == ShapeOf(b) && !SourcePortsWithin(b, a)
    ensures Admits(covers, b, p) && !Admits(covers, a, p)
  {
    covers := (source, address) => true;
    if a.protocol in {"6", "all"} && !BlockWithin(b.tcp, a.tcp) {
      var d, x := BlockOutside(a.tcp, b.tcp);
      p := Packet("6", 0, x, d, 0, 0);
    } else {
      var d, x := BlockOutside(a.udp, b.udp);
      p := Packet("17", 0, x, d, 0, 0);
    }
  }

  /** For rules under one key, what b admits is admitted by a exactly when b's source-port ranges lie
      within a's. */
  lemma KeyIncludesExactly(a: Rule, b: Rule)
    requires Readable(a) && Readable(b) && RuleKey(a) == RuleKey(b)
    ensures Includes(a, b) <==> SourcePortsWithin(b, a)
  {
    KeyIsShape(a, b);
    hide RuleKey;
    hide SourcePortsWithin;
    hide ShapeOf;
    hide Admits;
    if SourcePortsWithin(b, a) {
      forall covers, p | Admits(covers, b, p) ensures Admits(covers, a, p) {
        WithinIncludes(a, b, covers, p);
      }
    } else {
      var covers, p := OutsideTellsApart(a, b);
    }
  }

  /** So the key identifies a rule by its effect exactly when the source-port ranges agree wherever they
      matter: then, and only then, two rules under one key admit the same packets. */
  lemma KeyIsEffectExactly(a: Rule, b: Rule)
    requires Readable(a) && Readable(b) && RuleKey(a) == RuleKey(b)
    ensures (forall covers, p :: Admits(covers, a, p) <==> Admits(covers, b, p))
            <==> SourcePortsWithin(a, b) && SourcePortsWithin(b, a)
  {
    KeyIncludesExactly(a, b);
    KeyIncludesExactly(b, a);
    hide Admits;
    hide RuleKey;
    hide SourcePortsWithin;
    assert Includes(a, b) && Includes(b, a) <==>
           forall covers, p :: Admits(covers, a, p) <==> Admits(covers, b, p);
  }

  const PORT_80 := Some(PortRange(Some(80), Some(80)))
  const PORT_1 := Some(PortRange(Some(1), Some(1)))

  /** A source-port range is not in the key: these two rules share one, and differ. */
  lemma SourcePortsAreHidden(covers: (string, int) -> bool)
    requires covers("s", 0)
    ensures var narrow := Rule("6", "s", Some(PortOptions(PORT_80, PORT_1)), None, None, false);
            var wide := Rule("6", "s", Some(PortOptions(PORT_80, None)), None, None, false);
            var p := Packet("6", 0, 2, 80, 0, 0);
            RuleKey(narrow) == RuleKey(wide) && !Admits(covers, narrow, p) && Admits(covers, wide, p)
  {
  }

  function IcmpBehindTcp(kind: int): Rule {
    Rule("1", "s", Some(PortOptions(None, None)), None, Some(IcmpOptions(Some(kind), None)), false)
  }

  /** The two conditions of Readable are conditions of the model: OCI lists no rule whose source holds a
      bar, and none with ICMP options behind a TCP block. Without them the key says less: a bar moves the
      border between fields, and behind a TCP block an ICMP block prints the TCP ports. */
  lemma UnreadableKeys()
    ensures RuleKey(Rule("6", "a|b", None, None, None, false)) == RuleKey(Rule("6|a", "b", None, None, None, false))
    ensures forall k, l :: RuleKey(IcmpBehindTcp(k)) == RuleKey(IcmpBehindTcp(l))
  {
    assert KeyText("6", "a|b", "", false) == KeyText("6|a", "b", "", false);
  }

  /** The key as a client sees it: protocol, source, the one block with its range or ICMP options, and a mark for
      stateless rules. */
  lemma KeyAsShown(r: Rule)
    requires r.tcp.None? || r.udp.None?
    requires r.icmp.Some? ==> r.tcp.None? && r.udp.None?
    ensures RuleKey(r) == r.protocol + "|" + r.source + "|" + BlockAsShown(r) + if r.stateless then "|stateless" else ""
  {
    OptionsAsShown(r);
    hide OptionsText;
    hide BlockAsShown;
    KeyParts(r.protocol, r.source, OptionsText(r), StateText(r.stateless));
  }

  function BlockAsShown(r: Rule): string {
    if r.tcp.Some? then "tcp:" + PortRangeText(r.tcp.value.destination)
    else if r.udp.Some? then "udp:" + PortRangeText(r.udp.value.destination)
    else if r.icmp.Some? then "icmp:" + IcmpText(r.icmp.value)
    else ""
  }

  lemma OptionsAsShown(r: Rule)
    requires r.tcp.None? || r.udp.None?
    requires r.icmp.Some? ==> r.tcp.None? && r.udp.None?
    ensures OptionsText(r) == BlockAsShown(r)
  {
    hide PortRangeText;
    hide IcmpText;
    assert TcpText(r) + (UdpText(r) + IcmpPart(r)) == TcpText(r) + UdpText(r) + IcmpPart(r);
  }

  lemma KeyParts(protocol: string, source: string, options: string, state: string)
    ensures protocol + ("|" + (source + ("|" + (options + state)))) == protocol + "|" + source + "|" + options + state
  {
  }

  lemma TextsAsShown(min: int, max: int)
    ensures PortRangeText(Some(PortRange(Some(min), Some(max)))) ==
            if min == max then Print(min) else Print(min) + "-" + Print(max)
    ensures PortRangeText(None) == "ALL"
    ensures IcmpText(IcmpOptions(Some(min), Some(max))) == "type " + Print(min) + " code " + Print(max)
    ensures IcmpText(IcmpOptions(Some(min), None)) == "type " + Print(min)
  {
  }
}
