/**
 The network security group of one instance: the key its listing is compared by, adding rules 25 per
 request with failures in between, and clearing it the same way.
 */
module NsgBatches {
  import opened Prelude
  import opened Dedup
  import opened Decimal
  import opened FirewallRules
  import opened RuleMerging

  const RULES_PER_REQUEST := 25

  // ----- the key -----

  function ProtocolName(p: string): string {
    if p == "6" then "TCP"
    else if p == "17" then "UDP"
    else if p == "1" then "ICMP"
    else if p == "58" then "ICMPv6"
    else if p == "all" then "ALL"
    else p
  }

  function NsgKeyText(protocol: string, source: string, ports: string): string {
    protocol + ("|" + (source + ("|" + ports)))
  }

  function NsgKey(r: Rule): string {
    NsgKeyText(ProtocolName(r.protocol), r.source, DescribePorts(r))
  }

  /** A line of the listing. */
  datatype Item = Item(id: nat, protocol: string, source: string, ports: string, stateless: bool)

  function ItemKey(item: Item): string {
    NsgKeyText(item.protocol, item.source, item.ports)
  }

  // ----- the group in the cloud -----

  datatype Stored = Stored(id: nat, rule: Rule)

  function ItemOf(s: Stored): Item {
    Item(s.id, ProtocolName(s.rule.protocol), s.rule.source, DescribePorts(s.rule), s.rule.stateless)
  }

  function RulesOf(stored: seq<Stored>): (rules: seq<Rule>)
    ensures |rules| == |stored|
  {
    seq(|stored|, i requires 0 <= i < |stored| => stored[i].rule)
  }

  predicate DistinctIds(stored: seq<Stored>) {
    forall i, j :: 0 <= i < j < |stored| ==> stored[i].id != stored[j].id
  }

  function Survivors(stored: seq<Stored>, ids: seq<nat>): seq<Stored> {
    if stored == [] then []
    else (if stored[0].id in ids then [] else [stored[0]]) + Survivors(stored[1..], ids)
  }

  function Stamped(batch: seq<Rule>, first: nat): (stored: seq<Stored>)
    ensures |stored| == |batch|
  {
    seq(|batch|, i requires 0 <= i < |batch| => Stored(first + i, batch[i]))
  }

  /** The API takes 1 to 25 rules per request and applies a request as a whole or not at all. */
  class Group {
    var rules: seq<Stored>
    var nextId: nat
    ghost var sent: seq<seq<Rule>>

    ghost predicate Valid()
      reads this
    {
      DistinctIds(rules) && forall i :: 0 <= i < |rules| ==> rules[i].id < nextId
    }

    constructor ()
      ensures Valid() && rules == [] && sent == []
    {
      rules, nextId, sent := [], 0, [];
    }

    method AddRequest(batch: seq<Rule>, ok: bool)
      requires Valid() && 1 <= |batch| <= 25
      modifies this
      ensures Valid() && sent == old(sent) + [batch]
      ensures RulesOf(rules) == RulesOf(old(rules)) + if ok then batch else []
    {
      sent := sent + [batch];
      if ok {
        rules := rules + Stamped(batch, nextId);
        nextId := nextId + |batch|;
      }
    }

    method RemoveRequest(ids: seq<nat>, ok: bool)
      requires Valid() && 1 <= |ids| <= 25
      modifies this`rules
      ensures Valid() && rules == if ok then Survivors(old(rules), ids) else old(rules)
    {
      if ok {
        SurvivorsKeepIds(rules, ids);
        assert forall s :: s in rules ==> s.id < nextId;
        rules := Survivors(rules, ids);
        assert forall i :: 0 <= i < |rules| ==> rules[i] in rules;
      }
    }
  }

  lemma {:induction false} SurvivorsKeepIds(stored: seq<Stored>, ids: seq<nat>)
    requires DistinctIds(stored)
    ensures DistinctIds(Survivors(stored, ids))
    ensures forall s :: s in Survivors(stored, ids) ==> s in stored
  {
    if stored != [] {
      var rest := stored[1..];
      SurvivorsKeepIds(rest, ids);
      assert forall s :: s in rest ==> s.id != stored[0].id;
    }
  }

  // ----- listing -----

  function Flat<T>(parts: seq<seq<T>>): seq<T> {
    if parts == [] then [] else Flat(parts[..|parts| - 1]) + parts[|parts| - 1]
  }

  function Listed(stored: seq<Stored>): (items: seq<Item>)
    ensures |items| == |stored|
  {
    seq(|stored|, i requires 0 <= i < |stored| => ItemOf(stored[i]))
  }

  lemma FlatFront<T>(parts: seq<seq<T>>, n: nat)
    requires n < |parts|
    ensures Flat(parts[..n + 1]) == Flat(parts[..n]) + parts[n]
  {
    assert parts[..n + 1][..n] == parts[..n];
  }

  /** The pages that could be read. */
  function Read(pages: seq<Option<seq<Stored>>>): (read: seq<seq<Stored>>)
    ensures |read| == |pages|
  {
    seq(|pages|, i requires 0 <= i < |pages| => if pages[i].Some? then pages[i].value else [])
  }

  lemma ReadFront(pages: seq<Option<seq<Stored>>>, n: nat)
    requires n < |pages| && pages[n].Some?
    ensures Flat(Read(pages[..n + 1])) == Flat(Read(pages[..n])) + pages[n].value
  {
    assert Read(pages[..n + 1])[..n] == Read(pages[..n]);
  }

  lemma ListedStep(a: seq<Stored>, b: seq<Stored>, j: nat)
    requires j < |b|
    ensures Listed(a + b[..j + 1]) == Listed(a + b[..j]) + [ItemOf(b[j])]
  {
    hide ItemOf;
  }

  /** All pages in order; one that cannot be read spoils the listing. */
  method ListNSGIngressRules(pages: seq<Option<seq<Stored>>>) returns (items: Option<seq<Item>>)
    ensures items.None? <==> None in pages
    ensures items.Some? ==> items.value == Listed(Flat(Read(pages)))
  {
    hide Listed;
    hide Flat;
    hide Read;
    var listed := [];
    assert Listed(Flat(Read(pages[..0]))) == [] by {
      NothingListed(pages);
    }
    for i := 0 to |pages|
      invariant None !in pages[..i] && listed == Listed(Flat(Read(pages[..i])))
    {
      if pages[i].None? {
        return None;
      }
      ReadFront(pages, i);
      ghost var before, page := Flat(Read(pages[..i])), pages[i].value;
      assert before + page[..0] == before;
      for j := 0 to |pages[i].value|
        invariant listed == Listed(before + page[..j])
      {
        ListedStep(before, page, j);
        listed := listed + [ItemOf(pages[i].value[j])];
      }
      assert page[..|page|] == page;
    }
    assert pages[..|pages|] == pages;
    return Some(listed);
  }

  lemma NothingListed(pages: seq<Option<seq<Stored>>>)
    ensures Listed(Flat(Read(pages[..0]))) == []
  {
  }

  /** The listing shows the key that the rules themselves have. */
  lemma ListedKeys(stored: seq<Stored>)
    ensures Keys(ItemKey, Listed(stored)) == Keys(NsgKey, RulesOf(stored))
  {
    hide NsgKeyText;
    forall i | 0 <= i < |stored| ensures ItemKey(Listed(stored)[i]) == NsgKey(RulesOf(stored)[i]) {
    }
  }

  // ----- adding, 25 per request -----

  function MissingFrom(group: seq<Rule>, wanted: seq<Rule>): seq<Rule> {
    Missing(NsgKey, Keys(NsgKey, group), wanted)
  }

  function Cut(n: nat, size: nat): nat {
    if 25 * n <= size then 25 * n else size
  }

  /** The requests for a batch: 25 rules each, the last one what is left. */
  function Requests<T>(batch: seq<T>): (requests: seq<seq<T>>)
    ensures |requests| == (|batch| + RULES_PER_REQUEST - 1) / RULES_PER_REQUEST
    ensures forall k :: 0 <= k < |requests| ==> requests[k] == batch[Cut(k, |batch|)..Cut(k + 1, |batch|)]
  {
    seq((|batch| + RULES_PER_REQUEST - 1) / RULES_PER_REQUEST,
        k requires 0 <= k < (|batch| + RULES_PER_REQUEST - 1) / RULES_PER_REQUEST =>
          batch[Cut(k, |batch|)..Cut(k + 1, |batch|)])
  }

  lemma FrontGrows<T>(s: seq<T>, p: nat, q: nat)
    requires p <= q <= |s|
    ensures s[..q] == s[..p] + s[p..q]
  {
  }

  /** Every request carries 1 to 25 rules, and the first n of them are the first 25 n rules in order. */
  lemma {:induction false} RequestsAreExact<T>(batch: seq<T>, n: nat)
    requires n <= |Requests(batch)|
    ensures Flat(Requests(batch)[..n]) == batch[..Cut(n, |batch|)]
    ensures forall k :: 0 <= k < n ==> 1 <= |Requests(batch)[k]| <= 25
    ensures n == |Requests(batch)| ==> Flat(Requests(batch)) == batch
  {
    hide Requests;
    var requests := Requests(batch);
    if n == 0 {
      assert Flat(requests[..0]) == [];
    } else {
      hide Flat;
      RequestsAreExact(batch, n - 1);
      FlatFront(requests, n - 1);
      FrontGrows(batch, Cut(n - 1, |batch|), Cut(n, |batch|));
    }
    if n == |requests| {
      hide Flat;
      assert requests[..n] == requests;
      assert Cut(n, |batch|) == |batch|;
      assert batch[..|batch|] == batch;
    }
  }

  /** The rules the group has no key for yet. */
  method Batch(existing: seq<Item>, wanted: seq<Rule>) returns (batch: seq<Rule>)
    ensures batch == Missing(NsgKey, Keys(ItemKey, existing), wanted)
  {
    hide NsgKeyText;
    hide DescribePorts;
    hide ProtocolName;
    var have: set<string> := {};
    for i := 0 to |existing|
      invariant have == Keys(ItemKey, existing[..i])
    {
      KeysOfFront(ItemKey, existing, i);
      have := have + {ItemKey(existing[i])};
    }
    assert existing[..|existing|] == existing;
    batch := [];
    for i := 0 to |wanted|
      invariant batch + Missing(NsgKey, have, wanted[i..]) == Missing(NsgKey, Keys(ItemKey, existing), wanted)
    {
      MissingStep(NsgKey, have, wanted, i);
      var k := NsgKeyText(ProtocolName(wanted[i].protocol), wanted[i].source, DescribePorts(wanted[i]));
      if k in have {
        continue;
      }
      have := have + {k};
      batch := batch + [wanted[i]];
    }
  }

  /** How far a run got: request number `failAt`, counting from 0, is the first one refused. */
  predicate Fails(failAt: Option<nat>, size: nat) {
    failAt.Some? && 25 * failAt.value < size
  }

  function Counted(failAt: Option<nat>, size: nat): nat {
    if Fails(failAt, size) then 25 * failAt.value else size
  }

  lemma NextRequest<T>(batch: seq<T>, n: nat)
    requires Cut(n, |batch|) < |batch|
    ensures Cut(n, |batch|) == RULES_PER_REQUEST * n
    ensures Cut(n + 1, |batch|) == Min(Cut(n, |batch|) + RULES_PER_REQUEST, |batch|)
    ensures n < |Requests(batch)| && Requests(batch)[n] == batch[Cut(n, |batch|)..Cut(n + 1, |batch|)]
  {
  }

  method SendBatch(g: Group, batch: seq<Rule>, failAt: Option<nat>) returns (added: nat, ok: bool)
    requires g.Valid()
    modifies g
    ensures g.Valid()
    ensures ok <==> !Fails(failAt, |batch|)
    ensures added == Counted(failAt, |batch|)
    ensures RulesOf(g.rules) == RulesOf(old(g.rules)) + batch[..added]
    ensures g.sent == old(g.sent) + if ok then Requests(batch) else Requests(batch)[..failAt.value + 1]
  {
    hide RulesOf;
    hide Requests;
    hide DistinctIds;
    var requests := Requests(batch);
    added := 0;
    ghost var n := 0;
    while added < |batch|
      invariant g.Valid()
      invariant n <= |requests| && added == Cut(n, |batch|)
      invariant failAt.Some? ==> n <= failAt.value || RULES_PER_REQUEST * failAt.value >= |batch|
      invariant RulesOf(g.rules) == RulesOf(old(g.rules)) + batch[..added]
      invariant g.sent == old(g.sent) + requests[..n]
      decreases |batch| - added
    {
      var end := Min(added + RULES_PER_REQUEST, |batch|);
      NextRequest(batch, n);
      assert requests[n] == batch[added..end];
      assert requests[..n + 1] == requests[..n] + [requests[n]];
      if failAt.Some? && added == RULES_PER_REQUEST * failAt.value {
        g.AddRequest(batch[added..end], false);
        return added, false;
      }
      g.AddRequest(batch[added..end], true);
      FrontGrows(batch, added, end);
      added := end;
      n := n + 1;
    }
    assert n == |requests| && requests[..n] == requests;
    ok := true;
  }

  lemma ListedBatch(rules: seq<Stored>, wanted: seq<Rule>)
    ensures Missing(NsgKey, Keys(ItemKey, Listed(rules)), wanted) == MissingFrom(RulesOf(rules), wanted)
  {
    ListedKeys(rules);
  }

  method AddNSGRules(g: Group, wanted: seq<Rule>, pages: seq<Option<seq<Stored>>>, failAt: Option<nat>)
    returns (added: nat, ok: bool)
    requires g.Valid() && (None !in pages ==> Flat(Read(pages)) == g.rules)
    modifies g
    ensures g.Valid()
    ensures None in pages ==> !ok && added == 0 && g.rules == old(g.rules) && g.sent == old(g.sent)
    ensures None !in pages ==>
              var missing := MissingFrom(RulesOf(old(g.rules)), wanted);
              && (ok <==> !Fails(failAt, |missing|))
              && added == Counted(failAt, |missing|)
              && RulesOf(g.rules) == RulesOf(old(g.rules)) + missing[..added]
              && g.sent == old(g.sent) + if ok then Requests(missing) else Requests(missing)[..failAt.value + 1]
  {
    hide RulesOf;
    hide Listed;
    hide NsgKey;
    hide ItemKey;
    var existing := ListNSGIngressRules(pages);
    if existing.None? {
      return 0, false;
    }
    ListedBatch(g.rules, wanted);
    var batch := Batch(existing.value, wanted);
    added, ok := SendBatch(g, batch, failAt);
  }

  /** One rule; refused when its key is listed. */
  method AddNSGRule(g: Group, rule: Rule, pages: seq<Option<seq<Stored>>>, sendOk: bool) returns (r: Result<bool, ()>)
    requires g.Valid() && (None !in pages ==> Flat(Read(pages)) == g.rules)
    modifies g
    ensures g.Valid()
    ensures r == Ok(true) ==> RulesOf(g.rules) == RulesOf(old(g.rules)) + [rule]
    ensures r != Ok(true) ==> RulesOf(g.rules) == RulesOf(old(g.rules))
    ensures r == Ok(false) <==> None !in pages && NsgKey(rule) in Keys(NsgKey, RulesOf(old(g.rules)))
    ensures r == Ok(true) <==> None !in pages && NsgKey(rule) !in Keys(NsgKey, RulesOf(old(g.rules))) && sendOk
  {
    hide RulesOf;
    hide Listed;
    hide NsgKeyText;
    hide DescribePorts;
    hide ProtocolName;
    var existing := ListNSGIngressRules(pages);
    if existing.None? {
      return Err(());
    }
    var items := existing.value;
    ListedKeys(g.rules);
    var wantKey := NsgKeyText(ProtocolName(rule.protocol), rule.source, DescribePorts(rule));
    for i := 0 to |items|
      invariant forall j :: 0 <= j < i ==> ItemKey(items[j]) != wantKey
    {
      if ItemKey(items[i]) == wantKey {
        return Ok(false);
      }
    }
    g.AddRequest([rule], sendOk);
    return if sendOk then Ok(true) else Err(());
  }

  // ----- clearing, 25 per request -----

  function IdsOf(stored: seq<Stored>): (ids: seq<nat>)
    ensures |ids| == |stored|
  {
    seq(|stored|, i requires 0 <= i < |stored| => stored[i].id)
  }

  lemma {:induction false} AllSurvive(stored: seq<Stored>, ids: seq<nat>)
    requires forall s :: s in stored ==> s.id !in ids
    ensures Survivors(stored, ids) == stored
  {
    if stored != [] {
      AllSurvive(stored[1..], ids);
    }
  }

  lemma {:induction false} NoneSurvive(stored: seq<Stored>, ids: seq<nat>)
    requires forall s :: s in stored ==> s.id in ids
    ensures Survivors(stored, ids) == []
  {
    if stored != [] {
      NoneSurvive(stored[1..], ids);
    }
  }

  lemma {:induction false} SurvivorsConcat(a: seq<Stored>, b: seq<Stored>, ids: seq<nat>)
    ensures Survivors(a + b, ids) == Survivors(a, ids) + Survivors(b, ids)
  {
    if a == [] {
      assert a + b == b;
    } else {
      assert (a + b)[1..] == a[1..] + b;
      SurvivorsConcat(a[1..], b, ids);
    }
  }

  lemma FrontRemoved(stored: seq<Stored>, n: nat)
    requires n <= |stored| && DistinctIds(stored)
    ensures Survivors(stored, IdsOf(stored[..n])) == stored[n..]
  {
    var front, back, ids := stored[..n], stored[n..], IdsOf(stored[..n]);
    assert stored == front + back;
    forall s | s in front ensures s.id in ids {
      var i :| 0 <= i < |front| && front[i] == s;
      assert ids[i] == s.id;
    }
    SurvivorsConcat(front, back, ids);
    NoneSurvive(front, ids);
    AllSurvive(back, ids);
  }

  method CollectIds(items: seq<Item>, ghost stored: seq<Stored>) returns (ids: seq<nat>)
    requires items == Listed(stored)
    ensures ids == IdsOf(stored)
  {
    ids := [];
    for i := 0 to |items|
      invariant ids == IdsOf(stored[..i])
    {
      ids := ids + [items[i].id];
    }
    assert stored[..|stored|] == stored;
  }

  lemma NextIds(stored: seq<Stored>, from: nat, end: nat)
    requires from <= end <= |stored| && DistinctIds(stored[from..])
    ensures Survivors(stored[from..], IdsOf(stored)[from..end]) == stored[end..]
  {
    var rest := stored[from..];
    FrontRemoved(rest, end - from);
    assert IdsOf(rest[..end - from]) == IdsOf(stored)[from..end];
    assert rest[end - from..] == stored[end..];
  }

  method RemoveIds(g: Group, ids: seq<nat>, failAt: Option<nat>) returns (removed: nat, ok: bool)
    requires g.Valid() && ids == IdsOf(g.rules)
    modifies g`rules
    ensures g.Valid()
    ensures ok <==> !Fails(failAt, |ids|)
    ensures removed == Counted(failAt, |ids|)
    ensures g.rules == old(g.rules)[removed..]
  {
    hide Survivors;
    hide IdsOf;
    removed := 0;
    ghost var n := 0;
    while removed < |ids|
      invariant g.Valid()
      invariant removed == Cut(n, |ids|)
      invariant failAt.Some? ==> n <= failAt.value || RULES_PER_REQUEST * failAt.value >= |ids|
      invariant g.rules == old(g.rules)[removed..]
      decreases |ids| - removed
    {
      var end := Min(removed + RULES_PER_REQUEST, |ids|);
      if failAt.Some? && removed == RULES_PER_REQUEST * failAt.value {
        g.RemoveRequest(ids[removed..end], false);
        return removed, false;
      }
      NextIds(old(g.rules), removed, end);
      g.RemoveRequest(ids[removed..end], true);
      removed := end;
      n := n + 1;
    }
    ok := true;
  }

  /** The rules go in listing order; when request `failAt` is refused, exactly the counted ones are gone. */
  method ClearNSGRules(g: Group, pages: seq<Option<seq<Stored>>>, failAt: Option<nat>) returns (removed: nat, ok: bool)
    requires g.Valid() && (None !in pages ==> Flat(Read(pages)) == g.rules)
    modifies g`rules
    ensures g.Valid()
    ensures None in pages ==> !ok && removed == 0 && g.rules == old(g.rules)
    ensures None !in pages ==>
              && (ok <==> !Fails(failAt, |old(g.rules)|))
              && removed == Counted(failAt, |old(g.rules)|)
              && g.rules == old(g.rules)[removed..]
  {
    hide IdsOf;
    var existing := ListNSGIngressRules(pages);
    if existing.None? {
      return 0, false;
    }
    var ids := CollectIds(existing.value, g.rules);
    removed, ok := RemoveIds(g, ids, failAt);
  }

  // ----- what repeated adding amounts to -----

  /** After a run that got through the first n missing rules, the next run adds exactly the rest, and
      after a complete run there is nothing to add. */
  lemma NextRunAddsTheRest(group: seq<Rule>, wanted: seq<Rule>, n: nat)
    requires n <= |MissingFrom(group, wanted)|
    ensures MissingFrom(group + MissingFrom(group, wanted)[..n], wanted) == MissingFrom(group, wanted)[n..]
    ensures MissingFrom(group + MissingFrom(group, wanted), wanted) == []
  {
    hide NsgKey;
    var missing := MissingFrom(group, wanted);
    KeysOfConcat(NsgKey, group, missing[..n]);
    MissingResumes(NsgKey, Keys(NsgKey, group), wanted, n);
    MissingTwiceIsNothing(NsgKey, group, wanted);
  }

  // ----- what the key means -----

  ghost predicate WellFormedAll(rules: seq<Rule>) {
    forall r :: r in rules ==> WellFormed(r) && Readable(r)
  }

  function DestinationOf(r: Rule): Option<PortRange> {
    if r.tcp.Some? then r.tcp.value.destination else if r.udp.Some? then r.udp.value.destination else None
  }

  function IcmpBlockOf(r: Rule): IcmpOptions {
    if r.icmp.Some? then r.icmp.value else IcmpOptions(None, None)
  }

  /** What a well-formed rule admits, apart from its statefulness. */
  datatype Effect = Effect(protocol: string, source: string, ports: Ports, icmp: Icmp)

  function EffectOf(r: Rule): Effect {
    Effect(r.protocol, r.source, PortsOf(DestinationOf(r)), IcmpOf(IcmpBlockOf(r)))
  }

  lemma ProtocolNameInjective(p: string, q: string)
    requires p !in PROTOCOL_NAMES && q !in PROTOCOL_NAMES
    ensures ProtocolName(p) == ProtocolName(q) <==> p == q
  {
  }

  lemma ProtocolNameHasNoBar(p: string)
    requires Without(p, '|')
    ensures Without(ProtocolName(p), '|')
  {
  }

  lemma PortsWithoutBar(range: Option<PortRange>)
    ensures Without(PortRangeText(range), '|')
  {
    PortTextChars(range);
  }

  lemma DescriptionForm(r: Rule)
    requires WellFormed(r)
    ensures DescribePorts(r) ==
            if r.protocol in {"6", "17"} then PortRangeText(DestinationOf(r)) else IcmpText(IcmpBlockOf(r))
    ensures Without(DescribePorts(r), '|')
  {
    hide PortRangeText;
    PortsWithoutBar(DestinationOf(r));
    assert r.protocol in {"6", "17"} ==> PortRangeText(None) == "ALL" by {
      NoRangeText();
    }
    hide IcmpText;
    IcmpTextForm(IcmpBlockOf(r));
  }

  lemma NoRangeText()
    ensures PortRangeText(None) == "ALL"
  {
  }

  lemma NsgKeySplits(p: string, s: string, o: string, p': string, s': string, o': string)
    requires Without(p, '|') && Without(s, '|') && Without(p', '|') && Without(s', '|')
    requires NsgKeyText(p, s, o) == NsgKeyText(p', s', o')
    ensures p == p' && s == s' && o == o'
  {
    var t, t' := "|" + o, "|" + o';
    SplitUnique(p, "|" + (s + t), p', "|" + (s' + t'), '|');
    assert s + t == ("|" + (s + t))[1..] && s' + t' == ("|" + (s' + t'))[1..];
    SplitUnique(s, t, s', t', '|');
    assert o == t[1..] && o' == t'[1..];
  }

  lemma DescriptionsDecide(a: Rule, b: Rule)
    requires WellFormed(a) && WellFormed(b) && a.protocol == b.protocol
    ensures DescribePorts(a) == DescribePorts(b) <==>
              EffectOf(a).ports == EffectOf(b).ports && EffectOf(a).icmp == EffectOf(b).icmp
  {
    hide DescribePorts;
    hide PortRangeText;
    hide IcmpText;
    DescriptionForm(a);
    DescriptionForm(b);
    PortTextInjective(DestinationOf(a), DestinationOf(b));
    IcmpTextInjective(IcmpBlockOf(a), IcmpBlockOf(b));
  }

  /** The key of the group's listing is exactly the effect: protocol, source and range, but not
      statefulness. */
  lemma NsgKeyIsEffect(a: Rule, b: Rule)
    requires WellFormed(a) && WellFormed(b) && Readable(a) && Readable(b)
    ensures NsgKey(a) == NsgKey(b) <==> EffectOf(a) == EffectOf(b)
  {
    hide DescribePorts;
    hide ProtocolName;
    ProtocolNameInjective(a.protocol, b.protocol);
    if NsgKey(a) == NsgKey(b) {
      hide NsgKeyText;
      ProtocolNameHasNoBar(a.protocol);
      ProtocolNameHasNoBar(b.protocol);
      NsgKeySplits(ProtocolName(a.protocol), a.source, DescribePorts(a), ProtocolName(b.protocol), b.source,
          DescribePorts(b));
    }
    if a.protocol == b.protocol {
      DescriptionsDecide(a, b);
    }
  }

  function SourceOf(r: Rule): Option<PortRange> {
    if r.tcp.Some? then r.tcp.value.source else if r.udp.Some? then r.udp.value.source else None
  }

  /** The one block of a well-formed rule; a missing block and a missing range are one. */
  function BlockOf(r: Rule): PortOptions {
    PortOptions(DestinationOf(r), SourceOf(r))
  }

  /** The source ports of b lie within those of a, where a's rule speaks of ports. */
  ghost predicate GroupPortsWithin(b: Rule, a: Rule) {
    a.protocol in {"6", "17"} ==> BlockWithin(Some(BlockOf(b)), Some(BlockOf(a)))
  }

  /** What a well-formed rule admits, read off its effect and its source ports. */
  lemma AdmitsByBlock(covers: (string, int) -> bool, r: Rule, p: Packet)
    requires WellFormed(r)
    ensures Admits(covers, r, p) <==>
            && (r.protocol == "all" || r.protocol == p.protocol) && covers(r.source, p.address)
            && (r.protocol in {"6", "17"} ==> PortsAdmit(Some(BlockOf(r)), p))
            && (r.protocol in {"1", "58"} ==> InIcmp(IcmpOf(IcmpBlockOf(r)), p))
  {
  }

  lemma WithinAdmits(covers: (string, int) -> bool, a: Rule, b: Rule, p: Packet)
    requires WellFormed(a) && WellFormed(b) && EffectOf(a) == EffectOf(b) && GroupPortsWithin(b, a)
    requires Admits(covers, b, p)
    ensures Admits(covers, a, p)
  {
    AdmitsByBlock(covers, a, p);
    AdmitsByBlock(covers, b, p);
    hide Admits;
  }

  lemma OutsideAdmits(a: Rule, b: Rule) returns (covers: (string, int) -> bool, p: Packet)
    requires WellFormed(a) && WellFormed(b) && EffectOf(a) == EffectOf(b) && !GroupPortsWithin(b, a)
    ensures Admits(covers, b, p) && !Admits(covers, a, p)
  {
    covers := (source, address) => true;
    var d, x := BlockOutside(Some(BlockOf(a)), Some(BlockOf(b)));
    p := Packet(a.protocol, 0, x, d, 0, 0);
    AdmitsByBlock(covers, a, p);
    AdmitsByBlock(covers, b, p);
    hide Admits;
  }

  /** The group's key hides source ports too: under one key, what b admits is admitted by a exactly when
      b's source ports lie within a's. */
  lemma NsgKeyIncludesExactly(a: Rule, b: Rule)
    requires WellFormedAll([a, b]) && NsgKey(a) == NsgKey(b)
    ensures Includes(a, b) <==> GroupPortsWithin(b, a)
  {
    assert a in [a, b] && b in [a, b];
    hide NsgKey;
    NsgKeyIsEffect(a, b);
    hide EffectOf;
    hide GroupPortsWithin;
    hide Admits;
    if GroupPortsWithin(b, a) {
      forall covers, p | Admits(covers, b, p) ensures Admits(covers, a, p) {
        WithinAdmits(covers, a, b, p);
      }
    } else {
      var covers, p := OutsideAdmits(a, b);
    }
  }

  /** Some rule that carries b's key in the end has source ports that include b's; SameForm: and b's
      statefulness. */
  ghost predicate PortsFit(group: seq<Rule>, wanted: seq<Rule>, b: Rule, sameForm: bool)
    requires b in wanted
  {
    KeyOfMember(NsgKey, wanted, b);
    exists a :: Keeps(NsgKey, group, wanted, a, NsgKey(b)) && GroupPortsWithin(b, a)
                && (sameForm ==> a.stateless == b.stateless)
  }

  /** In particular where no rule has a source-port range, as in every rule the panel builds; the form is
      the same where no effect is asked for in both. */
  lemma PortsFitWithoutRanges(group: seq<Rule>, wanted: seq<Rule>, b: Rule, sameForm: bool)
    requires WellFormedAll(group + wanted) && (forall r :: r in group + wanted ==> NoSourcePorts(r)) && b in wanted
    requires sameForm ==>
        forall a :: a in group + wanted && EffectOf(a) == EffectOf(b) ==> a.stateless == b.stateless
    ensures PortsFit(group, wanted, b, sameForm)
  {
    KeyOfMember(NsgKey, wanted, b);
    KeepsExactly(NsgKey, group, wanted, NsgKey(b));
    hide NsgKey;
    hide EffectOf;
    var a :| Keeps(NsgKey, group, wanted, a, NsgKey(b));
    assert a in group + wanted && b in group + wanted;
    NsgKeyIsEffect(a, b);
    assert GroupPortsWithin(b, a);
  }

  /** What b lets in, the rule that its source ports fit into lets in. */
  lemma FittingLetsIn(covers: (string, int) -> bool, group: seq<Rule>, wanted: seq<Rule>, b: Rule, sameForm: bool,
                      p: Packet) returns (a: Rule)
    requires b in wanted && WellFormedAll(group + wanted) && PortsFit(group, wanted, b, sameForm)
    ensures NsgKey(b) in Keys(NsgKey, wanted) && Keeps(NsgKey, group, wanted, a, NsgKey(b))
    ensures a in group + MissingFrom(group, wanted) && (sameForm ==> a.stateless == b.stateless)
    ensures Admits(covers, b, p) ==> Admits(covers, a, p)
  {
    KeyOfMember(NsgKey, wanted, b);
    KeepsExactly(NsgKey, group, wanted, NsgKey(b));
    hide NsgKey;
    hide GroupPortsWithin;
    hide Admits;
    a :| Keeps(NsgKey, group, wanted, a, NsgKey(b)) && GroupPortsWithin(b, a)
         && (sameForm ==> a.stateless == b.stateless);
    assert a in group + wanted && b in group + wanted;
    NsgKeyIsEffect(a, b);
    if Admits(covers, b, p) {
      WithinAdmits(covers, a, b, p);
    }
  }

  ghost predicate LetsIn(covers: (string, int) -> bool, rules: seq<Rule>, p: Packet) {
    exists r :: r in rules && Admits(covers, r, p)
  }

  /** With or without tracking, a completed run lets in exactly what the group or the wanted rules let in. */
  lemma GroupLetsInBoth(covers: (string, int) -> bool, group: seq<Rule>, wanted: seq<Rule>, p: Packet)
    requires WellFormedAll(group + wanted)
    requires forall b :: b in wanted ==> PortsFit(group, wanted, b, false)
    ensures LetsIn(covers, group + MissingFrom(group, wanted), p) <==>
              LetsIn(covers, group, p) || LetsIn(covers, wanted, p)
  {
    hide NsgKey;
    hide PortsFit;
    hide Admits;
    var added := MissingFrom(group, wanted);
    MissingIsNew(NsgKey, Keys(NsgKey, group), wanted);
    assert forall r :: r in group + added <==> r in group || r in added;
    if LetsIn(covers, wanted, p) {
      var r :| r in wanted && Admits(covers, r, p);
      assert PortsFit(group, wanted, r, false);
      var a := FittingLetsIn(covers, group, wanted, r, false, p);
    }
  }

  /** Tracked and untracked traffic are preserved too where the rules that are fitted into have the same
      form. */
  lemma GroupPreservesTracking(covers: (string, int) -> bool, group: seq<Rule>, wanted: seq<Rule>, p: Packet,
                               tracked: bool)
    requires WellFormedAll(group + wanted)
    requires forall b :: b in wanted ==> PortsFit(group, wanted, b, true)
    ensures Allowed(covers, group + MissingFrom(group, wanted), p, tracked)
            <==> Allowed(covers, group, p, tracked) || Allowed(covers, wanted, p, tracked)
  {
    hide NsgKey;
    hide PortsFit;
    hide Admits;
    forall b | b in wanted ensures StandsIn(NsgKey, covers, group, wanted, b, p) {
      assert PortsFit(group, wanted, b, true);
      var a := FittingLetsIn(covers, group, wanted, b, true, p);
    }
    AddingMissingPreservesTraffic(NsgKey, covers, group, wanted, p, tracked);
  }

  /** A group that lists a source-port rule keeps the rule asked for, open to all source ports, out. */
  lemma GroupHidesSourcePorts(covers: (string, int) -> bool)
    requires covers("s", 0)
    ensures var narrow := Rule("6", "s", Some(PortOptions(PORT_80, PORT_1)), None, None, false);
            var wide := Rule("6", "s", Some(PortOptions(PORT_80, None)), None, None, false);
            var p := Packet("6", 0, 2, 80, 0, 0);
            && WellFormedAll([narrow, wide]) && MissingFrom([narrow], [wide]) == []
            && Admits(covers, wide, p) && !Admits(covers, narrow, p)
  {
    var narrow := Rule("6", "s", Some(PortOptions(PORT_80, PORT_1)), None, None, false);
    var wide := Rule("6", "s", Some(PortOptions(PORT_80, None)), None, None, false);
    hide NsgKeyText;
    assert NsgKey(narrow) == NsgKey(wide);
    hide NsgKey;
    KeysOfOne(NsgKey, narrow);
    MissingOne(NsgKey, Keys(NsgKey, [narrow]), wide);
  }

  /** The same key and the same statefulness. */
  predicate InForm(t: Rule, r: Rule) {
    NsgKey(t) == NsgKey(r) && t.stateless == r.stateless
  }

  /** In general a wanted rule is represented in its own form exactly when the group had that form
      already, or had neither form and the first wanted rule of the key has it. */
  lemma FormIsKeptExactly(group: seq<Rule>, wanted: seq<Rule>, r: Rule)
    requires r in wanted
    ensures NsgKey(r) in Keys(NsgKey, wanted)
    ensures (exists t :: t in group + MissingFrom(group, wanted) && InForm(t, r))
            <==> if NsgKey(r) in Keys(NsgKey, group) then exists t :: t in group && InForm(t, r)
                 else FirstWith(NsgKey, wanted, NsgKey(r)).stateless == r.stateless
  {
    hide NsgKey;
    var i :| 0 <= i < |wanted| && wanted[i] == r;
    var added, k := MissingFrom(group, wanted), NsgKey(r);
    assert k in Keys(NsgKey, wanted);
    assert forall t :: t in group + added <==> t in group || t in added;
    MissingIsNew(NsgKey, Keys(NsgKey, group), wanted);
    if k !in Keys(NsgKey, group) {
      MissingTakesFirst(NsgKey, Keys(NsgKey, group), wanted, k);
      assert FirstWith(NsgKey, wanted, k) in group + added;
      forall t | t in group ensures NsgKey(t) != k {
        var j :| 0 <= j < |group| && group[j] == t;
      }
    }
  }

  /** So asking for a stateless rule beside its stateful form adds nothing. */
  lemma StatelessIsShadowed(r: Rule)
    ensures MissingFrom([r], [r.(stateless := !r.stateless)]) == []
  {
    hide NsgKeyText;
    var other := r.(stateless := !r.stateless);
    assert NsgKey(other) == NsgKey(r);
    KeysOfOne(NsgKey, r);
    MissingOne(NsgKey, Keys(NsgKey, [r]), other);
  }

  /** The protocol as the group's listing names it. */
  lemma ProtocolsAsShown(p: string)
    ensures ProtocolName("6") == "TCP" && ProtocolName("17") == "UDP" && ProtocolName("1") == "ICMP"
    ensures ProtocolName("58") == "ICMPv6" && ProtocolName("all") == "ALL"
    ensures p !in {"6", "17", "1", "58", "all"} ==> ProtocolName(p) == p
  {
  }
}
