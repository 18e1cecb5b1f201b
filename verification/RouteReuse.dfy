/**
 The WireGuard proxy's routing configuration, the firewall in front of it, and when the loaded
 configuration may stay in place of a newly built one.
 */
module RouteReuse {
  import opened Basics

  type Tag = string
  type Source = string

  /** `rest` stands for every field besides type, tag and the members of a group. */
  datatype Outbound = Outbound(kind: string, tag: Tag, members: seq<Tag>, rest: string)

  /** `sources` is `source_ip_cidr` when the key is there; `extra` stands for the other match fields. */
  datatype Rule = Rule(sources: Option<seq<string>>, inbound: seq<string>, outbound: Tag, extra: string)

  /** `body` stands for everything besides the outbounds and the rules. */
  datatype Config = Config(body: string, outbounds: seq<Outbound>, rules: seq<Rule>)

  datatype Packet = Packet(source: Source, destination: string)

  const WG_TPROXY := ["wg-tproxy"]
  const WG_REJECT: Tag := "wg-reject"
  const WG_EGRESS := "wg-egress-"

  /** How sources are read (`_valid_source`, None when it raises) and what the other match fields mean. */
  datatype Meaning = Meaning(norm: string -> Option<Source>, other: (string, Packet) -> bool)

  // ---------------------------------------------------------------- evaluation

  predicate Matches(m: Meaning, rule: Rule, p: Packet) {
    && (rule.sources.Some? ==> exists i | 0 <= i < |rule.sources.value| ::
        m.norm(rule.sources.value[i]) == Some(p.source))
    && (rule.inbound == [] || "wg-tproxy" in rule.inbound)
    && m.other(rule.extra, p)
  }

  /** First match; None falls to `final`, which is part of the body. */
  function FirstMatch(m: Meaning, rules: seq<Rule>, p: Packet): Option<Tag> {
    if rules == [] then None
    else if Matches(m, rules[0], p) then Some(rules[0].outbound)
    else FirstMatch(m, rules[1..], p)
  }

  function Lookup(outbounds: seq<Outbound>, tag: Tag): (r: Option<Outbound>)
    ensures r.Some? ==> r.value in outbounds && r.value.tag == tag
    ensures r.None? ==> forall o | o in outbounds :: o.tag != tag
  {
    if outbounds == [] then None
    else if outbounds[0].tag == tag then Some(outbounds[0])
    else Lookup(outbounds[1..], tag)
  }

  lemma {:induction false} LookupFirst(outbounds: seq<Outbound>, k: nat)
    requires k < |outbounds| && forall j | 0 <= j < k :: outbounds[j].tag != outbounds[k].tag
    ensures Lookup(outbounds, outbounds[k].tag) == Some(outbounds[k])
  {
    if k > 0 {
      assert outbounds[1..][k - 1] == outbounds[k];
      LookupFirst(outbounds[1..], k - 1);
    }
  }

  /** An outbound with the outbounds its group would choose from. */
  datatype Exit = Exit(row: Option<Outbound>, members: seq<Option<Outbound>>)

  function ExitOf(outbounds: seq<Outbound>, tag: Tag): Exit {
    var row := Lookup(outbounds, tag);
    Exit(row, if row.None? then []
              else seq(|row.value.members|, i requires 0 <= i < |row.value.members| => Lookup(outbounds, row.value.members[i])))
  }

  datatype Verdict = Unmanaged | Dropped | Final(body: string) | Via(exit: Exit)

  /**
   The firewall's chains: only eligible sources are intercepted, other owned sources are dropped; what is
   intercepted goes to the proxy.
   */
  function Combined(m: Meaning, owned: set<Source>, eligible: set<Source>, c: Config, p: Packet): Verdict {
    if p.source in eligible then
      match FirstMatch(m, c.rules, p)
      case None => Final(c.body)
      case Some(tag) => Via(ExitOf(c.outbounds, tag))
    else if p.source in owned then Dropped
    else Unmanaged
  }

  // ---------------------------------------------------------------- splitting a configuration

  datatype Parts = Parts(fixed: seq<Rule>, sources: map<Source, Rule>, outbounds: map<Tag, Outbound>)

  predicate StartsWith(s: string, prefix: string) { prefix <= s }

  predicate SourceRuleOk(m: Meaning, rule: Rule) {
    && rule.sources.Some? && |rule.sources.value| == 1
    && rule.inbound == WG_TPROXY && StartsWith(rule.outbound, WG_EGRESS)
    && m.norm(rule.sources.value[0]).Some?
  }

  /** A source rule, field by field. */
  lemma SourceRuleExactly(m: Meaning, rule: Rule)
    ensures SourceRuleOk(m, rule) <==>
              && rule.sources.Some? && |rule.sources.value| == 1 && m.norm(rule.sources.value[0]).Some?
              && rule.inbound == ["wg-tproxy"] && "wg-egress-" <= rule.outbound
  {
  }

  function SourceOf(m: Meaning, rule: Rule): Source
    requires SourceRuleOk(m, rule)
  {
    m.norm(rule.sources.value[0]).value
  }

  ghost predicate DistinctTags(outbounds: seq<Outbound>) {
    forall i, j | 0 <= i < j < |outbounds| :: outbounds[i].tag != outbounds[j].tag
  }

  /** Well-formed rules for distinct single sources. */
  ghost predicate SourceRules(m: Meaning, rules: seq<Rule>) {
    && (forall i | 0 <= i < |rules| :: SourceRuleOk(m, rules[i]))
    && (forall i, j | 0 <= i < j < |rules| :: SourceOf(m, rules[i]) != SourceOf(m, rules[j]))
  }

  function Middle(rules: seq<Rule>): seq<Rule>
    requires |rules| >= 2
  {
    rules[1..|rules| - 1]
  }

  /** What `split` accepts: two boundary rules without sources around distinct source rules. */
  ghost predicate Splits(m: Meaning, c: Config) {
    && |c.rules| >= 2 && c.rules[0].sources.None? && c.rules[|c.rules| - 1].sources.None?
    && SourceRules(m, Middle(c.rules)) && DistinctTags(c.outbounds)
  }

  ghost predicate IndexedBySource(m: Meaning, rules: seq<Rule>, sources: map<Source, Rule>)
    requires SourceRules(m, rules)
  {
    && (forall i | 0 <= i < |rules| :: SourceOf(m, rules[i]) in sources && sources[SourceOf(m, rules[i])] == rules[i])
    && (forall s | s in sources :: exists i | 0 <= i < |rules| :: SourceOf(m, rules[i]) == s)
  }

  ghost predicate IndexedByTag(outbounds: seq<Outbound>, byTag: map<Tag, Outbound>) {
    && (forall i | 0 <= i < |outbounds| :: outbounds[i].tag in byTag && byTag[outbounds[i].tag] == outbounds[i])
    && (forall t | t in byTag :: exists i | 0 <= i < |outbounds| :: outbounds[i].tag == t)
  }

  ghost predicate PartsOf(m: Meaning, c: Config, parts: Parts)
    requires Splits(m, c)
  {
    && parts.fixed == [c.rules[0], c.rules[|c.rules| - 1]]
    && IndexedBySource(m, Middle(c.rules), parts.sources)
    && IndexedByTag(c.outbounds, parts.outbounds)
  }

  /** `split`; None where it raises. */
  method Split(m: Meaning, c: Config) returns (r: Option<Parts>)
    ensures r.Some? <==> Splits(m, c)
    ensures r.Some? ==> PartsOf(m, c, r.value)
  {
    hide SourceRules, DistinctTags, IndexedBySource, IndexedByTag;
    if |c.rules| < 2 || c.rules[0].sources.Some? || c.rules[|c.rules| - 1].sources.Some? { return None; }
    var byTag := OutboundsByTag(c.outbounds);
    if byTag.None? { return None; }
    var sources := RulesBySource(m, Middle(c.rules));
    if sources.None? { return None; }
    r := Some(Parts([c.rules[0], c.rules[|c.rules| - 1]], sources.value, byTag.value));
  }

  /** The source rules between the boundaries; None for a rule without sources, a malformed or a repeated one. */
  method RulesBySource(m: Meaning, rules: seq<Rule>) returns (r: Option<map<Source, Rule>>)
    ensures r.Some? <==> SourceRules(m, rules)
    ensures r.Some? ==> IndexedBySource(m, rules, r.value)
  {
    hide SourceRuleOk;
    var sources: map<Source, Rule> := map[];
    for i := 0 to |rules|
      invariant SourceRules(m, rules[..i])
      invariant IndexedBySource(m, rules[..i], sources)
    {
      if !SourceRuleOk(m, rules[i]) { return None; }
      var source := SourceOf(m, rules[i]);
      if source in sources {
        ghost var k :| 0 <= k < i && SourceOf(m, rules[..i][k]) == source;
        assert SourceOf(m, rules[k]) == SourceOf(m, rules[i]);
        return None;
      }
      sources := sources[source := rules[i]];
      assert rules[..i + 1] == rules[..i] + [rules[i]];
    }
    assert rules[..|rules|] == rules;
    r := Some(sources);
  }

  method OutboundsByTag(outbounds: seq<Outbound>) returns (r: Option<map<Tag, Outbound>>)
    ensures r.Some? <==> DistinctTags(outbounds)
    ensures r.Some? ==> IndexedByTag(outbounds, r.value)
  {
    var byTag: map<Tag, Outbound> := map[];
    for i := 0 to |outbounds|
      invariant forall j, k | 0 <= j < k < i :: outbounds[j].tag != outbounds[k].tag
      invariant forall k | 0 <= k < i :: outbounds[k].tag in byTag && byTag[outbounds[k].tag] == outbounds[k]
      invariant forall t | t in byTag :: exists k | 0 <= k < i :: outbounds[k].tag == t
    {
      if outbounds[i].tag in byTag {
        ghost var k :| 0 <= k < i && outbounds[k].tag == outbounds[i].tag;
        return None;
      }
      byTag := byTag[outbounds[i].tag := outbounds[i]];
    }
    r := Some(byTag);
  }

  // ---------------------------------------------------------------- reuse

  /** What the reuse check demands, stated on the two configurations themselves. */
  ghost predicate Reusable(m: Meaning, loaded: Config, desired: Config, owned: set<Source>) {
    && Splits(m, loaded) && Splits(m, desired)
    && loaded.body == desired.body
    && loaded.rules[0] == desired.rules[0] && loaded.rules[|loaded.rules| - 1] == desired.rules[|desired.rules| - 1]
    && (forall rule | rule in Middle(loaded.rules) :: SourceRuleOk(m, rule) && SourceOf(m, rule) in owned)
    && (forall rule | rule in Middle(desired.rules) :: rule in Middle(loaded.rules))
    && (forall o | o in desired.outbounds :: o in loaded.outbounds)
    && (forall o | o in loaded.outbounds :: o.tag == WG_REJECT || StartsWith(o.tag, WG_EGRESS))
  }

  /** `_can_reuse_loaded_config`. */
  method CanReuse(m: Meaning, loaded: Config, desired: Config, addresses: seq<string>) returns (ok: bool)
    ensures ok <==> (forall a | a in addresses :: m.norm(a).Some?)
                    && Reusable(m, loaded, desired, set a | a in addresses && m.norm(a).Some? :: m.norm(a).value)
  {
    hide Splits, PartsOf, SourceRuleOk;
    var before := Split(m, loaded);
    if before.None? { return false; }
    var after := Split(m, desired);
    if after.None? { return false; }
    if exists a | a in addresses :: m.norm(a).None? { return false; }
    var owned := set a | a in addresses && m.norm(a).Some? :: m.norm(a).value;
    Pieces(m, loaded, before.value);
    Pieces(m, desired, after.value);
    ok := && loaded.body == desired.body && before.value.fixed == after.value.fixed
          && (forall s | s in before.value.sources :: s in owned)
          && (forall s | s in after.value.sources ::
              s in before.value.sources && before.value.sources[s] == after.value.sources[s])
          && (forall t | t in after.value.outbounds ::
              t in before.value.outbounds && before.value.outbounds[t] == after.value.outbounds[t])
          && (forall t | t in before.value.outbounds :: t == WG_REJECT || StartsWith(t, WG_EGRESS));
    Compared(m, loaded, desired, before.value, after.value, owned);
  }

  /** The dictionaries of `split` say the same as the lists they index. */
  lemma Pieces(m: Meaning, c: Config, parts: Parts)
    requires Splits(m, c) && PartsOf(m, c, parts)
    ensures |c.rules| >= 2 && parts.fixed == [c.rules[0], c.rules[|c.rules| - 1]]
    ensures forall rule | rule in Middle(c.rules) ::
              SourceRuleOk(m, rule) && SourceOf(m, rule) in parts.sources && parts.sources[SourceOf(m, rule)] == rule
    ensures forall s | s in parts.sources ::
              parts.sources[s] in Middle(c.rules) && SourceRuleOk(m, parts.sources[s])
              && SourceOf(m, parts.sources[s]) == s
    ensures forall o | o in c.outbounds :: o.tag in parts.outbounds && parts.outbounds[o.tag] == o
    ensures forall t | t in parts.outbounds :: parts.outbounds[t] in c.outbounds && parts.outbounds[t].tag == t
  {
    hide SourceRuleOk;
    var middle := Middle(c.rules);
    forall rule | rule in middle
      ensures SourceRuleOk(m, rule) && SourceOf(m, rule) in parts.sources && parts.sources[SourceOf(m, rule)] == rule
    {
      var i :| 0 <= i < |middle| && middle[i] == rule;
    }
    forall s | s in parts.sources
      ensures parts.sources[s] in middle && SourceRuleOk(m, parts.sources[s]) && SourceOf(m, parts.sources[s]) == s
    {
      var i :| 0 <= i < |middle| && SourceOf(m, middle[i]) == s;
      assert middle[i] in middle;
    }
    forall t | t in parts.outbounds ensures parts.outbounds[t] in c.outbounds && parts.outbounds[t].tag == t {
      var i :| 0 <= i < |c.outbounds| && c.outbounds[i].tag == t;
    }
  }

  lemma Compared(m: Meaning, loaded: Config, desired: Config, before: Parts, after: Parts, owned: set<Source>)
    requires Splits(m, loaded) && PartsOf(m, loaded, before) && Splits(m, desired) && PartsOf(m, desired, after)
    ensures Reusable(m, loaded, desired, owned) <==>
            && loaded.body == desired.body && before.fixed == after.fixed
            && (forall s | s in before.sources :: s in owned)
            && (forall s | s in after.sources :: s in before.sources && before.sources[s] == after.sources[s])
            && (forall t | t in after.outbounds :: t in before.outbounds && before.outbounds[t] == after.outbounds[t])
            && (forall t | t in before.outbounds :: t == WG_REJECT || StartsWith(t, WG_EGRESS))
  {
    hide Splits, PartsOf, SourceRuleOk, StartsWith;
    Pieces(m, loaded, before);
    Pieces(m, desired, after);
  }

  // ---------------------------------------------------------------- the theorem

  /** The sources the firewall lets through to the proxy. */
  ghost predicate EligibleFor(m: Meaning, c: Config, eligible: set<Source>) {
    forall s | s in eligible :: exists i | 0 < i < |c.rules| - 1 ::
        SourceRuleOk(m, c.rules[i]) && SourceOf(m, c.rules[i]) == s
  }

  /** Every tag a rule or a group names is defined. */
  ghost predicate Closed(c: Config) {
    && (forall rule | rule in c.rules :: exists o | o in c.outbounds :: o.tag == rule.outbound)
    && (forall o, i | o in c.outbounds && 0 <= i < |o.members| :: exists q | q in c.outbounds :: q.tag == o.members[i])
  }

  /** Among distinct single-source rules only the packet's own can match. */
  lemma {:induction false} OnlyOwnRule(m: Meaning, rules: seq<Rule>, last: Rule, p: Packet, own: Rule)
    requires SourceRules(m, rules) && own in rules && SourceRuleOk(m, own) && SourceOf(m, own) == p.source
    ensures FirstMatch(m, rules + [last], p) == if Matches(m, own, p) then Some(own.outbound) else FirstMatch(m, [last], p)
  {
    hide SourceRules;
    SourceRulesTail(m, rules);
    var all := rules + [last];
    assert all[1..] == rules[1..] + [last];
    if rules[0] == own {
      if !Matches(m, own, p) { NoOwnRule(m, rules[1..], last, p); }
    } else {
      assert own in rules[1..];
      OnlyOwnRule(m, rules[1..], last, p, own);
      SingleSource(m, rules[0], p);
    }
  }

  lemma SourceRulesTail(m: Meaning, rules: seq<Rule>)
    requires SourceRules(m, rules) && rules != []
    ensures SourceRules(m, rules[1..]) && SourceRuleOk(m, rules[0])
    ensures forall r | r in rules[1..] :: SourceRuleOk(m, r) && SourceOf(m, r) != SourceOf(m, rules[0])
  {
    hide SourceRuleOk;
    assert forall i | 0 <= i < |rules| - 1 :: rules[1..][i] == rules[i + 1];
  }

  lemma SingleSource(m: Meaning, rule: Rule, p: Packet)
    requires SourceRuleOk(m, rule)
    ensures Matches(m, rule, p) ==> SourceOf(m, rule) == p.source
  {
  }

  lemma {:induction false} NoOwnRule(m: Meaning, rules: seq<Rule>, last: Rule, p: Packet)
    requires SourceRules(m, rules) && forall r | r in rules :: SourceRuleOk(m, r) && SourceOf(m, r) != p.source
    ensures FirstMatch(m, rules + [last], p) == FirstMatch(m, [last], p)
  {
    hide SourceRules, SourceRuleOk;
    if rules == [] {
      assert [] + [last] == [last];
    } else {
      SourceRulesTail(m, rules);
      SingleSource(m, rules[0], p);
      assert (rules + [last])[1..] == rules[1..] + [last];
      NoOwnRule(m, rules[1..], last, p);
    }
  }

  lemma {:induction false} LookupIs(outbounds: seq<Outbound>, o: Outbound)
    requires DistinctTags(outbounds) && o in outbounds
    ensures Lookup(outbounds, o.tag) == Some(o)
  {
    if outbounds[0] != o {
      assert o in outbounds[1..];
      assert forall i | 0 <= i < |outbounds| - 1 :: outbounds[1..][i] == outbounds[i + 1];
      LookupIs(outbounds[1..], o);
    }
  }

  /** A tag that the built configuration defines means the same exit, group members included, in both. */
  lemma SameExit(loaded: Config, desired: Config, tag: Tag)
    requires DistinctTags(loaded.outbounds) && DistinctTags(desired.outbounds) && Closed(desired)
    requires forall o | o in desired.outbounds :: o in loaded.outbounds
    requires exists o | o in desired.outbounds :: o.tag == tag
    ensures ExitOf(loaded.outbounds, tag) == ExitOf(desired.outbounds, tag)
  {
    hide DistinctTags;
    var o :| o in desired.outbounds && o.tag == tag;
    LookupIs(loaded.outbounds, o);
    LookupIs(desired.outbounds, o);
    forall i | 0 <= i < |o.members| ensures Lookup(loaded.outbounds, o.members[i]) == Lookup(desired.outbounds, o.members[i]) {
      var q :| q in desired.outbounds && q.tag == o.members[i];
      LookupIs(loaded.outbounds, q);
      LookupIs(desired.outbounds, q);
    }
    assert ExitOf(loaded.outbounds, tag).members == ExitOf(desired.outbounds, tag).members;
  }

  lemma FirstTwo(m: Meaning, rules: seq<Rule>, p: Packet)
    requires |rules| >= 2
    ensures FirstMatch(m, rules, p) == if Matches(m, rules[0], p) then Some(rules[0].outbound)
                                       else FirstMatch(m, Middle(rules) + [rules[|rules| - 1]], p)
  {
    assert rules[1..] == Middle(rules) + [rules[|rules| - 1]];
  }

  lemma {:induction false} MatchedRule(m: Meaning, rules: seq<Rule>, p: Packet)
    requires FirstMatch(m, rules, p).Some?
    ensures exists rule | rule in rules :: rule.outbound == FirstMatch(m, rules, p).value
  {
    if !Matches(m, rules[0], p) {
      MatchedRule(m, rules[1..], p);
      var rule :| rule in rules[1..] && rule.outbound == FirstMatch(m, rules[1..], p).value;
      assert rule in rules;
    } else {
      assert rules[0] in rules;
    }
  }

  /**
   Keeping the loaded configuration is invisible: behind the firewall of the new one, every packet of
   every source gets the verdict the new configuration would give, down to the members of a group.
   */
  lemma ReuseKeepsVerdicts(m: Meaning, loaded: Config, desired: Config, owned: set<Source>, eligible: set<Source>,
                           p: Packet)
    requires Reusable(m, loaded, desired, owned) && Closed(desired) && EligibleFor(m, desired, eligible)
    ensures Combined(m, owned, eligible, loaded, p) == Combined(m, owned, eligible, desired, p)
  {
    hide Matches, SourceRules, SourceRuleOk, Closed, DistinctTags, Lookup, ExitOf, Middle;
    if p.source in eligible {
      SameFirstMatch(m, loaded, desired, owned, eligible, p);
      var first := FirstMatch(m, desired.rules, p);
      if first.Some? {
        MatchedRule(m, desired.rules, p);
        ClosedTag(desired, first.value);
        SameExit(loaded, desired, first.value);
      }
    }
  }

  lemma ClosedTag(c: Config, tag: Tag)
    requires Closed(c) && exists rule | rule in c.rules :: rule.outbound == tag
    ensures exists o | o in c.outbounds :: o.tag == tag
  {
  }

  lemma SameFirstMatch(m: Meaning, loaded: Config, desired: Config, owned: set<Source>, eligible: set<Source>,
                       p: Packet)
    requires Reusable(m, loaded, desired, owned) && EligibleFor(m, desired, eligible) && p.source in eligible
    ensures FirstMatch(m, loaded.rules, p) == FirstMatch(m, desired.rules, p)
  {
    hide Matches, SourceRules, SourceRuleOk, DistinctTags, FirstMatch;
    var i :| 0 < i < |desired.rules| - 1 && SourceRuleOk(m, desired.rules[i]) && SourceOf(m, desired.rules[i]) == p.source;
    var own := desired.rules[i];
    assert Middle(desired.rules)[i - 1] == own;
    assert own in Middle(desired.rules) && own in Middle(loaded.rules);
    OnlyOwnRule(m, Middle(desired.rules), desired.rules[|desired.rules| - 1], p, own);
    OnlyOwnRule(m, Middle(loaded.rules), loaded.rules[|loaded.rules| - 1], p, own);
    FirstTwo(m, desired.rules, p);
    FirstTwo(m, loaded.rules, p);
  }
}
