/** Building the proxy configuration: one exit per admitted peer, everything else rejected. */
module RouteBuild {
  import opened Basics
  import opened RouteReuse

  // ---------------------------------------------------------------- fresh tags

  function Digit(d: nat): char
    requires d < 10
  {
    "0123456789"[d]
  }

  function Decimal(n: nat): string {
    if n < 10 then [Digit(n)] else Decimal(n / 10) + [Digit(n % 10)]
  }

  lemma {:induction false} DecimalInjective(a: nat, b: nat)
    ensures Decimal(a) == Decimal(b) ==> a == b
    decreases a + b
  {
    if Decimal(a) == Decimal(b) {
      DecimalLength(a);
      DecimalLength(b);
      var da, db := Decimal(a), Decimal(b);
      assert da[|da| - 1] == db[|db| - 1];
      if a >= 10 {
        assert Decimal(a / 10) == da[..|da| - 1] && Decimal(b / 10) == db[..|db| - 1];
        DecimalInjective(a / 10, b / 10);
      }
    }
  }

  lemma {:induction false} DecimalLength(a: nat)
    ensures |Decimal(a)| >= 1 && (|Decimal(a)| == 1 <==> a < 10)
  {
    if a >= 10 { DecimalLength(a / 10); }
  }

  /** The candidates of `_reserve_tag`: the base itself, then numbered. */
  function Candidate(base: string, k: nat): string {
    if k == 0 then base else base + "-" + Decimal(k)
  }

  lemma CandidatesDiffer(base: string, j: nat, k: nat)
    requires j < k
    ensures Candidate(base, j) != Candidate(base, k)
  {
    if j == 0 {
      assert |Candidate(base, k)| > |base|;
    } else if Candidate(base, j) == Candidate(base, k) {
      assert Decimal(j) == Candidate(base, j)[|base| + 1..];
      assert Decimal(k) == Candidate(base, k)[|base| + 1..];
      DecimalInjective(j, k);
    }
  }

  function Tried(base: string, n: nat): set<string> {
    set k: nat | k < n :: Candidate(base, k)
  }

  lemma {:induction false} TriedSize(base: string, n: nat)
    ensures |Tried(base, n)| == n
  {
    hide Candidate;
    if n > 0 {
      TriedSize(base, n - 1);
      forall k: nat | k < n - 1 ensures Candidate(base, k) != Candidate(base, n - 1) { CandidatesDiffer(base, k, n - 1); }
      assert Tried(base, n) == Tried(base, n - 1) + {Candidate(base, n - 1)};
    }
  }

  lemma SmallerSet(a: set<string>, b: set<string>)
    requires a <= b
    ensures |a| <= |b|
  {
    if a != {} {
      var x :| x in a;
      SmallerSet(a - {x}, b - {x});
    }
  }

  /** `_reserve_tag`: the first candidate not in use. The set is finite and the candidates differ, so it ends. */
  method ReserveTag(base: string, used: set<string>) returns (tag: string, after: set<string>)
    ensures tag !in used && after == used + {tag} && base <= tag
    ensures exists n: nat :: tag == Candidate(base, n) && forall k: nat | k < n :: Candidate(base, k) in used
  {
    tag := base;
    var suffix: nat := 1;
    while tag in used
      invariant suffix >= 1 && tag == Candidate(base, suffix - 1)
      invariant forall k: nat | k < suffix - 1 :: Candidate(base, k) in used
      decreases |used| + 1 - suffix
    {
      TriedSize(base, suffix);
      assert Tried(base, suffix) <= used;
      SmallerSet(Tried(base, suffix), used);
      tag := base + "-" + Decimal(suffix);
      suffix := suffix + 1;
    }
    after := used + {tag};
  }

  // ---------------------------------------------------------------- peers and their exits

  datatype Peer = Peer(id: string, status: string, address: string, exitFingerprint: string)

  /** `_resolve_exit_binding`: a SOCKS outbound, or a group with its member outbounds. */
  datatype Binding = Socks(root: Outbound) | Group(root: Outbound, members: seq<Outbound>)

  /** Expiry and account state, the binding of a peer's user, and the fingerprint of a binding. */
  datatype Registry = Registry(inGoodStanding: Peer -> bool, binding: Peer -> Option<Binding>, fingerprint: Binding -> string)

  predicate Considered(peer: Peer) { peer.status == "ACTIVE" || peer.status == "APPLYING" }

  predicate Admitted(r: Registry, peer: Peer) {
    && Considered(peer) && r.inGoodStanding(peer) && r.binding(peer).Some?
    && peer.exitFingerprint == r.fingerprint(r.binding(peer).value)
  }

  /** Who gets a route: a live peer of an account in good standing whose exit is the one it was admitted with. */
  lemma AdmittedExactly(r: Registry, peer: Peer)
    ensures Admitted(r, peer) <==>
              && peer.status in {"ACTIVE", "APPLYING"} && r.inGoodStanding(peer)
              && r.binding(peer).Some? && r.fingerprint(r.binding(peer).value) == peer.exitFingerprint
  {
  }

  function Chosen(r: Registry, peers: seq<Peer>): seq<Peer> {
    if peers == [] then []
    else Chosen(r, peers[..|peers| - 1]) + if Admitted(r, peers[|peers| - 1]) then [peers[|peers| - 1]] else []
  }

  /** The tag stands for the binding: the same outbound under a new tag, or a group of such outbounds. */
  ghost predicate Stands(outbounds: seq<Outbound>, tag: Tag, b: Binding) {
    match b
    case Socks(root) => Lookup(outbounds, tag) == Some(root.(tag := tag))
    case Group(root, members) =>
      && Lookup(outbounds, tag).Some?
      && var row := Lookup(outbounds, tag).value;
      && row == Outbound("urltest", tag, row.members, root.rest) && |row.members| == |members|
      && forall i | 0 <= i < |members| :: Lookup(outbounds, row.members[i]) == Some(members[i].(tag := row.members[i]))
  }

  lemma {:induction false} LookupMore(a: seq<Outbound>, b: seq<Outbound>, tag: Tag)
    ensures Lookup(a, tag).Some? ==> Lookup(a + b, tag) == Lookup(a, tag)
    ensures Lookup(a, tag).None? ==> Lookup(a + b, tag) == Lookup(b, tag)
  {
    if a == [] {
      assert [] + b == b;
    } else {
      assert (a + b)[1..] == a[1..] + b;
      LookupMore(a[1..], b, tag);
    }
  }

  lemma StandsMore(a: seq<Outbound>, b: seq<Outbound>, tag: Tag, binding: Binding)
    requires Stands(a, tag, binding)
    ensures Stands(a + b, tag, binding)
  {
    hide Lookup;
    LookupMore(a, b, tag);
    if binding.Group? {
      var row := Lookup(a, tag).value;
      forall i | 0 <= i < |binding.members| ensures Lookup(a + b, row.members[i]) == Lookup(a, row.members[i]) {
        LookupMore(a, b, row.members[i]);
      }
    }
  }

  // ---------------------------------------------------------------- outbounds under construction

  const REJECT := Outbound("block", WG_REJECT, [], "")

  predicate OwnTag(tag: Tag) { tag == WG_REJECT || StartsWith(tag, WG_EGRESS) }

  /** The used tags are those of the list, each once, all of them ours; group members are defined. */
  ghost predicate Tidy(outbounds: seq<Outbound>, used: set<Tag>) {
    && DistinctTags(outbounds) && REJECT in outbounds
    && (forall o | o in outbounds :: o.tag in used && OwnTag(o.tag))
    && (forall t | t in used :: exists o | o in outbounds :: o.tag == t)
    && (forall o, i | o in outbounds && 0 <= i < |o.members| :: o.members[i] in used)
  }

  lemma TidyMore(outbounds: seq<Outbound>, used: set<Tag>, o: Outbound)
    requires Tidy(outbounds, used) && o.tag !in used && OwnTag(o.tag)
    requires forall i | 0 <= i < |o.members| :: o.members[i] in used
    ensures Tidy(outbounds + [o], used + {o.tag}) && Lookup(outbounds + [o], o.tag) == Some(o)
  {
    hide OwnTag, Lookup;
    var more := outbounds + [o];
    forall i, j | 0 <= i < j < |more| ensures more[i].tag != more[j].tag {
      assert more[i] == outbounds[i] && more[i] in outbounds;
      if j < |outbounds| { assert more[j] == outbounds[j]; }
    }
    forall t | t in used + {o.tag} ensures exists p | p in more :: p.tag == t {
      if t != o.tag {
        var p :| p in outbounds && p.tag == t;
        assert p in more;
      } else {
        assert o in more;
      }
    }
    assert REJECT in more;
    LookupIs(more, o);
  }

  predicate Leaf(o: Outbound) { o.members == [] }

  /** Bindings are made of plain outbounds: only the group itself has members. */
  predicate Plain(b: Binding) {
    match b
    case Socks(root) => Leaf(root)
    case Group(_, members) => forall i | 0 <= i < |members| :: Leaf(members[i])
  }

  /** The outbounds of one admitted peer. */
  method AddExit(peerId: string, b: Binding, outbounds: seq<Outbound>, used: set<Tag>)
    returns (tag: Tag, more: seq<Outbound>, after: set<Tag>)
    requires Tidy(outbounds, used) && Plain(b)
    ensures Tidy(more, after) && outbounds <= more && Stands(more, tag, b) && OwnTag(tag) && tag in after
            && StartsWith(tag, WG_EGRESS)
  {
    hide Tidy, Lookup, DistinctTags;
    tag, after := ReserveTag(WG_EGRESS + peerId, used);
    assert StartsWith(tag, WG_EGRESS) by { assert WG_EGRESS <= WG_EGRESS + peerId; }
    more := outbounds;
    match b {
      case Socks(root) =>
        TidyMore(outbounds, used, root.(tag := tag));
        more := more + [root.(tag := tag)];
      case Group(root, members) =>
        var tags: seq<Tag>;
        more, tags, after := AddMembers(peerId, members, outbounds, used, tag);
        var row := Outbound("urltest", tag, tags, root.rest);
        ghost var before := more;
        TidyMore(more, after - {tag}, row);
        assert after - {tag} + {tag} == after;
        more := more + [row];
        forall i | 0 <= i < |members| ensures Lookup(more, tags[i]) == Some(members[i].(tag := tags[i])) {
          LookupMore(before, [row], tags[i]);
        }
    }
  }

  /** The member outbounds of a group; `reserved` is the group's own tag, taken but not yet defined. */
  method AddMembers(peerId: string, members: seq<Outbound>, outbounds: seq<Outbound>, used: set<Tag>, reserved: Tag)
    returns (more: seq<Outbound>, tags: seq<Tag>, after: set<Tag>)
    requires Tidy(outbounds, used) && reserved !in used && forall i | 0 <= i < |members| :: Leaf(members[i])
    ensures outbounds <= more && |tags| == |members| && reserved in after
    ensures Tidy(more, after - {reserved})
    ensures forall i | 0 <= i < |members| ::
              tags[i] in after - {reserved} && Lookup(more, tags[i]) == Some(members[i].(tag := tags[i]))
  {
    hide Tidy, Lookup, DistinctTags;
    more, tags, after := outbounds, [], used + {reserved};
    assert after - {reserved} == used;
    for i := 0 to |members|
      invariant outbounds <= more && |tags| == i && reserved in after && Tidy(more, after - {reserved})
      invariant forall k | 0 <= k < i ::
                tags[k] in after - {reserved} && Lookup(more, tags[k]) == Some(members[k].(tag := tags[k]))
    {
      ghost var before, known := more, after;
      var base := WG_EGRESS + "upstream-" + peerId + "-" + Decimal(i);
      var tag;
      tag, after := ReserveTag(base, after);
      assert StartsWith(tag, WG_EGRESS) by { assert WG_EGRESS <= base; }
      var o := members[i].(tag := tag);
      TidyMore(more, known - {reserved}, o);
      assert known - {reserved} + {tag} == after - {reserved};
      more := more + [o];
      tags := tags + [tag];
      forall k | 0 <= k < i ensures Lookup(more, tags[k]) == Some(members[k].(tag := tags[k])) {
        LookupMore(before, [o], tags[k]);
      }
    }
  }

  // ---------------------------------------------------------------- the whole configuration

  const PRIVATE := "ip_is_private"

  const PRIVATE_RULE := Rule(None, WG_TPROXY, WG_REJECT, PRIVATE)

  const DENY_RULE := Rule(None, WG_TPROXY, WG_REJECT, "")

  function SourceRule(source: Source, tag: Tag): Rule { Rule(Some([source]), WG_TPROXY, tag, "") }

  /** The rule of a peer: its address, to an exit that stands for its binding. */
  ghost predicate RuleFor(m: Meaning, r: Registry, outbounds: seq<Outbound>, peer: Peer, rule: Rule) {
    && m.norm(peer.address).Some? && r.binding(peer).Some?
    && rule == SourceRule(m.norm(peer.address).value, rule.outbound)
    && StartsWith(rule.outbound, WG_EGRESS) && Stands(outbounds, rule.outbound, r.binding(peer).value)
  }

  ghost predicate Aligned(m: Meaning, r: Registry, outbounds: seq<Outbound>, peers: seq<Peer>, rules: seq<Rule>) {
    |peers| == |rules| && forall k | 0 <= k < |peers| :: RuleFor(m, r, outbounds, peers[k], rules[k])
  }

  lemma AlignedMore(m: Meaning, r: Registry, a: seq<Outbound>, b: seq<Outbound>, peers: seq<Peer>, rules: seq<Rule>)
    requires Aligned(m, r, a, peers, rules) && a <= b
    ensures Aligned(m, r, b, peers, rules)
  {
    hide Stands;
    assert b == a + b[|a|..];
    forall k | 0 <= k < |peers| ensures RuleFor(m, r, b, peers[k], rules[k]) {
      assert RuleFor(m, r, a, peers[k], rules[k]);
      StandsMore(a, b[|a|..], rules[k].outbound, r.binding(peers[k]).value);
    }
  }

  /** Every admitted peer has its rule, in order, between the two deny rules; nothing else does. */
  ghost predicate Built(m: Meaning, r: Registry, peers: seq<Peer>, c: Config) {
    && |c.rules| == |Chosen(r, peers)| + 2
    && c.rules[0] == PRIVATE_RULE && c.rules[|c.rules| - 1] == DENY_RULE
    && Aligned(m, r, c.outbounds, Chosen(r, peers), Middle(c.rules))
    && DistinctTags(c.outbounds) && REJECT in c.outbounds && Closed(c)
    && forall o | o in c.outbounds :: OwnTag(o.tag)
  }

  /** `build_config` over the peers in id order; None when a considered peer's address is not an IPv4 /32. */
  method BuildConfig(m: Meaning, r: Registry, peers: seq<Peer>, body: string) returns (c: Option<Config>)
    requires forall peer | r.binding(peer).Some? :: Plain(r.binding(peer).value)
    ensures c.Some? <==> forall peer | peer in peers && Considered(peer) :: m.norm(peer.address).Some?
    ensures c.Some? ==> Built(m, r, peers, c.value) && c.value.body == body
  {
    hide Tidy, Aligned, Stands, DistinctTags, Closed, OwnTag, Chosen;
    var outbounds, used := [REJECT], {WG_REJECT};
    TidyStart();
    var mids: seq<Rule> := [];
    AlignedNone(m, r, outbounds);
    ChosenNone(r);
    assert peers[..0] == [];
    for i := 0 to |peers|
      invariant Tidy(outbounds, used)
      invariant forall peer | peer in peers[..i] && Considered(peer) :: m.norm(peer.address).Some?
      invariant Aligned(m, r, outbounds, Chosen(r, peers[..i]), mids)
      invariant forall rule | rule in mids :: rule.outbound in used
    {
      var peer := peers[i];
      assert peers[..i + 1] == peers[..i] + [peer];
      ChosenStep(r, peers[..i], peer);
      if !Considered(peer) { continue; }
      var source := m.norm(peer.address);
      if source.None? { return None; }
      if !r.inGoodStanding(peer) { continue; }
      var binding := r.binding(peer);
      if binding.None? || peer.exitFingerprint != r.fingerprint(binding.value) { continue; }
      ghost var before, known := outbounds, used;
      var tag;
      tag, outbounds, used := AddExit(peer.id, binding.value, outbounds, used);
      AlignedMore(m, r, before, outbounds, Chosen(r, peers[..i]), mids);
      AlignedSnoc(m, r, outbounds, Chosen(r, peers[..i]), mids, peer, SourceRule(source.value, tag));
      UsedGrows(before, known, outbounds, used);
      mids := mids + [SourceRule(source.value, tag)];
    }
    assert peers[..|peers|] == peers;
    var rules := [PRIVATE_RULE] + mids + [DENY_RULE];
    assert Middle(rules) == mids;
    AlignedLength(m, r, outbounds, Chosen(r, peers), mids);
    TidyClosed(outbounds, used, mids, body);
    c := Some(Config(body, outbounds, rules));
  }

  lemma ChosenNone(r: Registry)
    ensures Chosen(r, []) == []
  {
  }

  lemma ChosenStep(r: Registry, peers: seq<Peer>, peer: Peer)
    ensures Chosen(r, peers + [peer]) == if Admitted(r, peer) then Chosen(r, peers) + [peer] else Chosen(r, peers)
  {
    assert (peers + [peer])[..|peers|] == peers;
  }

  lemma TidyStart()
    ensures Tidy([REJECT], {WG_REJECT})
  {
    assert REJECT in [REJECT];
  }

  lemma AlignedNone(m: Meaning, r: Registry, outbounds: seq<Outbound>)
    ensures Aligned(m, r, outbounds, [], [])
  {
  }

  lemma AlignedLength(m: Meaning, r: Registry, outbounds: seq<Outbound>, peers: seq<Peer>, rules: seq<Rule>)
    requires Aligned(m, r, outbounds, peers, rules)
    ensures |peers| == |rules|
  {
  }

  lemma AlignedSnoc(m: Meaning, r: Registry, outbounds: seq<Outbound>, peers: seq<Peer>, rules: seq<Rule>, peer: Peer,
                    rule: Rule)
    requires Aligned(m, r, outbounds, peers, rules) && RuleFor(m, r, outbounds, peer, rule)
    ensures Aligned(m, r, outbounds, peers + [peer], rules + [rule])
  {
    hide RuleFor;
  }

  lemma UsedGrows(a: seq<Outbound>, used: set<Tag>, b: seq<Outbound>, after: set<Tag>)
    requires Tidy(a, used) && Tidy(b, after) && a <= b
    ensures used <= after
  {
    hide DistinctTags, OwnTag;
    forall t | t in used ensures t in after {
      var o :| o in a && o.tag == t;
      assert o in b;
    }
  }

  lemma TidyClosed(outbounds: seq<Outbound>, used: set<Tag>, mids: seq<Rule>, body: string)
    requires Tidy(outbounds, used) && forall rule | rule in mids :: rule.outbound in used
    ensures DistinctTags(outbounds) && REJECT in outbounds
            && Closed(Config(body, outbounds, [PRIVATE_RULE] + mids + [DENY_RULE]))
    ensures forall o | o in outbounds :: OwnTag(o.tag)
  {
    hide DistinctTags, OwnTag;
    var rules := [PRIVATE_RULE] + mids + [DENY_RULE];
    assert REJECT.tag == WG_REJECT && REJECT in outbounds;
    forall rule | rule in rules ensures exists o | o in outbounds :: o.tag == rule.outbound {
      if rule in mids { assert rule.outbound in used; }
    }
  }

  // ---------------------------------------------------------------- what a built configuration does

  /** Reading an address twice changes nothing; an empty match field matches. */
  ghost predicate Sensible(m: Meaning) {
    && (forall a | m.norm(a).Some? :: m.norm(m.norm(a).value) == m.norm(a))
    && (forall p :: m.other("", p))
  }

  predicate Owns(m: Meaning, peer: Peer, source: Source) { m.norm(peer.address) == Some(source) }

  lemma {:induction false} AlignedTail(m: Meaning, r: Registry, outbounds: seq<Outbound>, peers: seq<Peer>,
                                       rules: seq<Rule>)
    requires Aligned(m, r, outbounds, peers, rules) && peers != []
    ensures rules != [] && RuleFor(m, r, outbounds, peers[0], rules[0])
            && Aligned(m, r, outbounds, peers[1..], rules[1..])
  {
    hide RuleFor;
  }

  /** The source rules send a packet to the exit of the first admitted peer that owns its source. */
  lemma {:induction false} SourceRulesRoute(m: Meaning, r: Registry, outbounds: seq<Outbound>, peers: seq<Peer>,
                                            rules: seq<Rule>, p: Packet)
    requires Sensible(m) && Aligned(m, r, outbounds, peers, rules)
    ensures (forall peer | peer in peers :: !Owns(m, peer, p.source)) ==>
              FirstMatch(m, rules + [DENY_RULE], p) == Some(WG_REJECT)
    ensures (exists peer | peer in peers :: Owns(m, peer, p.source)) ==>
              exists peer, tag | peer in peers && Owns(m, peer, p.source) ::
                && FirstMatch(m, rules + [DENY_RULE], p) == Some(tag) && StartsWith(tag, WG_EGRESS)
                && r.binding(peer).Some? && Stands(outbounds, tag, r.binding(peer).value)
  {
    hide Stands, Aligned, StartsWith;
    if peers == [] {
      AlignedLength(m, r, outbounds, peers, rules);
      assert rules + [DENY_RULE] == [DENY_RULE];
    } else {
      AlignedTail(m, r, outbounds, peers, rules);
      assert (rules + [DENY_RULE])[1..] == rules[1..] + [DENY_RULE];
      SourceRulesRoute(m, r, outbounds, peers[1..], rules[1..], p);
      assert rules[0].sources.value == [m.norm(peers[0].address).value];
      assert Matches(m, rules[0], p) <==> Owns(m, peers[0], p.source) by {
        assert rules[0].sources.value[0] == m.norm(peers[0].address).value;
      }
      if !Owns(m, peers[0], p.source) {
        assert forall peer | peer in peers && Owns(m, peer, p.source) :: peer in peers[1..];
      } else {
        assert peers[0] in peers;
      }
    }
  }

  lemma {:induction false} ChosenAreAdmitted(r: Registry, peers: seq<Peer>)
    ensures forall peer :: peer in Chosen(r, peers) <==> peer in peers && Admitted(r, peer)
  {
    if peers != [] {
      var n := |peers| - 1;
      ChosenAreAdmitted(r, peers[..n]);
      assert peers == peers[..n] + [peers[n]];
    }
  }

  /**
   A public destination is rejected exactly when no admitted peer owns the source; otherwise it leaves
   through the exit of such a peer, whose recorded fingerprint is the fingerprint of that exit.
   */
  lemma OnlyThroughTheOwnExit(m: Meaning, r: Registry, peers: seq<Peer>, c: Config, p: Packet)
    requires Sensible(m) && Built(m, r, peers, c) && !m.other(PRIVATE, p)
    ensures FirstMatch(m, c.rules, p).Some?
    ensures var tag := FirstMatch(m, c.rules, p).value;
            if exists peer | peer in peers && Admitted(r, peer) :: Owns(m, peer, p.source) then
              exists peer | peer in peers && Admitted(r, peer) ::
                && Owns(m, peer, p.source) && tag != WG_REJECT
                && peer.exitFingerprint == r.fingerprint(r.binding(peer).value)
                && Stands(c.outbounds, tag, r.binding(peer).value)
            else Blocks(c, tag)
  {
    hide Aligned, Stands, DistinctTags, Closed, OwnTag, Matches;
    ChosenAreAdmitted(r, peers);
    SourceRulesRoute(m, r, c.outbounds, Chosen(r, peers), Middle(c.rules), p);
    FirstTwo(m, c.rules, p);
    NotPrivate(m, p);
    EgressIsNotReject();
    RejectBlocks(m, r, peers, c);
  }

  /** The tag names an outbound that lets nothing through. */
  ghost predicate Blocks(c: Config, tag: Tag) {
    Lookup(c.outbounds, tag).Some? && Lookup(c.outbounds, tag).value.kind == "block"
  }

  lemma RejectBlocks(m: Meaning, r: Registry, peers: seq<Peer>, c: Config)
    requires Built(m, r, peers, c)
    ensures Blocks(c, WG_REJECT)
  {
    LookupIs(c.outbounds, REJECT);
  }

  /** A private destination is blocked for every source, admitted or not. */
  lemma PrivateIsBlocked(m: Meaning, r: Registry, peers: seq<Peer>, c: Config, p: Packet)
    requires Built(m, r, peers, c) && m.other("ip_is_private", p)
    ensures FirstMatch(m, c.rules, p).Some? && Blocks(c, FirstMatch(m, c.rules, p).value)
  {
    RejectBlocks(m, r, peers, c);
    assert Matches(m, c.rules[0], p);
  }

  lemma NotPrivate(m: Meaning, p: Packet)
    requires !m.other(PRIVATE, p)
    ensures !Matches(m, PRIVATE_RULE, p)
  {
  }

  lemma EgressIsNotReject()
    ensures forall tag | StartsWith(tag, WG_EGRESS) :: tag != WG_REJECT
  {
    forall tag | StartsWith(tag, WG_EGRESS) ensures tag != WG_REJECT {
      assert tag[3] == 'e' && WG_REJECT[3] == 'r';
    }
  }

  /** With one admitted peer per address, a built configuration passes the reuse check's own reading. */
  lemma BuiltSplits(m: Meaning, r: Registry, peers: seq<Peer>, c: Config)
    requires Sensible(m) && Built(m, r, peers, c)
    requires forall i, j | 0 <= i < j < |Chosen(r, peers)| ::
              m.norm(Chosen(r, peers)[i].address) != m.norm(Chosen(r, peers)[j].address)
    ensures Splits(m, c) && Closed(c)
  {
    hide Stands, DistinctTags, Closed, OwnTag, Chosen, StartsWith;
    var mids, chosen := Middle(c.rules), Chosen(r, peers);
    forall i | 0 <= i < |mids| ensures SourceRuleOk(m, mids[i]) && m.norm(chosen[i].address) == Some(SourceOf(m, mids[i])) {
      assert RuleFor(m, r, c.outbounds, chosen[i], mids[i]);
    }
  }

  // ---------------------------------------------------------------- keeping the loaded configuration

  /** `_eligible_sources`: the first source of every rule that has one. */
  function Eligible(c: Config): set<Source> {
    set i | 0 <= i < |c.rules| && c.rules[i].sources.Some? && c.rules[i].sources.value != [] ::
        c.rules[i].sources.value[0]
  }

  /** In a built configuration the eligible sources are those of the admitted peers, each with its rule. */
  lemma BuiltEligible(m: Meaning, r: Registry, peers: seq<Peer>, c: Config)
    requires Sensible(m) && Built(m, r, peers, c)
    ensures EligibleFor(m, c, Eligible(c))
    ensures forall s :: s in Eligible(c) <==> exists peer | peer in peers && Admitted(r, peer) :: Owns(m, peer, s)
  {
    hide Stands, DistinctTags, Closed, OwnTag, Chosen, StartsWith, Aligned;
    var mids, chosen := Middle(c.rules), Chosen(r, peers);
    ChosenAreAdmitted(r, peers);
    AlignedLength(m, r, c.outbounds, chosen, mids);
    forall i | 0 <= i < |mids|
      ensures c.rules[i + 1] == mids[i] && SourceRuleOk(m, mids[i])
              && m.norm(chosen[i].address) == Some(SourceOf(m, mids[i]))
              && mids[i].sources.value[0] == SourceOf(m, mids[i])
    {
      AlignedAt(m, r, c.outbounds, chosen, mids, i);
    }
    forall s | s in Eligible(c)
      ensures exists i | 0 < i < |c.rules| - 1 :: SourceRuleOk(m, c.rules[i]) && SourceOf(m, c.rules[i]) == s
      ensures exists peer | peer in peers && Admitted(r, peer) :: Owns(m, peer, s)
    {
      var i :| 0 <= i < |c.rules| && c.rules[i].sources.Some? && c.rules[i].sources.value != [] && c.rules[i].sources.value[0] == s;
      assert c.rules[i] == mids[i - 1];
      assert chosen[i - 1] in chosen;
    }
    forall s, peer | peer in peers && Admitted(r, peer) && Owns(m, peer, s) ensures s in Eligible(c) {
      var k :| 0 <= k < |chosen| && chosen[k] == peer;
      assert c.rules[k + 1] == mids[k];
    }
  }

  lemma AlignedAt(m: Meaning, r: Registry, outbounds: seq<Outbound>, peers: seq<Peer>, rules: seq<Rule>, i: nat)
    requires Sensible(m) && Aligned(m, r, outbounds, peers, rules) && i < |peers|
    ensures i < |rules| && SourceRuleOk(m, rules[i]) && m.norm(peers[i].address) == Some(SourceOf(m, rules[i]))
    ensures rules[i].sources.value[0] == SourceOf(m, rules[i])
  {
    hide Stands;
    assert RuleFor(m, r, outbounds, peers[i], rules[i]);
  }

  /** What stands for a binding in a configuration still does in a larger one. */
  lemma StandsIn(loaded: Config, desired: Config, tag: Tag, b: Binding)
    requires DistinctTags(loaded.outbounds) && Stands(desired.outbounds, tag, b)
    requires forall o | o in desired.outbounds :: o in loaded.outbounds
    ensures Stands(loaded.outbounds, tag, b)
  {
    hide DistinctTags, Lookup;
    var row := Lookup(desired.outbounds, tag).value;
    LookupIs(loaded.outbounds, row);
    if b.Group? {
      forall i | 0 <= i < |b.members| ensures Lookup(loaded.outbounds, row.members[i]) == Some(b.members[i].(tag := row.members[i])) {
        LookupIs(loaded.outbounds, Lookup(desired.outbounds, row.members[i]).value);
      }
    }
  }

  /**
   Behind the firewall of a newly built configuration the retained one is indistinguishable from it: every packet of
   every source gets the same verdict. A source is let through exactly when an admitted peer owns it, and what it
   sends to a public destination leaves through the exit of such a peer, under the retained configuration.
   */
  lemma RetainedRoutes(m: Meaning, r: Registry, peers: seq<Peer>, loaded: Config, desired: Config, owned: set<Source>,
                       p: Packet)
    requires Sensible(m) && Built(m, r, peers, desired) && Reusable(m, loaded, desired, owned)
    ensures Combined(m, owned, Eligible(desired), loaded, p) == Combined(m, owned, Eligible(desired), desired, p)
    ensures p.source in Eligible(desired) <==> exists peer | peer in peers && Admitted(r, peer) ::
              Owns(m, peer, p.source)
    ensures p.source in Eligible(desired) && !m.other(PRIVATE, p) ==>
              exists peer, tag | peer in peers && Admitted(r, peer) && Owns(m, peer, p.source) ::
                && FirstMatch(m, loaded.rules, p) == Some(tag) && tag != WG_REJECT
                && peer.exitFingerprint == r.fingerprint(r.binding(peer).value)
                && Stands(loaded.outbounds, tag, r.binding(peer).value)
  {
    hide Stands, DistinctTags, Closed, OwnTag, Matches, Aligned, Chosen, Eligible, EligibleFor, FirstMatch, Combined, ExitOf, Lookup;
    BuiltEligible(m, r, peers, desired);
    ReuseKeepsVerdicts(m, loaded, desired, owned, Eligible(desired), p);
    if p.source in Eligible(desired) && !m.other(PRIVATE, p) {
      SameFirstMatch(m, loaded, desired, owned, Eligible(desired), p);
      OnlyThroughTheOwnExit(m, r, peers, desired, p);
      var tag := FirstMatch(m, desired.rules, p).value;
      var peer :| peer in peers && Admitted(r, peer) && Owns(m, peer, p.source) && tag != WG_REJECT
                  && peer.exitFingerprint == r.fingerprint(r.binding(peer).value)
                  && Stands(desired.outbounds, tag, r.binding(peer).value);
      StandsIn(loaded, desired, tag, r.binding(peer).value);
    }
  }
}
