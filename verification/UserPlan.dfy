/** `planUserUpdate` as a whole, and what an accepted plan guarantees. */
module UserPlan {
  import opened Basics
  import opened Planner
  import opened RoutingPolicy
  import opened RuleReuse

  datatype Plan = Plan(inboundIndexes: seq<nat>, outboundIndexes: seq<nat>, removedOutbounds: set<string>,
                       ruleIndexes: seq<int>, changedNames: set<string>)

  /** Both configurations, taken apart. */
  datatype View = View(oldIn: map<string, Row>, newIn: map<string, Row>, oldOut: map<string, Row>,
                       newOut: map<string, Row>, scope: Scope, changedOut: set<string>,
                       oldRules: seq<Json>, newRules: seq<Json>)

  // ---------------------------------------------------------------- inbounds

  predicate Supported(row: Row) {
    Lookup(row, "type") in {Some(Str("vless")), Some(Str("vmess")), Some(Str("socks"))}
  }

  /** The fields of an inbound that an update may replace. */
  function Mutable(kind: Option<Json>): set<string> {
    if kind == Some(Str("socks")) then {"users", "require_auth"} else {"users"}
  }

  predicate KeepsAuth(prior: Row, next: Row) {
    Lookup(prior, "type") == Some(Str("socks")) && Lookup(prior, "require_auth") == Some(Bool(true))
    ==> Lookup(next, "require_auth") == Some(Bool(true))
  }

  /** The inbound's users may be replaced while it runs. */
  predicate Replaceable(prior: Row, next: Row, canon: string -> string) {
    Supported(prior) && Valid(prior, canon) && Valid(next, canon)
  }

  predicate InboundOk(prior: Row, next: Row, canon: string -> string) {
    if !Supported(prior) then prior == next
    else KeepsAuth(prior, next)
         && prior - Mutable(Lookup(prior, "type")) == next - Mutable(Lookup(prior, "type"))
         && (Replaceable(prior, next, canon) || prior == next)
  }

  function FieldNames(row: Row): set<string> {
    set i, f | 0 <= i < |Rows(row, "users")| && Rows(row, "users")[i].Obj? && f in {"name", "username"}
               && f in Rows(row, "users")[i].fields && Rows(row, "users")[i].fields[f].Str?
      :: Rows(row, "users")[i].fields[f].s
  }

  function Blocked(oldIn: map<string, Row>, newIn: map<string, Row>, canon: string -> string): set<string> {
    set tag, n | tag in oldIn && tag in newIn && !Replaceable(oldIn[tag], newIn[tag], canon)
                 && n in FieldNames(oldIn[tag]) :: n
  }

  function Installed(oldIn: map<string, Row>, newIn: map<string, Row>, canon: string -> string): set<string> {
    set tag, n | tag in oldIn && tag in newIn && Replaceable(oldIn[tag], newIn[tag], canon)
                 && n in InboundNames(oldIn[tag]) + InboundNames(newIn[tag]) :: n
  }

  predicate InboundsOk(oldIn: map<string, Row>, newIn: map<string, Row>, canon: string -> string) {
    && |oldIn| == |newIn|
    && (forall tag | tag in oldIn :: tag in newIn && InboundOk(oldIn[tag], newIn[tag], canon))
  }

  // ---------------------------------------------------------------- whose rules may change

  /** The inbound authenticates a user under this name. */
  ghost predicate HasUser(row: Row, name: string) {
    var field := if Lookup(row, "type") == Some(Str("socks")) then "username" else "name";
    exists i | 0 <= i < |Rows(row, "users")| ::
      if Rows(row, "users")[i].Obj? then Text(Rows(row, "users")[i].fields, field) == name else name == ""
  }

  /** Some user entry of the inbound spells the name in either field. */
  ghost predicate Spells(row: Row, name: string) {
    exists i | 0 <= i < |Rows(row, "users")| ::
      && Rows(row, "users")[i].Obj?
      && (Lookup(Rows(row, "users")[i].fields, "name") == Some(Str(name))
          || Lookup(Rows(row, "users")[i].fields, "username") == Some(Str(name)))
  }

  /** The inbound may take new users: of a supported kind, and its users validate before and after. */
  ghost predicate Takes(prior: Row, next: Row, canon: string -> string) {
    && Lookup(prior, "type") in {Some(Str("vless")), Some(Str("vmess")), Some(Str("socks"))}
    && Planner.Valid(prior, canon) && Planner.Valid(next, canon)
  }

  lemma HasUserExactly(row: Row, name: string)
    ensures HasUser(row, name) <==> name in InboundNames(row)
  {
    var users, kind := Rows(row, "users"), Lookup(row, "type");
    if name in InboundNames(row) {
      var i :| 0 <= i < |users| && NameKey(kind)(users[i]) == name;
    }
    if HasUser(row, name) {
      var field := if kind == Some(Str("socks")) then "username" else "name";
      var i :| 0 <= i < |users| && if users[i].Obj? then Text(users[i].fields, field) == name else name == "";
      assert NameKey(kind)(users[i]) == name;
    }
  }

  lemma SpellsExactly(row: Row, name: string)
    ensures Spells(row, name) <==> name in FieldNames(row)
  {
    var users := Rows(row, "users");
    if name in FieldNames(row) {
      var i, f :| 0 <= i < |users| && users[i].Obj? && f in {"name", "username"}
        && f in users[i].fields && users[i].fields[f].Str? && users[i].fields[f].s == name;
      assert Lookup(users[i].fields, f) == Some(Str(name));
    }
    if Spells(row, name) {
      var i :| 0 <= i < |users| && users[i].Obj?
        && (Lookup(users[i].fields, "name") == Some(Str(name))
            || Lookup(users[i].fields, "username") == Some(Str(name)));
      var f := if Lookup(users[i].fields, "name") == Some(Str(name)) then "name" else "username";
      assert f in {"name", "username"} && users[i].fields[f].s == name;
    }
  }

  lemma BlockedExactly(oldIn: map<string, Row>, newIn: map<string, Row>, canon: string -> string, name: string)
    ensures name in Blocked(oldIn, newIn, canon) <==>
              exists tag | tag in oldIn && tag in newIn ::
                  !Takes(oldIn[tag], newIn[tag], canon) && Spells(oldIn[tag], name)
  {
    hide Planner.Valid, Spells, FieldNames;
    forall row: Row ensures Spells(row, name) <==> name in FieldNames(row) { SpellsExactly(row, name); }
  }

  lemma InstalledExactly(oldIn: map<string, Row>, newIn: map<string, Row>, canon: string -> string, name: string)
    ensures name in Installed(oldIn, newIn, canon) <==>
              exists tag | tag in oldIn && tag in newIn ::
                Takes(oldIn[tag], newIn[tag], canon) && (HasUser(oldIn[tag], name) || HasUser(newIn[tag], name))
  {
    hide Planner.Valid, HasUser, InboundNames;
    forall row: Row ensures HasUser(row, name) <==> name in InboundNames(row) { HasUserExactly(row, name); }
    forall tag | tag in oldIn && tag in newIn && Takes(oldIn[tag], newIn[tag], canon)
                 && (HasUser(oldIn[tag], name) || HasUser(newIn[tag], name))
      ensures name in Installed(oldIn, newIn, canon)
    {
      assert name in InboundNames(oldIn[tag]) + InboundNames(newIn[tag]);
    }
    if name in Installed(oldIn, newIn, canon) {
      var tag :| tag in oldIn && tag in newIn && Replaceable(oldIn[tag], newIn[tag], canon)
        && name in InboundNames(oldIn[tag]) + InboundNames(newIn[tag]);
      assert Takes(oldIn[tag], newIn[tag], canon) && (HasUser(oldIn[tag], name) || HasUser(newIn[tag], name));
    }
  }

  /** A name is managed exactly when an inbound that may take new users has it, before or after, and no other inbound spells it. */
  lemma ScopeExactly(before: Row, after: Row, canon: string -> string, name: string)
    requires ViewOf(before, after, canon).Some?
    ensures var v := ViewOf(before, after, canon).value;
            && (name in v.scope.blocked <==>
                  exists tag | tag in v.oldIn && tag in v.newIn ::
                    !Takes(v.oldIn[tag], v.newIn[tag], canon) && Spells(v.oldIn[tag], name))
            && (name in v.scope.known <==>
                  && name !in v.scope.blocked
                  && exists tag | tag in v.oldIn && tag in v.newIn ::
                       && Takes(v.oldIn[tag], v.newIn[tag], canon)
                       && (HasUser(v.oldIn[tag], name) || HasUser(v.newIn[tag], name)))
  {
    hide NamedRows, HasUser, Spells, Takes, Installed, Blocked, ChangedOut;
    var v := ViewOf(before, after, canon).value;
    InstalledExactly(v.oldIn, v.newIn, canon, name);
    BlockedExactly(v.oldIn, v.newIn, canon, name);
  }

  // ---------------------------------------------------------------- outbounds and globals

  function ChangedOut(oldOut: map<string, Row>, newOut: map<string, Row>): set<string> {
    set tag | tag in oldOut.Keys + newOut.Keys && Lookup(oldOut, tag) != Lookup(newOut, tag)
  }

  predicate Independent(row: Option<Row>) {
    row.Some? ==> Lookup(row.value, "type") in {Some(Str("direct")), Some(Str("socks"))} && Absent(row.value, "detour")
  }

  predicate OutboundsOk(before: Row, v: View) {
    && (forall tag | tag in v.changedOut :: Independent(Lookup(v.oldOut, tag)) && Independent(Lookup(v.newOut, tag)))
    && !References(Obj(before - {"outbounds", "route"}), v.changedOut)
    && !References(Obj(Nested(before, "route") - {"rules"}), v.changedOut)
    && (forall tag | tag in v.oldOut && tag !in v.changedOut :: !References(Obj(v.oldOut[tag]), v.changedOut))
  }

  predicate GlobalsOk(before: Row, after: Row) {
    && before - {"inbounds", "outbounds", "route"} == after - {"inbounds", "outbounds", "route"}
    && Nested(before, "route") - {"rules"} == Nested(after, "route") - {"rules"}
    && ("final" !in Nested(before, "route") ==>
          var prior, next := Rows(before, "outbounds"), Rows(after, "outbounds");
          prior != [] ==> next != [] && prior[0].Obj? && next[0].Obj?
                          && Lookup(prior[0].fields, "tag") == Lookup(next[0].fields, "tag"))
  }

  // ---------------------------------------------------------------- rules

  function Target(row: Row): Option<string> {
    if "outbound" in row && row["outbound"].Str? then Some(row["outbound"].s) else None
  }

  predicate TargetsOk(v: View) {
    forall i | 0 <= i < |v.newRules| && v.newRules[i].Obj? ::
      var t := Target(v.newRules[i].fields);
      t.Some? ==> !(t.value in v.changedOut && t.value !in v.newOut)
  }

  predicate RulesOk(v: View) {
    && PoliciesOk(v.oldRules, v.scope, v.changedOut, v.oldOut.Keys + v.newOut.Keys)
    && PoliciesOk(v.newRules, v.scope, v.changedOut, v.oldOut.Keys + v.newOut.Keys)
    && Fixed(Objects(v.oldRules), v.scope) == Fixed(Objects(v.newRules), v.scope)
    && TargetsOk(v)
  }

  predicate PolicyTouched(policy: Policy, changed: set<string>) {
    exists i | 0 <= i < |policy| :: References(Obj(policy[i].rule), changed)
  }

  predicate UserChanged(before: Policy, after: Policy, changed: set<string>) {
    before != after || PolicyTouched(before, changed) || PolicyTouched(after, changed)
  }

  function ChangedNames(v: View): set<string>
    requires RulesOk(v)
  {
    set user | user in v.scope.known
               && UserChanged(PolicyFrom(Objects(v.oldRules), v.scope, user, 0),
                              PolicyFrom(Objects(v.newRules), v.scope, user, 0), v.changedOut)
  }

  // ---------------------------------------------------------------- the whole plan

  function ViewOf(before: Row, after: Row, canon: string -> string): Option<View> {
    var oldIn, newIn := NamedRows(before, "inbounds"), NamedRows(after, "inbounds");
    var oldOut, newOut := NamedRows(before, "outbounds"), NamedRows(after, "outbounds");
    if oldIn.None? || newIn.None? || oldOut.None? || newOut.None? then None else
    var blocked := Blocked(oldIn.value, newIn.value, canon);
    Some(View(oldIn.value, newIn.value, oldOut.value, newOut.value,
              Scope(Installed(oldIn.value, newIn.value, canon) - blocked, blocked),
              ChangedOut(oldOut.value, newOut.value),
              Rows(Nested(before, "route"), "rules"), Rows(Nested(after, "route"), "rules")))
  }

  predicate Acceptable(before: Row, after: Row, canon: string -> string) {
    var v := ViewOf(before, after, canon);
    && v.Some?
    && GlobalsOk(before, after)
    && InboundsOk(v.value.oldIn, v.value.newIn, canon)
    && OutboundsOk(before, v.value)
    && RulesOk(v.value)
  }

  // ---------------------------------------------------------------- untouched users

  predicate SameTarget(v: View, rule: Row) {
    Target(rule).Some? ==> Lookup(v.oldOut, Target(rule).value) == Lookup(v.newOut, Target(rule).value)
  }

  /** A rule that mentions no changed outbound names the same outbound row before and after. */
  lemma UnreferencedTarget(v: View, rule: Row)
    requires v.changedOut == ChangedOut(v.oldOut, v.newOut) && !References(Obj(rule), v.changedOut)
    ensures SameTarget(v, rule)
  {
    if Target(rule).Some? {
      assert "outbound" in rule;
    }
  }

  lemma VerdictKeepsTarget(row: Row)
    ensures Target(Verdict(row)) == Target(row)
  {
  }

  /** Every verdict comes from the user's policy or from a static rule. */
  lemma {:induction false} VerdictsKeepTargets<C>(v: View, e: Engine<C>, policy: Policy, fixed: seq<Row>, section: nat,
                                                  user: string, conn: C)
    requires forall i | 0 <= i < |policy| :: SameTarget(v, policy[i].rule)
    requires forall i | 0 <= i < |fixed| :: SameTarget(v, fixed[i])
    ensures forall k | 0 <= k < |Interleave(e, policy, fixed, section, user, conn)| ::
              SameTarget(v, Interleave(e, policy, fixed, section, user, conn)[k])
    decreases |policy| + |fixed|
  {
    hide SameTarget, Matches, Stops;
    if policy != [] && policy[0].section == section {
      if !e.plain(policy[0].rule, conn) { VerdictsKeepTargets(v, e, policy[1..], fixed, section, user, conn); }
    } else if fixed != [] {
      VerdictsKeepTargets(v, e, policy, fixed[1..], section + 1, user, conn);
      SameTargetVerdict(v, fixed[0]);
    }
  }

  lemma SameTargetVerdict(v: View, row: Row)
    requires SameTarget(v, row)
    ensures SameTarget(v, Verdict(row))
  {
    VerdictKeepsTarget(row);
  }

  lemma {:induction false} StaticTargets(v: View, rules: seq<Json>, outbounds: set<string>, k: nat)
    requires PoliciesOk(rules, v.scope, v.changedOut, outbounds) && v.changedOut == ChangedOut(v.oldOut, v.newOut)
    requires k < |Fixed(Objects(rules), v.scope)|
    ensures SameTarget(v, Fixed(Objects(rules), v.scope)[k])
  {
    hide SameTarget, Managed, References, ChangedOut, Known;
    var rows := Objects(rules);
    var skip := if Managed(rows[0], v.scope) then 0 else 1;
    assert Objects(rules[1..]) == rows[1..];
    if k >= skip {
      StaticTargets(v, rules[1..], outbounds, k - skip);
    } else {
      assert rules[0] == Obj(rows[0]);
      UnreferencedTarget(v, rows[0]);
    }
  }

  /** Identities whose sessions an accepted plan leaves alone. */
  predicate Untouched(v: View, user: string)
    requires RulesOk(v)
  {
    (user in v.scope.known && user !in ChangedNames(v)) || user in v.scope.blocked || user == ""
  }

  lemma UntouchedPolicy(v: View, user: string)
    requires RulesOk(v) && Untouched(v, user)
    ensures PolicyFrom(Objects(v.oldRules), v.scope, user, 0) == PolicyFrom(Objects(v.newRules), v.scope, user, 0)
    ensures !PolicyTouched(PolicyFrom(Objects(v.oldRules), v.scope, user, 0), v.changedOut)
  {
    hide PolicyFrom, PolicyTouched, References, Managed;
    if user !in v.scope.known || user in ChangedNames(v) {
      ProtectedHasNoPolicy(Objects(v.oldRules), v.scope, user, 0);
      ProtectedHasNoPolicy(Objects(v.newRules), v.scope, user, 0);
      EmptyUntouched(v.changedOut);
    }
  }

  lemma EmptyUntouched(changed: set<string>)
    ensures !PolicyTouched([], changed)
  {
  }

  /**
   Every connection of a user that an accepted plan does not name meets the same
   rules in the same order before and after, whatever happens to other users in
   shared rules; and each of those rules names an identical outbound row.
   */
  lemma UntouchedUsersKeepTheirRoutes<C>(before: Row, after: Row, canon: string -> string, e: Engine<C>, user: string,
                                         conn: C)
    requires Acceptable(before, after, canon) && Untouched(ViewOf(before, after, canon).value, user)
    ensures var v := ViewOf(before, after, canon).value;
            var hits := Evaluate(e, Objects(v.oldRules), user, conn);
            && Evaluate(e, Objects(v.newRules), user, conn) == hits
            && (forall k | 0 <= k < |hits| :: SameTarget(v, hits[k]))
  {
    var v := ViewOf(before, after, canon).value;
    RoutesKept(v, e, user, conn);
  }

  lemma RoutesKept<C>(v: View, e: Engine<C>, user: string, conn: C)
    requires RulesOk(v) && Untouched(v, user) && v.changedOut == ChangedOut(v.oldOut, v.newOut)
    ensures var hits := Evaluate(e, Objects(v.oldRules), user, conn);
            && Evaluate(e, Objects(v.newRules), user, conn) == hits
            && (forall k | 0 <= k < |hits| :: SameTarget(v, hits[k]))
  {
    hide SameTarget, Evaluate, Interleave, PolicyFrom, Fixed, Untouched, References, ChangedOut, Managed;
    var rules := Objects(v.oldRules);
    var policy, fixed := PolicyFrom(rules, v.scope, user, 0), Fixed(rules, v.scope);
    UntouchedPolicy(v, user);
    PolicyDecides(e, rules, v.scope, 0, user, conn);
    PolicyDecides(e, Objects(v.newRules), v.scope, 0, user, conn);
    forall i | 0 <= i < |policy| ensures SameTarget(v, policy[i].rule) {
      assert !References(Obj(policy[i].rule), v.changedOut);
      UnreferencedTarget(v, policy[i].rule);
    }
    forall i | 0 <= i < |fixed| ensures SameTarget(v, fixed[i]) {
      StaticTargets(v, v.oldRules, v.oldOut.Keys + v.newOut.Keys, i);
    }
    VerdictsKeepTargets(v, e, policy, fixed, 0, user, conn);
  }

  // ---------------------------------------------------------------- only those

  /** A managed rule that lists the user mentions a changed outbound, its user list aside. */
  ghost predicate RuleTouched(rules: seq<Row>, scope: Scope, user: string, changed: set<string>) {
    exists i | 0 <= i < |rules| ::
      Managed(rules[i], scope) && user in NamesOf(rules[i]) && References(Obj(rules[i] - {"auth_user"}), changed)
  }

  /** The user sees the same rules in the same places, whatever other users' names come and go. */
  ghost predicate Unaffected(v: View, user: string)
    requires RulesOk(v)
  {
    && Sights(Objects(v.oldRules), v.scope, user) == Sights(Objects(v.newRules), v.scope, user)
    && !RuleTouched(Objects(v.oldRules), v.scope, user, v.changedOut)
    && !RuleTouched(Objects(v.newRules), v.scope, user, v.changedOut)
  }

  lemma {:induction false} TouchedExactly(rules: seq<Row>, scope: Scope, user: string, section: nat,
                                          changed: set<string>)
    ensures PolicyTouched(PolicyFrom(rules, scope, user, section), changed) <==>
              RuleTouched(rules, scope, user, changed)
  {
    hide References, Managed, NamesOf;
    if rules != [] {
      var row, rest := rules[0], rules[1..];
      var next := if Managed(row, scope) then section else section + 1;
      TouchedExactly(rest, scope, user, next, changed);
      TouchedRest(rules, scope, user, changed);
      if Managed(row, scope) {
        CountIsMembership(NamesOf(row), user);
        TouchedRepeat(Entry(section, Normalized(row)), Count(NamesOf(row), user),
                      PolicyFrom(rest, scope, user, section), changed);
      }
    }
  }

  lemma TouchedRest(rules: seq<Row>, scope: Scope, user: string, changed: set<string>)
    requires rules != []
    ensures RuleTouched(rules, scope, user, changed) <==>
              || (Managed(rules[0], scope) && user in NamesOf(rules[0])
                  && References(Obj(rules[0] - {"auth_user"}), changed))
              || RuleTouched(rules[1..], scope, user, changed)
  {
    hide References, Managed, NamesOf;
    if RuleTouched(rules[1..], scope, user, changed) {
      var i :| 0 <= i < |rules| - 1 && Managed(rules[1..][i], scope) && user in NamesOf(rules[1..][i])
        && References(Obj(rules[1..][i] - {"auth_user"}), changed);
      assert rules[i + 1] == rules[1..][i];
    }
    if RuleTouched(rules, scope, user, changed) {
      var i :| 0 <= i < |rules| && Managed(rules[i], scope) && user in NamesOf(rules[i])
        && References(Obj(rules[i] - {"auth_user"}), changed);
      assert i > 0 ==> rules[1..][i - 1] == rules[i];
    }
  }

  lemma TouchedRepeat(entry: Entry, n: nat, rest: Policy, changed: set<string>)
    ensures PolicyTouched(Repeat(entry, n) + rest, changed) <==>
              (n > 0 && References(Obj(entry.rule), changed)) || PolicyTouched(rest, changed)
  {
    hide References;
    var all := Repeat(entry, n) + rest;
    if n > 0 { assert all[0] == entry; }
    if PolicyTouched(rest, changed) {
      var i :| 0 <= i < |rest| && References(Obj(rest[i].rule), changed);
      assert all[n + i] == rest[i];
    }
  }

  /** A plan names exactly the managed users who see other rules or one that mentions a changed outbound. */
  lemma ChangedExactly(v: View, user: string)
    requires RulesOk(v) && user in v.scope.known
    ensures user in ChangedNames(v) <==> !Unaffected(v, user)
  {
    hide PolicyTouched, PolicyFrom, Sights, RuleTouched, Fixed;
    var prior, next := Objects(v.oldRules), Objects(v.newRules);
    SamePolicy(prior, next, v.scope, user);
    TouchedExactly(prior, v.scope, user, 0, v.changedOut);
    TouchedExactly(next, v.scope, user, 0, v.changedOut);
  }

  // ---------------------------------------------------------------- behind the first outbound

  ghost predicate SameRow(v: View, tag: string) {
    Lookup(v.oldOut, tag) == Lookup(v.newOut, tag)
  }

  /** The members of a group. */
  ghost predicate HasMember(row: Row, tag: string) {
    "outbounds" in row && row["outbounds"].Arr? && Str(tag) in row["outbounds"].items
  }

  /** Each outbound hands its traffic to the next, as a detour or, with `groups`, to a member. */
  ghost predicate Chain(outbounds: map<string, Row>, tags: seq<string>, groups: bool) {
    && tags != []
    && forall i | 0 <= i < |tags| - 1 ::
         && tags[i] in outbounds
         && (References(Obj(outbounds[tags[i]]), {tags[i + 1]})
             || (groups && HasMember(outbounds[tags[i]], tags[i + 1])))
  }

  /** No outbound that stays is a group with a changed member. */
  ghost predicate MembersStay(v: View) {
    forall tag, member | tag in v.oldOut && tag !in v.changedOut && member in v.changedOut ::
      !HasMember(v.oldOut[tag], member)
  }

  /** Behind an outbound that an accepted update leaves alone, the whole chain of detours stays. */
  lemma {:induction false} DetoursStay(before: Row, v: View, tags: seq<string>, groups: bool, i: nat)
    requires OutboundsOk(before, v) && v.changedOut == ChangedOut(v.oldOut, v.newOut)
    requires Chain(v.oldOut, tags, groups) && SameRow(v, tags[0]) && i < |tags| && (groups ==> MembersStay(v))
    ensures SameRow(v, tags[i])
  {
    if i > 0 {
      DetoursStay(before, v, tags, groups, i - 1);
      var tag, next := tags[i - 1], tags[i - 1 + 1];
      assert tag in v.oldOut && tag !in v.changedOut;
      if next in v.changedOut {
        if References(Obj(v.oldOut[tag]), {next}) { ReferencesMore(Obj(v.oldOut[tag]), next, v.changedOut); }
        assert false;
      }
    }
  }

  /** So every outbound an untouched user's traffic passes through, detour by detour, is the same row before and after. */
  lemma UntouchedChains<C>(before: Row, after: Row, canon: string -> string, e: Engine<C>, user: string, conn: C,
                           k: nat,
                           tags: seq<string>, i: nat)
    requires Acceptable(before, after, canon) && Untouched(ViewOf(before, after, canon).value, user)
    requires var v := ViewOf(before, after, canon).value;
             var hits := Evaluate(e, Objects(v.oldRules), user, conn);
             && Chain(v.oldOut, tags, false) && i < |tags|
             && k < |hits| && Target(hits[k]) == Some(tags[0])
    ensures SameRow(ViewOf(before, after, canon).value, tags[i])
  {
    hide GlobalsOk, InboundsOk, RulesOk, Evaluate, Untouched, Chain, OutboundsOk;
    var v := ViewOf(before, after, canon).value;
    UntouchedUsersKeepTheirRoutes(before, after, canon, e, user, conn);
    DetoursStay(before, v, tags, false, i);
  }

  /** Whole chains through groups stay exactly when no outbound that stays is a group with a changed member. */
  lemma ChainsStayExactly(before: Row, v: View)
    requires OutboundsOk(before, v) && v.changedOut == ChangedOut(v.oldOut, v.newOut)
    ensures (forall tags | Chain(v.oldOut, tags, true) && SameRow(v, tags[0]) ::
               forall i | 0 <= i < |tags| :: SameRow(v, tags[i])) <==> MembersStay(v)
  {
    hide OutboundsOk;
    if MembersStay(v) {
      forall tags, i | Chain(v.oldOut, tags, true) && SameRow(v, tags[0]) && 0 <= i < |tags| ensures SameRow(v, tags[i]) {
        DetoursStay(before, v, tags, true, i);
      }
    } else {
      var tag, member :| tag in v.oldOut && tag !in v.changedOut && member in v.changedOut
        && HasMember(v.oldOut[tag], member);
      var tags := [tag, member];
      assert Chain(v.oldOut, tags, true) && SameRow(v, tags[0]) && !SameRow(v, tags[1]);
    }
  }

  function Outbounds(rows: seq<Row>): Row {
    map["outbounds" := Arr(seq(|rows|, i requires 0 <= i < |rows| => Obj(rows[i])))]
  }

  const GROUP: Row := map["tag" := Str("g"), "type" := Str("selector"), "outbounds" := Arr([Str("a")])]

  const MEMBER: Row := map["tag" := Str("a"), "type" := Str("direct")]

  const MOVED: Row := map["tag" := Str("a"), "type" := Str("direct"), "bind_interface" := Str("eth1")]

  /** A group that stays as it is while its member changes: the update is accepted. */
  lemma GroupMemberMayChange(canon: string -> string)
    ensures var before, after := Outbounds([GROUP, MEMBER]), Outbounds([GROUP, MOVED]);
            && Acceptable(before, after, canon)
            && var v := ViewOf(before, after, canon).value;
            && "g" in v.oldOut && SameRow(v, "g") && HasMember(v.oldOut["g"], "a") && !SameRow(v, "a")
            && !MembersStay(v)
  {
    hide OutboundsOk, RulesOk, GlobalsOk, InboundsOk, ViewOf, Outbounds, MembersStay, HasMember, SameRow;
    var before, after := Outbounds([GROUP, MEMBER]), Outbounds([GROUP, MOVED]);
    GroupView(canon);
    var v := ViewOf(before, after, canon).value;
    NoInbounds(v, canon);
    NoRules(v);
    GroupOutbounds(before, v);
    GroupGlobals();
    GroupChanges(v);
  }

  lemma GroupView(canon: string -> string)
    ensures var view := ViewOf(Outbounds([GROUP, MEMBER]), Outbounds([GROUP, MOVED]), canon);
            && view.Some? && view.value.oldIn == map[] && view.value.newIn == map[]
            && view.value.oldOut == map["g" := GROUP, "a" := MEMBER]
            && view.value.newOut == map["g" := GROUP, "a" := MOVED]
            && view.value.changedOut == {"a"} && view.value.oldRules == [] && view.value.newRules == []
            && Outbounds([GROUP, MEMBER]).Keys == {"outbounds"}
  {
    hide Blocked, Installed;
    TwoNamed(GROUP, MEMBER);
    TwoNamed(GROUP, MOVED);
    assert "bind_interface" in MOVED && "bind_interface" !in MEMBER && MEMBER != MOVED;
    var v := ViewOf(Outbounds([GROUP, MEMBER]), Outbounds([GROUP, MOVED]), canon).value;
    assert Lookup(v.oldOut, "g") == Lookup(v.newOut, "g");
    assert v.changedOut == {"a"};
  }

  lemma GroupChanges(v: View)
    requires v.oldOut == map["g" := GROUP, "a" := MEMBER] && v.newOut == map["g" := GROUP, "a" := MOVED]
    requires v.changedOut == {"a"}
    ensures SameRow(v, "g") && HasMember(v.oldOut["g"], "a") && !SameRow(v, "a") && !MembersStay(v)
  {
    assert "bind_interface" in MOVED && "bind_interface" !in MEMBER;
    assert GROUP["outbounds"].items[0] == Str("a");
    assert HasMember(v.oldOut["g"], "a");
  }

  lemma NoInbounds(v: View, canon: string -> string)
    requires v.oldIn == map[] && v.newIn == map[]
    ensures InboundsOk(v.oldIn, v.newIn, canon)
  {
  }

  lemma NoRules(v: View)
    requires v.oldRules == [] && v.newRules == []
    ensures RulesOk(v)
  {
  }

  lemma GroupOutbounds(before: Row, v: View)
    requires before.Keys == {"outbounds"} && v.changedOut == {"a"}
    requires v.oldOut == map["g" := GROUP, "a" := MEMBER] && v.newOut == map["g" := GROUP, "a" := MOVED]
    ensures OutboundsOk(before, v)
  {
    assert before - {"outbounds", "route"} == map[];
    assert Nested(before, "route") - {"rules"} == map[];
    GroupMentionsNothing();
    hide References;
    assert Independent(Some(MEMBER)) && Independent(Some(MOVED));
  }

  lemma GroupMentionsNothing()
    ensures !References(Obj(map[]), {"a"}) && !References(Obj(GROUP), {"a"})
  {
    assert !References(Str("g"), {"a"}) && !References(Str("selector"), {"a"}) && !References(Str("a"), {"a"});
    assert !References(Arr([Str("a")]), {"a"});
  }

  lemma GroupGlobals()
    ensures GlobalsOk(Outbounds([GROUP, MEMBER]), Outbounds([GROUP, MOVED]))
  {
    TwoNamed(GROUP, MEMBER);
    TwoNamed(GROUP, MOVED);
    var before, after := Outbounds([GROUP, MEMBER]), Outbounds([GROUP, MOVED]);
    assert before - {"inbounds", "outbounds", "route"} == map[] == after - {"inbounds", "outbounds", "route"};
  }

  lemma TwoNamed(a: Row, b: Row)
    requires Text(a, "tag") != "" && Text(b, "tag") != "" && Text(a, "tag") != Text(b, "tag")
    ensures NamedRows(Outbounds([a, b]), "outbounds") == Some(map[Text(a, "tag") := a, Text(b, "tag") := b])
    ensures Rows(Outbounds([a, b]), "outbounds") == [Obj(a), Obj(b)]
    ensures NamedRows(Outbounds([a, b]), "inbounds") == Some(map[])
  {
    var items := [Obj(a), Obj(b)];
    assert Outbounds([a, b])["outbounds"].items == items;
    assert items[..1] == [Obj(a)] && [Obj(a)][..0] == [];
    assert NamedFrom([Obj(a)]) == Some(map[Text(a, "tag") := a]);
  }

  /** Where traffic goes that no rule decides. */
  function DefaultTag(c: Row): string {
    if "final" in Nested(c, "route") then Text(Nested(c, "route"), "final")
    else if Rows(c, "outbounds") != [] && Rows(c, "outbounds")[0].Obj? then Text(Rows(c, "outbounds")[0].fields, "tag")
    else ""
  }

  /** The default keeps its name; its outbound is the same one exactly when it is not among the changed. */
  lemma DefaultStays(before: Row, after: Row, canon: string -> string)
    requires Acceptable(before, after, canon) && Rows(before, "outbounds") != []
    ensures DefaultTag(before) == DefaultTag(after)
    ensures var v := ViewOf(before, after, canon).value;
            SameRow(v, DefaultTag(before)) <==> DefaultTag(before) !in v.changedOut
  {
    hide InboundsOk, OutboundsOk, RulesOk, Blocked, Installed, NamedRows;
    var prior, next := Nested(before, "route"), Nested(after, "route");
    assert "final" in prior <==> "final" in prior - {"rules"};
    assert "final" in next <==> "final" in next - {"rules"};
    if "final" in prior { assert prior["final"] == (prior - {"rules"})["final"]; }
    if "final" in next { assert next["final"] == (next - {"rules"})["final"]; }
  }

  // ---------------------------------------------------------------- what an accepted update may change

  /** Field by field, what an accepted update leaves as it was. */
  lemma AcceptedKeeps(before: Row, after: Row, canon: string -> string)
    requires Acceptable(before, after, canon)
    ensures forall key | key !in {"inbounds", "outbounds", "route"} :: Lookup(before, key) == Lookup(after, key)
    ensures forall key | key != "rules" :: Lookup(Nested(before, "route"), key) == Lookup(Nested(after, "route"), key)
    ensures var v := ViewOf(before, after, canon).value; v.oldIn.Keys == v.newIn.Keys
  {
    hide OutboundsOk, RulesOk, Blocked, Installed, InboundsOk;
    var v := ViewOf(before, after, canon).value;
    SameTags(v.oldIn, v.newIn, canon);
    var fixed := {"inbounds", "outbounds", "route"};
    forall key | key !in fixed ensures Lookup(before, key) == Lookup(after, key) {
      assert key in before <==> key in before - fixed;
      assert key in after <==> key in after - fixed;
      if key in before { assert (before - fixed)[key] == (after - fixed)[key]; }
    }
    var prior, next := Nested(before, "route"), Nested(after, "route");
    forall key | key != "rules" ensures Lookup(prior, key) == Lookup(next, key) {
      assert key in prior <==> key in prior - {"rules"};
      assert key in next <==> key in next - {"rules"};
      if key in prior { assert (prior - {"rules"})[key] == (next - {"rules"})[key]; }
    }
  }

  /** What may happen to one inbound: nothing if it is of another kind; else only its users, and SOCKS may gain authentication. */
  lemma InboundKeeps(prior: Row, next: Row, canon: string -> string, key: string)
    requires InboundOk(prior, next, canon)
    ensures Lookup(prior, "type") !in {Some(Str("vless")), Some(Str("vmess")), Some(Str("socks"))} ==> prior == next
    ensures key != "users" && !(key == "require_auth" && Lookup(prior, "type") == Some(Str("socks"))) ==>
              Lookup(prior, key) == Lookup(next, key)
    ensures Lookup(prior, "type") == Some(Str("socks")) && Lookup(prior, "require_auth") == Some(Bool(true)) ==>
              Lookup(next, "require_auth") == Some(Bool(true))
    ensures prior != next ==> Planner.Valid(prior, canon) && Planner.Valid(next, canon)
  {
    hide Planner.Valid;
    if Supported(prior) {
      var mutable := Mutable(Lookup(prior, "type"));
      assert key !in mutable ==> (key in prior <==> key in prior - mutable) && (key in next <==> key in next - mutable);
      if key !in mutable && key in prior { assert (prior - mutable)[key] == (next - mutable)[key]; }
    }
  }

  /** An update of users only is never refused for its inbound. */
  lemma UsersMayChange(prior: Row, next: Row, canon: string -> string)
    requires Lookup(prior, "type") in {Some(Str("vless")), Some(Str("vmess")), Some(Str("socks"))}
    requires prior == next || (Planner.Valid(prior, canon) && Planner.Valid(next, canon))
    requires prior - {"users"} == next - {"users"}
    ensures InboundOk(prior, next, canon)
  {
    hide Planner.Valid;
    var mutable := Mutable(Lookup(prior, "type"));
    assert prior - mutable == prior - {"users"} - mutable;
    assert next - mutable == next - {"users"} - mutable;
    assert Lookup(prior, "require_auth") == Lookup(prior - {"users"}, "require_auth");
    assert Lookup(next, "require_auth") == Lookup(next - {"users"}, "require_auth");
  }

  /** Outbounds that change are plain direct or SOCKS ones before and after, and nothing that stays mentions them. */
  lemma ChangedOutboundsAreFree(before: Row, v: View, tag: string)
    requires OutboundsOk(before, v) && tag in v.changedOut
    ensures tag in v.oldOut ==> Free(v.oldOut[tag])
    ensures tag in v.newOut ==> Free(v.newOut[tag])
    ensures !References(Obj(before - {"outbounds", "route"}), {tag})
    ensures !References(Obj(Nested(before, "route") - {"rules"}), {tag})
    ensures forall other | other in v.oldOut && other !in v.changedOut :: !References(Obj(v.oldOut[other]), {tag})
  {
    if References(Obj(before - {"outbounds", "route"}), {tag}) {
      ReferencesMore(Obj(before - {"outbounds", "route"}), tag, v.changedOut);
    }
    if References(Obj(Nested(before, "route") - {"rules"}), {tag}) {
      ReferencesMore(Obj(Nested(before, "route") - {"rules"}), tag, v.changedOut);
    }
    forall other | other in v.oldOut && other !in v.changedOut ensures !References(Obj(v.oldOut[other]), {tag}) {
      if References(Obj(v.oldOut[other]), {tag}) { ReferencesMore(Obj(v.oldOut[other]), tag, v.changedOut); }
    }
  }

  ghost predicate Free(row: Row) {
    && "type" in row && (row["type"] == Str("direct") || row["type"] == Str("socks"))
    && ("detour" !in row || row["detour"] == Null)
  }

  // ---------------------------------------------------------------- touched inbounds

  predicate HasChangedUser(row: Row, changed: set<string>) {
    exists i | 0 <= i < |Rows(row, "users")| :: NameKey(Lookup(row, "type"))(Rows(row, "users")[i]) in changed
  }

  predicate InboundTouched(v: View, row: Row, changed: set<string>) {
    Lookup(v.oldIn, Text(row, "tag")) != Some(row) || HasChangedUser(row, changed)
  }

  /** The names of a protected inbound are blocked, so no plan changes them. */
  lemma ProtectedUserIsBlocked(v: View, canon: string -> string, tag: string, i: nat)
    requires tag in v.oldIn && tag in v.newIn && v.oldIn[tag] == v.newIn[tag]
    requires !Replaceable(v.oldIn[tag], v.newIn[tag], canon) && i < |Rows(v.newIn[tag], "users")|
    ensures var name := NameKey(Lookup(v.newIn[tag], "type"))(Rows(v.newIn[tag], "users")[i]);
            name == "" || name in Blocked(v.oldIn, v.newIn, canon)
  {
    var row := v.newIn[tag];
    var user := Rows(row, "users")[i];
    var f := if Lookup(row, "type") == Some(Str("socks")) then "username" else "name";
    if user.Obj? && f in user.fields && user.fields[f].Str? {
      assert user.fields[f].s in FieldNames(row);
    }
  }

  lemma ProtectedInboundsAreUntouched(v: View, canon: string -> string, tag: string, changed: set<string>)
    requires tag in v.oldIn && tag in v.newIn && v.scope.blocked == Blocked(v.oldIn, v.newIn, canon)
    requires changed <= v.scope.known && v.scope.known !! v.scope.blocked && "" !in v.scope.known
    ensures v.oldIn[tag] == v.newIn[tag] && !Replaceable(v.oldIn[tag], v.newIn[tag], canon)
            ==> !HasChangedUser(v.newIn[tag], changed)
  {
    if v.oldIn[tag] == v.newIn[tag] && !Replaceable(v.oldIn[tag], v.newIn[tag], canon) {
      forall i | 0 <= i < |Rows(v.newIn[tag], "users")|
        ensures NameKey(Lookup(v.newIn[tag], "type"))(Rows(v.newIn[tag], "users")[i]) !in changed
      {
        hide Replaceable;
        ProtectedUserIsBlocked(v, canon, tag, i);
      }
    }
  }

  /** An inbound that a plan touches is of a supported type and its users validate, before and after. */
  lemma TouchedInboundsAreReplaceable(v: View, canon: string -> string, tag: string, changed: set<string>)
    requires InboundsOk(v.oldIn, v.newIn, canon) && tag in v.oldIn && tag in v.newIn
    requires v.scope.blocked == Blocked(v.oldIn, v.newIn, canon)
    requires changed <= v.scope.known && v.scope.known !! v.scope.blocked && "" !in v.scope.known
    requires v.oldIn[tag] != v.newIn[tag] || HasChangedUser(v.newIn[tag], changed)
    ensures Replaceable(v.oldIn[tag], v.newIn[tag], canon)
  {
    hide Replaceable, HasChangedUser, Supported;
    assert InboundOk(v.oldIn[tag], v.newIn[tag], canon);
    ProtectedInboundsAreUntouched(v, canon, tag, changed);
  }

  /** Users that validate are never anonymous. */
  lemma ValidNamesAreReal(row: Row, canon: string -> string)
    requires Planner.Valid(row, canon)
    ensures "" !in InboundNames(row)
  {
    var users, kind := Rows(row, "users"), Lookup(row, "type");
    forall i | 0 <= i < |users| ensures NameKey(kind)(users[i]) != "" {
      assert UserOk(kind, users[i].fields);
    }
  }

  lemma InstalledNamesAreReal(oldIn: map<string, Row>, newIn: map<string, Row>, canon: string -> string)
    ensures "" !in Installed(oldIn, newIn, canon)
  {
    forall tag | tag in oldIn && tag in newIn && Replaceable(oldIn[tag], newIn[tag], canon)
      ensures "" !in InboundNames(oldIn[tag]) + InboundNames(newIn[tag])
    {
      hide InboundNames, Planner.Valid;
      ValidNamesAreReal(oldIn[tag], canon);
      ValidNamesAreReal(newIn[tag], canon);
    }
  }

  // ---------------------------------------------------------------- the method

  predicate Selected<T>(items: seq<T>, wanted: T -> bool, indexes: seq<nat>) {
    && (forall k | 0 <= k < |indexes| :: indexes[k] < |items| && wanted(items[indexes[k]]))
    && (forall i | 0 <= i < |items| && wanted(items[i]) :: i in indexes)
    && (forall j, k | 0 <= j < k < |indexes| :: indexes[j] < indexes[k])
  }

  method Select<T>(items: seq<T>, wanted: T -> bool) returns (indexes: seq<nat>)
    ensures Selected(items, wanted, indexes)
  {
    indexes := [];
    for i := 0 to |items|
      invariant Selected(items[..i], wanted, indexes)
    {
      if wanted(items[i]) { indexes := indexes + [i]; }
    }
    assert items[..|items|] == items;
  }

  function OutboundDiffers(v: View): Json -> bool {
    (row: Json) => row.Obj? && Lookup(v.oldOut, Text(row.fields, "tag")) != Some(row.fields)
  }

  function InboundDiffers(v: View, changed: set<string>): Json -> bool {
    (row: Json) => row.Obj? && InboundTouched(v, row.fields, changed)
  }

  /** What the fields of a plan mean. */
  ghost predicate Describes(plan: Plan, v: View, after: Row) {
    && RulesOk(v)
    && plan.changedNames == ChangedNames(v)
    && (forall user :: user in plan.changedNames <==> user in v.scope.known && !Unaffected(v, user))
    && plan.removedOutbounds == v.changedOut * v.oldOut.Keys
    && Selected(Rows(after, "outbounds"), OutboundDiffers(v), plan.outboundIndexes)
    && Selected(Rows(after, "inbounds"), InboundDiffers(v, plan.changedNames), plan.inboundIndexes)
    && Reuses(v, plan.ruleIndexes)
  }

  /** Reused objects are equal to the new rules, handed out in order, and every static rule has one. */
  ghost predicate Reuses(v: View, indexes: seq<int>)
    requires RulesOk(v)
  {
    var prior, next := Objects(v.oldRules), Objects(v.newRules);
    && |indexes| == |next|
    && (forall i | 0 <= i < |next| :: -1 <= indexes[i] < |prior| && (indexes[i] >= 0 ==> prior[indexes[i]] == next[i]))
    && (forall i | 0 <= i < |next| && !Managed(next[i], v.scope) :: indexes[i] >= 0)
    && TakesInOrder(prior, next, indexes)
  }

  method ChooseRules(v: View, fp: Fingerprint) returns (indexes: Option<seq<int>>)
    requires RulesOk(v) && v.changedOut == ChangedOut(v.oldOut, v.newOut)
    ensures indexes.Some? ==> Reuses(v, indexes.value)
    ensures Injective(fp) ==> indexes.Some?
  {
    hide TakesInOrder, Exhausted, Fixed, Managed, Injective;
    var prior, next := Objects(v.oldRules), Objects(v.newRules);
    var reused := ReuseRules(prior, next, fp);
    for i := 0 to |next|
      invariant forall k | 0 <= k < i && !Managed(next[k], v.scope) :: reused[k] >= 0
    {
      if reused[i] < 0 {
        if !Managed(next[i], v.scope) {
          StaticRulesAreReused(prior, next, reused, v.scope, i);
          return None;
        }
        // "user rule targets a missing outbound" cannot fire: RulesOk has excluded it.
        NewTargetsExist(v, i);
      }
    }
    indexes := Some(reused);
  }

  lemma NewTargetsExist(v: View, i: nat)
    requires RulesOk(v) && i < |v.newRules| && Managed(v.newRules[i].fields, v.scope)
    requires v.changedOut == ChangedOut(v.oldOut, v.newOut)
    ensures Target(v.newRules[i].fields).Some? ==> Target(v.newRules[i].fields).value in v.newOut
  {
  }

  /** The removed-target loop. */
  method CheckTargets(v: View) returns (ok: bool)
    requires AllObjects(v.newRules)
    ensures ok <==> TargetsOk(v)
  {
    for i := 0 to |v.newRules|
      invariant TargetsOk(v.(newRules := v.newRules[..i]))
    {
      assert v.newRules[..i + 1] == v.newRules[..i] + [v.newRules[i]];
      var t := Target(v.newRules[i].fields);
      if t.Some? && t.value in v.changedOut && t.value !in v.newOut { return false; }
    }
    assert v.newRules[..|v.newRules|] == v.newRules;
    ok := true;
  }

  /** The rule part of the planner: policies of both lists, static rules, removed targets, changed names. */
  method CompareRules(v: View) returns (changed: Option<set<string>>)
    ensures changed.Some? <==> RulesOk(v)
    ensures changed.Some? ==> changed.value == ChangedNames(v)
    ensures changed.Some? ==> forall user :: user in changed.value <==> user in v.scope.known && !Unaffected(v, user)
  {
    hide PoliciesOk, TargetsOk, Fixed, PolicyFrom, References, Unaffected;
    var outbounds := v.oldOut.Keys + v.newOut.Keys;
    var ok, prior, priorFixed := Policies(v.oldRules, v.scope, v.changedOut, outbounds);
    if !ok { return None; }
    var next, nextFixed;
    ok, next, nextFixed := Policies(v.newRules, v.scope, v.changedOut, outbounds);
    if !ok || priorFixed != nextFixed { return None; }
    PoliciesOkObjects(v.newRules, v.scope, v.changedOut, outbounds);
    ok := CheckTargets(v);
    if !ok { return None; }
    changed := Some(set user | user in v.scope.known
                               && UserChanged(PolicyOf(prior, user), PolicyOf(next, user), v.changedOut));
    forall user | user in v.scope.known ensures user in ChangedNames(v) <==> !Unaffected(v, user) {
      ChangedExactly(v, user);
    }
  }

  lemma PoliciesOkObjects(rules: seq<Json>, scope: Scope, changed: set<string>, outbounds: set<string>)
    requires PoliciesOk(rules, scope, changed, outbounds)
    ensures AllObjects(rules)
  {
  }

  /**
   The planner accepts exactly the acceptable updates (given fingerprints without
   collisions; with collisions it may only refuse more), and an accepted plan says
   what its fields mean.
   */
  method PlanUserUpdate(before: Row, after: Row, canon: string -> string, fp: Fingerprint) returns (plan: Option<Plan>)
    ensures plan.Some? ==> Acceptable(before, after, canon)
    ensures Injective(fp) && Acceptable(before, after, canon) ==> plan.Some?
    ensures plan.Some? ==> Describes(plan.value, ViewOf(before, after, canon).value, after)
  {
    hide GlobalsOk, InboundsOk, OutboundsOk, RulesOk, Injective, Selected, Reuses, Blocked, Installed, Unaffected;
    var view := ViewOf(before, after, canon);
    if view.None? || !GlobalsOk(before, after) { return None; }
    var v := view.value;
    if !InboundsOk(v.oldIn, v.newIn, canon) || !OutboundsOk(before, v) { return None; }
    var changed := CompareRules(v);
    if changed.None? { return None; }
    var rules := ChooseRules(v, fp);
    if rules.None? { return None; }
    var inbounds := Select(Rows(after, "inbounds"), InboundDiffers(v, changed.value));
    var outbounds := Select(Rows(after, "outbounds"), OutboundDiffers(v));
    plan := Some(Plan(inbounds, outbounds, v.changedOut * v.oldOut.Keys, rules.value, changed.value));
  }

  /** The final `validateUsers` of a plan never fails: what it selects is replaceable. */
  lemma SelectedInboundsValidate(before: Row, after: Row, canon: string -> string, plan: Plan, k: nat)
    requires Acceptable(before, after, canon) && Describes(plan, ViewOf(before, after, canon).value, after)
    requires k < |plan.inboundIndexes|
    ensures plan.inboundIndexes[k] < |Rows(after, "inbounds")|
    ensures var row := Rows(after, "inbounds")[plan.inboundIndexes[k]];
            row.Obj? && Supported(row.fields) && Planner.Valid(row.fields, canon)
  {
    var v := ViewOf(before, after, canon).value;
    var i := plan.inboundIndexes[k];
    var row := Rows(after, "inbounds")[i].fields;
    NamedFromHolds(Rows(after, "inbounds"), i);
    InstalledNamesAreReal(v.oldIn, v.newIn, canon);
    SameTags(v.oldIn, v.newIn, canon);
    TouchedInboundsAreReplaceable(v, canon, Text(row, "tag"), plan.changedNames);
    KeepsType(v.oldIn[Text(row, "tag")], row, canon);
  }

  lemma SameTags(oldIn: map<string, Row>, newIn: map<string, Row>, canon: string -> string)
    requires InboundsOk(oldIn, newIn, canon)
    ensures oldIn.Keys == newIn.Keys
  {
    SubsetOfSameSize(oldIn.Keys, newIn.Keys);
  }

  lemma SubsetOfSameSize(a: set<string>, b: set<string>)
    requires a <= b && |a| == |b|
    ensures a == b
  {
    assert b == a + (b - a);
  }

  lemma KeepsType(prior: Row, next: Row, canon: string -> string)
    requires InboundOk(prior, next, canon) && Supported(prior)
    ensures Supported(next)
  {
    assert Lookup(prior, "type") == Lookup(prior - Mutable(Lookup(prior, "type")), "type");
    assert Lookup(next, "type") == Lookup(next - Mutable(Lookup(prior, "type")), "type");
  }

  // ---------------------------------------------------------------- what a plan does

  /** The rows of `items` at the planned positions, under their tags. */
  ghost function Taken(named: map<string, Row>, items: seq<Json>, indexes: seq<nat>): map<string, Row> {
    map tag | tag in named
              && exists i | 0 <= i < |items| && i in indexes :: items[i].Obj? && Text(items[i].fields, "tag") == tag
      :: named[tag]
  }

  lemma NamedRowsAre(c: Row, key: string)
    requires NamedRows(c, key).Some?
    ensures NamedFrom(Rows(c, key)) == NamedRows(c, key)
  {
  }

  lemma {:induction false} NamedFromAll(items: seq<Json>, tag: string) returns (i: nat)
    requires NamedFrom(items).Some? && tag in NamedFrom(items).value
    ensures i < |items| && items[i].Obj? && Text(items[i].fields, "tag") == tag
  {
    var last := items[|items| - 1];
    if Text(last.fields, "tag") == tag {
      i := |items| - 1;
    } else {
      i := NamedFromAll(items[..|items| - 1], tag);
    }
  }

  /** Rows that differ from what runs, and only those, are among the planned; so is a row the planner wants for another reason. */
  lemma TakenRows(named: map<string, Row>, items: seq<Json>, indexes: seq<nat>, running: map<string, Row>, tag: string)
    requires NamedFrom(items) == Some(named) && tag in named
    requires forall i | 0 <= i < |items| && items[i].Obj?
                        && Lookup(running, Text(items[i].fields, "tag")) != Some(items[i].fields) :: i in indexes
    ensures Lookup(running, tag) != Some(named[tag]) ==> tag in Taken(named, items, indexes)
  {
    var i := NamedFromAll(items, tag);
    NamedFromHolds(items, i);
  }

  lemma OutboundPlanned(v: View, items: seq<Json>, indexes: seq<nat>, i: nat)
    requires Selected(items, OutboundDiffers(v), indexes) && i < |items|
    ensures i in indexes <==> items[i].Obj? && Lookup(v.oldOut, Text(items[i].fields, "tag")) != Some(items[i].fields)
  {
    assert OutboundDiffers(v)(items[i])
           <==> items[i].Obj? && Lookup(v.oldOut, Text(items[i].fields, "tag")) != Some(items[i].fields);
  }

  lemma OutboundsReplaced(v: View, items: seq<Json>, indexes: seq<nat>)
    requires NamedFrom(items) == Some(v.newOut) && v.changedOut == ChangedOut(v.oldOut, v.newOut)
    requires forall i | 0 <= i < |items| && items[i].Obj?
                        && Lookup(v.oldOut, Text(items[i].fields, "tag")) != Some(items[i].fields) :: i in indexes
    ensures (v.oldOut - (v.changedOut * v.oldOut.Keys)) + Taken(v.newOut, items, indexes) == v.newOut
  {
    hide NamedFrom, Taken, ChangedOut;
    var made := Taken(v.newOut, items, indexes);
    TakenKeys(v.newOut, items, indexes);
    forall tag | tag in v.newOut ensures Lookup(v.oldOut, tag) != Some(v.newOut[tag]) ==> tag in made {
      TakenRows(v.newOut, items, indexes, v.oldOut, tag);
    }
    Rebuilt(v.oldOut, v.newOut, made);
  }

  lemma TakenKeys(named: map<string, Row>, items: seq<Json>, indexes: seq<nat>)
    ensures forall tag | tag in Taken(named, items, indexes) ::
              tag in named && Taken(named, items, indexes)[tag] == named[tag]
  {
  }

  lemma Rebuilt(running: map<string, Row>, wanted: map<string, Row>, made: map<string, Row>)
    requires forall tag | tag in made :: tag in wanted && made[tag] == wanted[tag]
    requires forall tag | tag in wanted && Lookup(running, tag) != Some(wanted[tag]) :: tag in made
    ensures (running - (ChangedOut(running, wanted) * running.Keys)) + made == wanted
  {
    var result := (running - (ChangedOut(running, wanted) * running.Keys)) + made;
    forall tag ensures tag in result <==> tag in wanted { }
    forall tag | tag in wanted ensures result[tag] == wanted[tag] { }
  }

  /** Outbounds: what is dropped and what is created turn the running set into the new one. */
  lemma PlannedOutbounds(before: Row, after: Row, canon: string -> string, plan: Plan)
    requires Acceptable(before, after, canon) && Describes(plan, ViewOf(before, after, canon).value, after)
    ensures var v := ViewOf(before, after, canon).value;
            && (forall j, k | 0 <= j < k < |plan.outboundIndexes| :: plan.outboundIndexes[j] < plan.outboundIndexes[k])
            && (v.oldOut - plan.removedOutbounds) + Taken(v.newOut, Rows(after, "outbounds"), plan.outboundIndexes) == v.newOut
            && (forall tag :: tag in plan.removedOutbounds <==>
                tag in v.oldOut && Lookup(v.newOut, tag) != Some(v.oldOut[tag]))
            && (forall i | 0 <= i < |Rows(after, "outbounds")| ::
                  i in plan.outboundIndexes <==>
                    Rows(after, "outbounds")[i].Obj?
                    && Lookup(v.oldOut, Text(Rows(after, "outbounds")[i].fields, "tag")) != Some(Rows(after, "outbounds")[i].fields))
  {
    hide GlobalsOk, InboundsOk, OutboundsOk, RulesOk, Blocked, Installed, Unaffected, Reuses, ChangedNames;
    var v, items := ViewOf(before, after, canon).value, Rows(after, "outbounds");
    NamedRowsAre(after, "outbounds");
    forall i | 0 <= i < |items|
      ensures i in plan.outboundIndexes <==>
                items[i].Obj? && Lookup(v.oldOut, Text(items[i].fields, "tag")) != Some(items[i].fields)
    {
      OutboundPlanned(v, items, plan.outboundIndexes, i);
    }
    OutboundsReplaced(v, items, plan.outboundIndexes);
  }

  lemma InboundPlanned(v: View, items: seq<Json>, indexes: seq<nat>, changed: set<string>, i: nat)
    requires Selected(items, InboundDiffers(v, changed), indexes) && i < |items| && items[i].Obj?
    ensures i in indexes <==>
              || Lookup(v.oldIn, Text(items[i].fields, "tag")) != Some(items[i].fields)
              || exists name | name in changed :: HasUser(items[i].fields, name)
  {
    hide HasUser, HasChangedUser;
    HasChangedExactly(items[i].fields, changed);
    assert InboundDiffers(v, changed)(items[i]) <==> InboundTouched(v, items[i].fields, changed);
  }

  lemma InboundsReplaced(v: View, items: seq<Json>, indexes: seq<nat>, changed: set<string>)
    requires Selected(items, InboundDiffers(v, changed), indexes) && NamedFrom(items) == Some(v.newIn)
    requires v.oldIn.Keys == v.newIn.Keys
    ensures v.oldIn + Taken(v.newIn, items, indexes) == v.newIn
  {
    hide HasChangedUser, NamedFrom;
    var made := Taken(v.newIn, items, indexes);
    forall i | 0 <= i < |items| && items[i].Obj?
               && Lookup(v.oldIn, Text(items[i].fields, "tag")) != Some(items[i].fields) ensures i in indexes
    {
      assert InboundDiffers(v, changed)(items[i]);
    }
    forall tag | tag in v.newIn ensures (v.oldIn + made)[tag] == v.newIn[tag] {
      TakenRows(v.newIn, items, indexes, v.oldIn, tag);
    }
  }

  /** Inbounds: replacing the planned ones turns the running set into the new one, and each is planned for a reason. */
  lemma PlannedInbounds(before: Row, after: Row, canon: string -> string, plan: Plan)
    requires Acceptable(before, after, canon) && Describes(plan, ViewOf(before, after, canon).value, after)
    ensures var v := ViewOf(before, after, canon).value;
            && (forall j, k | 0 <= j < k < |plan.inboundIndexes| :: plan.inboundIndexes[j] < plan.inboundIndexes[k])
            && v.oldIn + Taken(v.newIn, Rows(after, "inbounds"), plan.inboundIndexes) == v.newIn
            && (forall i | 0 <= i < |Rows(after, "inbounds")| && Rows(after, "inbounds")[i].Obj? ::
                  i in plan.inboundIndexes <==>
                    || Lookup(v.oldIn, Text(Rows(after, "inbounds")[i].fields, "tag")) != Some(Rows(after, "inbounds")[i].fields)
                    || exists name | name in plan.changedNames :: HasUser(Rows(after, "inbounds")[i].fields, name))
  {
    hide GlobalsOk, OutboundsOk, RulesOk, Blocked, Installed, Unaffected, Reuses, ChangedNames, InboundsOk;
    var v, items := ViewOf(before, after, canon).value, Rows(after, "inbounds");
    NamedRowsAre(after, "inbounds");
    SameTags(v.oldIn, v.newIn, canon);
    assert forall j, k | 0 <= j < k < |plan.inboundIndexes| :: plan.inboundIndexes[j] < plan.inboundIndexes[k];
    hide Describes, Acceptable, ViewOf, Selected, HasUser, Taken, InboundDiffers;
    InboundsReplaced(v, items, plan.inboundIndexes, plan.changedNames);
    forall i | 0 <= i < |items| && items[i].Obj?
      ensures i in plan.inboundIndexes <==>
                || Lookup(v.oldIn, Text(items[i].fields, "tag")) != Some(items[i].fields)
                || exists name | name in plan.changedNames :: HasUser(items[i].fields, name)
    {
      InboundPlanned(v, items, plan.inboundIndexes, plan.changedNames, i);
    }
  }

  lemma HasChangedExactly(row: Row, changed: set<string>)
    ensures HasChangedUser(row, changed) <==> exists name | name in changed :: HasUser(row, name)
  {
    if HasChangedUser(row, changed) {
      var i :| 0 <= i < |Rows(row, "users")| && NameKey(Lookup(row, "type"))(Rows(row, "users")[i]) in changed;
      var name := NameKey(Lookup(row, "type"))(Rows(row, "users")[i]);
      assert name in changed && HasUser(row, name);
    }
    if name :| name in changed && HasUser(row, name) {
      var field := if Lookup(row, "type") == Some(Str("socks")) then "username" else "name";
      var i :| 0 <= i < |Rows(row, "users")|
        && if Rows(row, "users")[i].Obj? then Text(Rows(row, "users")[i].fields, field) == name else name == "";
      assert NameKey(Lookup(row, "type"))(Rows(row, "users")[i]) == name;
    }
  }

  /** In a plan no two new rules share an old object, and the k-th static rule gets the k-th static object. */
  lemma PlannedReuse(v: View, plan: Plan, after: Row)
    requires Describes(plan, v, after)
    ensures |plan.ruleIndexes| == |Objects(v.newRules)|
    ensures forall i, j | 0 <= i < j < |plan.ruleIndexes| && plan.ruleIndexes[i] >= 0 && plan.ruleIndexes[j] >= 0 ::
              plan.ruleIndexes[i] != plan.ruleIndexes[j]
    ensures |StaticAt(Objects(v.oldRules), v.scope)| == |StaticAt(Objects(v.newRules), v.scope)|
    ensures forall k | 0 <= k < |StaticAt(Objects(v.newRules), v.scope)| ::
              && 0 <= StaticAt(Objects(v.newRules), v.scope)[k] < |plan.ruleIndexes|
              && plan.ruleIndexes[StaticAt(Objects(v.newRules), v.scope)[k]] == StaticAt(Objects(v.oldRules), v.scope)[k]
  {
    hide TakesInOrder, Fixed, Managed, StaticAt, Selected;
    var prior, next := Objects(v.oldRules), Objects(v.newRules);
    forall i, j | 0 <= i < j < |next| && plan.ruleIndexes[i] >= 0
    && plan.ruleIndexes[j] >= 0 ensures plan.ruleIndexes[i] != plan.ruleIndexes[j] {
      ReuseIsInjective(prior, next, plan.ruleIndexes, i, j);
    }
    StaticCount(prior, v.scope);
    StaticCount(next, v.scope);
    forall k | 0 <= k < |StaticAt(next, v.scope)|
      ensures 0 <= StaticAt(next, v.scope)[k] < |next|
              && plan.ruleIndexes[StaticAt(next, v.scope)[k]] == StaticAt(prior, v.scope)[k]
    {
      StaticRulesKeepTheirRank(prior, next, plan.ruleIndexes, v.scope, k);
    }
  }
}
