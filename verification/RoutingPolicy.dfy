/**
 What a rule list means for one user: the ordered policy that `planUserUpdate`
 compares, and the proof that this policy decides the routing of every
 connection of that user.
 */
module RoutingPolicy {
  import opened Basics
  import opened Planner

  /** The identities whose rules may change, and those that never may. */
  datatype Scope = Scope(known: set<string>, blocked: set<string>)

  predicate Managed(row: Row, scope: Scope) {
    Dynamic(row, scope.known, scope.blocked)
  }

  /** A user's rule: how many static rules stand before it, and the rule without its user list. */
  datatype Entry = Entry(section: nat, rule: Row)

  type Policy = seq<Entry>

  function Count(names: seq<string>, user: string): nat {
    if names == [] then 0 else Count(names[1..], user) + if names[0] == user then 1 else 0
  }

  function Repeat(entry: Entry, n: nat): Policy {
    seq(n, _ => entry)
  }

  function NamesOf(row: Row): seq<string> {
    if UserNames(row).Some? then UserNames(row).value else []
  }

  /** The policy of one user in `rules`, the first of which follows `section` static rules. */
  function PolicyFrom(rules: seq<Row>, scope: Scope, user: string, section: nat): Policy {
    if rules == [] then []
    else if Managed(rules[0], scope) then
      Repeat(Entry(section, Normalized(rules[0])), Count(NamesOf(rules[0]), user))
      + PolicyFrom(rules[1..], scope, user, section)
    else PolicyFrom(rules[1..], scope, user, section + 1)
  }

  function Fixed(rules: seq<Row>, scope: Scope): seq<Row> {
    if rules == [] then []
    else (if Managed(rules[0], scope) then [] else [rules[0]]) + Fixed(rules[1..], scope)
  }

  // ---------------------------------------------------------------- what a rule list does

  /**
   The matching engine, left open. `plain` decides the conditions of a plain rule
   other than its users; `other` decides any other rule; `stops` says whether
   such a rule ends the evaluation (sniffing and the like do not).
   */
  datatype Engine<!C> = Engine(plain: (Row, C) -> bool, other: (Row, string, C) -> bool, stops: Row -> bool)

  predicate Matches<C>(e: Engine<C>, row: Row, user: string, conn: C) {
    if Plain(row) then user in UserNames(row).value && e.plain(Normalized(row), conn)
    else e.other(row, user, conn)
  }

  /** A plain rule routes or rejects, and so ends the evaluation. */
  predicate Stops<C>(e: Engine<C>, row: Row) {
    Plain(row) || e.stops(row)
  }

  function Verdict(row: Row): Row {
    if Plain(row) then Normalized(row) else row
  }

  /** The rules that act on a connection, in order, up to the one that ends the evaluation. */
  function Evaluate<C>(e: Engine<C>, rules: seq<Row>, user: string, conn: C): seq<Row> {
    if rules == [] then []
    else if !Matches(e, rules[0], user, conn) then Evaluate(e, rules[1..], user, conn)
    else [Verdict(rules[0])] + if Stops(e, rules[0]) then [] else Evaluate(e, rules[1..], user, conn)
  }

  /** The same, computed from a user's policy and the static rules only. */
  function Interleave<C>(e: Engine<C>, policy: Policy, fixed: seq<Row>, section: nat, user: string, conn: C): seq<Row>
    decreases |policy| + |fixed|
  {
    if policy != [] && policy[0].section == section then
      if e.plain(policy[0].rule, conn) then [policy[0].rule]
      else Interleave(e, policy[1..], fixed, section, user, conn)
    else if fixed == [] then []
    else if !Matches(e, fixed[0], user, conn) then Interleave(e, policy, fixed[1..], section + 1, user, conn)
    else [Verdict(fixed[0])]
         + if Stops(e, fixed[0]) then [] else Interleave(e, policy, fixed[1..], section + 1, user, conn)
  }

  lemma {:induction false} CountIsMembership(names: seq<string>, user: string)
    ensures Count(names, user) > 0 <==> user in names
  {
    if names != [] { CountIsMembership(names[1..], user); }
  }

  lemma {:induction false} PolicySections(rules: seq<Row>, scope: Scope, user: string, section: nat)
    ensures forall i | 0 <= i < |PolicyFrom(rules, scope, user, section)| ::
              PolicyFrom(rules, scope, user, section)[i].section >= section
  {
    if rules != [] {
      PolicySections(rules[1..], scope, user, if Managed(rules[0], scope) then section else section + 1);
    }
  }

  /** A rule that names the user several times acts like one that names it once. */
  lemma {:induction false} InterleaveRepeat<C>(e: Engine<C>, entry: Entry, n: nat, rest: Policy, fixed: seq<Row>,
                                               user: string, conn: C)
    ensures Interleave(e, Repeat(entry, n) + rest, fixed, entry.section, user, conn)
            == if n > 0 && e.plain(entry.rule, conn) then [entry.rule]
               else Interleave(e, rest, fixed, entry.section, user, conn)
  {
    if n == 0 {
      assert Repeat(entry, 0) + rest == rest;
    } else {
      assert (Repeat(entry, n) + rest)[1..] == Repeat(entry, n - 1) + rest;
      InterleaveRepeat(e, entry, n - 1, rest, fixed, user, conn);
    }
  }

  /** A user's policy and the static rules determine the routing of all its connections. */
  lemma {:induction false} PolicyDecides<C>(e: Engine<C>, rules: seq<Row>, scope: Scope, section: nat, user: string,
                                            conn: C)
    ensures Evaluate(e, rules, user, conn)
            == Interleave(e, PolicyFrom(rules, scope, user, section), Fixed(rules, scope), section, user, conn)
  {
    if rules != [] {
      var row, rest := rules[0], rules[1..];
      if Managed(row, scope) {
        PolicyDecides(e, rest, scope, section, user, conn);
        CountIsMembership(NamesOf(row), user);
        InterleaveRepeat(e, Entry(section, Normalized(row)), Count(NamesOf(row), user),
                         PolicyFrom(rest, scope, user, section), Fixed(rest, scope), user, conn);
        assert Fixed(rules, scope) == Fixed(rest, scope);
      } else {
        PolicyDecides(e, rest, scope, section + 1, user, conn);
        PolicySections(rest, scope, user, section + 1);
        assert Fixed(rules, scope)[1..] == Fixed(rest, scope);
      }
    }
  }

  /** No managed rule names a protected or an absent identity. */
  lemma {:induction false} ProtectedHasNoPolicy(rules: seq<Row>, scope: Scope, user: string, section: nat)
    requires user in scope.blocked || user == ""
    ensures PolicyFrom(rules, scope, user, section) == []
  {
    if rules != [] {
      ProtectedHasNoPolicy(rules[1..], scope, user, if Managed(rules[0], scope) then section else section + 1);
      CountIsMembership(NamesOf(rules[0]), user);
    }
  }

  // ---------------------------------------------------------------- a rule list through one user's eyes

  datatype Sight = Static(rule: Row) | Own(rule: Row)

  /** The rule list with every other name erased: static rules as they are, managed ones once per listing of the user. */
  ghost function Sights(rules: seq<Row>, scope: Scope, user: string): seq<Sight> {
    if rules == [] then []
    else (if Managed(rules[0], scope) then seq(Count(NamesOf(rules[0]), user), _ => Own(rules[0] - {"auth_user"}))
          else [Static(rules[0])]) + Sights(rules[1..], scope, user)
  }

  /** What the user sees, put together from policy and static rules. */
  ghost function Merge(policy: Policy, fixed: seq<Row>, section: nat): seq<Sight>
    decreases |policy| + |fixed|
  {
    if policy != [] && policy[0].section == section then [Own(policy[0].rule)] + Merge(policy[1..], fixed, section)
    else if fixed == [] then []
    else [Static(fixed[0])] + Merge(policy, fixed[1..], section + 1)
  }

  lemma {:induction false} MergeRepeat(entry: Entry, n: nat, rest: Policy, fixed: seq<Row>)
    ensures Merge(Repeat(entry, n) + rest, fixed, entry.section)
            == seq(n, _ => Own(entry.rule)) + Merge(rest, fixed, entry.section)
  {
    if n == 0 {
      assert Repeat(entry, 0) + rest == rest;
    } else {
      assert (Repeat(entry, n) + rest)[1..] == Repeat(entry, n - 1) + rest;
      MergeRepeat(entry, n - 1, rest, fixed);
      assert seq(n, _ => Own(entry.rule)) == [Own(entry.rule)] + seq(n - 1, _ => Own(entry.rule));
    }
  }

  lemma {:induction false} SightsMerge(rules: seq<Row>, scope: Scope, user: string, section: nat)
    ensures Merge(PolicyFrom(rules, scope, user, section), Fixed(rules, scope), section) == Sights(rules, scope, user)
  {
    if rules != [] {
      var row, rest := rules[0], rules[1..];
      if Managed(row, scope) {
        SightsMerge(rest, scope, user, section);
        MergeRepeat(Entry(section, Normalized(row)), Count(NamesOf(row), user), PolicyFrom(rest, scope, user, section),
                    Fixed(rest, scope));
        assert Fixed(rules, scope) == Fixed(rest, scope);
      } else {
        SightsMerge(rest, scope, user, section + 1);
        PolicySections(rest, scope, user, section + 1);
        assert Fixed(rules, scope)[1..] == Fixed(rest, scope);
      }
    }
  }

  /** A policy is what is left of those sights. */
  ghost function FromSights(sights: seq<Sight>, section: nat): Policy {
    if sights == [] then []
    else match sights[0]
      case Static(_) => FromSights(sights[1..], section + 1)
      case Own(rule) => [Entry(section, rule)] + FromSights(sights[1..], section)
  }

  lemma {:induction false} FromRepeat(rule: Row, n: nat, rest: seq<Sight>, section: nat)
    ensures FromSights(seq(n, _ => Own(rule)) + rest, section)
            == Repeat(Entry(section, rule), n) + FromSights(rest, section)
  {
    var own := seq(n, _ => Own(rule));
    if n == 0 {
      assert own + rest == rest;
    } else {
      assert (own + rest)[1..] == seq(n - 1, _ => Own(rule)) + rest;
      FromRepeat(rule, n - 1, rest, section);
      assert Repeat(Entry(section, rule), n) == [Entry(section, rule)] + Repeat(Entry(section, rule), n - 1);
    }
  }

  lemma {:induction false} PolicyFromSights(rules: seq<Row>, scope: Scope, user: string, section: nat)
    ensures FromSights(Sights(rules, scope, user), section) == PolicyFrom(rules, scope, user, section)
  {
    if rules != [] {
      var row, rest := rules[0], rules[1..];
      if Managed(row, scope) {
        PolicyFromSights(rest, scope, user, section);
        FromRepeat(row - {"auth_user"}, Count(NamesOf(row), user), Sights(rest, scope, user), section);
      } else {
        PolicyFromSights(rest, scope, user, section + 1);
        assert ([Static(row)] + Sights(rest, scope, user))[1..] == Sights(rest, scope, user);
      }
    }
  }

  /** With equal static rules, two lists give a user the same policy exactly when the user sees the same list. */
  lemma SamePolicy(prior: seq<Row>, next: seq<Row>, scope: Scope, user: string)
    requires Fixed(prior, scope) == Fixed(next, scope)
    ensures PolicyFrom(prior, scope, user, 0) == PolicyFrom(next, scope, user, 0)
            <==> Sights(prior, scope, user) == Sights(next, scope, user)
  {
    SightsMerge(prior, scope, user, 0);
    SightsMerge(next, scope, user, 0);
    PolicyFromSights(prior, scope, user, 0);
    PolicyFromSights(next, scope, user, 0);
  }

  // ---------------------------------------------------------------- growing a list at its end

  lemma {:induction false} FixedSnoc(rules: seq<Row>, row: Row, scope: Scope)
    ensures Fixed(rules + [row], scope) == Fixed(rules, scope) + if Managed(row, scope) then [] else [row]
  {
    if rules == [] {
      assert [] + [row] == [row] && Fixed([row][1..], scope) == [];
    } else {
      assert (rules + [row])[1..] == rules[1..] + [row];
      FixedSnoc(rules[1..], row, scope);
    }
  }

  lemma {:induction false} PolicySnoc(rules: seq<Row>, row: Row, scope: Scope, user: string, section: nat)
    ensures PolicyFrom(rules + [row], scope, user, section)
            == PolicyFrom(rules, scope, user, section)
               + if Managed(row, scope)
                 then Repeat(Entry(section + |Fixed(rules, scope)|, Normalized(row)), Count(NamesOf(row), user))
                 else []
  {
    if rules == [] {
      assert [] + [row] == [row] && [row][1..] == [];
    } else {
      assert (rules + [row])[1..] == rules[1..] + [row];
      PolicySnoc(rules[1..], row, scope, user, if Managed(rules[0], scope) then section else section + 1);
    }
  }

  lemma {:induction false} CountSnoc(names: seq<string>, last: string, user: string)
    ensures Count(names + [last], user) == Count(names, user) + if last == user then 1 else 0
  {
    if names == [] {
      assert [] + [last] == [last];
    } else {
      assert (names + [last])[1..] == names[1..] + [last];
      CountSnoc(names[1..], last, user);
    }
  }

  // ---------------------------------------------------------------- the `policies` closure

  predicate Known(target: Row, outbounds: set<string>) {
    "outbound" in target && target["outbound"].Str? ==> target["outbound"].s in outbounds
  }

  /** The conditions under which `policies` returns no error. */
  predicate PoliciesOk(rules: seq<Json>, scope: Scope, changed: set<string>, outbounds: set<string>) {
    && AllObjects(rules)
    && (forall i | 0 <= i < |rules| ::
          if Managed(rules[i].fields, scope) then Known(rules[i].fields, outbounds)
          else !References(rules[i], changed))
  }

  function PolicyOf(byUser: map<string, Policy>, user: string): Policy {
    if user in byUser then byUser[user] else []
  }

  method AppendEntry(byUser: map<string, Policy>, names: seq<string>, entry: Entry) returns (r: map<string, Policy>)
    ensures forall user :: PolicyOf(r, user) == PolicyOf(byUser, user) + Repeat(entry, Count(names, user))
  {
    hide Count, Repeat, PolicyOf;
    r := byUser;
    forall user ensures Repeat(entry, Count(names[..0], user)) == [] { RepeatNone(entry, names, user); }
    for k := 0 to |names|
      invariant forall user :: PolicyOf(r, user) == PolicyOf(byUser, user) + Repeat(entry, Count(names[..k], user))
    {
      AppendedOne(byUser, r, names, k, entry);
      r := r[names[k] := PolicyOf(r, names[k]) + [entry]];
    }
    assert names[..|names|] == names;
  }

  lemma AppendedOne(byUser: map<string, Policy>, r: map<string, Policy>, names: seq<string>, k: nat, entry: Entry)
    requires k < |names| && forall user ::
              PolicyOf(r, user) == PolicyOf(byUser, user) + Repeat(entry, Count(names[..k], user))
    ensures forall user :: PolicyOf(r[names[k] := PolicyOf(r, names[k]) + [entry]], user)
                           == PolicyOf(byUser, user) + Repeat(entry, Count(names[..k + 1], user))
  {
    hide Count, Repeat;
    assert names[..k + 1] == names[..k] + [names[k]];
    forall user
      ensures PolicyOf(r[names[k] := PolicyOf(r, names[k]) + [entry]], user)
              == PolicyOf(byUser, user) + Repeat(entry, Count(names[..k + 1], user))
    {
      assert PolicyOf(r, user) == PolicyOf(byUser, user) + Repeat(entry, Count(names[..k], user));
      CountSnoc(names[..k], names[k], user);
      RepeatSnoc(entry, Count(names[..k], user));
    }
  }

  lemma RepeatNone(entry: Entry, names: seq<string>, user: string)
    ensures Repeat(entry, Count(names[..0], user)) == []
  {
  }

  lemma RepeatSnoc(entry: Entry, n: nat)
    ensures Repeat(entry, n + 1) == Repeat(entry, n) + [entry]
  {
  }

  method Policies(rules: seq<Json>, scope: Scope, changed: set<string>, outbounds: set<string>)
      returns (ok: bool, byUser: map<string, Policy>, fixed: seq<Row>)
    ensures ok <==> PoliciesOk(rules, scope, changed, outbounds)
    ensures ok ==> fixed == Fixed(Objects(rules), scope)
    ensures ok ==> forall user :: PolicyOf(byUser, user) == PolicyFrom(Objects(rules), scope, user, 0)
  {
    hide Managed, References, Known, Normalized, PoliciesOk, PolicyFrom, Fixed, Objects, Count, Repeat, NamesOf;
    ok, byUser, fixed := true, map[], [];
    var section := 0;
    PoliciesNone(rules, scope, changed, outbounds);
    for i := 0 to |rules|
      invariant section == |fixed| && PoliciesOk(rules[..i], scope, changed, outbounds) && AllObjects(rules[..i])
      invariant fixed == Fixed(Objects(rules[..i]), scope)
      invariant forall user :: PolicyOf(byUser, user) == PolicyFrom(Objects(rules[..i]), scope, user, 0)
    {
      PoliciesStep(rules, scope, changed, outbounds, i);
      if !rules[i].Obj? { return false, byUser, fixed; }
      var row := rules[i].fields;
      FixedSnoc(Objects(rules[..i]), row, scope);
      forall user { PolicySnoc(Objects(rules[..i]), row, scope, user, 0); }
      if !Managed(row, scope) {
        if References(rules[i], changed) { return false, byUser, fixed; }
        fixed, section := fixed + [row], section + 1;
      } else {
        if !Known(row, outbounds) { return false, byUser, fixed; }
        byUser := AppendEntry(byUser, NamesOf(row), Entry(section, Normalized(row)));
      }
    }
    assert rules[..|rules|] == rules;
  }

  lemma PoliciesNone(rules: seq<Json>, scope: Scope, changed: set<string>, outbounds: set<string>)
    ensures PoliciesOk(rules[..0], scope, changed, outbounds) && AllObjects(rules[..0])
            && Fixed(Objects(rules[..0]), scope) == []
    ensures forall user :: PolicyFrom(Objects(rules[..0]), scope, user, 0) == []
  {
  }

  /** One more rule: what it adds to the conditions, and that a bad one spoils the whole list. */
  lemma PoliciesStep(rules: seq<Json>, scope: Scope, changed: set<string>, outbounds: set<string>, i: nat)
    requires i < |rules| && PoliciesOk(rules[..i], scope, changed, outbounds)
    ensures var ok := rules[i].Obj?
            && if Managed(rules[i].fields, scope) then Known(rules[i].fields, outbounds) else !References(rules[i], changed);
            && (ok <==> PoliciesOk(rules[..i + 1], scope, changed, outbounds))
            && (!ok ==> !PoliciesOk(rules, scope, changed, outbounds))
    ensures rules[i].Obj? ==> AllObjects(rules[..i + 1])
                              && Objects(rules[..i + 1]) == Objects(rules[..i]) + [rules[i].fields]
  {
    hide Managed, References, Known;
    assert forall k | 0 <= k < i :: rules[..i + 1][k] == rules[..i][k];
    assert rules[..i + 1][i] == rules[i];
  }
}
