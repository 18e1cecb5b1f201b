/** Hot usage in the traffic store, cold usage in the history database, and the node-wide total over both. */
module UsageHistory {
  import opened ByteCounts

  type User = string

  type Usage = map<User, Bytes>

  // ---------------------------------------------------------------- sums over a table

  ghost function Sum(m: Usage): Bytes
    decreases |m|
  {
    if m == map[] then ZERO
    else
      var u :| u in m;
      Plus(m[u], Sum(m - {u}))
  }

  lemma SumSome(m: Usage) returns (u: User)
    requires m != map[]
    ensures u in m && Sum(m) == Plus(m[u], Sum(m - {u}))
  {
    u :| u in m && Sum(m) == Plus(m[u], Sum(m - {u}));
  }

  /** Any user may be taken out first. */
  lemma {:induction false} SumOut(m: Usage, u: User)
    requires u in m
    ensures Sum(m) == Plus(m[u], Sum(m - {u}))
    decreases |m|
  {
    hide Sum;
    var v := SumSome(m);
    if u != v {
      var a, b := m - {v}, m - {u};
      SumOut(a, u);
      SumOut(b, v);
      assert a - {u} == b - {v};
    }
  }

  lemma SumPut(m: Usage, u: User, b: Bytes)
    ensures Sum(m[u := b]) == Plus(Minus(Sum(m), if u in m then m[u] else ZERO), b)
  {
    SumOut(m[u := b], u);
    assert m[u := b] - {u} == m - {u};
    if u in m { SumOut(m, u); } else { assert m - {u} == m; }
  }

  function Only(m: Usage, users: set<User>): Usage { map u | u in m && u in users :: m[u] }

  // ---------------------------------------------------------------- the total

  /** The reference: every user once, the hot value before the cold one. */
  ghost function TrueTotal(hot: Usage, cold: Usage): Bytes {
    Sum(cold + hot)
  }

  /** `get_traffic_totals`: hot, plus the stored archive total, minus the archived rows of hot users. */
  ghost function Reported(hot: Usage, cold: Usage, totals: Bytes): Bytes {
    Plus(Sum(hot), Minus(totals, Sum(Only(cold, hot.Keys))))
  }

  lemma {:induction false} SumSplit(hot: Usage, cold: Usage)
    ensures Sum(cold + hot) == Plus(Sum(hot), Minus(Sum(cold), Sum(Only(cold, hot.Keys))))
    decreases hot.Keys
  {
    hide Sum, Only;
    if hot == map[] {
      SplitNone(hot, cold);
    } else {
      var u :| u in hot;
      var rest := hot - {u};
      MergeOne(hot, cold, u);
      SumSplit(rest, cold);
      SumOut(hot, u);
      SumPut(cold + rest, u, hot[u]);
      OnlyMore(cold, rest.Keys, u);
    }
  }

  lemma MergeOne(hot: Usage, cold: Usage, u: User)
    requires u in hot
    ensures var rest := hot - {u};
            && cold + hot == (cold + rest)[u := hot[u]] && rest.Keys + {u} == hot.Keys && u !in rest.Keys
            && (u in cold + rest <==> u in cold) && (u in cold ==> (cold + rest)[u] == cold[u])
  {
  }

  lemma SumNone()
    ensures Sum(map[]) == ZERO
  {
  }

  lemma SplitNone(hot: Usage, cold: Usage)
    requires hot == map[]
    ensures Sum(cold + hot) == Plus(Sum(hot), Minus(Sum(cold), Sum(Only(cold, hot.Keys))))
  {
    hide Sum;
    SumNone();
    assert cold + hot == cold;
    assert Only(cold, hot.Keys) == map[];
  }

  lemma OnlyMore(cold: Usage, users: set<User>, u: User)
    requires u !in users
    ensures Sum(Only(cold, users + {u})) == Plus(Sum(Only(cold, users)), if u in cold then cold[u] else ZERO)
  {
    hide Sum;
    if u in cold {
      SumOut(Only(cold, users + {u}), u);
      assert Only(cold, users + {u}) - {u} == Only(cold, users);
    } else {
      assert Only(cold, users + {u}) == Only(cold, users);
    }
  }

  /** While the stored archive total is the sum of the archived rows, the report is the true total. */
  lemma ReportIsTrue(hot: Usage, cold: Usage)
    ensures Reported(hot, cold, Sum(cold)) == TrueTotal(hot, cold)
  {
    SumSplit(hot, cold);
  }

  lemma SumStep(m: Usage, left: Usage, b: Bytes, u: User)
    requires u in left && Plus(b, Sum(left)) == Sum(m)
    ensures Plus(Plus(b, left[u]), Sum(left - {u})) == Sum(m)
  {
    hide Sum;
    SumOut(left, u);
  }

  method SumRows(m: Usage) returns (b: Bytes)
    ensures b == Sum(m)
  {
    hide Sum, Plus;
    b := ZERO;
    var left := m;
    SumStart(m);
    while left != map[]
      invariant Plus(b, Sum(left)) == Sum(m)
      decreases left.Keys
    {
      var u :| u in left;
      SumStep(m, left, b, u);
      b := Plus(b, left[u]);
      left := left - {u};
    }
    SumEnd(b);
  }

  lemma SumStart(m: Usage)
    ensures Plus(ZERO, Sum(m)) == Sum(m)
  {
    hide Sum;
  }

  lemma SumEnd(b: Bytes)
    ensures Plus(b, Sum(map[])) == b
  {
    hide Sum;
    SumNone();
  }

  // ---------------------------------------------------------------- the stores

  const CHUNK: nat := 400

  class Stores {
    var hot: Usage       // the traffic store's users
    var cold: Usage      // the usage table
    var totals: Bytes    // the usage_totals row

    ghost predicate Valid()
      reads this
    {
      totals == Sum(cold)
    }

    ghost function Report(): Bytes
      reads this
    {
      Reported(hot, cold, totals)
    }

    constructor ()
      ensures Valid() && hot == map[] && cold == map[]
    {
      hot, cold, totals := map[], map[], ZERO;
    }

    /** `archive_usage`: one transaction over the rows and their running total. */
    method ArchiveUsage(values: Usage)
      requires Valid()
      modifies `cold, `totals
      ensures Valid() && cold == old(cold) + values
    {
      var rows, sums := cold, totals;
      var left := values.Keys;
      while left != {}
        invariant left <= values.Keys && sums == Sum(rows)
        invariant rows == cold + Only(values, values.Keys - left)
        invariant cold == old(cold) && totals == old(totals)
      {
        var u :| u in left;
        var previous := if u in rows then rows[u] else ZERO;
        SumPut(rows, u, values[u]);
        assert Only(values, values.Keys - (left - {u})) == Only(values, values.Keys - left)[u := values[u]];
        sums := Plus(sums, Minus(values[u], previous));
        rows := rows[u := values[u]];
        left := left - {u};
      }
      assert Only(values, values.Keys - {}) == values;
      cold, totals := rows, sums;
    }

    /** Whether the process stops here; in calm weather it does not. */
    static method Dies(calm: bool) returns (dies: bool)
      ensures dies ==> !calm
    {
      dies := *;
      dies := dies && !calm;
    }

    /**
     `_archive_inactive_usage` with the store write behind it. The report is the same before, after and between
     the two commits.
     */
    method ArchiveInactive(active: set<User>, retained: set<User>, calm: bool) returns (crashed: bool)
      requires Valid()
      modifies this
      ensures Valid() && Report() == old(Report()) && (calm ==> !crashed)
      ensures cold == old(cold) + Only(old(hot), old(hot).Keys - active - retained)
      ensures crashed ==> hot == old(hot)
      ensures !crashed ==> hot == old(hot) - (old(hot).Keys - active - retained)
    {
      hide Sum, Reported, TrueTotal;
      var inactive := map u | u in hot && u !in active && u !in retained :: hot[u];
      assert inactive == Only(hot, hot.Keys - active - retained);
      ArchiveUsage(inactive);
      ArchivedTotal(hot, old(cold), inactive);
      ReportIsTrue(hot, cold);
      ReportIsTrue(hot, old(cold));
      var dies := Dies(calm);
      if dies { return true; }
      ReportIsTrue(hot - inactive.Keys, cold);
      DroppedTotal(hot, cold, inactive.Keys);
      hot := hot - inactive.Keys;
      crashed := false;
    }

    /** `usage` through the chunked lookup. */
    method Lookup(names: seq<User>) returns (found: Usage)
      ensures found == Only(cold, set u | u in names)
    {
      found := map[];
      var offset := 0;
      while offset < |names|
        invariant 0 <= offset <= |names|
        invariant found == Only(cold, set u | u in names[..offset])
      {
        var end := if offset + CHUNK < |names| then offset + CHUNK else |names|;
        var part := names[offset..end];
        assert names[..end] == names[..offset] + part;
        found := found + map u | u in cold && u in part :: cold[u];
        offset := end;
      }
      assert names[..|names|] == names;
    }

    /** `get_traffic_totals` with `archived_totals`: every user counted once. */
    method TrafficTotals() returns (b: Bytes)
      requires Valid()
      ensures b == Report() == TrueTotal(hot, cold)
    {
      hide Sum;
      ReportIsTrue(hot, cold);
      var warm := SumRows(hot);
      var both := SumRows(Only(cold, hot.Keys));
      b := Plus(warm, Minus(totals, both));
    }

    /** Cold users that are sampled again come back hot; their archived rows stay. */
    method Rehydrate(names: seq<User>)
      requires Valid()
      modifies `hot
      ensures Valid() && Report() == old(Report())
      ensures hot == Only(cold, set u | u in names) + old(hot)
    {
      hide Sum, Reported, TrueTotal;
      var found := Lookup(names);
      ReportIsTrue(hot, cold);
      ReportIsTrue(found + hot, cold);
      RehydratedTotal(hot, cold, found);
      hot := found + hot;
    }

    /** `delete_user_traffic` in runtime mode: the usage is archived before it leaves the store. */
    method DeleteUser(u: User, calm: bool) returns (crashed: bool)
      requires Valid()
      modifies this
      ensures Valid() && Report() == old(Report()) && (calm ==> !crashed)
      ensures !crashed ==> u !in hot
      ensures u in old(hot) ==> u in cold && cold[u] == old(hot)[u]
    {
      hide Sum, Reported, TrueTotal;
      if u in hot {
        ArchiveUsage(map[u := hot[u]]);
        ArchivedTotal(hot, old(cold), map[u := hot[u]]);
      }
      ReportIsTrue(hot, cold);
      ReportIsTrue(hot, old(cold));
      var dies := Dies(calm);
      if dies { return true; }
      if u in hot {
        ReportIsTrue(hot - {u}, cold);
        DroppedTotal(hot, cold, {u});
        hot := hot - {u};
      }
      crashed := false;
    }
  }

  /** Archiving current hot values leaves the true total as it was. */
  lemma ArchivedTotal(hot: Usage, cold: Usage, values: Usage)
    requires forall u | u in values :: u in hot && hot[u] == values[u]
    ensures TrueTotal(hot, cold + values) == TrueTotal(hot, cold)
  {
    assert cold + values + hot == cold + hot;
  }

  /** Bringing archived rows back under the hot ones changes nothing. */
  lemma RehydratedTotal(hot: Usage, cold: Usage, found: Usage)
    requires forall u | u in found :: u in cold && cold[u] == found[u]
    ensures TrueTotal(found + hot, cold) == TrueTotal(hot, cold)
  {
    assert cold + (found + hot) == cold + hot;
  }

  /** Dropping hot users whose archived row is their hot value does too. */
  lemma DroppedTotal(hot: Usage, cold: Usage, users: set<User>)
    requires forall u | u in users && u in hot :: u in cold && cold[u] == hot[u]
    ensures TrueTotal(hot - users, cold) == TrueTotal(hot, cold)
  {
    assert cold + (hot - users) == cold + hot;
  }
}
