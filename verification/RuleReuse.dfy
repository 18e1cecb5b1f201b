/**
 Which old rule object a new rule may keep. Old rules are filed in first-in
 first-out buckets by fingerprint; a new rule takes the head of its bucket when
 the two are equal.
 */
module RuleReuse {
  import opened Planner
  import opened RoutingPolicy

  type Fingerprint = Row -> string

  /** The positions of `x` in `rules`, in order. */
  function Positions(rules: seq<Row>, x: Row): seq<nat> {
    if rules == [] then []
    else Positions(rules[..|rules| - 1], x) + if rules[|rules| - 1] == x then [|rules| - 1] else []
  }

  /** The old positions given to the copies of `x` among the first `|indexes|` new rules. */
  function Taken(indexes: seq<int>, rules: seq<Row>, x: Row): seq<int>
    requires |indexes| <= |rules|
  {
    if indexes == [] then []
    else
      var i := |indexes| - 1;
      Taken(indexes[..i], rules, x) + if rules[i] == x && indexes[i] >= 0 then [indexes[i]] else []
  }

  /** The entries of a bucket that point at a copy of `x`. */
  function Copies(bucket: seq<nat>, rules: seq<Row>, x: Row): seq<nat> {
    if bucket == [] then []
    else (if bucket[0] < |rules| && rules[bucket[0]] == x then [bucket[0]] else []) + Copies(bucket[1..], rules, x)
  }

  lemma {:induction false} CopiesSnoc(bucket: seq<nat>, rules: seq<Row>, last: nat, x: Row)
    requires last < |rules|
    ensures Copies(bucket + [last], rules, x) == Copies(bucket, rules, x) + if rules[last] == x then [last] else []
  {
    if bucket == [] {
      assert [] + [last] == [last] && Copies([last][1..], rules, x) == [];
    } else {
      assert (bucket + [last])[1..] == bucket[1..] + [last];
      CopiesSnoc(bucket[1..], rules, last, x);
    }
  }

  function BucketOf(buckets: map<string, seq<nat>>, hash: string): seq<nat> {
    if hash in buckets then buckets[hash] else []
  }

  /** Every bucket points at old rules with its own fingerprint. */
  ghost predicate InRange(prior: seq<Row>, fp: Fingerprint, buckets: map<string, seq<nat>>) {
    forall h | h in buckets :: PointsAt(prior, fp, buckets[h], h)
  }

  ghost predicate PointsAt(prior: seq<Row>, fp: Fingerprint, bucket: seq<nat>, h: string) {
    forall k | 0 <= k < |bucket| :: bucket[k] < |prior| && fp(prior[bucket[k]]) == h
  }

  ghost predicate Injective(fp: Fingerprint) {
    forall x, y :: fp(x) == fp(y) ==> x == y
  }

  /** Every copy of a rule among the first `n` old ones is still to be taken. */
  ghost predicate Filed(prior: seq<Row>, fp: Fingerprint, buckets: map<string, seq<nat>>, n: nat)
    requires n <= |prior|
  {
    && InRange(prior, fp, buckets)
    && (forall x :: Copies(BucketOf(buckets, fp(x)), prior, x) == Positions(prior[..n], x))
  }

  lemma FilingKeepsRange(prior: seq<Row>, fp: Fingerprint, buckets: map<string, seq<nat>>, i: nat)
    requires i < |prior| && InRange(prior, fp, buckets)
    ensures InRange(prior, fp, buckets[fp(prior[i]) := BucketOf(buckets, fp(prior[i])) + [i]])
  {
  }

  lemma PoppingKeepsRange(prior: seq<Row>, fp: Fingerprint, buckets: map<string, seq<nat>>, h: string)
    requires InRange(prior, fp, buckets) && BucketOf(buckets, h) != []
    ensures InRange(prior, fp, buckets[h := BucketOf(buckets, h)[1..]])
  {
  }

  lemma FileStep(prior: seq<Row>, fp: Fingerprint, buckets: map<string, seq<nat>>, i: nat)
    requires i < |prior| && Filed(prior, fp, buckets, i)
    ensures Filed(prior, fp, buckets[fp(prior[i]) := BucketOf(buckets, fp(prior[i])) + [i]], i + 1)
  {
    hide InRange;
    var h := fp(prior[i]);
    var after := buckets[h := BucketOf(buckets, h) + [i]];
    FilingKeepsRange(prior, fp, buckets, i);
    assert prior[..i + 1][..i] == prior[..i];
    forall x ensures Copies(BucketOf(after, fp(x)), prior, x) == Positions(prior[..i + 1], x) {
      CopiesSnoc(BucketOf(buckets, h), prior, i, x);
    }
  }

  /** Filing the old rules: the bucket of a rule's hash lists exactly its positions, among others. */
  method FileRules(prior: seq<Row>, fp: Fingerprint) returns (buckets: map<string, seq<nat>>)
    ensures Filed(prior, fp, buckets, |prior|)
  {
    buckets := map[];
    for i := 0 to |prior|
      invariant Filed(prior, fp, buckets, i)
    {
      hide Filed;
      FileStep(prior, fp, buckets, i);
      var h := fp(prior[i]);
      buckets := buckets[h := BucketOf(buckets, h) + [i]];
    }
  }

  /** The copies of every rule take the old copies of that rule in order, from the first. */
  ghost predicate TakesInOrder(prior: seq<Row>, next: seq<Row>, indexes: seq<int>)
    requires |indexes| == |next|
  {
    forall x :: Taken(indexes, next, x) <= Positions(prior, x)
  }

  /** What the copies of each rule have taken so far, and what is left for them, is all there is. */
  ghost predicate Shared(prior: seq<Row>, next: seq<Row>, fp: Fingerprint, buckets: map<string, seq<nat>>,
                         indexes: seq<int>)
    requires |indexes| <= |next|
  {
    && InRange(prior, fp, buckets)
    && (forall x :: Taken(indexes, next, x) + Copies(BucketOf(buckets, fp(x)), prior, x) == Positions(prior, x))
  }

  lemma SkipStep(prior: seq<Row>, next: seq<Row>, fp: Fingerprint, buckets: map<string, seq<nat>>, indexes: seq<int>)
    requires |indexes| < |next| && Shared(prior, next, fp, buckets, indexes)
    ensures Shared(prior, next, fp, buckets, indexes + [-1])
  {
    assert (indexes + [-1])[..|indexes|] == indexes;
  }

  lemma TakeOne(prior: seq<Row>, next: seq<Row>, bucket: seq<nat>, indexes: seq<int>, x: Row)
    requires |indexes| < |next| && bucket != [] && bucket[0] < |prior| && prior[bucket[0]] == next[|indexes|]
    ensures Taken(indexes + [bucket[0]], next, x) + Copies(bucket[1..], prior, x)
            == Taken(indexes, next, x) + Copies(bucket, prior, x)
    ensures x != next[|indexes|] ==> Taken(indexes + [bucket[0]], next, x) == Taken(indexes, next, x)
  {
    assert (indexes + [bucket[0]])[..|indexes|] == indexes;
  }

  lemma TakeStep(prior: seq<Row>, next: seq<Row>, fp: Fingerprint, buckets: map<string, seq<nat>>, indexes: seq<int>)
    requires |indexes| < |next| && Shared(prior, next, fp, buckets, indexes)
    requires var bucket := BucketOf(buckets, fp(next[|indexes|]));
             bucket != [] && bucket[0] < |prior| && prior[bucket[0]] == next[|indexes|]
    ensures var h := fp(next[|indexes|]);
            var bucket := BucketOf(buckets, h);
            Shared(prior, next, fp, buckets[h := bucket[1..]], indexes + [bucket[0]])
  {
    var i := |indexes|;
    var h := fp(next[i]);
    var bucket := BucketOf(buckets, h);
    hide InRange;
    var left, more := buckets[h := bucket[1..]], indexes + [bucket[0]];
    PoppingKeepsRange(prior, fp, buckets, h);
    hide Taken, Copies, Positions;
    forall x ensures Taken(more, next, x) + Copies(BucketOf(left, fp(x)), prior, x) == Positions(prior, x) {
      assert Taken(indexes, next, x) + Copies(BucketOf(buckets, fp(x)), prior, x) == Positions(prior, x);
      TakeOne(prior, next, bucket, indexes, x);
    }
  }

  /**
   The rule-reuse map. The copies of any rule take the old copies of that rule in
   order, from the first; -1 marks a rule that needs a new object.
   */
  method ReuseRules(prior: seq<Row>, next: seq<Row>, fp: Fingerprint) returns (indexes: seq<int>)
    ensures |indexes| == |next|
    ensures forall i | 0 <= i < |next| :: -1 <= indexes[i] < |prior|
    ensures forall i | 0 <= i < |next| && indexes[i] >= 0 :: prior[indexes[i]] == next[i]
    ensures TakesInOrder(prior, next, indexes)
    ensures Injective(fp) ==> forall i | 0 <= i < |next| && indexes[i] < 0 ::
              Exhausted(prior, next, indexes[..i], next[i])
  {
    hide Shared, Filed, Taken, Exhausted;
    var buckets := FileRules(prior, fp);
    SharedStart(prior, next, fp, buckets);
    indexes := [];
    for i := 0 to |next|
      invariant |indexes| == i && Shared(prior, next, fp, buckets, indexes)
      invariant forall k | 0 <= k < i :: -1 <= indexes[k] < |prior|
      invariant forall k | 0 <= k < i && indexes[k] >= 0 :: prior[indexes[k]] == next[k]
      invariant Injective(fp) ==> forall k | 0 <= k < i && indexes[k] < 0 ::
                Exhausted(prior, next, indexes[..k], next[k])
    {
      HeadInRange(prior, next, fp, buckets, indexes, fp(next[i]));
      var previous: int, h := -1, fp(next[i]);
      var bucket := BucketOf(buckets, h);
      if bucket != [] && prior[bucket[0]] == next[i] {
        TakeStep(prior, next, fp, buckets, indexes);
        previous := bucket[0];
        buckets := buckets[h := bucket[1..]];
      } else {
        SkipStep(prior, next, fp, buckets, indexes);
        if Injective(fp) { EmptyMeansExhausted(prior, next, fp, buckets, indexes, next[i]); }
      }
      assert (indexes + [previous])[..i] == indexes;
      assert forall k | 0 <= k < i :: (indexes + [previous])[..k] == indexes[..k];
      indexes := indexes + [previous];
    }
    SharedEnd(prior, next, fp, buckets, indexes);
  }

  /** All old copies of `x` are taken already. */
  ghost predicate Exhausted(prior: seq<Row>, next: seq<Row>, indexes: seq<int>, x: Row)
    requires |indexes| <= |next|
  {
    Taken(indexes, next, x) == Positions(prior, x)
  }

  lemma EmptyMeansExhausted(prior: seq<Row>, next: seq<Row>, fp: Fingerprint, buckets: map<string, seq<nat>>,
                            indexes: seq<int>, x: Row)
    requires |indexes| <= |next| && Shared(prior, next, fp, buckets, indexes) && BucketOf(buckets, fp(x)) == []
    ensures Exhausted(prior, next, indexes, x)
  {
    assert Taken(indexes, next, x) + Copies(BucketOf(buckets, fp(x)), prior, x) == Positions(prior, x);
  }

  /** With collision-free fingerprints every static rule finds its old object. */
  lemma StaticRulesAreReused(prior: seq<Row>, next: seq<Row>, indexes: seq<int>, scope: Scope, i: nat)
    requires |indexes| == |next| && Fixed(prior, scope) == Fixed(next, scope) && i < |next| && !Managed(next[i], scope)
    ensures !Exhausted(prior, next, indexes[..i], next[i])
  {
    var x := next[i];
    StaticCopies(prior, scope, x);
    StaticCopies(next, scope, x);
    TakenBound(indexes[..i], next, x);
    PositionsRank(next, x, i);
    PositionsMonotone(next, x, i + 1);
    assert next[..i + 1][..i] == next[..i];
  }

  lemma {:induction false} PositionsMonotone(rules: seq<Row>, x: Row, i: nat)
    requires i <= |rules|
    ensures |Positions(rules[..i], x)| <= |Positions(rules, x)|
  {
    if i < |rules| {
      PositionsMonotone(rules[..|rules| - 1], x, i);
      assert rules[..|rules| - 1][..i] == rules[..i];
    } else {
      assert rules[..i] == rules;
    }
  }

  lemma {:induction false} TakenBound(indexes: seq<int>, rules: seq<Row>, x: Row)
    requires |indexes| <= |rules|
    ensures |Taken(indexes, rules, x)| <= |Positions(rules[..|indexes|], x)|
  {
    if indexes != [] {
      var i := |indexes| - 1;
      TakenBound(indexes[..i], rules, x);
      assert rules[..i + 1][..i] == rules[..i];
    }
  }

  lemma SharedStart(prior: seq<Row>, next: seq<Row>, fp: Fingerprint, buckets: map<string, seq<nat>>)
    requires Filed(prior, fp, buckets, |prior|)
    ensures Shared(prior, next, fp, buckets, [])
  {
    assert prior[..|prior|] == prior;
  }

  lemma SharedEnd(prior: seq<Row>, next: seq<Row>, fp: Fingerprint, buckets: map<string, seq<nat>>, indexes: seq<int>)
    requires |indexes| == |next| && Shared(prior, next, fp, buckets, indexes)
    ensures TakesInOrder(prior, next, indexes)
  {
  }

  lemma HeadInRange(prior: seq<Row>, next: seq<Row>, fp: Fingerprint, buckets: map<string, seq<nat>>, indexes: seq<int>,
                    h: string)
    requires |indexes| <= |next| && Shared(prior, next, fp, buckets, indexes)
    ensures BucketOf(buckets, h) != [] ==> BucketOf(buckets, h)[0] < |prior| && fp(prior[BucketOf(buckets, h)[0]]) == h
  {
  }

  // ---------------------------------------------------------------- static rules keep their rank

  /** The positions of the static rules, in order. */
  function StaticAt(rules: seq<Row>, scope: Scope): seq<nat> {
    if rules == [] then []
    else
      var n := |rules| - 1;
      StaticAt(rules[..n], scope) + if Managed(rules[n], scope) then [] else [n]
  }

  lemma {:induction false} PositionsPoint(rules: seq<Row>, x: Row, k: nat)
    requires k < |Positions(rules, x)|
    ensures Positions(rules, x)[k] < |rules| && rules[Positions(rules, x)[k]] == x
  {
    var n := |rules| - 1;
    if k < |Positions(rules[..n], x)| { PositionsPoint(rules[..n], x, k); }
  }

  /** Entry `k` of a prefix-ordered list is found by counting what precedes it. */
  lemma {:induction false} PositionsRank(rules: seq<Row>, x: Row, i: nat)
    requires i < |rules| && rules[i] == x
    ensures |Positions(rules[..i], x)| < |Positions(rules, x)|
    ensures Positions(rules, x)[|Positions(rules[..i], x)|] == i
  {
    var n := |rules| - 1;
    if i < n {
      PositionsRank(rules[..n], x, i);
      assert rules[..n][..i] == rules[..i];
    }
  }

  lemma {:induction false} StaticPoint(rules: seq<Row>, scope: Scope, k: nat)
    requires k < |StaticAt(rules, scope)|
    ensures |StaticAt(rules, scope)| == |Fixed(rules, scope)|
    ensures StaticAt(rules, scope)[k] < |rules|
    ensures rules[StaticAt(rules, scope)[k]] == Fixed(rules, scope)[k]
    ensures Fixed(rules[..StaticAt(rules, scope)[k]], scope) == Fixed(rules, scope)[..k]
  {
    var n := |rules| - 1;
    var less := rules[..n];
    assert rules == less + [rules[n]];
    FixedSnoc(less, rules[n], scope);
    StaticCount(less, scope);
    if k < |StaticAt(less, scope)| {
      StaticPoint(less, scope, k);
      assert less[..StaticAt(less, scope)[k]] == rules[..StaticAt(less, scope)[k]];
    }
  }

  lemma {:induction false} StaticCount(rules: seq<Row>, scope: Scope)
    ensures |StaticAt(rules, scope)| == |Fixed(rules, scope)|
  {
    if rules != [] {
      var n := |rules| - 1;
      assert rules == rules[..n] + [rules[n]];
      FixedSnoc(rules[..n], rules[n], scope);
      StaticCount(rules[..n], scope);
    }
  }

  lemma PositionsSnoc(rules: seq<Row>, last: Row, x: Row)
    ensures |Positions(rules + [last], x)| == |Positions(rules, x)| + if last == x then 1 else 0
  {
    assert (rules + [last])[..|rules|] == rules;
  }

  /** A static rule occurs in a list exactly as often as among its static rules. */
  lemma {:induction false} StaticCopies(rules: seq<Row>, scope: Scope, x: Row)
    requires !Managed(x, scope)
    ensures |Positions(rules, x)| == |Positions(Fixed(rules, scope), x)|
  {
    if rules != [] {
      var less, last := rules[..|rules| - 1], rules[|rules| - 1];
      assert rules == less + [last];
      hide Managed, Positions;
      StaticCopies(less, scope, x);
      FixedSnoc(less, last, scope);
      PositionsSnoc(less, last, x);
      PositionsSnoc(Fixed(less, scope), last, x);
      assert Fixed(less, scope) + [] == Fixed(less, scope);
    }
  }

  lemma {:induction false} AllTaken(indexes: seq<int>, rules: seq<Row>, x: Row)
    requires |indexes| <= |rules|
    requires forall i | 0 <= i < |indexes| && rules[i] == x :: indexes[i] >= 0
    ensures |Taken(indexes, rules, x)| == |Positions(rules[..|indexes|], x)|
  {
    if indexes != [] {
      var i := |indexes| - 1;
      AllTaken(indexes[..i], rules, x);
      assert rules[..i + 1][..i] == rules[..i];
    }
  }

  lemma {:induction false} TakenGrows(indexes: seq<int>, rules: seq<Row>, x: Row, i: nat)
    requires i < |indexes| <= |rules| && rules[i] == x && indexes[i] >= 0
    ensures |Taken(indexes[..i], rules, x)| < |Taken(indexes, rules, x)|
    ensures Taken(indexes, rules, x)[|Taken(indexes[..i], rules, x)|] == indexes[i]
  {
    var n := |indexes| - 1;
    if i < n {
      TakenGrows(indexes[..n], rules, x, i);
      assert indexes[..n][..i] == indexes[..i];
    }
  }

  lemma CopiesAreDistinct(prior: seq<Row>, next: seq<Row>, indexes: seq<int>, x: Row, i: nat, j: nat)
    requires |indexes| == |next| && i < j < |next| && indexes[i] >= 0 && indexes[j] >= 0
    requires next[i] == next[j] == x && Taken(indexes, next, x) <= Positions(prior, x)
    ensures indexes[i] != indexes[j]
  {
    TakenGrows(indexes, next, x, i);
    TakenGrows(indexes, next, x, j);
    TakenGrows(indexes[..j], next, x, i);
    assert indexes[..j][..i] == indexes[..i];
    PositionsIncrease(prior, x, |Taken(indexes[..i], next, x)|, |Taken(indexes[..j], next, x)|);
  }

  /** Two new rules never share one old object. */
  lemma ReuseIsInjective(prior: seq<Row>, next: seq<Row>, indexes: seq<int>, i: nat, j: nat)
    requires |indexes| == |next| && i < j < |next| && indexes[i] >= 0 && indexes[j] >= 0
    requires forall k | 0 <= k < |next| && indexes[k] >= 0 :: indexes[k] < |prior| && prior[indexes[k]] == next[k]
    requires TakesInOrder(prior, next, indexes)
    ensures indexes[i] != indexes[j]
  {
    if next[i] == next[j] {
      CopiesAreDistinct(prior, next, indexes, next[i], i, j);
    }
  }

  lemma {:induction false} PositionsIncrease(rules: seq<Row>, x: Row, a: nat, b: nat)
    requires a < b < |Positions(rules, x)|
    ensures Positions(rules, x)[a] < Positions(rules, x)[b]
  {
    var n := |rules| - 1;
    PositionsPoint(rules[..n], x, a);
    if b < |Positions(rules[..n], x)| { PositionsIncrease(rules[..n], x, a, b); }
  }

  /**
   The k-th static rule of the new list keeps the object of the k-th static rule
   of the old list, even when equal rules repeat and fingerprints collide.
   */
  lemma StaticRulesKeepTheirRank(prior: seq<Row>, next: seq<Row>, indexes: seq<int>, scope: Scope, k: nat)
    requires |indexes| == |next| && Fixed(prior, scope) == Fixed(next, scope) && k < |StaticAt(next, scope)|
    requires forall i | 0 <= i < |next| && !Managed(next[i], scope) :: indexes[i] >= 0
    requires TakesInOrder(prior, next, indexes)
    ensures |StaticAt(prior, scope)| == |StaticAt(next, scope)| && StaticAt(next, scope)[k] < |next|
    ensures indexes[StaticAt(next, scope)[k]] == StaticAt(prior, scope)[k]
  {
    StaticCount(prior, scope);
    StaticCount(next, scope);
    StaticPoint(prior, scope, k);
    StaticPoint(next, scope, k);
    var x, i, m := Fixed(next, scope)[k], StaticAt(next, scope)[k], StaticAt(prior, scope)[k];
    FixedIsStatic(next, scope, k);
    // The k-th static rule is the c-th copy of x in both lists.
    var c := |Positions(Fixed(next, scope)[..k], x)|;
    StaticCopies(next[..i], scope, x);
    StaticCopies(prior[..m], scope, x);
    AllTaken(indexes[..i], next, x);
    TakenGrows(indexes, next, x, i);
    PositionsRank(prior, x, m);
    assert Taken(indexes, next, x)[c] == indexes[i];
  }

  lemma {:induction false} FixedIsStatic(rules: seq<Row>, scope: Scope, k: nat)
    requires k < |Fixed(rules, scope)|
    ensures !Managed(Fixed(rules, scope)[k], scope)
  {
    var skip := if Managed(rules[0], scope) then 0 else 1;
    if k >= skip { FixedIsStatic(rules[1..], scope, k - skip); }
  }
}
