/** Peer usage evidence: the order of reset epochs, and what a node keeps of each source's counter. */
module SharedQuota {
  import opened Basics

  type Node = string
  type UserId = string
  type Identity = string

  const MAX_BYTES: int := 0x7FFF_FFFF_FFFF_FFFF
  const MAX_SOURCES: nat := 8
  const MAX_UPDATES: nat := 50

  /** A numeric field as it arrives: missing (or zero-like), an integer, or something else. */
  datatype Num = Absent | Int(n: int) | Odd(text: string)

  function Value(n: Num): Option<int> {
    match n
    case Absent => Some(0)
    case Int(i) => Some(i)
    case Odd(_) => None
  }

  datatype Epoch = Epoch(cycleStart: Num, manualResetAt: Num, renewalResetKey: Option<string>, version: Num)

  /** A parsed renewal date; dates with and without a zone cannot be compared. */
  datatype Instant = Instant(zoned: bool, at: int)

  type Parse = string -> Option<Instant>

  predicate Later(parse: Parse, earlier: string, later: string) {
    && parse(earlier).Some? && parse(later).Some?
    && parse(earlier).value.zoned == parse(later).value.zoned && parse(earlier).value.at < parse(later).value.at
  }

  predicate Set(key: Option<string>) { key.Some? && key.value != "" }

  /** A renewal key replaces none, or an earlier date. */
  predicate Renewed(parse: Parse, a: Option<string>, b: Option<string>) {
    Set(b) && (!Set(a) || Later(parse, a.value, b.value))
  }

  predicate Counted(a: Num, b: Num) {
    Value(a).Some? && Value(b).Some? && Value(a).value <= Value(b).value
  }

  /** `_advanced`. */
  predicate Advanced(parse: Parse, a: Epoch, b: Epoch) {
    if !Counted(a.cycleStart, b.cycleStart) then false
    else if Value(a.cycleStart) != Value(b.cycleStart) then true
    else if a.renewalResetKey != b.renewalResetKey then Renewed(parse, a.renewalResetKey, b.renewalResetKey)
    else
      && Counted(a.manualResetAt, b.manualResetAt) && Counted(a.version, b.version)
      && (Value(a.manualResetAt) != Value(b.manualResetAt) || Value(a.version) != Value(b.version))
  }

  lemma AdvancedIrreflexive(parse: Parse, a: Epoch)
    ensures !Advanced(parse, a, a)
  {
  }

  /** `_advanced` is a strict partial order on every pair of epochs, well-formed or not. */
  lemma AdvancedTransitive(parse: Parse, a: Epoch, b: Epoch, c: Epoch)
    requires Advanced(parse, a, b) && Advanced(parse, b, c)
    ensures Advanced(parse, a, c)
  {
    if Value(a.cycleStart) == Value(b.cycleStart) == Value(c.cycleStart) {
      if a.renewalResetKey != b.renewalResetKey && b.renewalResetKey != c.renewalResetKey {
        RenewedTransitive(parse, a.renewalResetKey, b.renewalResetKey, c.renewalResetKey);
      }
    }
  }

  lemma RenewedTransitive(parse: Parse, a: Option<string>, b: Option<string>, c: Option<string>)
    requires Renewed(parse, a, b) && Renewed(parse, b, c)
    ensures Renewed(parse, a, c) && a != c
  {
  }

  lemma AdvancedAsymmetric(parse: Parse, a: Epoch, b: Epoch)
    requires Advanced(parse, a, b)
    ensures !Advanced(parse, b, a) && a != b
  {
    if Advanced(parse, b, a) { AdvancedTransitive(parse, a, b, a); }
    AdvancedIrreflexive(parse, a);
  }

  /** What the order means: a later cycle, then a renewal to a later instant, then resets and versions that grow. */
  lemma AdvancedMeans(parse: Parse, a: Epoch, b: Epoch)
    ensures a.cycleStart.Int? && b.cycleStart.Int? && a.cycleStart.n < b.cycleStart.n ==>
              Advanced(parse, a, b) && !Advanced(parse, b, a)
    ensures a.cycleStart == b.cycleStart && !a.cycleStart.Odd? && a.renewalResetKey.Some? && b.renewalResetKey.Some?
            && a.renewalResetKey.value != "" && b.renewalResetKey.value != ""
            && parse(a.renewalResetKey.value).Some? && parse(b.renewalResetKey.value).Some?
            && parse(a.renewalResetKey.value).value.zoned == parse(b.renewalResetKey.value).value.zoned
            && parse(a.renewalResetKey.value).value.at < parse(b.renewalResetKey.value).value.at ==>
              Advanced(parse, a, b) && !Advanced(parse, b, a)
    ensures a.cycleStart == b.cycleStart && a.renewalResetKey.Some? && b.renewalResetKey.Some?
            && a.renewalResetKey.value != "" && b.renewalResetKey.value != "" && a.renewalResetKey != b.renewalResetKey
            && (parse(a.renewalResetKey.value).None? || parse(b.renewalResetKey.value).None?
                || parse(a.renewalResetKey.value).value.zoned != parse(b.renewalResetKey.value).value.zoned) ==>
              !Advanced(parse, a, b) && !Advanced(parse, b, a)
    ensures a.cycleStart == b.cycleStart && !a.cycleStart.Odd? && a.renewalResetKey.None? && b.renewalResetKey.Some?
            && b.renewalResetKey.value != "" ==>
              Advanced(parse, a, b) && !Advanced(parse, b, a)
    ensures a.cycleStart == b.cycleStart && !a.cycleStart.Odd? && a.renewalResetKey == b.renewalResetKey
            && a.manualResetAt.Int? && b.manualResetAt.Int? && a.version.Int? && b.version.Int? ==>
              (Advanced(parse, a, b) <==>
                 && a.manualResetAt.n <= b.manualResetAt.n && a.version.n <= b.version.n
                 && (a.manualResetAt.n < b.manualResetAt.n || a.version.n < b.version.n))
  {
  }

  // ---------------------------------------------------------------- what a node stores

  datatype Record = Record(sourceUser: UserId, identity: Identity, limit: int, count: int, epoch: Epoch, target: Epoch)

  /** `origins` are counters learned through replication; `proven` is `native_accounting_proven`. */
  datatype User = User(
    epoch: Epoch, records: map<Node, Record>, retired: map<Node, Epoch>, origins: map<Node, Epoch>, proven: bool)

  datatype Row = Row(identity: Identity, limit: int)

  /** One update: the target, the source's observation, and the target epoch it expects. */
  datatype Update = Update(target: UserId, expected: Epoch, sourceUser: UserId, identity: Identity, limit: int, count: int, epoch: Epoch)

  function Plain(n: Num): Num { if n == Int(0) then Absent else n }

  predicate SameCycle(a: Epoch, b: Epoch) {
    && Plain(a.cycleStart) == Plain(b.cycleStart) && Plain(a.manualResetAt) == Plain(b.manualResetAt)
    && (if Set(a.renewalResetKey) then a.renewalResetKey else None) == (if Set(b.renewalResetKey) then b.renewalResetKey else None)
  }

  /** A retired epoch refuses itself and everything that does not advance it. */
  predicate Refuses(parse: Parse, retired: Epoch, e: Epoch) {
    retired == e || !Advanced(parse, retired, e)
  }

  /** The body of `apply_observation` for one update; None where it raises. */
  function Observed(parse: Parse, user: User, row: Row, node: Node, u: Update): Option<User> {
    var previous := if node in user.records then Some(user.records[node]) else None;
    if row.identity != u.identity || row.limit <= 0 || row.limit != u.limit || !(0 <= u.count <= MAX_BYTES) then None
    else if !user.proven || user.epoch != u.expected then None
    else if previous.None? && |user.records| >= MAX_SOURCES then None
    else if node in user.retired && Refuses(parse, user.retired[node], u.epoch) then None
    else if previous.Some? && (previous.value.sourceUser != u.sourceUser || previous.value.identity != row.identity) then None
    else if previous.Some? && previous.value.epoch == u.epoch && u.count < previous.value.count then None
    else if previous.Some? && previous.value.epoch != u.epoch && !Advanced(parse, previous.value.epoch, u.epoch) then None
    else if !SameCycle(user.epoch, u.epoch) then
      if previous.Some? && previous.value.epoch != u.epoch then
        Some(user.(retired := user.retired[node := previous.value.epoch], records := user.records - {node}))
      else None
    else
      Some(user.(records := user.records[node := Record(u.sourceUser, row.identity, row.limit, u.count, u.epoch, user.epoch)]))
  }

  /** The version a reset counts up; None where it raises. */
  function ResetVersion(user: User): Option<int> {
    match user.epoch.version
    case Absent => Some(1)
    case Int(v) => if v >= 0 then Some(v + 1) else None
    case Odd(_) => None
  }

  /** `clear_for_reset`: evidence and origins become retired epochs, the evidence's last. */
  function Cleared(user: User, next: Epoch): User {
    user.(epoch := next, records := map[], origins := map[], proven := true,
          retired := user.retired + user.origins + map n | n in user.records :: user.records[n].epoch)
  }

  // ---------------------------------------------------------------- replicated origins

  /** A counter of another node as a replicated snapshot reports it. */
  datatype Origin = Origin(bytes: int, epoch: Epoch)

  /** `_merge_origin`, as far as the epoch goes. */
  function Merged(parse: Parse, previous: Option<Epoch>, e: Epoch): Epoch {
    if previous.None? || previous.value == e || Advanced(parse, previous.value, e) then e else previous.value
  }

  function OriginAt(user: User, n: Node): Option<Epoch> { if n in user.origins then Some(user.origins[n]) else None }

  /** A user without usage, evidence or cycle takes over the cycle of the snapshot; None where the import raises. */
  function Adopted(user: User, cycleStart: Option<int>, incoming: Epoch, used: int): Option<User> {
    if SameCycle(user.epoch, incoming) then Some(user)
    else if used != 0 || user.origins != map[] || user.records != map[] || Plain(user.epoch.cycleStart) != Absent
            || Plain(user.epoch.manualResetAt) != Absent || Set(user.epoch.renewalResetKey) then None
    else
      Some(user.(epoch := user.epoch.(
        cycleStart := if cycleStart.Some? then Int(cycleStart.value) else user.epoch.cycleStart,
        manualResetAt := if incoming.manualResetAt.Absent? then user.epoch.manualResetAt else incoming.manualResetAt,
        renewalResetKey := if incoming.renewalResetKey.Some? then incoming.renewalResetKey else user.epoch.renewalResetKey)))
  }

  /** One origin passes: the node's own counter is not ahead, another's is of the user's cycle and not retired. */
  predicate Importable(parse: Parse, user: User, local: Node, used: int, n: Node, o: Origin) {
    if n == local then o.bytes <= used
    else SameCycle(user.epoch, o.epoch) && (n in user.retired ==> !Refuses(parse, user.retired[n], o.epoch))
  }

  /** The origins after an import. */
  function WithOrigins(parse: Parse, user: User, local: Node, origins: map<Node, Origin>): map<Node, Epoch> {
    user.origins + map n | n in origins && n != local :: Merged(parse, OriginAt(user, n), origins[n].epoch)
  }

  /** What a reset leaves: nothing of the cycle, and for each source the last epoch it was known by, evidence first. */
  lemma ClearedMeans(user: User, next: Epoch)
    ensures var after := Cleared(user, next);
            && after.epoch == next && after.records == map[] && after.origins == map[] && after.proven
            && forall n :: RetiredAt(after, n) == if n in user.records then Some(user.records[n].epoch)
                                                  else if n in user.origins then Some(user.origins[n])
                                                  else RetiredAt(user, n)
  {
  }

  // ---------------------------------------------------------------- when evidence is taken

  /** The field says the same: missing and zero are one. */
  ghost predicate Alike(a: Num, b: Num) {
    a == b || (a in {Absent, Int(0)} && b in {Absent, Int(0)})
  }

  lemma SameCycleExactly(a: Epoch, b: Epoch)
    ensures SameCycle(a, b) <==>
              && Alike(a.cycleStart, b.cycleStart) && Alike(a.manualResetAt, b.manualResetAt)
              && (a.renewalResetKey == b.renewalResetKey
                  || (a.renewalResetKey in {None, Some("")} && b.renewalResetKey in {None, Some("")}))
  {
  }

  /** An update is taken exactly when it is about this identity and limit, expects this epoch, and is not behind what is known. */
  lemma ObservedExactly(parse: Parse, user: User, row: Row, node: Node, u: Update)
    ensures Observed(parse, user, row, node, u).Some? <==>
              && u.identity == row.identity && u.limit == row.limit && row.limit > 0
              && 0 <= u.count <= 0x7FFF_FFFF_FFFF_FFFF
              && user.proven && u.expected == user.epoch && (node in user.records || |user.records| < 8)
              && (node in user.retired ==> Advanced(parse, user.retired[node], u.epoch))
              && (node in user.records ==>
                    && user.records[node].sourceUser == u.sourceUser && user.records[node].identity == row.identity
                    && (|| Advanced(parse, user.records[node].epoch, u.epoch)
                        || (user.records[node].epoch == u.epoch && user.records[node].count <= u.count)))
              && (SameCycle(user.epoch, u.epoch) || (node in user.records && user.records[node].epoch != u.epoch))
  {
    hide SameCycle, Advanced;
    if node in user.retired { AdvancedIrreflexive(parse, user.retired[node]); }
    if node in user.records { AdvancedIrreflexive(parse, user.records[node].epoch); }
  }

  /** It then is the source's record, or retires it when the source has moved to another cycle; nothing else changes. */
  lemma ObservedMeans(parse: Parse, user: User, row: Row, node: Node, u: Update)
    requires Observed(parse, user, row, node, u).Some?
    ensures var after := Observed(parse, user, row, node, u).value;
            && after.epoch == user.epoch && after.origins == user.origins && after.proven == user.proven
            && (forall n | n != node :: RecordAt(after, n) == RecordAt(user, n)
                                        && RetiredAt(after, n) == RetiredAt(user, n))
            && if SameCycle(user.epoch, u.epoch)
               then RecordAt(after, node) == Some(Record(u.sourceUser, row.identity, row.limit, u.count, u.epoch, user.epoch))
                    && RetiredAt(after, node) == RetiredAt(user, node)
               else RecordAt(after, node).None? && node in user.records
                    && RetiredAt(after, node) == Some(user.records[node].epoch)
  {
    hide SameCycle, Advanced;
  }

  /** Merging keeps the later of two epochs, and the one that was there when neither is later. */
  lemma MergedExactly(parse: Parse, previous: Epoch, e: Epoch)
    ensures Merged(parse, None, e) == e
    ensures Merged(parse, Some(previous), e) == if Advanced(parse, previous, e) then e else previous
  {
  }

  /** An import moves no origin back, forgets none, and a second import of the same changes nothing. */
  lemma OriginsGrow(parse: Parse, user: User, local: Node, origins: map<Node, Origin>, n: Node)
    ensures n in user.origins ==>
              && n in WithOrigins(parse, user, local, origins)
              && var now := WithOrigins(parse, user, local, origins)[n];
              now == user.origins[n] || (n in origins && n != local && now == origins[n].epoch
                                         && Advanced(parse, user.origins[n], now))
    ensures n in origins && n != local && n !in user.origins ==>
              n in WithOrigins(parse, user, local, origins)
              && WithOrigins(parse, user, local, origins)[n] == origins[n].epoch
    ensures n in WithOrigins(parse, user, local, origins) ==> n in user.origins || (n in origins && n != local)
    ensures var once := user.(origins := WithOrigins(parse, user, local, origins));
            OriginAt(once.(origins := WithOrigins(parse, once, local, origins)), n) == OriginAt(once, n)
  {
    hide Advanced;
    if n in user.origins && n in origins {
      MergedExactly(parse, user.origins[n], origins[n].epoch);
      if Advanced(parse, user.origins[n], origins[n].epoch) { AdvancedIrreflexive(parse, origins[n].epoch); }
    } else if n in origins {
      AdvancedIrreflexive(parse, origins[n].epoch);
    }
  }

  /** A cycle is taken over exactly when it is the user's own, or the user has nothing of a cycle yet. */
  lemma AdoptedExactly(user: User, cycleStart: Option<int>, incoming: Epoch, used: int)
    ensures Adopted(user, cycleStart, incoming, used).Some? <==>
              || SameCycle(user.epoch, incoming)
              || (used == 0 && user.origins == map[] && user.records == map[]
                  && SameCycle(user.epoch, Epoch(Absent, Absent, None, Absent)))
    ensures SameCycle(user.epoch, incoming) ==> Adopted(user, cycleStart, incoming, used) == Some(user)
    ensures Adopted(user, cycleStart, incoming, used).Some? && !SameCycle(user.epoch, incoming)
            && incoming.cycleStart == (if cycleStart.Some? then Int(cycleStart.value) else Absent) ==>
              var after := Adopted(user, cycleStart, incoming, used).value;
              SameCycle(after.epoch, incoming) && after == user.(epoch := after.epoch)
  {
  }

  /** An origin passes exactly when it is this node's and not ahead of it, or of this cycle and past what was retired. */
  lemma ImportableExactly(parse: Parse, user: User, local: Node, used: int, n: Node, o: Origin)
    ensures Importable(parse, user, local, used, n, o) <==>
              || (n == local && o.bytes <= used)
              || (n != local && SameCycle(user.epoch, o.epoch)
                  && (n in user.retired ==> Advanced(parse, user.retired[n], o.epoch)))
  {
    hide SameCycle, Advanced;
    if n in user.retired { AdvancedIrreflexive(parse, user.retired[n]); }
  }

  // ---------------------------------------------------------------- history of one source at one target

  datatype Event = Stored(epoch: Epoch, count: int) | Retired(epoch: Epoch)

  /** Everything that happened is behind what the target holds for the source now. */
  ghost predicate Behind(parse: Parse, record: Option<Record>, retired: Option<Epoch>, history: seq<Event>) {
    && (record.Some? && retired.Some? ==> Advanced(parse, retired.value, record.value.epoch))
    && (record.Some? ==> forall i | 0 <= i < |history| ::
          || Advanced(parse, history[i].epoch, record.value.epoch)
          || (history[i].Stored? && history[i].epoch == record.value.epoch && history[i].count <= record.value.count))
    && (record.None? && retired.Some? ==> forall i | 0 <= i < |history| ::
          history[i].epoch == retired.value || Advanced(parse, history[i].epoch, retired.value))
    && (record.None? && retired.None? ==> history == [])
  }

  /** Counts never fall within an epoch, epochs only advance, and what was retired is never stored again. */
  ghost predicate Orderly(parse: Parse, history: seq<Event>) {
    forall i, j | 0 <= i < j < |history| && history[j].Stored? ::
      || Advanced(parse, history[i].epoch, history[j].epoch)
      || (history[i].Stored? && history[i].epoch == history[j].epoch && history[i].count <= history[j].count)
  }

  lemma NeverAgain(parse: Parse, history: seq<Event>, i: nat, j: nat)
    requires Orderly(parse, history) && i < j < |history| && history[i].Retired? && history[j].Stored?
    ensures history[i].epoch != history[j].epoch && Advanced(parse, history[i].epoch, history[j].epoch)
  {
    AdvancedAsymmetric(parse, history[i].epoch, history[j].epoch);
  }

  function RecordAt(user: User, n: Node): Option<Record> { if n in user.records then Some(user.records[n]) else None }

  function RetiredAt(user: User, n: Node): Option<Epoch> { if n in user.retired then Some(user.retired[n]) else None }

  /** Without a record, the retired epoch is one of the history's. */
  ghost predicate Backed(record: Option<Record>, retired: Option<Epoch>, history: seq<Event>) {
    record.None? && retired.Some? ==> exists i | 0 <= i < |history| :: history[i].epoch == retired.value
  }

  ghost predicate SourceOk(parse: Parse, user: User, n: Node, history: seq<Event>) {
    && Behind(parse, RecordAt(user, n), RetiredAt(user, n), history) && Orderly(parse, history)
    && Backed(RecordAt(user, n), RetiredAt(user, n), history)
  }

  /** What an accepted update or a reset adds to the history of a source. */
  function NewEvents(before: User, after: User, n: Node): seq<Event> {
    if n in after.records then [Stored(after.records[n].epoch, after.records[n].count)]
    else if n in after.retired && (n in before.records || RetiredAt(before, n) != RetiredAt(after, n)) then [Retired(after.retired[n])]
    else []
  }

  /** What acceptance means for the source's record and retired epoch. */
  lemma ObservedFacts(parse: Parse, user: User, row: Row, node: Node, u: Update)
    requires Observed(parse, user, row, node, u).Some?
    ensures var after := Observed(parse, user, row, node, u).value;
            var previous, retired := RecordAt(user, node), RetiredAt(user, node);
            && (retired.Some? ==> Advanced(parse, retired.value, u.epoch))
            && (previous.Some? ==> Advanced(parse, previous.value.epoch, u.epoch)
                                   || (previous.value.epoch == u.epoch && previous.value.count <= u.count))
            && (RecordAt(after, node).Some? ==>
                  && RecordAt(after, node).value.epoch == u.epoch && RecordAt(after, node).value.count == u.count
                  && RetiredAt(after, node) == retired && SameCycle(user.epoch, u.epoch))
            && (RecordAt(after, node).None? ==> previous.Some? && RetiredAt(after, node) == Some(previous.value.epoch))
  {
    hide Advanced, SameCycle;
  }

  lemma ObservedElsewhere(parse: Parse, user: User, row: Row, node: Node, u: Update, n: Node)
    requires Observed(parse, user, row, node, u).Some? && n != node
    ensures var after := Observed(parse, user, row, node, u).value;
            RecordAt(after, n) == RecordAt(user, n) && RetiredAt(after, n) == RetiredAt(user, n)
  {
    hide Advanced, SameCycle;
  }

  lemma ObservedOk(parse: Parse, user: User, row: Row, node: Node, u: Update, history: seq<Event>)
    requires SourceOk(parse, user, node, history) && Observed(parse, user, row, node, u).Some?
    ensures var after := Observed(parse, user, row, node, u).value;
            SourceOk(parse, after, node, history + NewEvents(user, after, node))
  {
    hide Advanced, SameCycle, Observed;
    ObservedFacts(parse, user, row, node, u);
    var after := Observed(parse, user, row, node, u).value;
    if RecordAt(after, node).Some? {
      var e := Stored(u.epoch, u.count);
      assert NewEvents(user, after, node) == [e];
      forall i | 0 <= i < |history| ensures Advanced(parse, history[i].epoch, u.epoch)
          || (history[i].Stored? && history[i].epoch == u.epoch && history[i].count <= u.count)
      {
        BehindNow(parse, RecordAt(user, node), RetiredAt(user, node), history, i, u.epoch);
      }
    } else {
      RetiredNow(parse, user, after, node, history);
    }
  }

  /** The record becomes the retired epoch. */
  lemma RetiredNow(parse: Parse, user: User, after: User, n: Node, history: seq<Event>)
    requires SourceOk(parse, user, n, history) && n in user.records && n !in after.records
             && RetiredAt(after, n) == Some(user.records[n].epoch)
    ensures SourceOk(parse, after, n, history + NewEvents(user, after, n))
  {
    hide Advanced;
    var more := history + [Retired(user.records[n].epoch)];
    assert NewEvents(user, after, n) == [Retired(user.records[n].epoch)];
    assert more[|history|].epoch == user.records[n].epoch;
  }

  lemma BehindNow(parse: Parse, record: Option<Record>, retired: Option<Epoch>, history: seq<Event>, i: nat, e: Epoch)
    requires Behind(parse, record, retired, history) && i < |history|
    requires retired.Some? ==> Advanced(parse, retired.value, e)
    requires record.Some? ==> Advanced(parse, record.value.epoch, e) || record.value.epoch == e
    ensures Advanced(parse, history[i].epoch, e)
            || (record.Some? && record.value.epoch == e && history[i].Stored? && history[i].epoch == e
                && history[i].count <= record.value.count)
  {
    hide Advanced;
    var event := history[i];
    assert record.None? ==> retired.Some?;
    var last := if record.Some? then record.value.epoch else retired.value;
    if last != e && Advanced(parse, history[i].epoch, last) { AdvancedTransitive(parse, history[i].epoch, last, e); }
  }

  /** The reset does not put an origin behind the epoch that is retired already. */
  predicate OriginFits(parse: Parse, user: User, n: Node) {
    n in user.origins && n !in user.records && n in user.retired ==>
      user.retired[n] == user.origins[n] || Advanced(parse, user.retired[n], user.origins[n])
  }

  /** A reset keeps a source in order exactly when its origin fits. */
  lemma ClearedOk(parse: Parse, user: User, next: Epoch, n: Node, history: seq<Event>)
    requires SourceOk(parse, user, n, history)
    ensures SourceOk(parse, Cleared(user, next), n, history + NewEvents(user, Cleared(user, next), n)) <==>
              OriginFits(parse, user, n)
  {
    hide Advanced;
    var after := Cleared(user, next);
    if n in user.records {
      RetiredNow(parse, user, after, n, history);
    } else if n in user.origins {
      OriginRetired(parse, user, after, n, history);
    } else {
      assert NewEvents(user, after, n) == [] && history + [] == history;
      assert RetiredAt(after, n) == RetiredAt(user, n);
    }
  }

  lemma OriginRetired(parse: Parse, user: User, after: User, n: Node, history: seq<Event>)
    requires SourceOk(parse, user, n, history) && n in user.origins && n !in user.records
    requires n !in after.records && RetiredAt(after, n) == Some(user.origins[n])
    ensures SourceOk(parse, after, n, history + NewEvents(user, after, n)) <==> OriginFits(parse, user, n)
  {
    hide Advanced;
    var o, events := user.origins[n], NewEvents(user, after, n);
    var more := history + events;
    if RetiredAt(user, n) == Some(o) {
      assert events == [] && more == history;
    } else {
      assert events == [Retired(o)] && more[|history|].epoch == o;
      if n in user.retired {
        var k :| 0 <= k < |history| && history[k].epoch == user.retired[n];
        assert more[k] == history[k];
        if OriginFits(parse, user, n) {
          forall i | 0 <= i < |history| ensures Advanced(parse, history[i].epoch, o) {
            BehindNow(parse, None, Some(user.retired[n]), history, i, o);
          }
        }
      } else {
        assert history == [];
      }
    }
  }

  // ---------------------------------------------------------------- what a reset refuses

  /** Everything a user holds is of the user's own cycle. */
  ghost predicate InCycle(user: User) {
    && (forall n | n in user.records :: SameCycle(user.epoch, user.records[n].epoch))
    && (forall n | n in user.origins :: SameCycle(user.epoch, user.origins[n]))
  }

  lemma ObservedInCycle(parse: Parse, user: User, row: Row, node: Node, u: Update)
    requires InCycle(user) && Observed(parse, user, row, node, u).Some?
    ensures InCycle(Observed(parse, user, row, node, u).value)
  {
    hide Advanced, SameCycle;
  }

  lemma ImportedInCycle(parse: Parse, user: User, local: Node, cycleStart: Option<int>, incoming: Epoch, used: int,
                        origins: map<Node, Origin>)
    requires InCycle(user) && Adopted(user, cycleStart, incoming, used).Some?
    requires forall n | n in origins ::
              Importable(parse, Adopted(user, cycleStart, incoming, used).value, local, used, n, origins[n])
    ensures var base := Adopted(user, cycleStart, incoming, used).value;
            InCycle(base.(origins := WithOrigins(parse, base, local, origins), proven := true))
  {
    hide Advanced, SameCycle, Refuses;
    var base := Adopted(user, cycleStart, incoming, used).value;
    assert InCycle(base);
  }

  /**
   A reset that starts another cycle refuses every epoch the user held, evidence or origin, and every other epoch of
   the cycle that ended.
   */
  lemma ResetRefusesCycle(parse: Parse, user: User, next: Epoch, row: Row, n: Node, u: Update)
    requires !SameCycle(user.epoch, next) && SameCycle(user.epoch, u.epoch)
    ensures Observed(parse, Cleared(user, next), row, n, u).None?
  {
  }

  lemma ResetRefusesHeld(parse: Parse, user: User, next: Epoch, row: Row, n: Node, u: Update)
    requires InCycle(user) && !SameCycle(user.epoch, next)
    requires (n in user.records && u.epoch == user.records[n].epoch)
             || (n in user.origins && u.epoch == user.origins[n])
    ensures Observed(parse, Cleared(user, next), row, n, u).None?
  {
    hide Observed, SameCycle, Cleared;
    ResetRefusesCycle(parse, user, next, row, n, u);
  }

  /**
   The table of retired epochs alone refuses less: the evidence's epoch, and the origin's exactly when it does not
   advance the evidence of the same source.
   */
  lemma TableRefuses(parse: Parse, user: User, next: Epoch, n: Node)
    ensures n in user.records ==> n in Cleared(user, next).retired
                                  && Refuses(parse, Cleared(user, next).retired[n], user.records[n].epoch)
    ensures n in user.origins ==> n in Cleared(user, next).retired
    ensures n in user.origins ==>
              (Refuses(parse, Cleared(user, next).retired[n], user.origins[n])
               <==> !(n in user.records && Advanced(parse, user.records[n].epoch, user.origins[n])))
  {
    if n in user.records && n in user.origins && Advanced(parse, user.records[n].epoch, user.origins[n]) {
      AdvancedAsymmetric(parse, user.records[n].epoch, user.origins[n]);
    }
  }

  function Version(cycle: int, v: int): Epoch { Epoch(Int(cycle), Absent, None, Int(v)) }

  function Seen(e: Epoch, target: Epoch, count: int): Update { Update("u", target, "u", "i", 100, count, e) }

  lemma Versions(parse: Parse)
    ensures forall c, v, d, w :: Advanced(parse, Version(c, v), Version(d, w)) <==> c < d || (c == d && v < w)
    ensures forall c, v, d, w :: SameCycle(Version(c, v), Version(d, w)) <==> c == d
  {
  }

  /** Evidence of version 0 and an origin of version 1 in one cycle: the table forgets the origin. */
  lemma ForgottenOrigin(parse: Parse)
    ensures var user := User(Version(1, 0), map[], map[], map[], true);
            var one := Observed(parse, user, Row("i", 100), "a", Seen(Version(1, 0), Version(1, 0), 7));
            && one.Some? && Adopted(one.value, Some(1), Version(1, 0), 0) == Some(one.value)
            && Importable(parse, one.value, "b", 0, "a", Origin(9, Version(1, 1)))
            && var two := one.value.(origins := WithOrigins(parse, one.value, "b", map["a" := Origin(9, Version(1, 1))]));
            && InCycle(two) && two.origins == map["a" := Version(1, 1)]
            && forall next :: !Refuses(parse, Cleared(two, next).retired["a"], Version(1, 1))
  {
    hide Advanced, SameCycle, Version;
    Versions(parse);
    var user := User(Version(1, 0), map[], map[], map[], true);
    var one := Observed(parse, user, Row("i", 100), "a", Seen(Version(1, 0), Version(1, 0), 7)).value;
    assert one.records == map["a" := Record("u", "i", 100, 7, Version(1, 0), Version(1, 0))];
  }

  /**
   An origin of version 0, evidence of version 1, and a source that moves on to the next cycle: version 1 is retired,
   and the reset puts the table back to version 0.
   */
  lemma TableGoesBack(parse: Parse)
    ensures var user := User(Version(1, 0), map[], map[], map["a" := Version(1, 0)], true);
            var one := Observed(parse, user, Row("i", 100), "a", Seen(Version(1, 1), Version(1, 0), 7));
            && InCycle(user) && one.Some?
            && var two := Observed(parse, one.value, Row("i", 100), "a", Seen(Version(2, 0), Version(1, 0), 1));
            && two.Some? && two.value.retired == map["a" := Version(1, 1)] && two.value.records == map[]
            && !OriginFits(parse, two.value, "a")
            && forall next :: Cleared(two.value, next).retired == map["a" := Version(1, 0)]
                              && !Refuses(parse, Version(1, 0), Version(1, 1))
  {
    hide Advanced, SameCycle, Version;
    Versions(parse);
    var user := User(Version(1, 0), map[], map[], map["a" := Version(1, 0)], true);
    var one := Observed(parse, user, Row("i", 100), "a", Seen(Version(1, 1), Version(1, 0), 7)).value;
    assert one.records == map["a" := Record("u", "i", 100, 7, Version(1, 1), Version(1, 0))];
    var two := Observed(parse, one, Row("i", 100), "a", Seen(Version(2, 0), Version(1, 0), 1)).value;
    assert two.records == map[];
  }

  // ---------------------------------------------------------------- cycles that do not repeat

  /** No epoch is stored after it was retired. */
  ghost predicate NoReturn(history: seq<Event>) {
    forall i, j | 0 <= i < j < |history| && history[i].Retired? && history[j].Stored? ::
        history[i].epoch != history[j].epoch
  }

  /** What happened in the user's present cycle is behind what the user holds. */
  ghost predicate BehindInCycle(parse: Parse, user: User, n: Node, history: seq<Event>) {
    var record, retired := RecordAt(user, n), RetiredAt(user, n);
    && (record.Some? && retired.Some? ==> Advanced(parse, retired.value, record.value.epoch))
    && (forall i | 0 <= i < |history| && SameCycle(user.epoch, history[i].epoch) ::
          && (record.Some? ==> || Advanced(parse, history[i].epoch, record.value.epoch)
                               || (history[i].Stored? && history[i].epoch == record.value.epoch))
          && (record.None? ==> retired.Some?
                               && (history[i].epoch == retired.value
                                   || Advanced(parse, history[i].epoch, retired.value))))
  }

  /** Every event is of the present cycle or of one the user has left. */
  ghost predicate OfCycles(e: Epoch, past: set<Epoch>, history: seq<Event>) {
    forall i | 0 <= i < |history| :: SameCycle(e, history[i].epoch) || exists p | p in past ::
        SameCycle(p, history[i].epoch)
  }

  ghost predicate CycleOk(parse: Parse, user: User, past: set<Epoch>, n: Node, history: seq<Event>) {
    BehindInCycle(parse, user, n, history) && OfCycles(user.epoch, past, history) && NoReturn(history)
  }

  /** The user has never been in this cycle. */
  predicate NewCycle(e: Epoch, past: set<Epoch>, next: Epoch) {
    !SameCycle(e, next) && forall p | p in past :: !SameCycle(p, next)
  }

  lemma ObservedCycleOk(parse: Parse, user: User, past: set<Epoch>, row: Row, node: Node, u: Update,
                        history: seq<Event>)
    requires CycleOk(parse, user, past, node, history) && InCycle(user) && Observed(parse, user, row, node, u).Some?
    ensures var after := Observed(parse, user, row, node, u).value;
            CycleOk(parse, after, past, node, history + NewEvents(user, after, node))
  {
    hide Advanced, SameCycle, Observed;
    ObservedFacts(parse, user, row, node, u);
    ObservedEpoch(parse, user, row, node, u);
    var after := Observed(parse, user, row, node, u).value;
    if RecordAt(after, node).Some? {
      assert NewEvents(user, after, node) == [Stored(u.epoch, u.count)];
      forall i | 0 <= i < |history|
        ensures SameCycle(user.epoch, history[i].epoch) ==>
                  Advanced(parse, history[i].epoch, u.epoch) || (history[i].Stored? && history[i].epoch == u.epoch)
        ensures history[i].Retired? ==> history[i].epoch != u.epoch
      {
        StoredAfter(parse, user, node, history, i, u.epoch);
      }
    } else {
      assert NewEvents(user, after, node) == [Retired(user.records[node].epoch)];
      assert SameCycle(user.epoch, user.records[node].epoch);
    }
  }

  lemma StoredAfter(parse: Parse, user: User, n: Node, history: seq<Event>, i: nat, e: Epoch)
    requires BehindInCycle(parse, user, n, history) && i < |history| && SameCycle(user.epoch, e)
    requires RetiredAt(user, n).Some? ==> Advanced(parse, RetiredAt(user, n).value, e)
    requires RecordAt(user, n).Some? ==>
              Advanced(parse, RecordAt(user, n).value.epoch, e) || RecordAt(user, n).value.epoch == e
    ensures SameCycle(user.epoch, history[i].epoch) ==>
              Advanced(parse, history[i].epoch, e) || (history[i].Stored? && history[i].epoch == e)
    ensures history[i].Retired? ==> history[i].epoch != e
  {
    hide Advanced, SameCycle;
    var event := history[i];
    if SameCycle(user.epoch, event.epoch) {
      var record := RecordAt(user, n);
      var last := if record.Some? then record.value.epoch else RetiredAt(user, n).value;
      if Advanced(parse, event.epoch, last) && last != e { AdvancedTransitive(parse, event.epoch, last, e); }
      AdvancedIrreflexive(parse, e);
    }
  }

  lemma ObservedEpoch(parse: Parse, user: User, row: Row, node: Node, u: Update)
    requires Observed(parse, user, row, node, u).Some?
    ensures Observed(parse, user, row, node, u).value.epoch == user.epoch
  {
    hide Advanced, SameCycle;
  }

  lemma SameCycles(parse: Parse, a: User, b: User, past: set<Epoch>, n: Node, history: seq<Event>)
    requires CycleOk(parse, a, past, n, history) && RecordAt(a, n) == RecordAt(b, n)
             && RetiredAt(a, n) == RetiredAt(b, n)
    requires SameCycle(a.epoch, b.epoch)
    ensures CycleOk(parse, b, past, n, history)
  {
    hide Advanced;
  }

  /** A change to a cycle the user was never in leaves nothing behind in it. */
  lemma CycleChanged(parse: Parse, user: User, past: set<Epoch>, after: User, n: Node, history: seq<Event>,
                     more: seq<Event>)
    requires CycleOk(parse, user, past, n, history) && NewCycle(user.epoch, past, after.epoch) && n !in after.records
    requires forall i | 0 <= i < |more| :: more[i].Retired? && SameCycle(user.epoch, more[i].epoch)
    ensures CycleOk(parse, after, past + {user.epoch}, n, history + more)
  {
    hide Advanced;
    var all := history + more;
    forall i | 0 <= i < |all|
      ensures !SameCycle(after.epoch, all[i].epoch) && exists p | p in past + {user.epoch} :: SameCycle(p, all[i].epoch)
    {
      if i >= |history| || SameCycle(user.epoch, all[i].epoch) {
        assert i >= |history| ==> all[i] == more[i - |history|];
        assert user.epoch in past + {user.epoch} && SameCycle(user.epoch, all[i].epoch);
      } else {
        var p :| p in past && SameCycle(p, history[i].epoch);
        assert p in past + {user.epoch};
      }
    }
  }

  lemma ClearedEvents(user: User, next: Epoch, n: Node)
    requires InCycle(user)
    ensures var more := NewEvents(user, Cleared(user, next), n);
            forall i | 0 <= i < |more| :: more[i].Retired? && SameCycle(user.epoch, more[i].epoch)
  {
    hide SameCycle;
  }

  // ---------------------------------------------------------------- the store

  type Histories = map<(UserId, Node), seq<Event>>

  function HistoryOf(h: Histories, u: UserId, n: Node): seq<Event> { if (u, n) in h then h[(u, n)] else [] }

  const BLANK := User(Epoch(Absent, Absent, None, Int(0)), map[], map[], map[], true)

  function UserOf(users: map<UserId, User>, u: UserId): User { if u in users then users[u] else BLANK }

  /** The update passes every check against the store before the call. */
  predicate Observable(parse: Parse, users: map<UserId, User>, rows: map<UserId, Row>, source: Node, u: Update) {
    u.target in rows && Observed(parse, UserOf(users, u.target), rows[u.target], source, u).Some?
  }

  ghost predicate AllInCycle(users: map<UserId, User>) {
    forall u | u in users :: InCycle(users[u])
  }

  ghost predicate AllOk(parse: Parse, users: map<UserId, User>, h: Histories) {
    forall u, n :: SourceOk(parse, UserOf(users, u), n, HistoryOf(h, u, n))
  }

  /** The loop over the origins of an import; None where one of them raises. */
  method MergeOrigins(parse: Parse, user: User, local: Node, used: int,
                      origins: map<Node, Origin>) returns (r: Option<map<Node, Epoch>>)
    ensures r.Some? <==> forall n | n in origins :: Importable(parse, user, local, used, n, origins[n])
    ensures r.Some? ==> r.value == WithOrigins(parse, user, local, origins)
  {
    hide Importable, MergedSoFar, WithOrigins;
    var stored, left := user.origins, origins.Keys;
    StoredNone(parse, user, local, origins);
    while left != {}
      invariant left <= origins.Keys
      invariant forall n | n in origins && n !in left :: Importable(parse, user, local, used, n, origins[n])
      invariant MergedSoFar(parse, user, local, origins, left, stored)
    {
      var n :| n in left;
      if !Importable(parse, user, local, used, n, origins[n]) { return None; }
      StoredOne(parse, user, local, origins, left, stored, n);
      if n != local {
        stored := stored[n := Merged(parse, if n in stored then Some(stored[n]) else None, origins[n].epoch)];
      }
      left := left - {n};
    }
    StoredAll(parse, user, local, origins, stored);
    r := Some(stored);
  }

  /** The origins but for those still left are merged. */
  ghost predicate MergedSoFar(parse: Parse, user: User, local: Node, origins: map<Node, Origin>, left: set<Node>,
                              stored: map<Node, Epoch>) {
    && (forall n :: (n in stored <==> n in user.origins || (n in origins && n !in left && n != local)))
    && (forall n | n in stored ::
          stored[n] == if n in origins && n !in left
                          && n != local then Merged(parse, OriginAt(user, n), origins[n].epoch)
                       else user.origins[n])
  }

  lemma StoredNone(parse: Parse, user: User, local: Node, origins: map<Node, Origin>)
    ensures MergedSoFar(parse, user, local, origins, origins.Keys, user.origins)
  {
  }

  lemma StoredOne(parse: Parse, user: User, local: Node, origins: map<Node, Origin>, left: set<Node>,
                  stored: map<Node, Epoch>, n: Node)
    requires MergedSoFar(parse, user, local, origins, left, stored) && n in left && n in origins
    ensures var more := if n == local then stored
                        else stored[n := Merged(parse, if n in stored then Some(stored[n]) else None, origins[n].epoch)];
            MergedSoFar(parse, user, local, origins, left - {n}, more)
  {
    hide Merged;
  }

  lemma StoredAll(parse: Parse, user: User, local: Node, origins: map<Node, Origin>, stored: map<Node, Epoch>)
    requires MergedSoFar(parse, user, local, origins, {}, stored)
    ensures stored == WithOrigins(parse, user, local, origins)
  {
    hide Merged;
  }

  type Cycles = map<UserId, set<Epoch>>

  function PastOf(past: Cycles, u: UserId): set<Epoch> { if u in past then past[u] else {} }

  ghost predicate AllCycles(parse: Parse, users: map<UserId, User>, past: Cycles, h: Histories) {
    forall u, n :: CycleOk(parse, UserOf(users, u), PastOf(past, u), n, HistoryOf(h, u, n))
  }

  class Store {
    const parse: Parse
    var users: map<UserId, User>
    ghost var histories: Histories
    ghost var past: Cycles         // the cycles each user has left
    ghost var repeated: bool       // some user came back to a cycle

    ghost predicate Valid()
      reads this
    {
      AllInCycle(users) && (!repeated ==> AllCycles(parse, users, past, histories))
    }

    /** As long as no cycle repeats, no epoch is stored again once it was retired, whatever origins there were. */
    lemma NeverStoredAgain(u: UserId, n: Node, i: nat, j: nat)
      requires Valid() && !repeated && i < j < |HistoryOf(histories, u, n)|
      requires HistoryOf(histories, u, n)[i].Retired? && HistoryOf(histories, u, n)[j].Stored?
      ensures HistoryOf(histories, u, n)[i].epoch != HistoryOf(histories, u, n)[j].epoch
    {
      hide BehindInCycle, OfCycles;
      assert CycleOk(parse, UserOf(users, u), PastOf(past, u), n, HistoryOf(histories, u, n));
    }

    /** Every source's evidence moved along advancing epochs, and no retired epoch was stored again. */
    ghost predicate InOrder()
      reads this
    {
      AllOk(parse, users, histories)
    }

    constructor (parse: Parse)
      ensures Valid() && InOrder() && this.parse == parse && users == map[] && histories == map[] && !repeated
    {
      this.parse, users, histories, past, repeated := parse, map[], map[], map[], false;
    }

    /**
     `apply_observation` with its commit: all updates or none. `age` is the observation's age in seconds.
     */
    method ApplyObservation(rows: map<UserId, Row>, local: Node, source: Node, age: int,
                            updates: seq<Update>) returns (ok: bool)
      requires Valid()
      modifies this
      ensures Valid() && (old(InOrder()) ==> InOrder()) && repeated == old(repeated) && past == old(past)
      ensures !ok ==> users == old(users) && histories == old(histories)
      ensures ok <==> && -15 <= age <= 120 && source != "" && source != local && 1 <= |updates| <= 50
                      && (forall i, j | 0 <= i < j < |updates| :: updates[i].target != updates[j].target)
                      && (forall i | 0 <= i < |updates| :: Observable(parse, old(users), rows, source, updates[i]))
      ensures ok ==> forall i | 0 <= i < |updates| ::
                && updates[i].target in rows && updates[i].target in users
                && Observed(parse, UserOf(old(users), updates[i].target), rows[updates[i].target], source, updates[i])
                   == Some(users[updates[i].target])
      ensures ok ==> forall u | u in users && (forall i | 0 <= i < |updates| :: updates[i].target != u) ::
                u in old(users) && users[u] == old(users)[u]
    {
      hide AllOk, AllCycles, Observed, InCycle;
      if !(-15 <= age <= 120) || source == "" || source == local || |updates| < 1
         || |updates| > MAX_UPDATES { return false; }
      if exists i, j | 0 <= i < j < |updates| :: updates[i].target == updates[j].target { return false; }
      var staged := users;
      ghost var h := histories;
      for i := 0 to |updates|
        invariant users == old(users) && histories == old(histories) && AllInCycle(staged)
                  && (old(InOrder()) ==> AllOk(parse, staged, h))
        invariant past == old(past) && repeated == old(repeated) && (!repeated ==> AllCycles(parse, staged, past, h))
        invariant forall k | 0 <= k < i ::
                && updates[k].target in rows && updates[k].target in staged
                && Observed(parse, UserOf(users, updates[k].target), rows[updates[k].target], source, updates[k])
                   == Some(staged[updates[k].target])
        invariant forall u | u in staged && (forall k | 0 <= k < i :: updates[k].target != u) ::
                  u in users && staged[u] == users[u]
        invariant forall k | i <= k < |updates| :: UserOf(staged, updates[k].target) == UserOf(users, updates[k].target)
      {
        var u := updates[i].target;
        if u !in rows {
          assert !Observable(parse, users, rows, source, updates[i]);
          return false;
        }
        var after := Observed(parse, UserOf(staged, u), rows[u], source, updates[i]);
        if after.None? {
          assert !Observable(parse, users, rows, source, updates[i]);
          return false;
        }
        if old(InOrder()) { StepOk(parse, staged, h, u, rows[u], source, updates[i]); }
        UserInCycle(staged, u);
        if !repeated { StepCycles(parse, staged, past, h, u, rows[u], source, updates[i]); }
        ObservedInCycle(parse, UserOf(staged, u), rows[u], source, updates[i]);
        h := h[(u, source) := HistoryOf(h, u, source) + NewEvents(UserOf(staged, u), after.value, source)];
        staged := staged[u := after.value];
      }
      users, histories := staged, h;
      ok := true;
    }

    /** `import_origins`: all origins or none; a counter never takes over from one it does not advance. */
    method ImportOrigins(u: UserId, origins: map<Node, Origin>, local: Node, cycleStart: Option<int>, incoming: Epoch,
                         used: int) returns (ok: bool)
      requires Valid()
      modifies `users, `past, `repeated
      ensures Valid() && (old(InOrder()) ==> InOrder())
      ensures !ok ==> users == old(users) && repeated == old(repeated)
      ensures var base := Adopted(UserOf(old(users), u), cycleStart, incoming, used);
              ok <==> && UserOf(old(users), u).proven && base.Some?
                      && (forall n | n in origins :: Importable(parse, base.value, local, used, n, origins[n]))
                      && |WithOrigins(parse, base.value, local, origins)| <= 8
      ensures ok ==> var base := Adopted(UserOf(old(users), u), cycleStart, incoming, used).value;
                && users == old(users)[u := base.(origins := WithOrigins(parse, base, local, origins), proven := true)]
                && var user := UserOf(old(users), u);
                   repeated <==> old(repeated) || !(SameCycle(user.epoch, base.epoch)
                                                    || NewCycle(user.epoch, PastOf(old(past), u), base.epoch))
    {
      hide AllOk, AllCycles, SameCycle, NewCycle, InCycle, Adopted, Importable, Merged, WithOrigins;
      var user := UserOf(users, u);
      if !user.proven { return false; }
      var base := Adopted(user, cycleStart, incoming, used);
      if base.None? { return false; }
      var stored := MergeOrigins(parse, base.value, local, used, origins);
      if stored.None? || |stored.value| > MAX_SOURCES { return false; }
      UserInCycle(users, u);
      ImportedInCycle(parse, user, local, cycleStart, incoming, used, origins);
      AdoptedSources(user, cycleStart, incoming, used);
      var after := base.value.(origins := stored.value, proven := true);
      if InOrder() { SameSources(parse, users, histories, u, after); }
      if SameCycle(user.epoch, after.epoch) {
        if !repeated { KeptCycles(parse, users, past, histories, u, after); }
      } else {
        repeated := repeated || !NewCycle(user.epoch, PastOf(past, u), after.epoch);
        if !repeated { AdoptedCycles(parse, users, past, histories, u, after, cycleStart, incoming, used); }
        past := past[u := PastOf(past, u) + {user.epoch}];
      }
      users := users[u := after];
      ok := true;
    }

    /**
     An authorised reset, with the cycle it starts. The histories stay in order exactly when no origin of the user
     is behind the epoch that is retired for its source.
     */
    method Reset(u: UserId, next: Epoch) returns (ok: bool)
      requires Valid()
      modifies this
      ensures Valid()
      ensures ok <==> ResetVersion(UserOf(old(users), u)).Some?
      ensures var version := UserOf(old(users), u).epoch.version;
              && (ok <==> version.Absent? || (version.Int? && version.n >= 0))
              && (ok ==> u in users && users[u].records == map[] && users[u].origins == map[] && users[u].proven)
              && (ok ==> u in users && users[u].epoch == next.(version := Int(if version.Int? then version.n + 1 else 1)))
      ensures !ok ==> users == old(users) && histories == old(histories)
      ensures ok ==> var version := ResetVersion(UserOf(old(users), u)).value;
                users == old(users)[u := Cleared(UserOf(old(users), u), next.(version := Int(version)))]
      ensures ok && old(InOrder()) ==> (InOrder() <==> forall n :: OriginFits(parse, UserOf(old(users), u), n))
      ensures !ok ==> repeated == old(repeated)
      ensures ok ==> (repeated <==> old(repeated)
                                    || !NewCycle(UserOf(old(users), u).epoch, PastOf(old(past), u), users[u].epoch))
      ensures ok ==> past == old(past)[u := PastOf(old(past), u) + {UserOf(old(users), u).epoch}]
    {
      hide AllOk, AllCycles, Cleared, NewCycle, InCycle, OriginFits;
      var user := UserOf(users, u);
      var version := ResetVersion(user);
      if version.None? { return false; }
      var after := Cleared(user, next.(version := Int(version.value)));
      ClearedInCycle(user, next.(version := Int(version.value)));
      ClearedEpoch(user, next.(version := Int(version.value)));
      ClearedMeans(user, next.(version := Int(version.value)));
      if InOrder() { ResetOk(parse, users, histories, u, next.(version := Int(version.value))); }
      repeated := repeated || !NewCycle(user.epoch, PastOf(past, u), after.epoch);
      UserInCycle(users, u);
      if !repeated { ResetCycles(parse, users, past, histories, u, next.(version := Int(version.value))); }
      past := past[u := PastOf(past, u) + {user.epoch}];
      histories := ResetHistories(histories, u, user, after);
      users := users[u := after];
      ok := true;
    }
  }

  lemma UserInCycle(users: map<UserId, User>, u: UserId)
    requires AllInCycle(users)
    ensures InCycle(UserOf(users, u))
  {
  }

  lemma ClearedInCycle(user: User, next: Epoch)
    ensures InCycle(Cleared(user, next))
  {
  }

  lemma AdoptedSources(user: User, cycleStart: Option<int>, incoming: Epoch, used: int)
    requires Adopted(user, cycleStart, incoming, used).Some?
    ensures var base := Adopted(user, cycleStart, incoming, used).value; base.records == user.records && base.retired == user.retired
  {
    hide SameCycle;
  }

  lemma SameSources(parse: Parse, users: map<UserId, User>, h: Histories, u: UserId, after: User)
    requires AllOk(parse, users, h) && after.records == UserOf(users, u).records
             && after.retired == UserOf(users, u).retired
    ensures AllOk(parse, users[u := after], h)
  {
    hide SourceOk;
    forall v, n ensures SourceOk(parse, UserOf(users[u := after], v), n, HistoryOf(h, v, n)) {
      assert SourceOk(parse, UserOf(users, v), n, HistoryOf(h, v, n));
      if v == u { SameSource(parse, UserOf(users, u), after, n, HistoryOf(h, v, n)); }
    }
  }

  lemma StepOk(parse: Parse, users: map<UserId, User>, h: Histories, u: UserId, row: Row, node: Node, update: Update)
    requires AllOk(parse, users, h) && Observed(parse, UserOf(users, u), row, node, update).Some?
    ensures var after := Observed(parse, UserOf(users, u), row, node, update).value;
            AllOk(parse, users[u := after], h[(u, node) := HistoryOf(h, u, node) + NewEvents(UserOf(users, u), after, node)])
  {
    hide Observed, SourceOk;
    var user, after := UserOf(users, u), Observed(parse, UserOf(users, u), row, node, update).value;
    var h' := h[(u, node) := HistoryOf(h, u, node) + NewEvents(user, after, node)];
    ObservedOk(parse, user, row, node, update, HistoryOf(h, u, node));
    forall v, n ensures SourceOk(parse, UserOf(users[u := after], v), n, HistoryOf(h', v, n)) {
      assert SourceOk(parse, UserOf(users, v), n, HistoryOf(h, v, n));
      if v == u && n != node {
        ObservedElsewhere(parse, user, row, node, update, n);
        SameSource(parse, user, after, n, HistoryOf(h, u, n));
      }
    }
  }

  lemma SameSource(parse: Parse, a: User, b: User, n: Node, history: seq<Event>)
    requires SourceOk(parse, a, n, history) && RecordAt(a, n) == RecordAt(b, n) && RetiredAt(a, n) == RetiredAt(b, n)
    ensures SourceOk(parse, b, n, history)
  {
  }

  ghost function ResetHistories(h: Histories, u: UserId, before: User, after: User): Histories {
    h + map n | n in after.retired :: (u, n) := HistoryOf(h, u, n) + NewEvents(before, after, n)
  }

  lemma ResetHistory(h: Histories, u: UserId, before: User, next: Epoch, v: UserId, n: Node)
    ensures var after := Cleared(before, next);
            HistoryOf(ResetHistories(h, u, before, after), v, n)
            == if v == u then HistoryOf(h, u, n) + NewEvents(before, after, n) else HistoryOf(h, v, n)
  {
    var after := Cleared(before, next);
    if v == u && n !in after.retired {
      assert NewEvents(before, after, n) == [] && HistoryOf(h, u, n) + [] == HistoryOf(h, u, n);
    }
  }

  lemma ResetOk(parse: Parse, users: map<UserId, User>, h: Histories, u: UserId, next: Epoch)
    requires AllOk(parse, users, h)
    ensures var before, after := UserOf(users, u), Cleared(UserOf(users, u), next);
            AllOk(parse, users[u := after], ResetHistories(h, u, before, after)) <==> forall n ::
                OriginFits(parse, before, n)
  {
    hide SourceOk, OriginFits, Cleared, ResetHistories, NewEvents;
    var before, after := UserOf(users, u), Cleared(UserOf(users, u), next);
    var h' := ResetHistories(h, u, before, after);
    forall v, n
      ensures SourceOk(parse, UserOf(users[u := after], v), n, HistoryOf(h', v, n)) <==>
                (v == u ==> OriginFits(parse, before, n))
    {
      assert SourceOk(parse, UserOf(users, v), n, HistoryOf(h, v, n));
      ResetHistory(h, u, before, next, v, n);
      if v == u { ClearedOk(parse, before, next, n, HistoryOf(h, u, n)); }
    }
    if AllOk(parse, users[u := after], h') {
      forall n ensures OriginFits(parse, before, n) {
        assert SourceOk(parse, UserOf(users[u := after], u), n, HistoryOf(h', u, n));
      }
    }
  }

  lemma ClearedEpoch(user: User, next: Epoch)
    ensures Cleared(user, next).epoch == next && Cleared(user, next).records == map[]
  {
  }

  lemma StepCycles(parse: Parse, users: map<UserId, User>, past: Cycles, h: Histories, u: UserId, row: Row, node: Node,
                   update: Update)
    requires AllCycles(parse, users, past, h) && InCycle(UserOf(users, u))
             && Observed(parse, UserOf(users, u), row, node, update).Some?
    ensures var after := Observed(parse, UserOf(users, u), row, node, update).value;
            AllCycles(parse, users[u := after], past, h[(u, node) := HistoryOf(h, u, node) + NewEvents(UserOf(users, u), after, node)])
  {
    hide Observed, CycleOk, InCycle;
    var user, after := UserOf(users, u), Observed(parse, UserOf(users, u), row, node, update).value;
    var h' := h[(u, node) := HistoryOf(h, u, node) + NewEvents(user, after, node)];
    ObservedCycleOk(parse, user, PastOf(past, u), row, node, update, HistoryOf(h, u, node));
    ObservedEpoch(parse, user, row, node, update);
    forall v, n ensures CycleOk(parse, UserOf(users[u := after], v), PastOf(past, v), n, HistoryOf(h', v, n)) {
      assert CycleOk(parse, UserOf(users, v), PastOf(past, v), n, HistoryOf(h, v, n));
      if v == u && n != node {
        ObservedElsewhere(parse, user, row, node, update, n);
        SameCycles(parse, user, after, PastOf(past, u), n, HistoryOf(h, u, n));
      }
    }
  }

  lemma KeptCycles(parse: Parse, users: map<UserId, User>, past: Cycles, h: Histories, u: UserId, after: User)
    requires AllCycles(parse, users, past, h) && SameCycle(UserOf(users, u).epoch, after.epoch)
    requires after.records == UserOf(users, u).records && after.retired == UserOf(users, u).retired
    ensures AllCycles(parse, users[u := after], past, h)
  {
    hide CycleOk, SameCycle;
    forall v, n ensures CycleOk(parse, UserOf(users[u := after], v), PastOf(past, v), n, HistoryOf(h, v, n)) {
      assert CycleOk(parse, UserOf(users, v), PastOf(past, v), n, HistoryOf(h, v, n));
      if v == u { SameCycles(parse, UserOf(users, u), after, PastOf(past, u), n, HistoryOf(h, v, n)); }
    }
  }

  lemma AdoptedCycles(parse: Parse, users: map<UserId, User>, past: Cycles, h: Histories, u: UserId, after: User,
                      cycleStart: Option<int>, incoming: Epoch, used: int)
    requires AllCycles(parse, users, past, h) && NewCycle(UserOf(users, u).epoch, PastOf(past, u), after.epoch)
    requires Adopted(UserOf(users, u), cycleStart, incoming, used).Some?
    requires after == Adopted(UserOf(users, u), cycleStart, incoming, used).value.(origins := after.origins, proven := true)
    ensures AllCycles(parse, users[u := after], past[u := PastOf(past, u) + {UserOf(users, u).epoch}], h)
  {
    hide CycleOk, SameCycle;
    var user := UserOf(users, u);
    AdoptedEmpty(user, cycleStart, incoming, used, after.epoch, PastOf(past, u));
    var later := past[u := PastOf(past, u) + {user.epoch}];
    forall v, n ensures CycleOk(parse, UserOf(users[u := after], v), PastOf(later, v), n, HistoryOf(h, v, n)) {
      assert CycleOk(parse, UserOf(users, v), PastOf(past, v), n, HistoryOf(h, v, n));
      if v == u {
        CycleChanged(parse, user, PastOf(past, u), after, n, HistoryOf(h, u, n), []);
        assert HistoryOf(h, u, n) + [] == HistoryOf(h, u, n);
      }
    }
  }

  /** Only a user without evidence adopts another cycle. */
  lemma AdoptedEmpty(user: User, cycleStart: Option<int>, incoming: Epoch, used: int, next: Epoch, past: set<Epoch>)
    requires Adopted(user, cycleStart, incoming, used).Some?
             && next == Adopted(user, cycleStart, incoming, used).value.epoch
    requires NewCycle(user.epoch, past, next)
    ensures Adopted(user, cycleStart, incoming, used).value.records == map[]
  {
  }

  lemma ResetCycles(parse: Parse, users: map<UserId, User>, past: Cycles, h: Histories, u: UserId, next: Epoch)
    requires AllCycles(parse, users, past, h) && InCycle(UserOf(users, u))
             && NewCycle(UserOf(users, u).epoch, PastOf(past, u), next)
    ensures var before, after := UserOf(users, u), Cleared(UserOf(users, u), next);
            AllCycles(parse, users[u := after], past[u := PastOf(past, u) + {before.epoch}], ResetHistories(h, u, before, after))
  {
    hide CycleOk, SameCycle, Cleared, InCycle, ResetHistories, NewEvents, NewCycle;
    var before, after := UserOf(users, u), Cleared(UserOf(users, u), next);
    var h', past' := ResetHistories(h, u, before, after), past[u := PastOf(past, u) + {before.epoch}];
    ClearedEpoch(before, next);
    forall v, n ensures CycleOk(parse, UserOf(users[u := after], v), PastOf(past', v), n, HistoryOf(h', v, n)) {
      assert CycleOk(parse, UserOf(users, v), PastOf(past, v), n, HistoryOf(h, v, n));
      ResetHistory(h, u, before, next, v, n);
      if v == u {
        ClearedEvents(before, next, n);
        CycleChanged(parse, before, PastOf(past, u), after, n, HistoryOf(h, u, n), NewEvents(before, after, n));
      }
    }
  }
}
