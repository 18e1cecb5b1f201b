/**
 Versioned node operations of one scope (node, asset): the lexicographic version fence, the readback
 that must precede a retry, and crashes between durable writes. The scope's file lock is what makes
 `execute` and `reconcile` of the scope run one after another.
 */
module Operations {
  import opened Basics

  type Id = string
  type Hash = string
  type Payload = string

  const MAX_INT: nat := 0x7FFF_FFFF_FFFF_FFFF

  datatype Version = Version(generation: nat, desired: nat)

  /** Python's tuple order. */
  predicate Less(a: Version, b: Version) {
    a.generation < b.generation || (a.generation == b.generation && a.desired < b.desired)
  }

  predicate AtMost(a: Version, b: Version) { a == b || Less(a, b) }

  predicate WellFormed(o: Command) {
    1 <= o.version.generation <= MAX_INT && 1 <= o.version.desired <= MAX_INT
  }

  /** `rest` stands for the node, asset, owner and action fields that only the request hash looks at. */
  datatype Command = Command(id: Id, version: Version, rest: string)

  type Operation = o: Command | WellFormed(o) witness Command("", Version(1, 1), "")

  datatype Status = APPLYING | APPLIED | UNKNOWN | REJECTED

  datatype Row = Row(hash: Hash, version: Version, status: Status)

  datatype Fence = Fence(version: Version, holder: Id)

  datatype Observed = ObservedApplied | ObservedNotApplied | ObservedUnknown

  /** What a readback callback gives: it raises, or it names an operation and a status. */
  datatype Evidence = Raised | Evidence(id: Id, hash: Hash, version: Version, status: Option<Observed>)

  /** How an apply callback ends. */
  datatype Ending = Returned | PreconditionFailed | Failed

  /** The callbacks that ran, with the fence at that moment. */
  datatype Event =
    | Apply(id: Id, version: Version, fence: Option<Fence>)
    | Readback(id: Id, version: Version, observed: Observed)

  datatype Receipt = Receipt(id: Id, version: Version, hash: Hash, status: Status, current: bool, accepted: Version, replayed: bool)

  datatype Result = Done(receipt: Receipt) | Missing | OperationConflict | LostFence | Crashed

  function Observe(op: Operation, hash: Hash, evidence: Evidence): (o: Observed)
    ensures forall definite | definite in {ObservedApplied, ObservedNotApplied} ::
              o == definite <==> evidence == Evidence(op.id, hash, op.version, Some(definite))
  {
    if evidence.Raised? || evidence.id != op.id || evidence.hash != hash || evidence.version != op.version
       || evidence.status.None?
    then ObservedUnknown
    else evidence.status.value
  }

  // ---------------------------------------------------------------- the log of callbacks

  ghost predicate ReadbackBetween(log: seq<Event>, i: nat, j: nat)
    requires i < j < |log|
  {
    exists k | i < k < j :: log[k] == Readback(log[j].id, log[j].version, ObservedNotApplied)
  }

  /** Versions never go back, a version belongs to one operation, and a retry follows a negative readback. */
  ghost predicate Ordered(log: seq<Event>) {
    && (forall i | 0 <= i < |log| && log[i].Apply? :: log[i].fence == Some(Fence(log[i].version, log[i].id)))
    && (forall i, j | 0 <= i < j < |log| && log[i].Apply? && log[j].Apply? ::
          && AtMost(log[i].version, log[j].version)
          && (log[i].version == log[j].version ==> log[i].id == log[j].id && ReadbackBetween(log, i, j)))
  }

  /** The order of versions in the numbers themselves: the generation decides, then the desired version. */
  ghost predicate Before(a: Version, b: Version) {
    || a.generation < b.generation
    || (a.generation == b.generation && a.desired < b.desired)
  }

  /** Generations never fall from one apply to a later one, and inside a generation desired versions do not. */
  ghost predicate NeverBack(log: seq<Event>) {
    forall i, j | 0 <= i < j < |log| && log[i].Apply? && log[j].Apply? ::
      && log[i].version.generation <= log[j].version.generation
      && (log[i].version.generation == log[j].version.generation ==> log[i].version.desired <= log[j].version.desired)
  }

  lemma OrderedForward(log: seq<Event>)
    requires Ordered(log)
    ensures NeverBack(log)
  {
  }

  /** No apply callback has run beyond the fence. */
  ghost predicate Behind(log: seq<Event>, fence: Option<Fence>) {
    forall i | 0 <= i < |log| && log[i].Apply? ::
      && fence.Some? && AtMost(log[i].version, fence.value.version)
      && (log[i].version == fence.value.version ==> log[i].id == fence.value.holder)
  }

  /** An APPLIED row rests on a positive readback that no later apply of the operation has overtaken. */
  ghost predicate Backed(log: seq<Event>, id: Id) {
    exists k | 0 <= k < |log| ::
      && log[k].Readback? && log[k].id == id && log[k].observed.ObservedApplied?
      && forall j | k < j < |log| :: log[j].Apply? ==> log[j].id != id
  }

  // ---------------------------------------------------------------- the rows

  ghost predicate Bound(digest: (Operation, Payload) -> Hash, id: Id, row: Row) {
    exists op: Operation, payload :: op.id == id && digest(op, payload) == row.hash && op.version == row.version
  }

  ghost predicate RowsOk(digest: (Operation, Payload) -> Hash, rows: map<Id, Row>, fence: Option<Fence>) {
    && (fence.None? ==> rows == map[])
    && (fence.Some? ==> fence.value.holder in rows && rows[fence.value.holder].version == fence.value.version)
    && (forall id | id in rows ::
          && Bound(digest, id, rows[id])
          && fence.Some? && AtMost(rows[id].version, fence.value.version)
          && (rows[id].version == fence.value.version && id != fence.value.holder ==> rows[id].status.REJECTED?))
  }

  ghost predicate Injective(digest: (Operation, Payload) -> Hash) {
    forall o, p, o', p' :: digest(o, p) == digest(o', p') ==> o == o' && p == p'
  }

  lemma SameVersion(digest: (Operation, Payload) -> Hash, op: Operation, payload: Payload, row: Row)
    requires Injective(digest) && Bound(digest, op.id, row) && digest(op, payload) == row.hash
    ensures op.version == row.version
  {
  }

  /** What a run may do to the rows: identities are fixed and REJECTED is final. */
  ghost predicate Lasts(before: map<Id, Row>, after: map<Id, Row>) {
    forall id | id in before ::
      && id in after && after[id].hash == before[id].hash && after[id].version == before[id].version
      && (before[id].status.REJECTED? ==> after[id].status.REJECTED?)
  }

  /** A call touches the row of its own operation only. */
  ghost predicate OnlyRow(before: map<Id, Row>, after: map<Id, Row>, id: Id) {
    && (forall i | i in before && i != id :: i in after && after[i] == before[i])
    && (forall i | i in after :: i in before || i == id)
  }

  // ---------------------------------------------------------------- log steps

  lemma LogReadback(log: seq<Event>, fence: Option<Fence>, e: Event)
    requires Ordered(log) && Behind(log, fence) && e.Readback?
    ensures Ordered(log + [e]) && Behind(log + [e], fence)
  {
    var more := log + [e];
    assert forall i | 0 <= i < |log| :: more[i] == log[i];
    forall i, j | 0 <= i < j < |more| && more[i].Apply? && more[j].Apply? && more[i].version == more[j].version
      ensures ReadbackBetween(more, i, j)
    {
      assert ReadbackBetween(log, i, j);
      var k :| i < k < j && log[k] == Readback(log[j].id, log[j].version, ObservedNotApplied);
      assert more[k] == log[k];
    }
  }

  /** A first apply at a version the fence has just reached. */
  ghost predicate FirstAt(log: seq<Event>, version: Version) {
    forall i | 0 <= i < |log| && log[i].Apply? :: Less(log[i].version, version)
  }

  ghost predicate JustDenied(log: seq<Event>, id: Id, version: Version) {
    log != [] && log[|log| - 1] == Readback(id, version, ObservedNotApplied)
  }

  lemma LogApply(log: seq<Event>, fence: Fence)
    requires Ordered(log) && Behind(log, Some(fence))
    requires FirstAt(log, fence.version) || JustDenied(log, fence.holder, fence.version)
    ensures var more := log + [Apply(fence.holder, fence.version, Some(fence))];
            Ordered(more) && Behind(more, Some(fence))
  {
    var e := Apply(fence.holder, fence.version, Some(fence));
    var more := log + [e];
    assert forall i | 0 <= i < |log| :: more[i] == log[i];
    forall i, j | 0 <= i < j < |more| && more[i].Apply? && more[j].Apply? && more[i].version == more[j].version
      ensures more[i].id == more[j].id && ReadbackBetween(more, i, j)
    {
      if j < |log| {
        assert ReadbackBetween(log, i, j);
        var k :| i < k < j && log[k] == Readback(log[j].id, log[j].version, ObservedNotApplied);
        assert more[k] == log[k];
      } else {
        assert i < |log| - 1 < j && more[|log| - 1] == log[|log| - 1];
      }
    }
  }

  lemma BackedMore(log: seq<Event>, e: Event, id: Id)
    requires Backed(log, id) && (e.Apply? ==> e.id != id)
    ensures Backed(log + [e], id)
  {
    var more := log + [e];
    var k :| 0 <= k < |log| && log[k].Readback? && log[k].id == id && log[k].observed.ObservedApplied?
      && forall j | k < j < |log| :: log[j].Apply? ==> log[j].id != id;
    assert more[k] == log[k];
    assert forall j | k < j < |log| :: more[j] == log[j];
  }

  lemma BackedNow(log: seq<Event>, id: Id, version: Version)
    ensures Backed(log + [Readback(id, version, ObservedApplied)], id)
  {
    assert (log + [Readback(id, version, ObservedApplied)])[|log|].Readback?;
  }

  ghost predicate AllBacked(rows: map<Id, Row>, log: seq<Event>) {
    forall id | id in rows && rows[id].status.APPLIED? :: Backed(log, id)
  }

  lemma AllBackedMore(rows: map<Id, Row>, log: seq<Event>, e: Event)
    requires AllBacked(rows, log) && (e.Apply? ==> e.id in rows ==> !rows[e.id].status.APPLIED?)
    ensures AllBacked(rows, log + [e])
  {
    forall id | id in rows && rows[id].status.APPLIED? ensures Backed(log + [e], id) {
      BackedMore(log, e, id);
    }
  }

  ghost predicate Ran(log: seq<Event>, id: Id) {
    exists i | 0 <= i < |log| :: log[i].Apply? && log[i].id == id
  }

  ghost predicate RanSince(log: seq<Event>, n: nat, id: Id) {
    exists i | n <= i < |log| :: log[i].Apply? && log[i].id == id
  }

  /** The calls that run the apply callback: a first submission that is not refused, and a retry that was not applied. */
  predicate WillRun(rows: map<Id, Row>, fence: Option<Fence>, op: Operation, hash: Hash, before: Evidence) {
    && !Stale(fence, op.version) && !Contested(fence, op)
    && (op.id in rows ==> Uncertain(rows, op.id) && Observe(op, hash, before).ObservedNotApplied?)
  }

  /** An apply callback runs only for an operation with a row. */
  ghost predicate Recorded(rows: map<Id, Row>, log: seq<Event>) {
    forall i | 0 <= i < |log| && log[i].Apply? :: log[i].id in rows
  }

  // ---------------------------------------------------------------- row steps

  lemma RowsFinish(digest: (Operation, Payload) -> Hash, rows: map<Id, Row>, fence: Fence, status: Status)
    requires RowsOk(digest, rows, Some(fence)) && fence.holder in rows
    requires rows[fence.holder].status.REJECTED? ==> status.REJECTED?
    ensures RowsOk(digest, rows[fence.holder := rows[fence.holder].(status := status)], Some(fence))
    ensures Lasts(rows, rows[fence.holder := rows[fence.holder].(status := status)])
  {
    var after := rows[fence.holder := rows[fence.holder].(status := status)];
    forall id | id in after ensures Bound(digest, id, after[id]) {
      assert Bound(digest, id, rows[id]);
      var op: Operation, payload :| op.id == id && digest(op, payload) == rows[id].hash && op.version == rows[id].version;
      assert digest(op, payload) == after[id].hash;
    }
  }

  predicate Stale(fence: Option<Fence>, version: Version) {
    fence.Some? && Less(version, fence.value.version)
  }

  predicate Contested(fence: Option<Fence>, op: Operation) {
    fence.Some? && op.version == fence.value.version && fence.value.holder != op.id
  }

  /** A first submission that the fence lets through moves it strictly forward. */
  lemma RowsAdmit(digest: (Operation, Payload) -> Hash, rows: map<Id, Row>, fence: Option<Fence>, op: Operation,
                  payload: Payload)
    requires RowsOk(digest, rows, fence) && op.id !in rows && !Stale(fence, op.version) && !Contested(fence, op)
    ensures fence.Some? ==> Less(fence.value.version, op.version)
    ensures RowsOk(digest, rows[op.id := Row(digest(op, payload), op.version, APPLYING)], Some(Fence(op.version, op.id)))
  {
    var after := rows[op.id := Row(digest(op, payload), op.version, APPLYING)];
    forall id | id in after ensures Bound(digest, id, after[id]) {
      if id != op.id { assert Bound(digest, id, rows[id]); }
    }
  }

  lemma RowsRefuse(digest: (Operation, Payload) -> Hash, rows: map<Id, Row>, fence: Option<Fence>, op: Operation,
                   payload: Payload)
    requires RowsOk(digest, rows, fence) && op.id !in rows && (Stale(fence, op.version) || Contested(fence, op))
    ensures RowsOk(digest, rows[op.id := Row(digest(op, payload), op.version, REJECTED)], fence)
  {
    var after := rows[op.id := Row(digest(op, payload), op.version, REJECTED)];
    forall id | id in after ensures Bound(digest, id, after[id]) {
      if id != op.id { assert Bound(digest, id, rows[id]); }
    }
  }

  lemma RowsSupersede(digest: (Operation, Payload) -> Hash, rows: map<Id, Row>, fence: Option<Fence>, id: Id)
    requires RowsOk(digest, rows, fence) && id in rows
    ensures RowsOk(digest, rows[id := rows[id].(status := REJECTED)], fence)
    ensures Lasts(rows, rows[id := rows[id].(status := REJECTED)])
  {
    var after := rows[id := rows[id].(status := REJECTED)];
    forall i | i in after ensures Bound(digest, i, after[i]) {
      assert Bound(digest, i, rows[i]);
      var op: Operation, payload :| op.id == i && digest(op, payload) == rows[i].hash && op.version == rows[i].version;
      assert digest(op, payload) == after[i].hash;
    }
  }

  /** A known operation whose version is neither stale nor contested holds the fence. */
  lemma HoldsFence(digest: (Operation, Payload) -> Hash, rows: map<Id, Row>, fence: Option<Fence>, op: Operation,
                   payload: Payload)
    requires Injective(digest) && RowsOk(digest, rows, fence)
    requires op.id in rows && rows[op.id].hash == digest(op, payload)
    requires !Stale(fence, op.version) && !Contested(fence, op)
    ensures fence == Some(Fence(op.version, op.id))
  {
    SameVersion(digest, op, payload, rows[op.id]);
  }

  // ---------------------------------------------------------------- the store, one scope of it

  datatype Admission = Fresh | Retry | Settled | Refused(replayed: bool) | Conflicting

  class Scope {
    const digest: (Operation, Payload) -> Hash
    var rows: map<Id, Row>
    var fence: Option<Fence>
    var foreign: set<Id>      // operation ids bound in other scopes of the same table
    ghost var log: seq<Event>

    ghost predicate Valid()
      reads this
    {
      && Injective(digest) && RowsOk(digest, rows, fence) && rows.Keys !! foreign
      && Ordered(log) && Behind(log, fence) && AllBacked(rows, log) && Recorded(rows, log)
    }

    /** Between two transactions other scopes may bind operation ids of their own. */
    method OtherScopes()
      requires Valid()
      modifies `foreign
      ensures Valid() && old(foreign) <= foreign
    {
      var extra: set<Id> := *;
      foreign := foreign + (extra - rows.Keys);
    }

    constructor (digest: (Operation, Payload) -> Hash)
      requires Injective(digest)
      ensures Valid() && this.digest == digest && rows == map[] && log == [] && fence.None? && foreign == {}
    {
      this.digest, rows, fence, foreign, log := digest, map[], None, {}, [];
    }

    ghost predicate Holds(op: Operation)
      reads this
    {
      fence == Some(Fence(op.version, op.id)) && op.id in rows
    }

    /** The first transaction of `execute`. */
    method Admit(op: Operation, payload: Payload) returns (a: Admission)
      requires Valid()
      modifies `rows, `fence
      ensures Valid() && Lasts(old(rows), rows)
      ensures a.Conflicting? <==> op.id in foreign
                                  || (op.id in old(rows) && old(rows)[op.id].hash != digest(op, payload))
      ensures a.Conflicting? || a.Settled? ==> rows == old(rows) && fence == old(fence)
      ensures !a.Conflicting? ==> op.id in rows && rows[op.id].version == op.version && fence.Some?
      ensures a.Settled? ==> rows[op.id].status.APPLIED? || rows[op.id].status.REJECTED?
      ensures a.Refused? ==> rows[op.id].status.REJECTED? && fence == old(fence) && (a.replayed <==> op.id in old(rows))
                             && (Stale(fence, op.version) || Contested(fence, op))
                             && (a.replayed ==> old(rows)[op.id].status.APPLYING? || old(rows)[op.id].status.UNKNOWN?)
      ensures a.Fresh? ==> Holds(op) && op.id !in old(rows) && FirstAt(log, op.version) && rows[op.id].status.APPLYING?
                           && (old(fence).Some? ==> Less(old(fence).value.version, op.version))
      ensures a.Retry? ==> Holds(op) && fence == old(fence) && rows == old(rows)
                           && (rows[op.id].status.APPLYING? || rows[op.id].status.UNKNOWN?)
      ensures a.Settled? || a.Retry? ==> op.id in old(rows)
      ensures OnlyRow(old(rows), rows, op.id)
    {
      hide Injective, RowsOk, Ordered, AllBacked;
      var hash := digest(op, payload);
      if op.id in foreign { return Conflicting; }
      var stale, contested := Stale(fence, op.version), Contested(fence, op);
      if op.id in rows {
        if rows[op.id].hash != hash { return Conflicting; }
        Known(digest, rows, fence, op, payload);
        if rows[op.id].status.APPLIED? || rows[op.id].status.REJECTED? { return Settled; }
        if stale || contested {
          RowsSupersede(digest, rows, fence, op.id);
          Unapplied(rows, op.id, rows[op.id].(status := REJECTED), log);
          rows := rows[op.id := rows[op.id].(status := REJECTED)];
          return Refused(true);
        }
        HoldsFence(digest, rows, fence, op, payload);
        fence := Some(Fence(op.version, op.id));
        return Retry;
      }
      if stale || contested {
        RowsRefuse(digest, rows, fence, op, payload);
        Unapplied(rows, op.id, Row(hash, op.version, REJECTED), log);
        rows := rows[op.id := Row(hash, op.version, REJECTED)];
        return Refused(false);
      }
      RowsAdmit(digest, rows, fence, op, payload);
      Unapplied(rows, op.id, Row(hash, op.version, APPLYING), log);
      rows := rows[op.id := Row(hash, op.version, APPLYING)];
      fence := Some(Fence(op.version, op.id));
      return Fresh;
    }
  
    /** `_finish`: the update that only the fence holder may make; false is "lost its version fence". */
    method Finish(op: Operation, status: Status) returns (ok: bool)
      requires Valid()
      requires status.APPLIED? ==> Backed(log, op.id)
      requires op.id in rows && rows[op.id].status.REJECTED? ==> status.REJECTED?
      modifies `rows
      ensures Valid() && Lasts(old(rows), rows)
      ensures ok <==> old(Holds(op))
      ensures rows == if ok then old(rows)[op.id := old(rows)[op.id].(status := status)] else old(rows)
    {
      hide Injective, RowsOk, Ordered, Behind, AllBacked, Backed;
      if op.id !in rows || fence != Some(Fence(op.version, op.id)) { return false; }
      RowsFinish(digest, rows, fence.value, status);
      Rebacked(rows, op.id, rows[op.id].(status := status), log);
      rows := rows[op.id := rows[op.id].(status := status)];
      ok := true;
    }

    /** `read`: APPLYING is reported as UNKNOWN. */
    method Read(id: Id) returns (r: Option<Receipt>)
      requires Valid()
      ensures r.Some? <==> id in rows
      ensures r.Some? ==> fence.Some?
      ensures r.Some? ==> r.value == Receipt(id, rows[id].version, rows[id].hash,
                                          if rows[id].status == APPLYING then UNKNOWN else rows[id].status,
                                          fence.value.holder == id, fence.value.version, false)
    {
      if id !in rows || fence.None? { return None; }
      r := Some(Receipt(id, rows[id].version, rows[id].hash, Shown(rows[id].status), fence.value.holder == id, fence.value.version, false));
    }

    method Answer(op: Operation, replayed: bool) returns (r: Result)
      requires Valid() && op.id in rows
      ensures r.Done? && r.receipt.id == op.id && r.receipt.replayed == replayed
              && r.receipt.status == Shown(rows[op.id].status)
    {
      var receipt := Read(op.id);
      r := Done(receipt.value.(replayed := replayed));
    }

    /** A readback callback, under the scope lock. */
    method ReadBack(op: Operation, payload: Payload, evidence: Evidence) returns (o: Observed)
      requires Valid()
      modifies `log, `foreign
      ensures Valid() && log == old(log) + [Readback(op.id, op.version, o)]
      ensures o == Observe(op, digest(op, payload), evidence)
      ensures o.ObservedApplied? ==> Backed(log, op.id)
    {
      hide Injective, RowsOk, Ordered, Behind, AllBacked, Backed;
      o := Observe(op, digest(op, payload), evidence);
      LogReadback(log, fence, Readback(op.id, op.version, o));
      AllBackedMore(rows, log, Readback(op.id, op.version, o));
      BackedNow(log, op.id, op.version);
      log := log + [Readback(op.id, op.version, o)];
      OtherScopes();
    }

    /** Whether the process stops here; in calm weather it does not. */
    static method Dies(calm: bool) returns (dies: bool)
      ensures dies ==> !calm
    {
      dies := *;
      dies := dies && !calm;
    }

    /** The apply callback and what its ending makes of the row. */
    method Perform(op: Operation, payload: Payload, ending: Ending, after: Evidence, replayed: bool,
                   calm: bool) returns (r: Result)
      requires Valid() && Holds(op) && rows[op.id].status.APPLYING?
      requires FirstAt(log, op.version) || JustDenied(log, op.id, op.version)
      modifies `log, `rows, `foreign
      ensures Valid() && Lasts(old(rows), rows)
      ensures old(log) + [Apply(op.id, op.version, fence)] <= log
      ensures RanSince(log, |old(log)|, op.id)
      ensures r.Done? || r.Crashed?
      ensures calm ==> r.Done?
      ensures r.Done? ==> r.receipt.replayed == replayed
                          && r.receipt.status == Concluded(op, digest(op, payload), ending, after)
      ensures OnlyRow(old(rows), rows, op.id)
              && (r.Done? ==> op.id in rows && r.receipt.status == Shown(rows[op.id].status))
    {
      hide Injective, RowsOk, Ordered, Behind, AllBacked, Backed, FirstAt, JustDenied;
      LogApply(log, fence.value);
      AllBackedMore(rows, log, Apply(op.id, op.version, fence));
      log := log + [Apply(op.id, op.version, fence)];
      assert log[|old(log)|].Apply? && log[|old(log)|].id == op.id;
      OtherScopes();
      var dies := Dies(calm);
      if dies { return Crashed; }
      var ok: bool;
      match ending {
        case PreconditionFailed => ok := Finish(op, REJECTED);
        case Failed => ok := Finish(op, UNKNOWN);
        case Returned =>
          var observed := ReadBack(op, payload, after);
          dies := Dies(calm);
          if dies { return Crashed; }
          ok := Finish(op, if observed.ObservedApplied? then APPLIED else UNKNOWN);
      }
      if !ok { return LostFence; }
      dies := Dies(calm);
      if dies { return Crashed; }
      r := Answer(op, replayed);
    }

    /** The retry of an operation whose outcome is open: it applies again only after a negative readback. */
    method Resume(op: Operation, payload: Payload, before: Evidence, ending: Ending,
                  after: Evidence, calm: bool) returns (r: Result)
      requires Valid() && Holds(op) && Uncertain(rows, op.id)
      modifies `log, `rows, `foreign
      ensures Valid() && Lasts(old(rows), rows) && old(log) <= log
      ensures r.Done? || r.Crashed?
      ensures calm ==> r.Done?
      ensures r.Done? ==> r.receipt.replayed
                          && r.receipt.status == Retried(op, digest(op, payload), before, ending, after)
      ensures r.Done? ==> (RanSince(log, |old(log)|, op.id) <==>
                Observe(op, digest(op, payload), before).ObservedNotApplied?)
      ensures OnlyRow(old(rows), rows, op.id)
              && (r.Done? ==> op.id in rows && r.receipt.status == Shown(rows[op.id].status))
    {
      hide Injective, RowsOk, Ordered, Behind, AllBacked, Backed, FirstAt, JustDenied, Lasts;
      LastsItself(rows);
      var observed := ReadBack(op, payload, before);
      var dies := Dies(calm);
      if dies { return Crashed; }
      if !observed.ObservedNotApplied? {
        var ok := Finish(op, if observed.ObservedApplied? then APPLIED else UNKNOWN);
        if !ok { return LostFence; }
        dies := Dies(calm);
        if dies { return Crashed; }
        r := Answer(op, true);
        return;
      }
      DeniedNow(log, op.id, op.version);
      var ok := Finish(op, APPLYING);
      if !ok { return LostFence; }
      dies := Dies(calm);
      if dies { return Crashed; }
      ghost var ready := rows;
      r := Perform(op, payload, ending, after, true, calm);
      LastsTransitive(old(rows), ready, rows);
    }

    /**
     `execute`. Whatever happens in it, and wherever it crashes, the log stays ordered: versions never
     go back, and a second apply of a version is a retry of the same operation after a negative readback.
     */
    method Execute(op: Operation, payload: Payload, before: Evidence, ending: Ending,
                   after: Evidence, calm: bool) returns (r: Result)
      requires Valid()
      modifies `rows, `fence, `log, `foreign
      ensures Valid() && Lasts(old(rows), rows) && old(log) <= log
      ensures old(fence).Some? ==> fence.Some? && AtMost(old(fence).value.version, fence.value.version)
      ensures r.Done? && op.id !in old(rows) && !Stale(old(fence), op.version) && !Contested(old(fence), op) ==>
                fence == Some(Fence(op.version, op.id))
      ensures op.id !in old(rows) && old(fence).Some? && Before(op.version, old(fence).value.version) ==>
                log == old(log) && fence == old(fence) && (r.Done? ==> r.receipt.status.REJECTED?)
      ensures op.id !in old(rows) && (old(fence).Some? ==> Before(old(fence).value.version, op.version)) && r.Done? ==>
                Ran(log, op.id) && fence == Some(Fence(op.version, op.id))
      ensures op.id !in old(rows) && old(fence).Some? && op.version == old(fence).value.version
              && op.id != old(fence).value.holder ==>
                log == old(log) && fence == old(fence) && (r.Done? ==> r.receipt.status.REJECTED?)
      ensures NeverBack(log) && (r.Done? ==> (r.receipt.replayed <==> op.id in old(rows)))
      ensures OnlyRow(old(rows), rows, op.id)
              && (r.Done? ==> op.id in rows && r.receipt.status == Shown(rows[op.id].status))
      ensures !r.LostFence? && !r.Missing?
      ensures calm ==> if op.id in old(foreign) || (op.id in old(rows) && old(rows)[op.id].hash != digest(op, payload))
                       then r.OperationConflict? else r.Done?
      ensures op.id in old(rows) && old(rows)[op.id].hash != digest(op, payload) && !r.Crashed? ==> r.OperationConflict?
      ensures r.OperationConflict? || Stale(old(fence), op.version) || Contested(old(fence), op) ==>
                log == old(log) && fence == old(fence)
      ensures op.id in old(rows) && (old(rows)[op.id].status.APPLIED? || old(rows)[op.id].status.REJECTED?) ==>
                log == old(log)
      ensures r.Done? && op.id !in old(rows) ==>
                r.receipt.status == if Stale(old(fence), op.version) || Contested(old(fence), op) then REJECTED
                                    else Concluded(op, digest(op, payload), ending, after)
      ensures r.Done? && op.id in old(rows) && old(rows)[op.id].status.APPLIED? ==> r.receipt.status.APPLIED?
      ensures op.id !in old(rows) && (Stale(old(fence), op.version) || Contested(old(fence), op)) ==> !Ran(log, op.id)
      ensures r.Done? && op.id !in old(rows) ==>
                (Ran(log, op.id) <==> !(Stale(old(fence), op.version) || Contested(old(fence), op)))
      ensures r.Done? ==> (RanSince(log, |old(log)|, op.id) <==>
                WillRun(old(rows), old(fence), op, digest(op, payload), before))
      ensures r.Done? && Uncertain(old(rows), op.id) && !Stale(old(fence), op.version) && !Contested(old(fence), op) ==>
                r.receipt.status == Retried(op, digest(op, payload), before, ending, after)
      ensures r.Done? && Uncertain(old(rows), op.id) && (Stale(old(fence), op.version) || Contested(old(fence), op)) ==>
                r.receipt.status.REJECTED?
    {
      hide Injective, RowsOk, Ordered, Behind, AllBacked, Backed, FirstAt, JustDenied, Lasts, NeverBack;
      NeverRan(rows, log, op.id);
      LastsItself(rows);
      OrderedForward(log);
      var dies := Dies(calm);
      if dies { return Crashed; }
      var a := Admit(op, payload);
      OtherScopes();
      ghost var admitted := rows;
      dies := Dies(calm);
      if dies { return Crashed; }
      match a {
        case Conflicting => return OperationConflict;
        case Settled => r := Answer(op, true); return;
        case Refused(replayed) => r := Answer(op, replayed); return;
        case Fresh => r := Perform(op, payload, ending, after, false, calm);
        case Retry => r := Resume(op, payload, before, ending, after, calm);
      }
      LastsTransitive(old(rows), admitted, rows);
      OrderedForward(log);
    }

    /** `reconcile`: a readback and a row update, never an apply. */
    method Reconcile(op: Operation, payload: Payload, evidence: Evidence, calm: bool) returns (r: Result)
      requires Valid()
      modifies `rows, `log, `foreign
      ensures Valid() && Lasts(old(rows), rows) && old(log) <= log
      ensures forall k | |old(log)| <= k < |log| :: log[k].Readback?
      ensures calm && op.id in old(rows) && old(rows)[op.id].hash == digest(op, payload) ==>
                r.Done? && !r.receipt.replayed
      ensures calm && op.id !in old(rows) ==> if op.id in old(foreign) then r.OperationConflict? else r.Missing?
      ensures !r.LostFence? && (r.Missing? ==> op.id !in old(rows)) && (op.id !in old(rows) ==> !r.Done?)
      ensures r.Done? ==> rows.Keys == old(rows).Keys && OnlyRow(old(rows), rows, op.id)
      ensures op.id in old(rows) && old(rows)[op.id].hash != digest(op, payload) ==>
                r.OperationConflict? && rows == old(rows)
      ensures r.Done? ==>
                var row := old(rows)[op.id];
                if row.status.REJECTED? || fence.value.holder != op.id
                then rows == old(rows) && log == old(log) && r.receipt.status == Shown(row.status)
                else var seen := Observe(op, digest(op, payload), evidence);
                     && log == old(log) + [Readback(op.id, op.version, seen)]
                     && rows[op.id] == row.(status := if seen.ObservedApplied? then APPLIED else UNKNOWN)
                     && r.receipt.status == rows[op.id].status
    {
      hide Injective, RowsOk, Ordered, Behind, AllBacked, Backed, Lasts;
      LastsItself(rows);
      var found := Read(op.id);
      if found.None? {
        return if op.id in foreign then OperationConflict else Missing;
      }
      if found.value.hash != digest(op, payload) { return OperationConflict; }
      if found.value.status.REJECTED? || !found.value.current { return Done(found.value); }
      Known(digest, rows, fence, op, payload);
      HolderVersion(digest, rows, fence);
      var observed := ReadBack(op, payload, evidence);
      var dies := Dies(calm);
      if dies { return Crashed; }
      var ok := Finish(op, if observed.ObservedApplied? then APPLIED else UNKNOWN);
      if !ok { return LostFence; }
      r := Answer(op, false);
    }
  }

  lemma Known(digest: (Operation, Payload) -> Hash, rows: map<Id, Row>, fence: Option<Fence>, op: Operation,
              payload: Payload)
    requires Injective(digest) && RowsOk(digest, rows, fence)
    requires op.id in rows && rows[op.id].hash == digest(op, payload)
    ensures fence.Some? && rows[op.id].version == op.version
  {
    SameVersion(digest, op, payload, rows[op.id]);
  }

  lemma Unapplied(rows: map<Id, Row>, id: Id, row: Row, log: seq<Event>)
    requires AllBacked(rows, log) && !row.status.APPLIED?
    ensures AllBacked(rows[id := row], log)
  {
  }

  /**
   A refusal at the first submission means the operation never ran; a refusal of a known operation does
   not. Here `first` ran, the process died before its row was updated, and `second` took the fence:
   the next `execute` of `first` is stale and turns its row into REJECTED.
   */
  lemma SupersededMayHaveRun(digest: (Operation, Payload) -> Hash, first: Operation, second: Operation,
                             payload: Payload)
    requires first.id != second.id && Less(first.version, second.version)
    ensures var rows := map[first.id := Row(digest(first, payload), first.version, APPLYING),
                            second.id := Row(digest(second, payload), second.version, APPLYING)];
            var fence := Some(Fence(second.version, second.id));
            var log := [Apply(first.id, first.version, Some(Fence(first.version, first.id)))];
            && RowsOk(digest, rows, fence) && Ordered(log) && Behind(log, fence) && AllBacked(rows, log)
            && Recorded(rows, log)
            && Stale(fence, first.version) && Ran(log, first.id)
            && RowsOk(digest, rows[first.id := rows[first.id].(status := REJECTED)], fence)
  {
    var rows := map[first.id := Row(digest(first, payload), first.version, APPLYING),
                    second.id := Row(digest(second, payload), second.version, APPLYING)];
    assert Bound(digest, first.id, rows[first.id]) && Bound(digest, second.id, rows[second.id]);
    assert [Apply(first.id, first.version, Some(Fence(first.version, first.id)))][0].id == first.id;
    RowsSupersede(digest, rows, Some(Fence(second.version, second.id)), first.id);
  }

  /**
   That state is one the calls reach: `first` runs and its outcome stays open, `second` goes past it,
   and the retry of `first` is answered REJECTED although its callback ran.
   */
  method SupersededRun(digest: (Operation, Payload) -> Hash, first: Operation, second: Operation, payload: Payload,
                       before: Evidence, ending: Ending, after: Evidence, calm: bool)
    returns (scope: Scope, a: Result, b: Result, c: Result)
    requires Injective(digest) && first.id != second.id && Less(first.version, second.version)
    ensures fresh(scope) && scope.Valid() && scope.digest == digest
    ensures calm ==> a.Done?
    ensures a.Done? ==> a.receipt.status.UNKNOWN? && Ran(scope.log, first.id)
    ensures a.Done? && b.Done? && c.Done? ==>
              c.receipt.status.REJECTED? && first.id in scope.rows && scope.rows[first.id].status.REJECTED?
  {
    hide Injective, RowsOk, Ordered, Behind, AllBacked, Recorded, Lasts;
    scope := new Scope(digest);
    a := scope.Execute(first, payload, before, Failed, after, calm);
    ghost var ran := scope.log;
    b := scope.Execute(second, payload, before, ending, after, calm);
    RanStays(ran, scope.log, first.id);
    ghost var later := scope.log;
    c := scope.Execute(first, payload, before, ending, after, calm);
    RanStays(later, scope.log, first.id);
  }

  lemma RanStays(log: seq<Event>, more: seq<Event>, id: Id)
    requires log <= more
    ensures Ran(log, id) ==> Ran(more, id)
  {
    if Ran(log, id) {
      var i :| 0 <= i < |log| && log[i].Apply? && log[i].id == id;
      assert more[i] == log[i];
    }
  }

  lemma HolderVersion(digest: (Operation, Payload) -> Hash, rows: map<Id, Row>, fence: Option<Fence>)
    requires RowsOk(digest, rows, fence) && fence.Some?
    ensures fence.value.holder in rows && rows[fence.value.holder].version == fence.value.version
  {
  }

  function Shown(status: Status): Status {
    if status.APPLYING? then UNKNOWN else status
  }

  predicate Uncertain(rows: map<Id, Row>, id: Id) {
    id in rows && (rows[id].status.APPLYING? || rows[id].status.UNKNOWN?)
  }

  /** A retry applies again only after a readback that says "not applied". */
  function Retried(op: Operation, hash: Hash, before: Evidence, ending: Ending, after: Evidence): Status {
    match Observe(op, hash, before)
    case ObservedApplied => APPLIED
    case ObservedUnknown => UNKNOWN
    case ObservedNotApplied => Concluded(op, hash, ending, after)
  }

  function Concluded(op: Operation, hash: Hash, ending: Ending, after: Evidence): Status {
    match ending
    case PreconditionFailed => REJECTED
    case Failed => UNKNOWN
    case Returned => if Observe(op, hash, after).ObservedApplied? then APPLIED else UNKNOWN
  }

  lemma Rebacked(rows: map<Id, Row>, id: Id, row: Row, log: seq<Event>)
    requires AllBacked(rows, log) && (row.status.APPLIED? ==> Backed(log, id))
    ensures AllBacked(rows[id := row], log)
  {
  }

  lemma NeverRan(rows: map<Id, Row>, log: seq<Event>, id: Id)
    requires Recorded(rows, log)
    ensures id !in rows ==> !Ran(log, id)
  {
  }

  lemma LastsItself(rows: map<Id, Row>)
    ensures Lasts(rows, rows)
  {
  }

  lemma LastsTransitive(a: map<Id, Row>, b: map<Id, Row>, c: map<Id, Row>)
    requires Lasts(a, b) && Lasts(b, c)
    ensures Lasts(a, c)
  {
  }

  lemma DeniedNow(log: seq<Event>, id: Id, version: Version)
    requires log != [] && log[|log| - 1] == Readback(id, version, ObservedNotApplied)
    ensures JustDenied(log, id, version)
  {
  }
}
