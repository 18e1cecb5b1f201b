/**
 The writer's durable side: task rows, the archive, receipts that travel with the published files,
 and what a restart may conclude from them.
 */
module QueueReceipts {
  import opened Basics
  import opened TaskStates

  type Id = nat
  type Batch = nat
  type Key = string
  type Fingerprint = string
  type Config = string
  type Receipts = map<Batch, map<Id, Fingerprint>>

  /** What a task's callback makes of a configuration; None when it raises. */
  type Effect = (Id, Config) -> Option<Config>

  datatype Row = Row(key: Option<Key>, fingerprint: Fingerprint, state: State, batch: Option<Batch>)

  /** The files of one publication: configuration (with registry and related files) and receipts. */
  datatype Files = Files(config: Config, receipts: Receipts)

  /**
   `files` is what is on disk; while a publication journal exists its other side is `journal`.
   `applied` are the tasks whose effects are in `files.config`, in order, and `promised` those the
   journal's side would add. `origin` is the configuration before all of them.
   */
  datatype World = World(
    rows: map<Id, Row>, archive: map<Id, Row>, files: Files, journal: Option<Files>,
    applied: seq<Id>, promised: seq<Id>, origin: Config)

  function Run(effect: Effect, ids: seq<Id>, c: Config): Option<Config> {
    if ids == [] then Some(c)
    else match effect(ids[0], c)
      case None => None
      case Some(d) => Run(effect, ids[1..], d)
  }

  lemma {:induction false} RunAppend(effect: Effect, a: seq<Id>, b: seq<Id>, c: Config)
    requires Run(effect, a, c).Some?
    ensures Run(effect, a + b, c) == Run(effect, b, Run(effect, a, c).value)
  {
    if a == [] {
      assert [] + b == b;
    } else {
      assert (a + b)[1..] == a[1..] + b;
      RunAppend(effect, a[1..], b, effect(a[0], c).value);
    }
  }

  /** The tasks run alone, one after another: what they leave, and which of them did not raise. */
  datatype Tally = Tally(config: Config, done: seq<Id>)

  ghost function OneByOne(effect: Effect, ids: seq<Id>, c: Config): Tally {
    if ids == [] then Tally(c, [])
    else match effect(ids[0], c)
      case None => OneByOne(effect, ids[1..], c)
      case Some(d) =>
        var rest := OneByOne(effect, ids[1..], d);
        Tally(rest.config, [ids[0]] + rest.done)
  }

  /** A batch that stages has the effect of its tasks run alone, and none of them raises. */
  lemma {:induction false} RunIsOneByOne(effect: Effect, ids: seq<Id>, c: Config)
    requires Run(effect, ids, c).Some?
    ensures OneByOne(effect, ids, c) == Tally(Run(effect, ids, c).value, ids)
  {
    if ids != [] { RunIsOneByOne(effect, ids[1..], effect(ids[0], c).value); }
  }

  lemma {:induction false} OneByOneJoin(effect: Effect, a: seq<Id>, b: seq<Id>, c: Config)
    ensures var first := OneByOne(effect, a, c);
            var second := OneByOne(effect, b, first.config);
            OneByOne(effect, a + b, c) == Tally(second.config, first.done + second.done)
  {
    if a == [] {
      assert [] + b == b;
    } else {
      assert (a + b)[1..] == a[1..] + b;
      OneByOneJoin(effect, a[1..], b, if effect(a[0], c).Some? then effect(a[0], c).value else c);
    }
  }

  lemma {:induction false} OneByOneSome(effect: Effect, ids: seq<Id>, c: Config)
    ensures forall id | id in OneByOne(effect, ids, c).done :: id in ids
  {
    if ids != [] { OneByOneSome(effect, ids[1..], if effect(ids[0], c).Some? then effect(ids[0], c).value else c); }
  }

  // ---------------------------------------------------------------- truth of the rows

  predicate Proven(receipts: Receipts, id: Id, row: Row) {
    && row.batch.Some? && row.batch.value in receipts
    && id in receipts[row.batch.value] && receipts[row.batch.value][id] == row.fingerprint
  }

  predicate Terminal(s: State) {
    s.SUCCEEDED? || s.FAILED? || s.CANCELLED? || s.NOT_APPLIED?
  }

  predicate Open(s: State) { s.RUNNING? || s.UNKNOWN? }

  predicate Told(applied: seq<Id>, receipts: Receipts, id: Id, row: Row) {
    match row.state
    case SUCCEEDED => id in applied
    case FAILED => id !in applied
    case CANCELLED => id !in applied
    case NOT_APPLIED => id !in applied
    case QUEUED => id !in applied && row.batch.None?
    case RUNNING => id in applied <==> Proven(receipts, id, row)
    case UNKNOWN => id in applied <==> Proven(receipts, id, row)
  }

  ghost predicate Distinct(ids: seq<Id>) {
    forall i, j | 0 <= i < j < |ids| :: ids[i] != ids[j]
  }

  lemma DistinctJoin(a: seq<Id>, b: seq<Id>)
    requires Distinct(a) && Distinct(b) && forall id | id in b :: id !in a
    ensures Distinct(a + b)
  {
    var all := a + b;
    forall i, j | 0 <= i < j < |all| ensures all[i] != all[j] {
      if i < |a| <= j { assert b[j - |a|] in b; }
    }
  }

  lemma DistinctPrefix(a: seq<Id>, b: seq<Id>)
    requires Distinct(a + b)
    ensures Distinct(a) && Distinct(a + [])
  {
    assert forall i | 0 <= i < |a| :: (a + b)[i] == a[i];
  }

  /** The rows tell the truth about the files. */
  ghost predicate Truth(w: World) {
    && (forall id | id in w.rows :: Told(w.applied, w.files.receipts, id, w.rows[id]))
    && (forall id | id in w.archive ::
        Terminal(w.archive[id].state) && Told(w.applied, w.files.receipts, id, w.archive[id]))
    && w.rows.Keys !! w.archive.Keys
  }

  ghost predicate Effects(effect: Effect, w: World) {
    && Run(effect, w.applied, w.origin) == Some(w.files.config)
    && Distinct(w.applied + w.promised)
    && (forall id | id in w.applied :: id in w.rows || id in w.archive)
  }

  /** The open journal: its side is the disk plus exactly the promised tasks, with their receipts. */
  ghost predicate Journal(effect: Effect, w: World) {
    && (w.journal.None? ==> w.promised == [])
    && (w.journal.Some? ==>
          && Run(effect, w.promised, w.files.config) == Some(w.journal.value.config)
          && (forall id | id in w.promised ::
                id in w.rows && Open(w.rows[id].state) && Proven(w.journal.value.receipts, id, w.rows[id]))
          && (forall id | id in w.rows && id !in w.promised && Open(w.rows[id].state) ::
                Proven(w.journal.value.receipts, id, w.rows[id]) <==> Proven(w.files.receipts, id, w.rows[id])))
  }

  ghost predicate UniqueKeys(w: World) {
    && (forall i, j | i in w.rows && j in w.rows && w.rows[i].key.Some? && w.rows[i].key == w.rows[j].key :: i == j)
    && (forall i, j | i in w.archive && j in w.archive && w.archive[i].key.Some?
        && w.archive[i].key == w.archive[j].key :: i == j)
    && (forall i, j | i in w.rows && j in w.archive :: w.rows[i].key.Some? ==> w.rows[i].key != w.archive[j].key)
  }

  ghost predicate SameKeys(w: World, v: World) {
    && w.rows.Keys == v.rows.Keys && w.archive == v.archive
    && forall id | id in w.rows :: w.rows[id].key == v.rows[id].key
  }

  lemma KeysKept(w: World, v: World)
    requires UniqueKeys(w) && SameKeys(w, v)
    ensures UniqueKeys(v)
  {
  }

  ghost predicate Inv(effect: Effect, w: World) {
    Truth(w) && Effects(effect, w) && Journal(effect, w) && UniqueKeys(w)
  }

  // ---------------------------------------------------------------- the durable steps

  /** The INSERT of `submit`. */
  function Submitted(w: World, id: Id, key: Option<Key>, fingerprint: Fingerprint): World {
    w.(rows := w.rows[id := Row(key, fingerprint, QUEUED, None)])
  }

  lemma SubmittedInv(effect: Effect, w: World, id: Id, key: Option<Key>, fingerprint: Fingerprint)
    requires Inv(effect, w) && id !in w.rows && id !in w.archive
    requires key.Some? ==> (forall i | i in w.rows :: w.rows[i].key != key) && forall i | i in w.archive ::
              w.archive[i].key != key
    ensures Inv(effect, Submitted(w, id, key, fingerprint))
  {
  }

  /** The RUNNING update of `_apply`. */
  function Started(w: World, ids: seq<Id>, batch: Batch): World {
    w.(rows := map i | i in w.rows ::
         if i in ids then w.rows[i].(state := RUNNING, batch := Some(batch)) else w.rows[i])
  }

  lemma StartedInv(effect: Effect, w: World, ids: seq<Id>, batch: Batch)
    requires Inv(effect, w) && w.journal.None? && batch !in w.files.receipts
    requires forall id | id in ids :: id in w.rows && id !in w.applied
    ensures Inv(effect, Started(w, ids, batch))
  {
  }

  function Proof(rows: map<Id, Row>, ids: seq<Id>): map<Id, Fingerprint>
    requires forall id | id in ids :: id in rows
  {
    map id | id in ids :: rows[id].fingerprint
  }

  /** The journal of the batch's publication: configuration and receipt on the same side. */
  function Prepared(w: World, ids: seq<Id>, batch: Batch, target: Config): World
    requires forall id | id in ids :: id in w.rows
  {
    w.(journal := Some(Files(target, w.files.receipts[batch := Proof(w.rows, ids)])), promised := ids)
  }

  lemma PreparedInv(effect: Effect, w: World, ids: seq<Id>, batch: Batch, target: Config)
    requires Inv(effect, w) && w.journal.None? && batch !in w.files.receipts && Distinct(ids)
    requires forall id | id in ids ::
              id in w.rows && id !in w.applied && w.rows[id].state.RUNNING? && w.rows[id].batch == Some(batch)
    requires Run(effect, ids, w.files.config) == Some(target)
    ensures Inv(effect, Prepared(w, ids, batch, target))
  {
    hide Run, UniqueKeys, Distinct;
    DistinctPrefix(w.applied, []);
    DistinctJoin(w.applied, ids);
    KeysKept(w, Prepared(w, ids, batch, target));
    PreparedJournal(effect, w, ids, batch, target);
  }

  lemma PreparedJournal(effect: Effect, w: World, ids: seq<Id>, batch: Batch, target: Config)
    requires batch !in w.files.receipts
    requires forall id | id in ids :: id in w.rows && w.rows[id].state.RUNNING? && w.rows[id].batch == Some(batch)
    requires Run(effect, ids, w.files.config) == Some(target)
    ensures Journal(effect, Prepared(w, ids, batch, target))
  {
    hide Run;
  }

  /** The publication went through, or recovery found the new side live. */
  function Landed(w: World): World
    requires w.journal.Some?
  {
    w.(files := w.journal.value, journal := None, applied := w.applied + w.promised, promised := [])
  }

  lemma LandedTruth(effect: Effect, w: World)
    requires Truth(w) && Journal(effect, w) && w.journal.Some?
    ensures Truth(Landed(w))
  {
    hide Run;
    var v := Landed(w);
    forall id | id in w.archive ensures Told(v.applied, v.files.receipts, id, v.archive[id]) {
      assert id !in w.promised;
    }
  }

  lemma LandedInv(effect: Effect, w: World)
    requires Inv(effect, w) && w.journal.Some?
    ensures Inv(effect, Landed(w))
  {
    hide UniqueKeys, Distinct, Truth;
    RunAppend(effect, w.applied, w.promised, w.origin);
    LandedTruth(effect, w);
    KeysKept(w, Landed(w));
    assert w.applied + w.promised + [] == w.applied + w.promised;
  }

  /** The publication was rolled back. */
  function Undone(w: World): World {
    w.(journal := None, promised := [])
  }

  lemma UndoneInv(effect: Effect, w: World)
    requires Inv(effect, w)
    ensures Inv(effect, Undone(w))
  {
    DistinctPrefix(w.applied, w.promised);
  }

  /** `_finish`. A task that left the configuration as it was joins `applied` here. */
  function Finished(w: World, id: Id, state: State): World
    requires id in w.rows
  {
    w.(rows := w.rows[id := w.rows[id].(state := state)],
       applied := if state.SUCCEEDED? && id !in w.applied then w.applied + [id] else w.applied)
  }

  lemma AppliedMore(effect: Effect, w: World, id: Id)
    requires Effects(effect, w) && w.promised == [] && id !in w.applied
    requires effect(id, w.files.config) == Some(w.files.config)
    ensures Run(effect, w.applied + [id], w.origin) == Some(w.files.config)
    ensures Distinct(w.applied + [id] + w.promised)
  {
    RunAppend(effect, w.applied, [id], w.origin);
    DistinctPrefix(w.applied, []);
    DistinctJoin(w.applied, [id]);
    assert w.applied + [id] + [] == w.applied + [id];
  }

  lemma FinishedInv(effect: Effect, w: World, id: Id, state: State)
    requires Inv(effect, w) && id in w.rows
    requires Terminal(state) || state.UNKNOWN?
    requires Open(w.rows[id].state) || w.rows[id].state.QUEUED?
    requires Terminal(state) ==> id !in w.promised
    requires Terminal(state) && !state.SUCCEEDED? ==> id !in w.applied
    requires state.SUCCEEDED? && id !in w.applied ==>
              w.journal.None? && effect(id, w.files.config) == Some(w.files.config)
    ensures Inv(effect, Finished(w, id, state))
  {
    hide Run, UniqueKeys, Truth, Journal, Distinct;
    if state.SUCCEEDED? && id !in w.applied {
      NoPromises(effect, w);
      AppliedMore(effect, w, id);
    }
    KeysKept(w, Finished(w, id, state));
    FinishedTruth(effect, w, id, state);
    FinishedJournal(effect, w, id, state);
  }

  lemma NoPromises(effect: Effect, w: World)
    requires Journal(effect, w) && w.journal.None?
    ensures w.promised == []
  {
  }

  lemma FinishedTruth(effect: Effect, w: World, id: Id, state: State)
    requires Truth(w) && id in w.rows
    requires Terminal(state) || state.UNKNOWN?
    requires Open(w.rows[id].state) || w.rows[id].state.QUEUED?
    requires Terminal(state) && !state.SUCCEEDED? ==> id !in w.applied
    ensures Truth(Finished(w, id, state))
  {
    var v := Finished(w, id, state);
    forall i | i in v.rows && i != id ensures Told(v.applied, v.files.receipts, i, v.rows[i]) {
      assert i in v.applied <==> i in w.applied;
    }
    forall i | i in v.archive ensures Told(v.applied, v.files.receipts, i, v.archive[i]) {
      assert i in v.applied <==> i in w.applied;
    }
  }

  lemma FinishedJournal(effect: Effect, w: World, id: Id, state: State)
    requires Journal(effect, w) && Truth(w) && id in w.rows
    requires Terminal(state) || state.UNKNOWN?
    requires Open(w.rows[id].state) || w.rows[id].state.QUEUED?
    requires Terminal(state) ==> id !in w.promised
    ensures Journal(effect, Finished(w, id, state))
  {
    hide Run;
  }

  /** What `recover_receipts` makes of one unfinished row. */
  function Judged(receipts: Receipts, id: Id, row: Row): Row {
    if Proven(receipts, id, row) then row.(state := SUCCEEDED)
    else row.(state := if row.state.QUEUED? then CANCELLED else NOT_APPLIED)
  }

  function Reconciled(w: World, live: set<Id>): World {
    w.(rows := map id | id in w.rows ::
         if Terminal(w.rows[id].state) || id in live then w.rows[id] else Judged(w.files.receipts, id, w.rows[id]))
  }

  lemma ReconciledInv(effect: Effect, w: World, live: set<Id>)
    requires Inv(effect, w) && w.journal.None?
    ensures Inv(effect, Reconciled(w, live))
    ensures forall id | id in Reconciled(w, live).rows :: Terminal(Reconciled(w, live).rows[id].state) || id in live
  {
    hide Run, UniqueKeys, Truth, Distinct;
    KeysKept(w, Reconciled(w, live));
    ReconciledTruth(w, live);
  }

  lemma ReconciledTruth(w: World, live: set<Id>)
    requires Truth(w)
    ensures Truth(Reconciled(w, live))
  {
  }

  /** `archive_history` moves whole rows. */
  function Archived(w: World, ids: set<Id>): World {
    w.(rows := w.rows - ids, archive := w.archive + map id | id in w.rows && id in ids :: w.rows[id])
  }

  lemma ArchivedInv(effect: Effect, w: World, ids: set<Id>)
    requires Inv(effect, w) && forall id | id in ids :: id in w.rows && Terminal(w.rows[id].state)
    ensures Inv(effect, Archived(w, ids))
  {
  }

  /** `cleanup_receipt` removes a receipt no unfinished row points at. */
  function Cleaned(w: World, batch: Batch): World {
    w.(files := w.files.(receipts := w.files.receipts - {batch}))
  }

  lemma CleanedInv(effect: Effect, w: World, batch: Batch)
    requires Inv(effect, w) && w.journal.None?
    requires forall id | id in w.rows && w.rows[id].batch == Some(batch) :: Terminal(w.rows[id].state)
    ensures Inv(effect, Cleaned(w, batch))
  {
  }

  // ---------------------------------------------------------------- nothing is forgotten

  /** Every task stays known under its key and fingerprint, and a final state is final. */
  ghost predicate Keeps(w: World, v: World) {
    && (forall id | id in w.rows ::
          || (id in v.rows && Carries(w.rows[id], v.rows[id]))
          || (id in v.archive && Carries(w.rows[id], v.archive[id])))
    && (forall id | id in w.archive :: id in v.archive && v.archive[id] == w.archive[id])
  }

  predicate Carries(a: Row, b: Row) {
    a.key == b.key && a.fingerprint == b.fingerprint && (Terminal(a.state) ==> a.state == b.state)
  }

  lemma KeepsTransitive(u: World, v: World, w: World)
    requires Keeps(u, v) && Keeps(v, w)
    ensures Keeps(u, w)
  {
  }

  lemma StepsKeep(w: World, ids: seq<Id>, batch: Batch)
    ensures Keeps(w, Cleaned(w, batch)) && Keeps(w, Undone(w)) && (w.journal.Some? ==> Keeps(w, Landed(w)))
    ensures (forall id | id in ids :: id in w.rows ==> !Terminal(w.rows[id].state)) ==> Keeps(w, Started(w, ids, batch))
  {
  }

  lemma RowKeeps(w: World, id: Id, row: Row)
    requires id in w.rows ==> Carries(w.rows[id], row)
    ensures Keeps(w, w.(rows := w.rows[id := row]))
  {
  }

  lemma ArchivedKeeps(w: World, ids: set<Id>)
    requires Truth(w)
    ensures Keeps(w, Archived(w, ids))
  {
    var v := Archived(w, ids);
    forall id | id in w.rows && id in ids ensures id in v.archive && v.archive[id] == w.rows[id] { }
  }

  lemma ReconciledKeeps(w: World, live: set<Id>)
    ensures Keeps(w, Reconciled(w, live))
  {
  }

  // ---------------------------------------------------------------- quiet batches

  /** A batch that leaves the configuration as it was did nothing in any of its tasks. */
  ghost predicate NoHiddenWork(effect: Effect, ids: seq<Id>) {
    forall c :: Run(effect, ids, c) == Some(c) ==> forall id | id in ids :: effect(id, c) == Some(c)
  }

  ghost predicate Honest(effect: Effect, ids: seq<Id>) {
    forall i, j | 0 <= i <= j <= |ids| :: NoHiddenWork(effect, ids[i..j])
  }

  lemma HonestPart(effect: Effect, ids: seq<Id>, i: nat, j: nat)
    requires i <= j <= |ids| && Honest(effect, ids)
    ensures Honest(effect, ids[i..j])
  {
    var part := ids[i..j];
    forall k, l | 0 <= k <= l <= |part| ensures NoHiddenWork(effect, part[k..l]) {
      assert forall m | 0 <= m < l - k :: part[k..l][m] == ids[i + k + m];
      assert part[k..l] == ids[i + k..i + l];
    }
  }

  /** Tasks of a quiet batch whose rows were finished. */
  function QuietlyFinished(w: World, ids: seq<Id>): World {
    w.(rows := map id | id in w.rows :: if id in ids then w.rows[id].(state := SUCCEEDED) else w.rows[id],
       applied := w.applied + ids)
  }

  /** Their rows are true exactly when together they left the configuration alone. */
  lemma QuietInv(effect: Effect, w: World, ids: seq<Id>)
    requires Inv(effect, w) && w.journal.None? && Distinct(ids)
    requires forall id | id in ids :: id in w.rows && id !in w.applied && Open(w.rows[id].state)
    ensures Inv(effect, QuietlyFinished(w, ids)) <==> Run(effect, ids, w.files.config) == Some(w.files.config)
  {
    hide Run, UniqueKeys, Truth, Distinct;
    var v := QuietlyFinished(w, ids);
    RunAppend(effect, w.applied, ids, w.origin);
    DistinctPrefix(w.applied, []);
    DistinctJoin(w.applied, ids);
    assert w.applied + ids + [] == w.applied + ids;
    KeysKept(w, v);
    QuietRows(w, ids);
  }

  lemma QuietRows(w: World, ids: seq<Id>)
    requires Truth(w) && forall id | id in ids :: id in w.rows
    ensures Truth(QuietlyFinished(w, ids))
  {
    var v := QuietlyFinished(w, ids);
    forall id | id in v.archive ensures Told(v.applied, v.files.receipts, id, v.archive[id]) {
      assert id in v.applied <==> id in w.applied;
    }
  }

  /**
   A quiet batch carries no receipt. A crash after `k` of its tasks were finished leaves the first
   `k` SUCCEEDED and the rest NOT_APPLIED; that is the truth at every `k` exactly when no task hid
   work that a later task of the batch took back.
   */
  lemma {:induction false} QuietCrashesAreTruthful(effect: Effect, ids: seq<Id>, c: Config)
    requires Run(effect, ids, c) == Some(c)
    ensures (forall k | 0 <= k <= |ids| :: Run(effect, ids[..k], c) == Some(c)) <==> forall id | id in ids ::
              effect(id, c) == Some(c)
  {
    if forall k | 0 <= k <= |ids| :: Run(effect, ids[..k], c) == Some(c) {
      forall id | id in ids ensures effect(id, c) == Some(c) {
        var k :| 0 <= k < |ids| && ids[k] == id;
        assert ids[..k + 1] == ids[..k] + [id];
        RunAppend(effect, ids[..k], [id], c);
        assert Run(effect, ids[..k + 1], c) == Some(c);
      }
    }
    if forall id | id in ids :: effect(id, c) == Some(c) {
      forall k | 0 <= k <= |ids| ensures Run(effect, ids[..k], c) == Some(c) {
        IdleRun(effect, ids[..k], c);
      }
    }
  }

  lemma {:induction false} IdleRun(effect: Effect, ids: seq<Id>, c: Config)
    requires forall id | id in ids :: effect(id, c) == Some(c)
    ensures Run(effect, ids, c) == Some(c)
  {
    if ids != [] { IdleRun(effect, ids[1..], c); }
  }

  /** Two tasks that undo each other make such a batch: finishing only the first is then untrue. */
  lemma HiddenWorkExists()
    ensures exists effect: Effect, ids, c ::
              |ids| > 1 && Run(effect, ids, c) == Some(c) && Run(effect, ids[..1], c) != Some(c)
  {
    var effect: Effect := (id, c) => if id == 0 then Some("user") else Some("");
    var ids := [0, 1];
    assert Run(effect, ids[1..], "user") == Some("");
    assert Run(effect, ids, "") == Some("");
    assert ids[..1] == [0];
    assert Run(effect, [0], "") == Some("user");
  }

  /** The version stamp of `mutate_config` and of task commands: a task moves exactly its own users' versions. */
  ghost predicate Stamps(effect: Effect, keys: Id -> set<Key>, version: (Config, Key) -> nat) {
    forall id, c, k | effect(id, c).Some? ::
      version(effect(id, c).value, k) == version(c, k) + if k in keys(id) then 1 else 0
  }

  lemma {:induction false} VersionsGrow(effect: Effect, keys: Id -> set<Key>, version: (Config, Key) -> nat,
                                        ids: seq<Id>, c: Config, k: Key)
    requires Stamps(effect, keys, version) && Run(effect, ids, c).Some?
    ensures version(Run(effect, ids, c).value, k) >= version(c, k)
    ensures (exists id | id in ids :: k in keys(id)) ==> version(Run(effect, ids, c).value, k) > version(c, k)
  {
    if ids != [] {
      var d := effect(ids[0], c).value;
      assert version(d, k) == version(c, k) + if k in keys(ids[0]) then 1 else 0;
      VersionsGrow(effect, keys, version, ids[1..], d, k);
      if exists id | id in ids :: k in keys(id) {
        var id :| id in ids && k in keys(id);
        assert id == ids[0] || id in ids[1..];
      }
    }
  }

  lemma StampedMoves(effect: Effect, keys: Id -> set<Key>, version: (Config, Key) -> nat, ids: seq<Id>, c: Config)
    requires Stamps(effect, keys, version) && ids != [] && keys(ids[0]) != {}
    ensures Run(effect, ids, c) != Some(c)
  {
    if Run(effect, ids, c).Some? {
      var k :| k in keys(ids[0]);
      assert ids[0] in ids;
      VersionsGrow(effect, keys, version, ids, c, k);
    }
  }

  /** Stamped tasks, batched as the worker does it (a task without users is alone), hide nothing. */
  lemma StampedBatchesAreHonest(effect: Effect, keys: Id -> set<Key>, version: (Config, Key) -> nat, ids: seq<Id>)
    requires Stamps(effect, keys, version)
    requires |ids| > 1 ==> forall id | id in ids :: keys(id) != {}
    ensures Honest(effect, ids)
  {
    forall i, j | 0 <= i <= j <= |ids| ensures NoHiddenWork(effect, ids[i..j]) {
      var part := ids[i..j];
      forall c | Run(effect, part, c) == Some(c) ensures forall id | id in part :: effect(id, c) == Some(c) {
        if |part| > 1 {
          assert part[0] in part && part[0] in ids;
          StampedMoves(effect, keys, version, part, c);
        } else if |part| == 1 {
          assert part[1..] == [] && Run(effect, [], effect(part[0], c).value) == effect(part[0], c);
        }
      }
    }
  }
}
