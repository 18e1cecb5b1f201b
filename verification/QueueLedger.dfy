/** The writer's methods over its durable state, with a crash allowed between any two durable writes. */
module QueueLedger {
  import opened Basics
  import opened TaskStates
  import opened QueueReceipts

  datatype Published = Went | RolledBack | Unclear | Crashed

  datatype Ticket = Accepted(id: Id) | Replayed(id: Id) | Conflict | Busy

  ghost predicate Fresh(w: World, nextId: Id, nextBatch: Batch) {
    && (forall id | id in w.rows || id in w.archive :: id < nextId)
    && (forall b | b in w.files.receipts :: b < nextBatch)
    && (w.journal.Some? ==> forall b | b in w.journal.value.receipts :: b < nextBatch)
  }

  function FinalRows(rows: map<Id, Row>): set<Id> { set id | id in rows && Terminal(rows[id].state) }

  lemma FinalAre(rows: map<Id, Row>)
    ensures forall id :: id in FinalRows(rows) <==> id in rows && Terminal(rows[id].state)
  {
  }

  lemma ArchivedFinal(w: World, ids: set<Id>, nextId: Id, nextBatch: Batch)
    ensures FinalRows(Archived(w, ids).rows) == FinalRows(w.rows) - ids
    ensures Fresh(w, nextId, nextBatch) ==> Fresh(Archived(w, ids), nextId, nextBatch)
  {
  }

  /** Which final rows go, so that at most the hot limit stays. */
  method Coldest(final: set<Id>, hotHistory: nat) returns (ids: set<Id>)
    ensures ids <= final && |final - ids| <= hotHistory && (|final| <= hotHistory ==> ids == {})
  {
    var hot := final;
    ids := {};
    assert final - {} == final;
    while |hot| > hotHistory
      invariant ids <= final && hot == final - ids && (|final| <= hotHistory ==> ids == {})
    {
      var id :| id in hot;
      hot, ids := hot - {id}, ids + {id};
    }
  }

  class Ledger {
    const effect: Effect
    const hotHistory: nat
    var rows: map<Id, Row>
    var archive: map<Id, Row>
    var files: Files
    var journal: Option<Files>
    var live: set<Id>
    var paused: bool
    var nextId: Id
    var nextBatch: Batch
    ghost var applied: seq<Id>
    ghost var promised: seq<Id>
    ghost var origin: Config

    ghost function W(): World
      reads this
    {
      World(rows, archive, files, journal, applied, promised, origin)
    }

    ghost predicate Valid()
      reads this
    {
      && Inv(effect, W())
      && Fresh(W(), nextId, nextBatch)
    }

    constructor (effect: Effect, hotHistory: nat, config: Config)
      ensures Valid() && this.effect == effect && journal.None? && !paused && live == {}
      ensures files.config == config == origin && applied == []
    {
      this.effect, this.hotHistory := effect, if hotHistory == 0 then 1 else hotHistory;
      rows, archive, files, journal, live, paused := map[], map[], Files(config, map[]), None, {}, false;
      nextId, nextBatch, applied, promised, origin := 0, 0, [], [], config;
    }

    /** The row that owns a request key, in the table or in the archive. */
    method Owner(key: Key) returns (found: Option<Id>)
      requires Valid()
      ensures found.Some? <==> KeyOf(rows, archive, key)
      ensures found.Some? ==> Owns(rows, archive, found.value, key)
      ensures forall id: Id | Owns(rows, archive, id, key) :: found == Some(id)
    {
      UniqueOwners(effect, W());
      hide Inv;
      if exists id | id in rows :: rows[id].key == Some(key) {
        var id :| id in rows && rows[id].key == Some(key);
        assert Owns(rows, archive, id, key);
        return Some(id);
      }
      if exists id | id in archive :: archive[id].key == Some(key) {
        var id :| id in archive && archive[id].key == Some(key);
        assert Owns(rows, archive, id, key);
        return Some(id);
      }
      return None;
    }

    /** `submit`: a known key answers for good, whatever the writer's condition. */
    method Submit(key: Option<Key>, fingerprint: Fingerprint, closed: bool) returns (t: Ticket)
      requires Valid()
      modifies `rows, `live, `nextId
      ensures Valid() && Keeps(old(W()), W())
      ensures forall id: Id | key.Some? && Owns(old(rows), archive, id, key.value) ::
                t == if MarkOf(old(rows), archive, id) == fingerprint then Replayed(id) else Conflict
      ensures (key.None? || !KeyOf(old(rows), archive, key.value)) ==>
                t == if closed || paused then Busy else Accepted(old(nextId))
      ensures t.Accepted? ==> t.id !in old(rows) && t.id !in archive
                              && W() == Submitted(old(W()), t.id, key, fingerprint) && live == old(live) + {t.id}
      ensures !t.Accepted? ==> W() == old(W()) && live == old(live)
    {
      hide Inv, Keeps, KeyOf;
      KeepsItself(W());
      if key.Some? {
        var found := Owner(key.value);
        if found.Some? {
          return if MarkOf(rows, archive, found.value) == fingerprint then Replayed(found.value) else Conflict;
        }
        Unowned(rows, archive, key.value);
      }
      if closed || paused { return Busy; }
      SubmittedInv(effect, W(), nextId, key, fingerprint);
      RowKeeps(W(), nextId, Row(key, fingerprint, QUEUED, None));
      rows := rows[nextId := Row(key, fingerprint, QUEUED, None)];
      live := live + {nextId};
      t := Accepted(nextId);
      nextId := nextId + 1;
    }

    /** The RUNNING rows of `_apply`, in one commit. */
    method Start(ids: seq<Id>) returns (batch: Batch)
      requires Valid() && journal.None?
      requires forall id | id in ids :: id in rows && id !in applied
      modifies `rows, `nextBatch
      ensures Valid() && W() == Started(old(W()), ids, batch) && batch !in files.receipts && batch < nextBatch
    {
      hide Inv;
      StartedInv(effect, W(), ids, nextBatch);
      batch, nextBatch := nextBatch, nextBatch + 1;
      rows := map i | i in rows :: if i in ids then rows[i].(state := RUNNING, batch := Some(batch)) else rows[i];
    }

    /** `_finish`. */
    method Finish(id: Id, state: State)
      requires Valid() && id in rows
      requires Terminal(state) || state.UNKNOWN?
      requires Open(rows[id].state) || rows[id].state.QUEUED?
      requires Terminal(state) ==> id !in promised
      requires Terminal(state) && !state.SUCCEEDED? ==> id !in applied
      requires state.SUCCEEDED? && id !in applied ==> journal.None? && effect(id, files.config) == Some(files.config)
      modifies `rows, `live, `applied
      ensures Valid() && W() == Finished(old(W()), id, state) && live == old(live) - {id}
    {
      hide Inv;
      FinishedInv(effect, W(), id, state);
      rows := rows[id := rows[id].(state := state)];
      live := live - {id};
      applied := if state.SUCCEEDED? && id !in applied then applied + [id] else applied;
    }

    /** `archive_history`: the oldest final rows beyond the hot limit, in one transaction. */
    method ArchiveHistory()
      requires Valid()
      modifies `rows, `archive
      ensures Valid() && Keeps(old(W()), W())
      ensures exists ids :: W() == Archived(old(W()), ids) && forall id | id in ids ::
                id in old(rows) && Terminal(old(rows)[id].state)
      ensures |FinalRows(rows)| <= hotHistory
    {
      hide Inv, Keeps, FinalRows, Fresh;
      var final := FinalRows(rows);
      FinalAre(rows);
      var ids := Coldest(final, hotHistory);
      ArchivedInv(effect, W(), ids);
      TruthHolds(effect, W());
      ArchivedKeeps(W(), ids);
      ArchivedFinal(W(), ids, nextId, nextBatch);
      archive := archive + map id | id in rows && id in ids :: rows[id];
      rows := rows - ids;
      assert W() == Archived(old(W()), ids);
    }

    /** `cleanup_receipt`. */
    method CleanupReceipt(batch: Batch)
      requires Valid()
      modifies `files
      ensures Valid() && Keeps(old(W()), W())
      ensures W() == if journal.None? && forall id | id in rows && rows[id].batch == Some(batch) :: Terminal(rows[id].state)
                     then Cleaned(old(W()), batch) else old(W())
    {
      hide Inv, Keeps;
      KeepsItself(W());
      StepsKeep(W(), [], batch);
      if journal.Some? { return; }
      if exists id | id in rows :: rows[id].batch == Some(batch) && !Terminal(rows[id].state) { return; }
      CleanedInv(effect, W(), batch);
      files := files.(receipts := files.receipts - {batch});
    }
  
    /** Whether the writer dies here; when all goes smoothly it does not. */
    static method Dies(smooth: bool) returns (dies: bool)
      ensures dies ==> !smooth
    {
      dies := *;
      dies := dies && !smooth;
    }

    /** The finishing loop of `_process`: one durable write per task, and a crash may stop it. */
    method FinishAll(ids: seq<Id>, state: State, smooth: bool) returns (crashed: bool)
      requires Valid() && Distinct(ids) && (Terminal(state) || state.UNKNOWN?)
      requires forall id | id in ids :: MayFinish(effect, W(), id, state)
      modifies `rows, `live, `applied
      ensures Valid() && Keeps(old(W()), W()) && Others(old(W()), W(), ids)
      ensures forall id | id in ids :: id in rows && (crashed || rows[id].state == state)
      ensures crashed ==> live == {}
      ensures !crashed ==> live == old(live) - IdSet(ids)
      ensures !state.SUCCEEDED? || (forall id | id in ids :: id in old(applied)) ==> applied == old(applied)
      ensures smooth ==> !crashed
    {
      hide Inv, Keeps, Others, MayFinish;
      KeepsItself(W());
      OthersItself(W(), ids);
      ghost var settled := !state.SUCCEEDED? || forall id | id in ids :: id in old(applied);
      crashed := false;
      for k := 0 to |ids|
        invariant Valid() && Keeps(old(W()), W()) && Others(old(W()), W(), ids)
        invariant forall i | 0 <= i < k :: ids[i] in rows && rows[ids[i]].state == state
        invariant forall i | k <= i < |ids| :: MayFinish(effect, W(), ids[i], state)
        invariant live == old(live) - IdSet(ids[..k])
        invariant settled ==> applied == old(applied)
      {
        assert ids[k] in ids;
        ghost var w := W();
        var dies := Dies(smooth);
        if dies {
          InRows(effect, w, ids, k, state);
          live := {};
          return true;
        }
        FinishableNow(effect, w, ids[k], state);
        Finish(ids[k], state);
        FinishedKeeps(effect, w, ids[k], state);
        KeepsTransitive(old(W()), w, W());
        FinishedOthers(w, ids[k], state, ids);
        OthersTransitive(old(W()), w, W(), ids);
        forall i | k + 1 <= i < |ids| ensures MayFinish(effect, W(), ids[i], state) {
          StillFinishable(effect, w, ids[k], ids[i], state);
        }
        assert ids[..k + 1] == ids[..k] + [ids[k]];
        IdSetJoin(ids[..k], [ids[k]]);
      }
      assert ids[..|ids|] == ids;
    }
  
    /**
     Publishing a staged batch: configuration and receipt change sides together, or the journal stays. `smooth` says
     that the runtime takes it and its answer arrives.
     */
    method Publish(ids: seq<Id>, batch: Batch, target: Config, smooth: bool) returns (r: Published)
      requires Valid() && journal.None? && batch !in files.receipts && batch < nextBatch && Distinct(ids)
      requires forall id | id in ids ::
                id in rows && id !in applied && rows[id].state.RUNNING? && rows[id].batch == Some(batch)
      requires Run(effect, ids, files.config) == Some(target)
      modifies `files, `journal, `applied, `promised
      ensures Valid()
      ensures smooth ==> r.Went?
      ensures r.Went? ==> W() == Landed(Prepared(old(W()), ids, batch, target))
      ensures r.RolledBack? ==> W() == old(W())
      ensures r.Unclear? ==> W() == Prepared(old(W()), ids, batch, target)
      ensures r.Crashed? ==> W() in {old(W()), Prepared(old(W()), ids, batch, target), Landed(Prepared(old(W()), ids, batch, target))}
    {
      hide Inv, Run, Distinct;
      var dies := Dies(smooth);
      if dies { return Crashed; }
      EmptyPromise(effect, W());
      PreparedInv(effect, W(), ids, batch, target);
      journal := Some(Files(target, files.receipts[batch := Proof(rows, ids)]));
      promised := ids;
      dies := Dies(smooth);
      if dies { return Crashed; }
      var lost: bool, refused: bool := *, *;
      if lost && !smooth { return Unclear; }
      if refused && !smooth {
        UndoneInv(effect, W());
        journal, promised := None, [];
        r := RolledBack;
      } else {
        LandedInv(effect, W());
        files, journal, applied, promised := journal.value, None, applied + promised, [];
        r := Went;
      }
      dies := Dies(smooth);
      if dies { r := Crashed; }
    }

    /** Publication recovery settles an open journal on one of its two sides. */
    method ResolveJournal(forward: bool)
      requires Valid() && journal.Some?
      modifies `files, `journal, `applied, `promised
      ensures Valid() && journal.None?
      ensures W() == if forward then Landed(old(W())) else Undone(old(W()))
    {
      hide Inv;
      if forward {
        LandedInv(effect, W());
        files, journal, applied, promised := journal.value, None, applied + promised, [];
      } else {
        UndoneInv(effect, W());
        journal, promised := None, [];
      }
    }

    /** The `finally` of `_process`: history is archived and finished receipts are dropped. */
    method Tidy(batches: seq<Batch>)
      requires Valid()
      modifies `rows, `archive, `files
      ensures Valid() && Keeps(old(W()), W()) && Others(old(W()), W(), []) && files.config == old(files).config
      ensures forall id | id in rows :: id in old(rows) && rows[id] == old(rows)[id]
      ensures forall id | id in old(rows) && id !in rows :: id in archive
    {
      hide Inv, Keeps;
      ArchiveHistory();
      for k := 0 to |batches|
        invariant Valid() && Keeps(old(W()), W()) && Others(old(W()), W(), []) && files.config == old(files).config
        invariant forall id | id in rows :: id in old(rows) && rows[id] == old(rows)[id]
        invariant forall id | id in old(rows) && id !in rows :: id in archive
      {
        ghost var w := W();
        CleanupReceipt(batches[k]);
        KeepsTransitive(old(W()), w, W());
      }
    }

    /** Every row that is not final and not the worker's, judged by the receipts. */
    method JudgeRows() returns (judged: map<Id, Row>)
      ensures judged == Reconciled(W(), live).rows
    {
      var receipts := files.receipts;
      var left := rows.Keys;
      judged := map[];
      while left != {}
        invariant left <= rows.Keys && judged.Keys == rows.Keys - left
        invariant forall id | id in judged :: judged[id] == Reconciled(W(), live).rows[id]
      {
        var id :| id in left;
        left := left - {id};
        judged := judged[id := if Terminal(rows[id].state) || id in live then rows[id] else Judged(receipts, id, rows[id])];
      }
    }

    /** `recover_receipts`: with the journal gone, every row the worker does not hold gets its final state. */
    method RecoverReceipts(batches: seq<Batch>)
      requires Valid()
      modifies `rows, `archive, `files, `paused
      ensures Valid() && Keeps(old(W()), W())
      ensures paused == old(journal).Some?
      ensures paused ==> W() == old(W())
      ensures applied == old(applied) && promised == old(promised) && origin == old(origin) && journal == old(journal)
      ensures files.config == old(files).config
      ensures !paused ==> forall id | id in rows :: Terminal(rows[id].state) || id in live
    {
      hide Inv, Keeps;
      KeepsItself(W());
      if journal.Some? {
        paused := true;
        return;
      }
      ghost var w := W();
      ReconciledInv(effect, w, live);
      ReconciledKeeps(w, live);
      rows := JudgeRows();
      assert W() == Reconciled(w, live);
      ghost var v := W();
      Tidy(batches);
      KeepsTransitive(w, v, W());
      paused := false;
    }
  
    /** A new writer on the old directory: with the journal resolved, the books are exact again. */
    method Restart(batches: seq<Batch>)
      requires Valid()
      modifies `rows, `archive, `files, `paused, `live
      ensures Valid() && Keeps(old(W()), W()) && live == {} && paused == old(journal).Some?
      ensures applied == old(applied) && files.config == old(files).config
      ensures !paused ==> Exact(effect, W())
    {
      hide Inv, Keeps, Exact;
      live := {};
      RecoverReceipts(batches);
      if !paused { RecoveredIsExact(effect, W()); }
    }

    /** Publication recovery first, then the receipts: whatever the crash left behind, the books are exact. */
    method Reopen(forward: bool, batches: seq<Batch>)
      requires Valid()
      modifies this
      ensures Valid() && Keeps(old(W()), W()) && Exact(effect, W()) && journal.None? && !paused && live == {}
      ensures applied == if old(journal).Some? && forward then old(applied) + old(promised) else old(applied)
      ensures files.config == if old(journal).Some? && forward then old(journal).value.config else old(files).config
    {
      hide Inv, Keeps, Exact;
      ghost var w := W();
      KeepsItself(w);
      StepsKeep(w, [], 0);
      if journal.Some? { ResolveJournal(forward); }
      ghost var v := W();
      Restart(batches);
      KeepsTransitive(w, v, W());
    }

    /**
     A batch of stamped tasks, a crash at any of its durable writes or none, and the next start: every
     task of the batch is final, SUCCEEDED exactly when its effect is in the files, and no other
     task's effect came or went.
     */
    method ProcessAndReopen(ids: seq<Id>, smooth: bool, forward: bool, batches: seq<Batch>, ghost keys: Id -> set<Key>,
                            ghost version: (Config, Key) -> nat)
      requires Valid() && journal.None? && !paused && Distinct(ids)
      requires Stamps(effect, keys, version) && (|ids| > 1 ==> forall id | id in ids :: keys(id) != {})
      requires forall id | id in ids :: Waiting(W(), id)
      modifies this
      ensures Valid() && Keeps(old(W()), W()) && Exact(effect, W()) && journal.None? && !paused && live == {}
      ensures forall id | id in ids :: id in rows || id in archive
      ensures forall id | id !in ids :: id in applied <==> id in old(applied)
    {
      hide Inv, Keeps, Others, Exact, Stamps, Honest, Waiting, Distinct, Done;
      ghost var w := W();
      StampedBatchesAreHonest(effect, keys, version, ids);
      WaitingRows(w, ids);
      var crashed := Process(ids, smooth);
      OthersMeans(w, W(), ids);
      ghost var v := W();
      Reopen(forward, batches);
      KeepsTransitive(w, v, W());
      KeptKnown(w, W(), ids);
    }

    /**
     `_process` with its durable writes. When it returns, each of its tasks has a final state or is
     UNKNOWN behind a paused writer, and the rows tell the truth about the files. They do so wherever
     it stops, unless a crash cut short a quiet batch that hid work. When every publication goes through, the
     files, the applied effects and the outcome of each task are those of the tasks run alone in their order.
     */
    method Process(ids: seq<Id>, smooth: bool) returns (crashed: bool)
      requires Valid() && journal.None? && !paused && Distinct(ids)
      requires forall id | id in ids :: Waiting(W(), id)
      modifies this
      ensures !crashed || Honest(effect, ids) ==> Valid()
      ensures Keeps(old(W()), W()) && Others(old(W()), W(), ids)
      ensures crashed ==> live == {}
      ensures !crashed ==> Done(W(), ids, paused) && live == old(live) - IdSet(ids)
      ensures forall id | id in promised :: id in ids
      ensures smooth ==> !crashed && !paused && AsAlone(effect, old(W()), W(), ids)
      decreases |ids|, 1
    {
      hide Inv, Keeps, Others, Run, Distinct, Honest, NoHiddenWork, Waiting, Done, AsAlone;
      ghost var w := W();
      EmptyPromise(effect, w);
      if Honest(effect, ids) { HonestWhole(effect, ids); }
      WaitingRows(w, ids);
      OthersItself(w, ids);
      KeepsItself(w);
      crashed := false;
      var moved: bool := *;
      if moved && !smooth {
        // the runtime socket changed while the tasks were queued
        paused := true;
        MayStay(effect, w, ids);
        crashed := FinishAll(ids, UNKNOWN, smooth);
        if crashed { return; }
        FinishedDone(effect, W(), ids, UNKNOWN, paused);
        Rest(w, ids, []);
        return;
      }
      var batch := Start(ids);
      StepsKeep(w, ids, batch);
      StartedOthers(w, ids, batch);
      StartedBegun(w, ids, batch);
      var dies := Dies(smooth);
      if dies {
        live := {};
        return true;
      }
      ghost var v := W();
      var staged := Stage(effect, ids, files.config);
      match staged {
        case Rejected(i) => crashed := ProcessRejected(ids, i, batch, smooth);
        case Staged(target) => crashed := Settle(ids, batch, target, smooth);
      }
      KeepsTransitive(w, v, W());
      OthersTransitive(w, v, W(), ids);
      ghost var u := W();
      if smooth && !crashed { AloneSince(effect, w, v, u, ids); }
      if !crashed {
        Rest(w, ids, [batch]);
        if smooth { AloneKept(effect, w, u, W(), ids); }
      }
    }

    /** Archiving and cleanup after a batch keep what the batch established. */
    method Rest(ghost w: World, ids: seq<Id>, batches: seq<Batch>)
      requires Valid() && Keeps(w, W()) && Others(w, W(), ids) && Done(W(), ids, paused)
      modifies `rows, `archive, `files
      ensures Valid() && Keeps(w, W()) && Others(w, W(), ids) && Done(W(), ids, paused)
      ensures Keeps(old(W()), W()) && files.config == old(files).config
    {
      hide Inv, Keeps, Others, Done;
      ghost var v := W();
      Tidy(batches);
      KeepsTransitive(w, v, W());
      OthersWiden(v, W(), ids);
      OthersTransitive(w, v, W(), ids);
      TidiedDone(v, W(), ids, paused);
    }

    /**
     Finishing a batch that changed nothing. No receipt stands behind it, so a crash after `done` tasks
     leaves true rows exactly when those tasks changed nothing by themselves.
     */
    method FinishQuiet(ids: seq<Id>, batch: Batch, smooth: bool) returns (crashed: bool, ghost done: nat)
      requires Valid() && journal.None? && Distinct(ids) && Begun(W(), ids, batch)
      requires Run(effect, ids, files.config) == Some(files.config)
      modifies `rows, `live, `applied
      ensures done <= |ids| && W() == QuietlyFinished(old(W()), ids[..done])
      ensures Valid() <==> Run(effect, ids[..done], files.config) == Some(files.config)
      ensures crashed ==> live == {}
      ensures !crashed ==> done == |ids| && live == old(live) - IdSet(ids)
      ensures smooth ==> !crashed
    {
      hide Inv, Run, Distinct, Begun;
      ghost var w := W();
      crashed, done := false, 0;
      QuietNone(w);
      assert ids[..0] == [];
      for k := 0 to |ids|
        invariant done == k && W() == QuietlyFinished(w, ids[..k]) && !crashed
        invariant live == old(live) - IdSet(ids[..k])
      {
        var dies := Dies(smooth);
        if dies {
          crashed, live := true, {};
          break;
        }
        BegunRow(w, ids, batch, k);
        QuietStep(w, ids, k);
        rows := rows[ids[k] := rows[ids[k]].(state := SUCCEEDED)];
        live := live - {ids[k]};
        applied := applied + [ids[k]];
        done := k + 1;
        assert ids[..k + 1] == ids[..k] + [ids[k]];
        IdSetJoin(ids[..k], [ids[k]]);
      }
      assert ids[..|ids|] == ids;
      QuietTruth(effect, w, ids, batch, done);
    }

    /** The outcomes of a batch whose callbacks all returned. */
    method Settle(ids: seq<Id>, batch: Batch, target: Config, smooth: bool) returns (crashed: bool)
      requires Valid() && journal.None? && !paused && Distinct(ids)
      requires Begun(W(), ids, batch) && batch < nextBatch && Run(effect, ids, files.config) == Some(target)
      modifies `rows, `live, `applied, `files, `journal, `promised, `paused
      ensures !crashed || NoHiddenWork(effect, ids) ==> Valid()
      ensures Keeps(old(W()), W()) && Others(old(W()), W(), ids)
      ensures crashed ==> live == {}
      ensures !crashed ==> Done(W(), ids, paused) && live == old(live) - IdSet(ids)
      ensures forall id | id in promised :: id in ids
      ensures smooth ==> !crashed && !paused && AsAlone(effect, old(W()), W(), ids)
      ensures !crashed ==>
                || (!paused && AsAlone(effect, old(W()), W(), ids))
                || (!paused && files == old(files) && applied == old(applied) && AllIn(rows, ids, FAILED))
                || (paused && files == old(files) && journal.Some? && AllIn(rows, ids, UNKNOWN))
    {
      hide Inv, Keeps, Others, Run, Distinct, Done, MayFinish, NoHiddenWork, AsAlone;
      ghost var w := W();
      EmptyPromise(effect, w);
      KeepsItself(w);
      OthersItself(w, ids);
      if target == files.config {
        ghost var done: nat;
        crashed, done := FinishQuiet(ids, batch, smooth);
        QuietKeeps(w, ids, batch, done);
        assert ids[..|ids|] == ids;
        if NoHiddenWork(effect, ids) { QuietIdle(effect, ids, done, target); }
        if !crashed {
          QuietDone(w, ids, batch, paused);
          AloneQuiet(effect, w, ids);
        }
        return;
      }
      var state := SUCCEEDED;
      var r := Publish(ids, batch, target, smooth);
      PublishedOthers(effect, w, ids, batch, target);
      match r {
        case Went => LandedFinish(effect, w, ids, batch, target);
        case RolledBack =>
          state := FAILED;
          RolledBackFinish(effect, w, ids, batch);
        case Unclear =>
          state, paused := UNKNOWN, true;
          UnclearFinish(effect, w, ids, batch, target);
        case Crashed =>
          live := {};
          return true;
      }
      ghost var v := W();
      crashed := FinishAll(ids, state, smooth);
      KeepsTransitive(w, v, W());
      OthersTransitive(w, v, W(), ids);
      if !crashed { FinishedDone(effect, W(), ids, state, paused); }
      if r.Went? && !crashed { AloneWent(effect, w, W(), ids, target); }
    }

    /** The `BatchRejected` handler: the staged prefix again, the rejected task, then the rest. */
    method ProcessRejected(ids: seq<Id>, index: nat, ghost batch: Batch, smooth: bool) returns (crashed: bool)
      requires Valid() && journal.None? && !paused && Distinct(ids)
      requires index < |ids| && Begun(W(), ids, batch) && Run(effect, ids[..index], files.config).Some?
      requires effect(ids[index], Run(effect, ids[..index], files.config).value).None?
      modifies this
      ensures !crashed || Honest(effect, ids) ==> Valid()
      ensures Keeps(old(W()), W()) && Others(old(W()), W(), ids)
      ensures crashed ==> live == {}
      ensures !crashed ==> Done(W(), ids, paused) && live == old(live) - IdSet(ids)
      ensures forall id | id in promised :: id in ids
      ensures smooth ==> !crashed && !paused && AsAlone(effect, old(W()), W(), ids)
      decreases |ids|, 0
    {
      hide Inv, Keeps, Others, Run, Distinct, Done, MayFinish, Honest, Begun, Waiting, Segment, AsAlone;
      ghost var w := W();
      var item, prefix, suffix := ids[index], ids[..index], ids[index + 1..];
      Parts(effect, w, ids, index, batch);
      EmptyPromise(effect, w);
      crashed := ProcessPrefix(prefix, smooth);
      OthersPart(w, W(), prefix, ids);
      if crashed { return; }
      var dies := Dies(smooth);
      if dies {
        SegmentIn(w, W(), prefix, ids, false, paused);
        live := {};
        return true;
      }
      FailItem(w, prefix, item, smooth);
      ghost var u, halted := W(), paused;
      JournalPauses(w, u, prefix + [item], false, halted);
      StillWaiting(w, u, prefix + [item], suffix, false, halted);
      IdSetJoin(prefix, [item]);
      IdSetJoin(prefix + [item], suffix);
      if suffix != [] {
        crashed := ProcessSuffix(suffix, smooth);
        SegmentIn(w, u, prefix + [item], ids, false, halted);
        KeepsTransitive(w, u, W());
        OthersPart(u, W(), suffix, ids);
        OthersTransitive(w, u, W(), ids);
        if crashed { return; }
        SegmentIs(u, W(), suffix, halted, paused);
        SegmentJoin(w, u, W(), prefix + [item], suffix, false, halted, paused);
        if smooth { AloneJoin(effect, w, u, W(), prefix + [item], suffix); }
      }
      assert suffix == [] ==> prefix + [item] == ids;
      SegmentMeans(w, W(), ids, false, paused);
    }

    /** The tasks before a rejected one. */
    method ProcessPrefix(prefix: seq<Id>, smooth: bool) returns (crashed: bool)
      requires Valid() && journal.None? && !paused && Distinct(prefix)
      requires forall id | id in prefix :: Waiting(W(), id)
      modifies this
      ensures !crashed || Honest(effect, prefix) ==> Valid()
      ensures Keeps(old(W()), W()) && Others(old(W()), W(), prefix)
      ensures crashed ==> live == {}
      ensures !crashed ==> Segment(old(W()), W(), prefix, false, paused) && live == old(live) - IdSet(prefix)
      ensures forall id | id in promised :: id in prefix
      ensures smooth ==> !crashed && !paused && AsAlone(effect, old(W()), W(), prefix)
      decreases |prefix|, 2
    {
      hide Inv, Keeps, Others, Run, Distinct, Done, Honest, Waiting, Segment, AsAlone;
      ghost var w := W();
      crashed := false;
      if prefix == [] {
        SegmentNone(w);
        AloneNone(effect, w);
        KeepsItself(w);
        OthersItself(w, prefix);
        EmptyPromise(effect, w);
        return;
      }
      crashed := Process(prefix, smooth);
      if !crashed { SegmentIs(w, W(), prefix, false, paused); }
    }

    /** The rejected task itself. */
    method FailItem(ghost w: World, prefix: seq<Id>, item: Id, ghost smooth: bool)
      requires Valid() && Segment(w, W(), prefix, false, paused) && Waiting(w, item) && item !in prefix
      requires item !in promised && (smooth ==> AsAlone(effect, w, W(), prefix))
      requires Run(effect, prefix, w.files.config).Some?
      requires effect(item, Run(effect, prefix, w.files.config).value).None?
      modifies `rows, `live, `applied
      ensures Valid() && Segment(w, W(), prefix + [item], false, paused) && live == old(live) - {item}
      ensures smooth ==> AsAlone(effect, w, W(), prefix + [item])
    {
      hide Inv, Keeps, Others, Run, Distinct, Done, MayFinish, Waiting, Segment, AsAlone;
      ghost var v := W();
      StillWaiting(w, v, prefix, [item], false, paused);
      JournalPauses(w, v, prefix, false, paused);
      MayGiveUp(effect, v, item, FAILED);
      FinishableNow(effect, v, item, FAILED);
      Finish(item, FAILED);
      FinishedSegment(effect, v, item, paused);
      SegmentJoin(w, v, W(), prefix, [item], false, paused, paused);
      if smooth { AloneRejected(effect, w, v, prefix, item); }
    }

    /** The tasks behind a rejected one: cancelled when the prefix left the outcome open, processed otherwise. */
    method ProcessSuffix(suffix: seq<Id>, smooth: bool) returns (crashed: bool)
      requires Valid() && Distinct(suffix) && (journal.Some? ==> paused)
      requires forall id | id in suffix :: Waiting(W(), id) && id !in promised
      modifies this
      ensures !crashed || Honest(effect, suffix) ==> Valid()
      ensures Keeps(old(W()), W()) && Others(old(W()), W(), suffix)
      ensures crashed ==> live == {}
      ensures !crashed ==> Done(W(), suffix, paused) && live == old(live) - IdSet(suffix)
      ensures old(paused) ==> paused
      ensures forall id | id in promised :: id in suffix || id in old(promised)
      ensures smooth ==> !crashed
      ensures smooth && !old(paused) ==> !paused && AsAlone(effect, old(W()), W(), suffix)
      ensures old(paused) && !crashed ==>
                files == old(files) && applied == old(applied) && AllIn(rows, suffix, CANCELLED)
      decreases |suffix|, 2
    {
      hide Inv, Keeps, Others, Run, Distinct, Done, MayFinish, Honest, Waiting, AsAlone;
      if paused {
        forall id | id in suffix ensures MayFinish(effect, W(), id, CANCELLED) {
          MayGiveUp(effect, W(), id, CANCELLED);
        }
        crashed := FinishAll(suffix, CANCELLED, smooth);
        if !crashed { FinishedDone(effect, W(), suffix, CANCELLED, paused); }
      } else {
        crashed := Process(suffix, smooth);
      }
    }
  }

  /**
   Every task is final; the tasks recorded as SUCCEEDED are those whose effects make up the
   configuration, each once, and the others contributed nothing.
   */
  ghost predicate Exact(effect: Effect, w: World) {
    && Run(effect, w.applied, w.origin) == Some(w.files.config) && Distinct(w.applied)
    && (forall id | id in w.rows :: Terminal(w.rows[id].state) && (w.rows[id].state.SUCCEEDED? <==> id in w.applied))
    && (forall id | id in w.archive ::
        Terminal(w.archive[id].state) && (w.archive[id].state.SUCCEEDED? <==> id in w.applied))
    && (forall id | id in w.applied :: id in w.rows || id in w.archive)
  }

  lemma RecoveredIsExact(effect: Effect, w: World)
    requires Inv(effect, w) && w.journal.None? && forall id | id in w.rows :: Terminal(w.rows[id].state)
    ensures Exact(effect, w)
  {
    assert w.applied + [] == w.applied;
  }

  lemma UniqueOwners(effect: Effect, w: World)
    requires Inv(effect, w)
    ensures UniqueKeys(w)
  {
  }

  lemma TruthHolds(effect: Effect, w: World)
    requires Inv(effect, w)
    ensures Truth(w)
  {
  }

  lemma KeepsItself(w: World)
    ensures Keeps(w, w)
  {
  }

  predicate Owns(rows: map<Id, Row>, archive: map<Id, Row>, id: Id, key: Key) {
    (id in rows && rows[id].key == Some(key)) || (id in archive && archive[id].key == Some(key))
  }

  ghost predicate KeyOf(rows: map<Id, Row>, archive: map<Id, Row>, key: Key) {
    exists id: Id :: Owns(rows, archive, id, key)
  }

  lemma Unowned(rows: map<Id, Row>, archive: map<Id, Row>, key: Key)
    requires !KeyOf(rows, archive, key)
    ensures (forall i | i in rows :: rows[i].key != Some(key)) && forall i | i in archive :: archive[i].key != Some(key)
  {
    assert forall i | i in rows :: !Owns(rows, archive, i, key);
    assert forall i | i in archive :: !Owns(rows, archive, i, key);
  }

  function MarkOf(rows: map<Id, Row>, archive: map<Id, Row>, id: Id): Fingerprint
    requires id in rows || id in archive
  {
    if id in rows then rows[id].fingerprint else archive[id].fingerprint
  }

  /** What `_finish` asks of a task so that the new state is true. */
  ghost predicate MayFinish(effect: Effect, w: World, id: Id, state: State) {
    && id in w.rows
    && (Open(w.rows[id].state) || w.rows[id].state.QUEUED?)
    && (Terminal(state) ==> id !in w.promised)
    && (Terminal(state) && !state.SUCCEEDED? ==> id !in w.applied)
    && (state.SUCCEEDED? && id !in w.applied ==> w.journal.None? && effect(id, w.files.config) == Some(w.files.config))
  }

  lemma FinishableNow(effect: Effect, w: World, id: Id, state: State)
    requires MayFinish(effect, w, id, state)
    ensures id in w.rows && (Open(w.rows[id].state) || w.rows[id].state.QUEUED?)
    ensures Terminal(state) ==> id !in w.promised
    ensures Terminal(state) && !state.SUCCEEDED? ==> id !in w.applied
    ensures state.SUCCEEDED? && id !in w.applied ==>
              w.journal.None? && effect(id, w.files.config) == Some(w.files.config)
  {
  }

  lemma InRows(effect: Effect, w: World, ids: seq<Id>, k: nat, state: State)
    requires k <= |ids| && forall i | 0 <= i < k :: ids[i] in w.rows
    requires forall i | k <= i < |ids| :: MayFinish(effect, w, ids[i], state)
    ensures forall id | id in ids :: id in w.rows
  {
    forall id | id in ids ensures id in w.rows {
      var i :| 0 <= i < |ids| && ids[i] == id;
      if i >= k { assert MayFinish(effect, w, ids[i], state); }
    }
  }

  lemma StillFinishable(effect: Effect, w: World, id: Id, other: Id, state: State)
    requires MayFinish(effect, w, id, state) && MayFinish(effect, w, other, state) && id != other
    ensures MayFinish(effect, Finished(w, id, state), other, state)
  {
  }

  lemma FinishedKeeps(effect: Effect, w: World, id: Id, state: State)
    requires MayFinish(effect, w, id, state)
    ensures Keeps(w, Finished(w, id, state))
  {
  }

  /** Tasks outside `ids` keep their unfinished rows, and their effects stay as they were. */
  ghost predicate Others(w: World, v: World, ids: seq<Id>) {
    && v.origin == w.origin
    && (forall id | id in w.rows && id !in ids && !Terminal(w.rows[id].state) ::
        id in v.rows && v.rows[id] == w.rows[id])
    && (forall id | id !in ids :: id in v.applied <==> id in w.applied)
  }

  lemma OthersItself(w: World, ids: seq<Id>)
    ensures Others(w, w, ids)
  {
  }

  lemma OthersMeans(w: World, v: World, ids: seq<Id>)
    requires Others(w, v, ids)
    ensures forall id | id !in ids :: id in v.applied <==> id in w.applied
  {
  }

  lemma KeptKnown(w: World, v: World, ids: seq<Id>)
    requires Keeps(w, v) && forall id | id in ids :: id in w.rows
    ensures forall id | id in ids :: id in v.rows || id in v.archive
  {
  }

  lemma OthersTransitive(u: World, v: World, w: World, ids: seq<Id>)
    requires Others(u, v, ids) && Others(v, w, ids)
    ensures Others(u, w, ids)
  {
  }

  lemma FinishedOthers(w: World, id: Id, state: State, ids: seq<Id>)
    requires id in w.rows && id in ids
    ensures Others(w, Finished(w, id, state), ids)
  {
  }

  lemma EmptyPromise(effect: Effect, w: World)
    requires Inv(effect, w) && w.journal.None?
    ensures w.promised == []
  {
  }

  /** A task the worker may still apply. */
  ghost predicate Waiting(w: World, id: Id) {
    id in w.rows && (w.rows[id].state.QUEUED? || w.rows[id].state.RUNNING?) && id !in w.applied
  }

  /** Each task of the batch is final, or UNKNOWN behind a paused writer; an open journal pauses it. */
  ghost predicate Done(w: World, ids: seq<Id>, paused: bool) {
    && (w.journal.Some? ==> paused)
    && (forall id | id in ids ::
          || id in w.archive
          || (id in w.rows && (Terminal(w.rows[id].state) || (paused && w.rows[id].state.UNKNOWN?))))
  }

  datatype Staged = Staged(target: Config) | Rejected(index: nat)

  /** The callbacks of a batch on one working copy, up to the first that raises. */
  function Stage(effect: Effect, ids: seq<Id>, c: Config): (r: Staged)
    ensures r.Staged? ==> Run(effect, ids, c) == Some(r.target)
    ensures r.Rejected? ==> r.index < |ids| && Run(effect, ids[..r.index], c).Some?
                            && effect(ids[r.index], Run(effect, ids[..r.index], c).value).None?
  {
    if ids == [] then Staged(c)
    else match effect(ids[0], c)
      case None => Rejected(0)
      case Some(d) =>
        match Stage(effect, ids[1..], d)
        case Rejected(i) =>
          assert ids[..i + 1][1..] == ids[1..][..i];
          Rejected(i + 1)
        case Staged(e) => Staged(e)
  }

  // ---------------------------------------------------------------- as if run alone

  ghost predicate AllIn(rows: map<Id, Row>, ids: seq<Id>, state: State) {
    forall id | id in ids :: id in rows && rows[id].state == state
  }

  ghost predicate Ended(w: World, id: Id, state: State) {
    (id in w.rows && w.rows[id].state == state) || (id in w.archive && w.archive[id].state == state)
  }

  /** Between `w` and `v` the tasks took effect and ended as they would have, run alone in this order. */
  ghost predicate AsAlone(effect: Effect, w: World, v: World, ids: seq<Id>) {
    var alone := OneByOne(effect, ids, w.files.config);
    && v.journal.None? && v.files.config == alone.config && v.applied == w.applied + alone.done
    && (forall id | id in ids :: Ended(v, id, if id in alone.done then SUCCEEDED else FAILED))
  }

  lemma AloneNone(effect: Effect, w: World)
    requires w.journal.None?
    ensures AsAlone(effect, w, w, [])
  {
  }

  lemma AloneSince(effect: Effect, w: World, v: World, u: World, ids: seq<Id>)
    requires AsAlone(effect, v, u, ids) && v.files == w.files && v.applied == w.applied
    ensures AsAlone(effect, w, u, ids)
  {
  }

  lemma EndedKept(w: World, v: World, id: Id, state: State)
    requires Ended(w, id, state) && Terminal(state) && Keeps(w, v)
    ensures Ended(v, id, state)
  {
  }

  lemma AloneKept(effect: Effect, w: World, v: World, u: World, ids: seq<Id>)
    requires AsAlone(effect, w, v, ids) && Keeps(v, u)
    requires u.files.config == v.files.config && u.applied == v.applied && u.journal == v.journal
    ensures AsAlone(effect, w, u, ids)
  {
    hide Keeps, Ended;
    var alone := OneByOne(effect, ids, w.files.config);
    forall id | id in ids ensures Ended(u, id, if id in alone.done then SUCCEEDED else FAILED) {
      EndedKept(v, u, id, if id in alone.done then SUCCEEDED else FAILED);
    }
  }

  lemma AloneQuiet(effect: Effect, w: World, ids: seq<Id>)
    requires w.journal.None? && Run(effect, ids, w.files.config) == Some(w.files.config)
    requires forall id | id in ids :: id in w.rows
    ensures AsAlone(effect, w, QuietlyFinished(w, ids), ids)
  {
    RunIsOneByOne(effect, ids, w.files.config);
  }

  lemma AloneWent(effect: Effect, w: World, v: World, ids: seq<Id>, target: Config)
    requires Run(effect, ids, w.files.config) == Some(target) && v.journal.None? && v.files.config == target
    requires v.applied == w.applied + ids && forall id | id in ids :: id in v.rows && v.rows[id].state.SUCCEEDED?
    ensures AsAlone(effect, w, v, ids)
  {
    RunIsOneByOne(effect, ids, w.files.config);
  }

  lemma AloneJoin(effect: Effect, u: World, v: World, w: World, a: seq<Id>, b: seq<Id>)
    requires AsAlone(effect, u, v, a) && AsAlone(effect, v, w, b) && Keeps(v, w) && forall id | id in b :: id !in a
    ensures AsAlone(effect, u, w, a + b)
  {
    hide Keeps, Ended;
    OneByOneJoin(effect, a, b, u.files.config);
    var first := OneByOne(effect, a, u.files.config);
    var second := OneByOne(effect, b, first.config);
    OneByOneSome(effect, a, u.files.config);
    OneByOneSome(effect, b, first.config);
    assert u.applied + first.done + second.done == u.applied + (first.done + second.done);
    forall id | id in a + b ensures Ended(w, id, if id in first.done + second.done then SUCCEEDED else FAILED) {
      if id in a { EndedKept(v, w, id, if id in first.done then SUCCEEDED else FAILED); }
    }
  }

  /** The rejected task, after the tasks before it. */
  lemma AloneRejected(effect: Effect, w: World, v: World, prefix: seq<Id>, item: Id)
    requires AsAlone(effect, w, v, prefix) && Run(effect, prefix, w.files.config).Some? && item in v.rows
    requires effect(item, Run(effect, prefix, w.files.config).value).None? && item !in prefix
    requires Open(v.rows[item].state) || v.rows[item].state.QUEUED?
    ensures AsAlone(effect, w, Finished(v, item, FAILED), prefix + [item])
  {
    hide Ended, Run;
    var u := Finished(v, item, FAILED);
    RunIsOneByOne(effect, prefix, w.files.config);
    assert Keeps(v, u);
    assert OneByOne(effect, [item][1..], v.files.config) == Tally(v.files.config, []);
    assert u.applied == v.applied + [];
    FailedAlone(u, item);
    AloneJoin(effect, w, v, u, prefix, [item]);
  }

  lemma FailedAlone(u: World, item: Id)
    requires item in u.rows && u.rows[item].state.FAILED?
    ensures Ended(u, item, FAILED)
  {
  }

  lemma WaitingRows(w: World, ids: seq<Id>)
    requires forall id | id in ids :: Waiting(w, id)
    ensures forall id | id in ids :: id in w.rows && id !in w.applied && !Terminal(w.rows[id].state)
  {
  }

  /** The batch's rows after the RUNNING update. */
  ghost predicate Begun(w: World, ids: seq<Id>, batch: Batch) {
    && batch !in w.files.receipts
    && forall id | id in ids :: id in w.rows && id !in w.applied && w.rows[id].state.RUNNING?
                                && w.rows[id].batch == Some(batch)
  }

  lemma StartedBegun(w: World, ids: seq<Id>, batch: Batch)
    requires batch !in w.files.receipts && forall id | id in ids :: Waiting(w, id)
    ensures Begun(Started(w, ids, batch), ids, batch)
  {
  }

  lemma StartedOthers(w: World, ids: seq<Id>, batch: Batch)
    ensures Others(w, Started(w, ids, batch), ids)
  {
  }

  lemma OthersWiden(w: World, v: World, ids: seq<Id>)
    requires Others(w, v, [])
    ensures Others(w, v, ids)
  {
  }

  lemma MayStay(effect: Effect, w: World, ids: seq<Id>)
    requires forall id | id in ids :: Waiting(w, id)
    ensures forall id | id in ids :: MayFinish(effect, w, id, UNKNOWN)
  {
  }

  // ---------------------------------------------------------------- finishing a quiet batch

  lemma QuietNone(w: World)
    ensures QuietlyFinished(w, []) == w
  {
    assert w.applied + [] == w.applied;
    assert QuietlyFinished(w, []).rows == w.rows;
  }

  lemma BegunRow(w: World, ids: seq<Id>, batch: Batch, k: nat)
    requires k < |ids| && Begun(w, ids, batch)
    ensures ids[k] in w.rows
  {
  }

  lemma QuietStep(w: World, ids: seq<Id>, k: nat)
    requires k < |ids| && ids[k] in w.rows
    ensures var v := QuietlyFinished(w, ids[..k]);
            v.(rows := v.rows[ids[k] := v.rows[ids[k]].(state := SUCCEEDED)], applied := v.applied + [ids[k]])
            == QuietlyFinished(w, ids[..k + 1])
  {
    var v, u := QuietlyFinished(w, ids[..k]), QuietlyFinished(w, ids[..k + 1]);
    assert ids[..k + 1] == ids[..k] + [ids[k]];
    assert v.rows[ids[k] := v.rows[ids[k]].(state := SUCCEEDED)] == u.rows;
    assert v.applied + [ids[k]] == u.applied;
  }

  lemma QuietTruth(effect: Effect, w: World, ids: seq<Id>, batch: Batch, done: nat)
    requires Inv(effect, w) && w.journal.None? && Distinct(ids) && Begun(w, ids, batch) && done <= |ids|
    ensures Inv(effect, QuietlyFinished(w, ids[..done])) <==>
            Run(effect, ids[..done], w.files.config) == Some(w.files.config)
  {
    hide Inv, Run;
    assert ids[..done] + ids[done..] == ids;
    DistinctPrefix(ids[..done], ids[done..]);
    QuietInv(effect, w, ids[..done]);
  }

  lemma QuietIdle(effect: Effect, ids: seq<Id>, done: nat, c: Config)
    requires NoHiddenWork(effect, ids) && done <= |ids| && Run(effect, ids, c) == Some(c)
    ensures Run(effect, ids[..done], c) == Some(c)
  {
    IdleRun(effect, ids[..done], c);
  }

  lemma QuietKeeps(w: World, ids: seq<Id>, batch: Batch, done: nat)
    requires Begun(w, ids, batch) && done <= |ids|
    ensures Keeps(w, QuietlyFinished(w, ids[..done])) && Others(w, QuietlyFinished(w, ids[..done]), ids)
  {
    assert forall id | id in ids[..done] :: id in ids;
  }

  lemma QuietDone(w: World, ids: seq<Id>, batch: Batch, paused: bool)
    requires Begun(w, ids, batch) && w.journal.None?
    ensures Done(QuietlyFinished(w, ids[..|ids|]), ids, paused)
  {
    assert ids[..|ids|] == ids;
  }

  lemma LandedFinish(effect: Effect, w: World, ids: seq<Id>, batch: Batch, target: Config)
    requires Begun(w, ids, batch)
    ensures forall id | id in ids :: MayFinish(effect, Landed(Prepared(w, ids, batch, target)), id, SUCCEEDED)
  {
  }

  lemma RolledBackFinish(effect: Effect, w: World, ids: seq<Id>, batch: Batch)
    requires Begun(w, ids, batch) && w.promised == []
    ensures forall id | id in ids :: MayFinish(effect, w, id, FAILED)
  {
  }

  lemma UnclearFinish(effect: Effect, w: World, ids: seq<Id>, batch: Batch, target: Config)
    requires Begun(w, ids, batch)
    ensures forall id | id in ids :: MayFinish(effect, Prepared(w, ids, batch, target), id, UNKNOWN)
  {
  }

  lemma PublishedOthers(effect: Effect, w: World, ids: seq<Id>, batch: Batch, target: Config)
    requires Begun(w, ids, batch) && w.promised == []
    ensures var v := Prepared(w, ids, batch, target);
            Keeps(w, v) && Others(w, v, ids) && Keeps(w, Landed(v)) && Others(w, Landed(v), ids)
  {
  }

  lemma FinishedDone(effect: Effect, w: World, ids: seq<Id>, state: State, paused: bool)
    requires Inv(effect, w) && (w.journal.Some? ==> paused)
    requires Terminal(state) || (state.UNKNOWN? && paused)
    requires forall id | id in ids :: id in w.rows && w.rows[id].state == state
    ensures Done(w, ids, paused)
  {
  }

  lemma TidiedDone(w: World, v: World, ids: seq<Id>, paused: bool)
    requires Done(w, ids, paused) && Keeps(w, v) && w.journal == v.journal && w.promised == v.promised
    requires forall id | id in v.rows :: id in w.rows && v.rows[id] == w.rows[id]
    ensures Done(v, ids, paused)
  {
  }

  lemma HonestWhole(effect: Effect, ids: seq<Id>)
    requires Honest(effect, ids)
    ensures NoHiddenWork(effect, ids)
  {
    assert ids[0..|ids|] == ids;
  }

  // ---------------------------------------------------------------- one part of a batch after another

  ghost predicate Segment(w: World, v: World, ids: seq<Id>, before: bool, after: bool) {
    Keeps(w, v) && Others(w, v, ids) && Done(v, ids, after) && (before ==> after)
  }

  lemma SegmentNone(w: World)
    requires w.journal.None?
    ensures Segment(w, w, [], false, false)
  {
  }

  lemma SegmentIs(w: World, v: World, ids: seq<Id>, before: bool, after: bool)
    requires Keeps(w, v) && Others(w, v, ids) && Done(v, ids, after) && (before ==> after)
    ensures Segment(w, v, ids, before, after)
  {
  }

  lemma SegmentJoin(u: World, v: World, w: World, a: seq<Id>, b: seq<Id>, p: bool, q: bool, r: bool)
    requires Segment(u, v, a, p, q) && Segment(v, w, b, q, r) && forall id | id in b :: id !in a
    ensures Segment(u, w, a + b, p, r)
  {
    hide Done, Carries;
    KeepsTransitive(u, v, w);
    OthersPart(u, v, a, a + b);
    OthersPart(v, w, b, a + b);
    OthersTransitive(u, v, w, a + b);
    DoneJoin(v, w, a, b, q, r);
  }

  lemma DoneJoin(v: World, w: World, a: seq<Id>, b: seq<Id>, q: bool, r: bool)
    requires Done(v, a, q) && Done(w, b, r) && Keeps(v, w) && Others(v, w, b) && (q ==> r)
    requires forall id | id in b :: id !in a
    ensures Done(w, a + b, r)
  {
  }

  lemma OthersPart(w: World, v: World, part: seq<Id>, ids: seq<Id>)
    requires Others(w, v, part) && forall id | id in part :: id in ids
    ensures Others(w, v, ids)
  {
  }

  lemma StillWaiting(w: World, v: World, done: seq<Id>, ids: seq<Id>, before: bool, after: bool)
    requires Segment(w, v, done, before, after)
    requires forall id | id in ids :: Waiting(w, id) && id !in done
    ensures forall id | id in ids :: Waiting(v, id)
  {
  }

  lemma MayGiveUp(effect: Effect, w: World, id: Id, state: State)
    requires Waiting(w, id) && id !in w.promised && (state.FAILED? || state.CANCELLED?)
    ensures MayFinish(effect, w, id, state)
  {
  }

  lemma FinishedSegment(effect: Effect, w: World, id: Id, paused: bool)
    requires MayFinish(effect, w, id, FAILED) && (w.journal.Some? ==> paused)
    ensures Segment(w, Finished(w, id, FAILED), [id], paused, paused)
  {
    FinishedKeeps(effect, w, id, FAILED);
    FinishedOthers(w, id, FAILED, [id]);
  }

  lemma Parts(effect: Effect, w: World, ids: seq<Id>, index: nat, batch: Batch)
    requires index < |ids| && Distinct(ids) && Begun(w, ids, batch)
    ensures var prefix, item, suffix := ids[..index], ids[index], ids[index + 1..];
            && Distinct(prefix) && Distinct(suffix)
            && (Honest(effect, ids) ==> Honest(effect, prefix) && Honest(effect, suffix))
            && prefix + [item] + suffix == ids
            && (forall id | id in prefix + [item] + suffix :: id in ids && Waiting(w, id))
            && item !in prefix && (forall id | id in suffix :: id !in prefix + [item])
  {
    assert ids[0..index] == ids[..index] && ids[index + 1..|ids|] == ids[index + 1..];
    if Honest(effect, ids) {
      HonestPart(effect, ids, 0, index);
      HonestPart(effect, ids, index + 1, |ids|);
    }
    assert ids[..index] + [ids[index]] + ids[index + 1..] == ids;
  }

  lemma SegmentMeans(w: World, v: World, ids: seq<Id>, before: bool, after: bool)
    requires Segment(w, v, ids, before, after)
    ensures Keeps(w, v) && Others(w, v, ids) && Done(v, ids, after)
  {
  }

  lemma SegmentIn(w: World, v: World, part: seq<Id>, ids: seq<Id>, before: bool, after: bool)
    requires Segment(w, v, part, before, after) && forall id | id in part :: id in ids
    ensures Keeps(w, v) && Others(w, v, ids)
  {
  }

  lemma JournalPauses(w: World, v: World, ids: seq<Id>, before: bool, after: bool)
    requires Segment(w, v, ids, before, after)
    ensures v.journal.Some? ==> after
  {
  }

  function IdSet(ids: seq<Id>): set<Id> { set id | id in ids }

  lemma IdSetJoin(a: seq<Id>, b: seq<Id>)
    ensures IdSet(a + b) == IdSet(a) + IdSet(b)
  {
  }
}
