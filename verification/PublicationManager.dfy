/**
 `commit_files`, `publish`, `resolve`, `recover_locked` and `_write_records` as the
 manager runs them. Every durable change is recorded in the ghost `history`, so a
 crash, written `if * { ... return }`, may stop the code between any two of them.
 */
module PublicationManager {
  import opened Basics
  import opened RuntimeBox
  import opened Publication

  datatype Outcome = Applied(status: Status) | Unchanged(status: Status) | Lost

  datatype Result = Committed | RolledBack | Refused | RecoveryRequired

  class Manager {
    const hash: Fingerprint
    var disk: Disk
    var journal: Option<Journal>
    var receipt: Option<Receipt>
    var runtime: Runtime
    var sent: set<Put>
    ghost var unsynced: Option<Journal>
    ghost var phase: Phase
    ghost var origin: Disk
    ghost var history: seq<World>

    ghost function State(): World
      reads this
    {
      World(disk, journal, unsynced, receipt, runtime, sent, phase, true, origin)
    }

    /** `history` is a run of the protocol that ends in the present state. */
    ghost predicate Valid()
      reads this
    {
      && IsRun(hash, history)
      && history[|history| - 1] == State()
      && Inv(hash, State())
    }

    constructor (hash: Fingerprint, disk: Disk, receipt: Option<Receipt>, runtime: Runtime)
      requires CONFIG_PATH in disk && hash(disk[CONFIG_PATH].data) == hash(runtime.content)
      requires receipt.Some? ==> hash(receipt.value.config) == hash(runtime.content)
      ensures Valid() && phase.Idle? && journal.None?
      ensures this.disk == disk && this.runtime == runtime && this.hash == hash
    {
      this.hash, this.disk, this.runtime, this.sent := hash, disk, runtime, {};
      this.journal, this.receipt, this.unsynced, this.origin, this.phase := None, receipt, None, map[], Idle;
      new;
      history := [State()];
      InitialIsInv(hash, State());
    }

    /** The fields were just changed as action `a` prescribes; advance the program counter and the history. */
    ghost method Take(a: Action)
      requires IsRun(hash, history) && Inv(hash, history[|history| - 1])
      requires var w := history[|history| - 1];
               && Enabled(hash, w, a)
               && Next(hash, w, a).(phase := phase, origin := origin, unsynced := unsynced) == State()
      modifies `phase, `origin, `unsynced, `history
      ensures Valid()
      ensures State() == Next(hash, old(history[|history| - 1]), a)
      ensures history == old(history) + [State()]
    {
      hide Inv, Enabled, Next;
      var w := history[|history| - 1];
      InvNext(hash, w, a);
      var w' := Next(hash, w, a);
      phase, origin, unsynced := w'.phase, w'.origin, w'.unsynced;
      ExtendRun(hash, history, w', a);
      history := history + [w'];
    }

    method LatePut(put: Put, willing: bool)
      requires Valid() && put in sent
      modifies `runtime, `phase, `origin, `unsynced, `history
      ensures Valid() && old(history) <= history
      ensures phase == old(phase) && origin == old(origin) && unsynced == old(unsynced)
    {
      hide Inv, IsRun;
      runtime := Deliver(hash, runtime, put, willing);
      Take(DeliverLate(put, willing));
    }

    /** An undo is not running, or it has put the configuration file back. */
    ghost predicate MayRestart()
      reads this
    {
      phase.Finishing? && !phase.applied && journal.Some? && CONFIG_PATH in disk ==>
        hash(disk[CONFIG_PATH].data) == journal.value.prepared.previousHash
    }

    method RestartRuntime()
      requires Valid() && CONFIG_PATH in disk && MayRestart()
      modifies `runtime, `phase, `origin, `unsynced, `history
      ensures Valid() && old(history) <= history
      ensures phase == old(phase) && origin == old(origin) && unsynced == old(unsynced)
    {
      hide Inv, IsRun;
      runtime := Runtime(runtime.instance + 1, 0, disk[CONFIG_PATH].data);
      Take(Action.RestartRuntime(runtime.instance));
    }

    /**
     What happens between two steps of the manager: late and repeated PUTs reach
     the runtime, and where it is safe the runtime restarts from its file. In calm
     weather nothing happens, nobody crashes and no answer is lost.
     */
    method Interfere(mayRestart: bool, calm: bool)
      requires Valid() && (mayRestart ==> MayRestart())
      modifies `runtime, `phase, `origin, `unsynced, `history
      ensures Valid() && old(history) <= history
      ensures phase == old(phase) && origin == old(origin) && unsynced == old(unsynced)
      ensures calm ==> runtime == old(runtime)
    {
      hide Inv, IsRun;
      var n: nat :| calm ==> n == 0;
      for i := 0 to n
        invariant Valid() && old(history) <= history && (i == 0 ==> runtime == old(runtime))
        invariant phase == old(phase) && origin == old(origin) && unsynced == old(unsynced)
        invariant mayRestart ==> MayRestart()
      {
        if * {
          if mayRestart && CONFIG_PATH in disk { RestartRuntime(); }
        } else if sent != {} {
          var put :| put in sent;
          var willing: bool :| true;
          LatePut(put, willing);
        }
      }
    }

    method WriteRecord(p: Path, record: Option<File>, ghost records: Records)
      requires Valid() && journal.Some? && (phase.Installing? || phase.Finishing?) && p in phase.left
      requires records == (if phase.Installing? then journal.value.after else Side(journal.value, phase.applied))
      requires p in records && record == records[p]
      modifies `disk, `phase, `origin, `unsynced, `history
      ensures Valid() && old(history) <= history && origin == old(origin)
      ensures phase == old(phase).(left := old(phase).left - {p})
    {
      hide Inv, IsRun, Restore;
      disk := Restore(disk, p, record);
      Take(if phase.Installing? then Install(p) else Rewrite(p));
    }

    /** `_write_records`: one atomic replacement per path, in any order; false when the process died. */
    method WriteRecords(records: Records, undoing: bool, calm: bool) returns (alive: bool)
      requires Valid() && journal.Some? && (phase.Installing? || phase.Finishing?)
               && undoing == (phase.Finishing? && !phase.applied)
      requires records == (if phase.Installing? then journal.value.after else Side(journal.value, phase.applied))
      requires phase.left == records.Keys
      modifies `disk, `runtime, `phase, `origin, `unsynced, `history
      ensures Valid() && old(history) <= history && origin == old(origin)
      ensures phase == if alive then old(phase).(left := {}) else Idle
      ensures calm ==> alive && runtime == old(runtime)
    {
      hide Inv, IsRun, Enabled, Side;
      var left := records.Keys;
      while left != {}
        invariant Valid() && old(history) <= history && origin == old(origin)
        invariant left <= records.Keys && phase == old(phase).(left := left)
        invariant calm ==> runtime == old(runtime)
      {
        var dies: bool := *;
        if dies && !calm {
          CanCrash(hash, State());
          Take(Crash);
          return false;
        }
        Interfere(!undoing || (CONFIG_PATH in disk
                               && hash(disk[CONFIG_PATH].data) == journal.value.prepared.previousHash), calm);
        var p :| p in left;
        WriteRecord(p, records[p], records);
        left := left - {p};
      }
      alive := true;
    }

    /** One round of `resolve`'s loop; `again` when the fence lost its race and the loop continues. */
    method ResolveRound(tries: nat, ghost recovering: bool, calm: bool) returns (again: bool, o: Outcome)
      requires Valid() && journal.Some? && phase == Resolving(tries, recovering) && tries > 0
      modifies `runtime, `phase, `origin, `unsynced, `history
      ensures Valid() && old(history) <= history && origin == old(origin)
      ensures again ==> phase == Resolving(tries - 1, recovering)
      ensures !again ==> Resolved(o, recovering)
      ensures calm ==> !again && o == Verdict(old(runtime))
    {
      hide Inv, IsRun;
      ContentIsOneSide(hash, State());
      var status := StatusOf(hash, runtime);
      Take(ReadStatus);
      if status.contentHash == journal.value.prepared.targetHash { return false, Applied(status); }
      // The source raises here when the content is neither side; the invariant excludes it.
      Interfere(true, calm);
      again, o := FenceSeen(tries, recovering, status, calm);
    }

    /** What `resolve` has to say about a runtime that nobody else touches. */
    ghost function Verdict(rt: Runtime): Outcome
      requires journal.Some?
      reads this
    {
      if hash(rt.content) == journal.value.prepared.targetHash then Applied(StatusOf(hash, rt))
      else Unchanged(StatusOf(hash, Fence(rt)))
    }

    method FenceSeen(tries: nat, ghost recovering: bool, seen: Status, calm: bool) returns (again: bool, o: Outcome)
      requires Valid() && journal.Some? && phase == Fencing(tries, recovering, seen) && tries > 0
      modifies `runtime, `phase, `origin, `unsynced, `history
      ensures Valid() && old(history) <= history && origin == old(origin)
      ensures again ==> phase == Resolving(tries - 1, recovering)
      ensures !again ==> Resolved(o, recovering)
      ensures calm && CanFence(old(runtime), seen) ==> !again && o == Unchanged(StatusOf(hash, Fence(old(runtime))))
    {
      hide Inv, IsRun;
      if !CanFence(runtime, seen) {
        Take(TryFence);
        return true, Lost;
      }
      FenceSeesPrevious(hash, State());
      runtime := Fence(runtime);
      var lost: bool := *;
      if lost && !calm {
        Take(FenceReplyLost);
        return false, Lost;
      }
      Take(TryFence);
      again, o := false, Unchanged(StatusOf(hash, runtime));
    }

    ghost predicate Resolved(o: Outcome, recovering: bool)
      requires journal.Some?
      reads this
    {
      match o
      case Lost => phase.Idle?
      case Applied(status) =>
        phase == if recovering then Finishing(true, journal.value.after.Keys, status) else Recording(true, status)
      case Unchanged(status) => phase == Finishing(false, journal.value.before.Keys, status)
    }

    /** `resolve`: prove applied, or fence every delayed PUT before proving unchanged. */
    method Resolve(ghost recovering: bool, calm: bool) returns (o: Outcome)
      requires Valid() && journal.Some? && phase == Resolving(3, recovering)
      modifies `runtime, `phase, `origin, `unsynced, `history
      ensures Valid() && old(history) <= history && origin == old(origin)
      ensures Resolved(o, recovering)
      ensures calm ==> o == Verdict(old(runtime))
    {
      hide Inv, IsRun, Verdict;
      var tries: nat := 3;
      while tries > 0
        invariant Valid() && old(history) <= history && origin == old(origin)
        invariant phase == Resolving(tries, recovering)
        invariant calm ==> tries == 3 && runtime == old(runtime)
      {
        var unreachable: bool := *;
        if unreachable && !calm {
          Take(Crash);
          return Lost;
        }
        Interfere(true, calm);
        var again;
        again, o := ResolveRound(tries, recovering, calm);
        if !again { return; }
        tries := tries - 1;
      }
      Take(ReadStatus);
      o := Lost;
    }

    method Send() returns (put: Put)
      requires Valid() && journal.Some? && phase == Installing({})
      modifies `sent, `phase, `origin, `unsynced, `history
      ensures Valid() && old(history) <= history && origin == old(origin)
      ensures phase.Awaiting? && put == PutOf(journal.value)
    {
      hide Inv, IsRun;
      put := PutOf(journal.value);
      sent := sent + {put};
      Take(SendPut);
    }

    /** `publish`: one PUT, its reply and a status readback, or else `resolve`. */
    method Publish(calm: bool, willing: bool) returns (o: Outcome)
      requires Valid() && journal.Some? && phase == Installing({})
      modifies `runtime, `sent, `phase, `origin, `unsynced, `history
      ensures Valid() && old(history) <= history && origin == old(origin)
      ensures Resolved(o, false)
      ensures calm && journal.value.prepared.expected == StatusOf(hash, old(runtime)) ==>
                if willing || journal.value.prepared.targetHash == hash(old(runtime).content) then o.Applied? else o.Unchanged?
    {
      hide Inv, IsRun;
      var put := Send();
      var dies: bool := *;
      if dies && !calm {
        Take(Crash);
        return Lost;
      }
      Interfere(true, calm);
      o := AwaitReply(put, calm, willing);
      if !o.Applied? { o := Resolve(false, calm); }
    }

    method AwaitReply(put: Put, calm: bool, willing: bool) returns (o: Outcome)
      requires Valid() && journal.Some? && phase.Awaiting? && put == PutOf(journal.value)
      modifies `runtime, `phase, `origin, `unsynced, `history
      ensures Valid() && old(history) <= history && origin == old(origin)
      ensures if o.Applied? then phase == Recording(true, o.status) else phase == Resolving(3, false)
      ensures calm && journal.value.prepared.expected == StatusOf(hash, old(runtime)) ==>
                if willing || journal.value.prepared.targetHash == hash(old(runtime).content)
                then o.Applied? else !o.Applied? && runtime == old(runtime)
    {
      hide Inv, IsRun;
      PutIsTarget(hash, State());
      var lost: bool := *;
      if lost && !calm {
        Take(LoseReply);
        return Lost;
      }
      var reply := Answer(hash, runtime, put, willing);
      runtime := Deliver(hash, runtime, put, willing);
      Take(DeliverAndReply(willing));
      if !(reply.Accepted? && reply.status.contentHash == journal.value.prepared.targetHash
           && reply.status.instance == put.instance) { return Lost; }
      o := ReadBack(reply.status, calm);
    }

    method ReadBack(replied: Status, calm: bool) returns (o: Outcome)
      requires Valid() && journal.Some? && phase == Checking(replied)
      modifies `runtime, `phase, `origin, `unsynced, `history
      ensures Valid() && old(history) <= history && origin == old(origin)
      ensures if o.Applied? then phase == Recording(true, o.status) else phase == Resolving(3, false)
      ensures calm && replied == StatusOf(hash, old(runtime))
              && replied.contentHash == journal.value.prepared.targetHash ==>
                o.Applied?
    {
      hide Inv, IsRun;
      Interfere(true, calm);
      var observed := StatusOf(hash, runtime);
      Take(CheckStatus);
      o := if observed.instance == replied.instance
              && observed.contentHash == journal.value.prepared.targetHash
              && observed.revision >= replied.revision
           then Applied(replied) else Lost;
    }

    /** The receipt and then the journal, once every file of the chosen side is in place. */
    method Close(applied: bool, outcome: Status, calm: bool) returns (alive: bool)
      requires Valid() && journal.Some?
      requires phase == Recording(applied, outcome) || phase == Finishing(applied, {}, outcome)
      modifies `receipt, `journal, `phase, `origin, `unsynced, `history
      ensures Valid() && old(history) <= history && phase.Idle? && origin == old(origin)
      ensures journal == if alive then None else old(journal)
      ensures calm ==> alive
      ensures disk == if applied then Overlay(origin, old(journal).value.after) else origin
      ensures receipt == if applied then Some(Receipt(old(journal).value.config, outcome)) else old(journal).value.oldReceipt
    {
      hide Inv, IsRun, Overlay;
      CloseFiles(hash, State());
      receipt := if applied then Some(Receipt(journal.value.config, outcome)) else journal.value.oldReceipt;
      Take(WriteReceipt);
      alive := DropJournal(calm);
    }

    method DropJournal(calm: bool) returns (alive: bool)
      requires Valid() && journal.Some? && phase.Removing?
      modifies `journal, `phase, `origin, `unsynced, `history
      ensures Valid() && old(history) <= history && phase.Idle? && origin == old(origin)
      ensures journal == if alive then None else old(journal)
      ensures calm ==> alive
    {
      hide Inv, IsRun;
      var dies: bool := *;
      if dies && !calm {
        Take(Crash);
        return false;
      }
      journal := None;
      Take(RemoveJournal);
      alive := true;
    }

    /** `recover_locked`: when it says a side, the disk is exactly that side and the journal is gone. */
    method RecoverLocked(calm: bool) returns (o: Outcome)
      requires Valid() && phase.Idle? && journal.Some?
      modifies `disk, `receipt, `journal, `runtime, `phase, `origin, `unsynced, `history
      ensures Valid() && old(history) <= history && phase.Idle? && origin == old(origin)
      ensures o.Lost? <==> journal.Some?
      ensures journal.Some? ==> journal == old(journal)
      ensures o.Applied? ==> disk == Overlay(origin, old(journal).value.after)
                             && receipt == Some(Receipt(old(journal).value.config, o.status))
      ensures o.Unchanged? ==> disk == origin && receipt == old(journal).value.oldReceipt
      ensures calm ==> if hash(old(runtime).content) == old(journal).value.prepared.targetHash then o.Applied? else o.Unchanged?
    {
      hide Inv, IsRun, Overlay;
      Take(Recover);
      o := Resolve(true, calm);
      if o.Lost? { return; }
      JournalKeys(hash, State());
      var alive := WriteRecords(Side(journal.value, o.Applied?), !o.Applied?, calm);
      if alive { alive := Close(o.Applied?, o.status, calm); }
      if !alive { o := Lost; }
    }

    /** `assert_no_pending`, `prepare` and the atomic write of the journal. */
    method Open(targets: map<Path, Bytes>, calm: bool)
      requires Valid() && phase.Idle? && journal.None? && CONFIG_PATH in targets && CONFIG_PATH in disk
      requires hash(runtime.content) == hash(disk[CONFIG_PATH].data)
      modifies `journal, `runtime, `phase, `origin, `unsynced, `history
      ensures Valid() && old(history) <= history && origin == disk
      ensures journal.Some? && phase == Installing(journal.value.after.Keys)
      ensures Replaced(disk, targets, Overlay(disk, journal.value.after))
      ensures journal.value.config == targets[CONFIG_PATH] && journal.value.oldReceipt == receipt
      ensures journal.value.prepared.targetHash == hash(targets[CONFIG_PATH])
      ensures calm ==> runtime == old(runtime) && journal.value.prepared.expected == StatusOf(hash, runtime)
    {
      hide Inv, IsRun, AfterRecords, Overlay, Replaced, CaptureAll, Enabled, Next;
      AfterIsReplaced(disk, targets);
      CanPrepare(hash, State(), targets);
      var prepared := Prepared(StatusOf(hash, runtime), hash(disk[CONFIG_PATH].data), hash(targets[CONFIG_PATH]));
      Take(Prepare(targets));
      Interfere(true, calm);
      CanOpen(hash, State());
      journal := Some(Journal(prepared, targets[CONFIG_PATH], CaptureAll(disk, targets.Keys),
                              AfterRecords(disk, targets), receipt));
      Take(OpenJournal);
    }

    /** The tail of `commit_files` once `publish` has answered. */
    method Settle(o: Outcome, calm: bool) returns (r: Result)
      requires Valid() && journal.Some? && Resolved(o, false)
      modifies `disk, `receipt, `journal, `runtime, `phase, `origin, `unsynced, `history
      ensures Valid() && old(history) <= history && phase.Idle? && origin == old(origin)
      ensures r.RecoveryRequired? <==> journal.Some?
      ensures r.Committed? ==> disk == Overlay(origin, old(journal).value.after)
                               && receipt.Some? && receipt.value.config == old(journal).value.config
      ensures r.RolledBack? ==> disk == origin && receipt == old(journal).value.oldReceipt
      ensures !r.Refused?
      ensures calm && !o.Lost? ==> r == if o.Applied? then Committed else RolledBack
    {
      hide Inv, IsRun, Overlay;
      if o.Lost? {
        if * { return RecoveryRequired; }
        var recovered := RecoverLocked(calm);
        return match recovered case Lost => RecoveryRequired case Applied(_) => Committed case Unchanged(_) => RolledBack;
      }
      var alive := true;
      if o.Unchanged? { alive := WriteRecords(journal.value.before, true, calm); }
      if alive { alive := Close(o.Applied?, o.status, calm); }
      r := if !alive then RecoveryRequired else if o.Applied? then Committed else RolledBack;
    }

    /** From the open journal to an answer: install every target, publish, settle. */
    method Drive(calm: bool, willing: bool) returns (r: Result)
      requires Valid() && journal.Some? && phase == Installing(journal.value.after.Keys)
      modifies `disk, `receipt, `journal, `runtime, `sent, `phase, `origin, `unsynced, `history
      ensures Valid() && old(history) <= history && phase.Idle? && origin == old(origin)
      ensures r.RecoveryRequired? <==> journal.Some?
      ensures r.Committed? ==> disk == Overlay(origin, old(journal).value.after)
                               && receipt.Some? && receipt.value.config == old(journal).value.config
      ensures r.RolledBack? ==> disk == origin && receipt == old(journal).value.oldReceipt
      ensures !r.Refused?
      ensures calm && old(journal).value.prepared.expected == StatusOf(hash, old(runtime)) ==>
                r == if willing || old(journal).value.prepared.targetHash == hash(old(runtime).content)
                     then Committed else RolledBack
    {
      hide Inv, IsRun, Overlay;
      var dies: bool := *;
      if dies && !calm {
        Take(Crash);
        return RecoveryRequired;
      }
      var alive := WriteRecords(journal.value.after, false, calm);
      if !alive { return RecoveryRequired; }
      var o := Publish(calm, willing);
      r := Settle(o, calm);
    }

    /**
     `commit_files`: the caller learns the truth. Committed means every target is
     on disk and the runtime agrees with it, RolledBack that nothing changed, and
     RecoveryRequired that the journal is still there and blocks the next call.
     */
    method CommitFiles(targets: map<Path, Bytes>, supported: bool, calm: bool, willing: bool) returns (r: Result)
      requires Valid() && phase.Idle? && CONFIG_PATH in targets
      modifies `disk, `receipt, `journal, `runtime, `sent, `phase, `origin, `unsynced, `history
      ensures Valid() && old(history) <= history && phase.Idle?
      ensures r.RecoveryRequired? <==> journal.Some?
      ensures r.Committed? ==> Replaced(old(disk), targets, disk)
                               && receipt.Some? && receipt.value.config == targets[CONFIG_PATH]
      ensures r.RolledBack? || r.Refused? ==> disk == old(disk) && receipt == old(receipt)
      ensures !r.RecoveryRequired? ==> CONFIG_PATH in disk && hash(disk[CONFIG_PATH].data) == hash(runtime.content)
      ensures old(journal).Some? ==> r.RecoveryRequired? && disk == old(disk) && receipt == old(receipt)
                                     && journal == old(journal)
      ensures old(journal).None? ==> (r.Refused? <==> !supported)
      ensures old(journal).None? && supported && calm ==>
                r == if willing || hash(targets[CONFIG_PATH]) == hash(old(runtime).content) then Committed else RolledBack
    {
      hide Inv, IsRun, Overlay, Replaced;
      if journal.Some? { return RecoveryRequired; }
      SteadyAgrees(hash, State());
      if !supported { return Result.Refused; }
      Open(targets, calm);
      r := Drive(calm, willing);
      if journal.None? { SteadyAgrees(hash, State()); }
    }
  }

  lemma CanPrepare(hash: Fingerprint, w: World, targets: map<Path, Bytes>)
    requires w.phase.Idle? && w.journal.None? && CONFIG_PATH in targets && CONFIG_PATH in w.disk
    requires hash(w.runtime.content) == hash(w.disk[CONFIG_PATH].data)
    ensures Enabled(hash, w, Prepare(targets))
    ensures Next(hash, w, Prepare(targets))
            == w.(phase := Preparing(Prepared(StatusOf(hash, w.runtime), hash(w.disk[CONFIG_PATH].data),
                                              hash(targets[CONFIG_PATH])), targets))
  {
  }

  lemma CanOpen(hash: Fingerprint, w: World)
    requires w.phase.Preparing? && w.journal.None? && CONFIG_PATH in w.phase.targets
    ensures Enabled(hash, w, OpenJournal)
    ensures var targets := w.phase.targets;
            var j := Journal(w.phase.prepared, targets[CONFIG_PATH], CaptureAll(w.disk, targets.Keys),
                             AfterRecords(w.disk, targets), w.receipt);
            && Next(hash, w, OpenJournal)
               == w.(journal := Some(j), unsynced := None, phase := Installing(targets.Keys), origin := w.disk)
            && j.after.Keys == targets.Keys
  {
  }

  lemma PutIsTarget(hash: Fingerprint, w: World)
    requires Inv(hash, w) && w.journal.Some?
    ensures hash(w.journal.value.config) == w.journal.value.prepared.targetHash
  {
  }

  lemma CanCrash(hash: Fingerprint, w: World)
    ensures Enabled(hash, w, Crash) && Next(hash, w, Crash) == w.(phase := Idle)
  {
  }

  lemma SteadyAgrees(hash: Fingerprint, w: World)
    requires Inv(hash, w) && w.journal.None?
    ensures CONFIG_PATH in w.disk && hash(w.disk[CONFIG_PATH].data) == hash(w.runtime.content)
  {
  }

  lemma JournalKeys(hash: Fingerprint, w: World)
    requires Inv(hash, w) && w.journal.Some?
    ensures w.journal.value.before.Keys == w.journal.value.after.Keys
  {
  }

  lemma ContentIsOneSide(hash: Fingerprint, w: World)
    requires Inv(hash, w) && w.journal.Some?
    ensures var p := w.journal.value.prepared;
            hash(w.runtime.content) == p.previousHash || hash(w.runtime.content) == p.targetHash
  {
  }

  /** A fence that wins its race answers with the content that was seen. */
  lemma FenceSeesPrevious(hash: Fingerprint, w: World)
    requires Inv(hash, w) && w.journal.Some? && w.phase.Fencing? && CanFence(w.runtime, w.phase.seen)
    ensures hash(w.runtime.content) == w.journal.value.prepared.previousHash
  {
  }

  lemma CloseFiles(hash: Fingerprint, w: World)
    requires Inv(hash, w) && w.journal.Some? && (w.phase.Recording? || (w.phase.Finishing? && w.phase.left == {}))
    ensures w.disk == if w.phase.applied then Overlay(w.origin, w.journal.value.after) else w.origin
  {
    HoldsIsOverlay(w, w.journal.value, w.phase.applied);
  }

  lemma ExtendRun(hash: Fingerprint, ws: seq<World>, w': World, a: Action)
    requires IsRun(hash, ws) && Enabled(hash, ws[|ws| - 1], a) && Next(hash, ws[|ws| - 1], a) == w'
    ensures IsRun(hash, ws + [w'])
  {
    var all := ws + [w'];
    forall i | 0 <= i < |all| - 1 ensures StepTo(hash, all[i], all[i + 1]) {
      if i < |ws| - 1 { assert StepTo(hash, ws[i], ws[i + 1]); }
    }
  }
}
