/**
 Durable publication of one configuration: a write-ahead journal, several files
 replaced one by one, a single PUT that may be lost, late or repeated, and a
 recovery that either proves the PUT was applied or fences it off before undoing.

 `World` is everything that survives, plus the manager's program counter. `Next`
 is one atomic step of the manager, of the network or of the runtime.
 */
module Publication {
  import opened Basics
  import opened RuntimeBox

  type Path = string

  const CONFIG_PATH: Path := "config.json"
  const DEFAULT_MODE: nat := 384 // 0o600
  const MANAGER_OWNER: nat := 0

  datatype File = File(data: Bytes, mode: nat, owner: nat)
  type Disk = map<Path, File>
  type Records = map<Path, Option<File>>

  datatype Receipt = Receipt(config: Bytes, runtime: Status)

  datatype Prepared = Prepared(expected: Status, previousHash: Hash, targetHash: Hash)

  datatype Journal = Journal(prepared: Prepared, config: Bytes, before: Records, after: Records,
                             oldReceipt: Option<Receipt>)

  datatype Phase =
    | Idle
    | Preparing(prepared: Prepared, targets: map<Path, Bytes>)
    | Installing(left: set<Path>)
    | Awaiting
    | Checking(receipt: Status)
    | Resolving(tries: nat, recovering: bool)
    | Fencing(tries: nat, recovering: bool, seen: Status)
    | Finishing(applied: bool, left: set<Path>, outcome: Status)
    | Recording(applied: bool, outcome: Status)
    | Removing(applied: bool, outcome: Status)
    | Conflicted  // "runtime state conflicts with pending publication"

  /**
   `restarts` says whether the runtime may be restarted at all. `origin` is a
   history variable: the disk when the journal was opened. No step reads it.
   `unsynced` is a removed journal whose removal may not have reached the disk.
   */
  datatype World = World(disk: Disk, journal: Option<Journal>, unsynced: Option<Journal>,
                         receipt: Option<Receipt>, runtime: Runtime, sent: set<Put>, phase: Phase,
                         restarts: bool, origin: Disk)

  datatype Action =
    | Prepare(targets: map<Path, Bytes>)
    | OpenJournal
    | Install(path: Path)
    | SendPut
    | DeliverLate(put: Put, willing: bool)
    | DeliverAndReply(willing: bool)
    | LoseReply
    | CheckStatus
    | ReadStatus
    | TryFence
    | FenceReplyLost
    | Rewrite(path: Path)
    | WriteReceipt
    | RemoveJournal
    | Crash
    | PowerLoss
    | Recover
    | RestartRuntime(instance: nat)

  // ---------------------------------------------------------------- files

  function Capture(disk: Disk, path: Path): Option<File> {
    if path in disk then Some(disk[path]) else None
  }

  /** Replacing or unlinking one file is atomic. */
  function Restore(disk: Disk, path: Path, record: Option<File>): (r: Disk)
    ensures forall q :: Capture(r, q) == if q == path then record else Capture(disk, q)
  {
    if record.None? then disk - {path} else disk[path := record.value]
  }

  function Overlay(disk: Disk, records: Records): Disk {
    map p | p in disk.Keys + records.Keys && (p in records ==> records[p].Some?)
      :: if p in records then records[p].value else disk[p]
  }

  function CaptureAll(disk: Disk, paths: set<Path>): Records {
    map p | p in paths :: Capture(disk, p)
  }

  function AfterRecords(disk: Disk, targets: map<Path, Bytes>): Records {
    map p | p in targets ::
      if p in disk then Some(File(targets[p], disk[p].mode, disk[p].owner))
      else Some(File(targets[p], DEFAULT_MODE, MANAGER_OWNER))
  }

  /**
   What a publication of `targets` owes the disk: each target has its new bytes, with the mode and owner it had
   before or those of a new file, and every other path is as it was.
   */
  ghost predicate Replaced(from: Disk, targets: map<Path, Bytes>, disk: Disk) {
    && (forall p | p in targets ::
          && p in disk && disk[p].data == targets[p]
          && (p in from ==> disk[p].mode == from[p].mode && disk[p].owner == from[p].owner)
          && (p !in from ==> disk[p].mode == 384 && disk[p].owner == 0))
    && (forall p | p !in targets :: (p in disk <==> p in from) && (p in disk ==> disk[p] == from[p]))
  }

  lemma AfterIsReplaced(from: Disk, targets: map<Path, Bytes>)
    ensures Replaced(from, targets, Overlay(from, AfterRecords(from, targets)))
  {
  }

  // ---------------------------------------------------------------- steps

  function PutOf(j: Journal): Put {
    Put(j.config, j.prepared.expected.instance, j.prepared.expected.revision)
  }

  function Side(j: Journal, applied: bool): Records {
    if applied then j.after else j.before
  }

  predicate Enabled(hash: Fingerprint, w: World, a: Action) {
    match a
    case Prepare(targets) =>
      // `prepare` refuses drift: the runtime must run what is on disk.
      && w.phase.Idle? && w.journal.None? && CONFIG_PATH in targets && CONFIG_PATH in w.disk
      && hash(w.runtime.content) == hash(w.disk[CONFIG_PATH].data)
    case OpenJournal => w.phase.Preparing? && w.journal.None?
    case Install(p) => w.phase.Installing? && w.journal.Some? && p in w.phase.left && p in w.journal.value.after
    case SendPut => w.phase.Installing? && w.journal.Some? && w.phase.left == {}
    case DeliverLate(put, _) => put in w.sent
    case DeliverAndReply(_) => w.phase.Awaiting? && w.journal.Some?
    case LoseReply => w.phase.Awaiting? || w.phase.Checking?
    case CheckStatus => w.phase.Checking? && w.journal.Some?
    case ReadStatus => w.phase.Resolving? && w.journal.Some?
    case TryFence => w.phase.Fencing? && w.journal.Some?
    case FenceReplyLost => w.phase.Fencing? && CanFence(w.runtime, w.phase.seen)
    case Rewrite(p) =>
      w.phase.Finishing? && w.journal.Some? && p in w.phase.left && p in Side(w.journal.value, w.phase.applied)
    case WriteReceipt =>
      w.journal.Some? && (w.phase.Recording? || (w.phase.Finishing? && w.phase.left == {}))
    case RemoveJournal => w.phase.Removing? && w.journal.Some?
    case Crash => true
    case PowerLoss => w.journal.None? && w.unsynced.Some?
    case Recover => w.phase.Idle? && w.journal.Some?
    case RestartRuntime(instance) =>
      // A restart loads the file. While an undo is running it must not find
      // the new file there: see RestartDuringUndo.
      && w.restarts && CONFIG_PATH in w.disk && instance > w.runtime.instance
      && !(w.phase.Finishing? && !w.phase.applied && w.journal.Some?
           && hash(w.disk[CONFIG_PATH].data) != w.journal.value.prepared.previousHash)
  }

  function Next(hash: Fingerprint, w: World, a: Action): World
    requires Enabled(hash, w, a)
  {
    match a
    case Prepare(targets) =>
      var previous := w.disk[CONFIG_PATH].data;
      w.(phase := Preparing(Prepared(StatusOf(hash, w.runtime), hash(previous), hash(targets[CONFIG_PATH])), targets))
    case OpenJournal =>
      var targets := w.phase.targets;
      if CONFIG_PATH !in targets then w.(phase := Idle) else
      var j := Journal(w.phase.prepared, targets[CONFIG_PATH], CaptureAll(w.disk, targets.Keys),
                       AfterRecords(w.disk, targets), w.receipt);
      w.(journal := Some(j), unsynced := None, phase := Installing(targets.Keys), origin := w.disk)
    case Install(p) =>
      w.(disk := Restore(w.disk, p, w.journal.value.after[p]), phase := Installing(w.phase.left - {p}))
    case SendPut =>
      w.(sent := w.sent + {PutOf(w.journal.value)}, phase := Awaiting)
    case DeliverLate(put, willing) =>
      w.(runtime := Deliver(hash, w.runtime, put, willing))
    case DeliverAndReply(willing) =>
      var put := PutOf(w.journal.value);
      var reply := Answer(hash, w.runtime, put, willing);
      w.(runtime := Deliver(hash, w.runtime, put, willing),
         phase := if reply.Accepted? && reply.status.contentHash == w.journal.value.prepared.targetHash
                     && reply.status.instance == put.instance
                  then Checking(reply.status) else Resolving(3, false))
    case LoseReply => w.(phase := Resolving(3, false))
    case CheckStatus =>
      var observed := StatusOf(hash, w.runtime);
      var receipt := w.phase.receipt;
      w.(phase := if observed.instance == receipt.instance
                     && observed.contentHash == w.journal.value.prepared.targetHash
                     && observed.revision >= receipt.revision
                  then Recording(true, receipt) else Resolving(3, false))
    case ReadStatus =>
      w.(phase := AfterStatus(w.journal.value, StatusOf(hash, w.runtime), w.phase.tries, w.phase.recovering))
    case TryFence =>
      if !CanFence(w.runtime, w.phase.seen) then
        w.(phase := Resolving(if w.phase.tries == 0 then 0 else w.phase.tries - 1, w.phase.recovering))
      else
        w.(runtime := Fence(w.runtime),
           phase := AfterFence(w.journal.value, w.phase.seen, StatusOf(hash, Fence(w.runtime))))
    case FenceReplyLost =>
      // The exception leaves `resolve`; the journal stays for the next recovery.
      w.(runtime := Fence(w.runtime), phase := Idle)
    case Rewrite(p) =>
      w.(disk := Restore(w.disk, p, Side(w.journal.value, w.phase.applied)[p]),
         phase := w.phase.(left := w.phase.left - {p}))
    case WriteReceipt =>
      w.(receipt := if w.phase.applied then Some(Receipt(w.journal.value.config, w.phase.outcome))
                    else w.journal.value.oldReceipt,
         phase := Removing(w.phase.applied, w.phase.outcome))
    case RemoveJournal => w.(journal := None, unsynced := w.journal, phase := Idle)
    case Crash => w.(phase := Idle)
    case PowerLoss => w.(journal := w.unsynced, unsynced := None, phase := Idle)
    case Recover => w.(phase := Resolving(3, true))
    case RestartRuntime(instance) =>
      w.(runtime := Runtime(instance, 0, w.disk[CONFIG_PATH].data))
  }

  /** One round of `resolve` once the status is known. */
  function AfterStatus(j: Journal, status: Status, tries: nat, recovering: bool): Phase {
    if tries == 0 then Idle
    else if status.contentHash == j.prepared.targetHash then
      if recovering then Finishing(true, j.after.Keys, status) else Recording(true, status)
    else if status.contentHash != j.prepared.previousHash then Conflicted
    else Fencing(tries, recovering, status)
  }

  function AfterFence(j: Journal, seen: Status, fenced: Status): Phase {
    if fenced.instance != seen.instance || fenced.contentHash != j.prepared.previousHash
       || fenced.revision <= seen.revision
    then Conflicted
    else Finishing(false, j.before.Keys, fenced)
  }

  // ---------------------------------------------------------------- invariant

  ghost predicate Holds(w: World, records: Records, except: set<Path>) {
    forall p | p in records && p !in except :: Capture(w.disk, p) == records[p]
  }

  /** The journal is a faithful undo and redo record of the disk it was opened on. */
  ghost predicate JournalSound(hash: Fingerprint, w: World, j: Journal) {
    && j.before.Keys == j.after.Keys
    && CONFIG_PATH in j.before && j.before[CONFIG_PATH].Some? && j.after[CONFIG_PATH].Some?
    && hash(j.before[CONFIG_PATH].value.data) == j.prepared.previousHash
    && j.after[CONFIG_PATH].value.data == j.config
    && hash(j.config) == j.prepared.targetHash
    && (forall p | p in j.before :: j.before[p] == Capture(w.origin, p))
    && (j.oldReceipt.Some? ==> hash(j.oldReceipt.value.config) == j.prepared.previousHash)
  }

  /** Every file is the old one, or a target's new one. */
  ghost predicate DiskBetween(w: World, j: Journal) {
    && (forall p | p !in j.before :: Capture(w.disk, p) == Capture(w.origin, p))
    && (forall p | p in j.before && p in j.after ::
          Capture(w.disk, p) == j.before[p] || Capture(w.disk, p) == j.after[p])
  }

  ghost predicate RuntimeBetween(hash: Fingerprint, w: World, j: Journal) {
    && (hash(w.runtime.content) == j.prepared.previousHash || hash(w.runtime.content) == j.prepared.targetHash)
    && j.prepared.expected.contentHash == j.prepared.previousHash
    && Remembered(hash, w.runtime, j.prepared.expected)
    && CONFIG_PATH in w.disk
    && (hash(w.runtime.content) == j.prepared.targetHash ==>
          hash(w.disk[CONFIG_PATH].data) == j.prepared.targetHash)
    && (w.receipt == j.oldReceipt
        || (w.receipt.Some? && w.receipt.value.config == j.config
            && hash(w.runtime.content) == j.prepared.targetHash))
  }

  ghost predicate Dead(rt: Runtime, put: Put) {
    put.instance != rt.instance || put.revision < rt.revision
  }

  ghost predicate UndoSafe(hash: Fingerprint, w: World, j: Journal) {
    && Dead(w.runtime, PutOf(j))
    && hash(w.runtime.content) == j.prepared.previousHash
    && j.prepared.previousHash != j.prepared.targetHash
  }

  ghost predicate OutcomeSafe(hash: Fingerprint, w: World, j: Journal, applied: bool) {
    if applied then hash(w.runtime.content) == j.prepared.targetHash else UndoSafe(hash, w, j)
  }

  ghost predicate PhaseSound(hash: Fingerprint, w: World, j: Journal) {
    match w.phase
    case Idle => true
    case Preparing(_, _) => false
    case Installing(left) => left <= j.after.Keys && Holds(w, j.after, left)
    case Awaiting => Holds(w, j.after, {})
    case Checking(_) => Holds(w, j.after, {})
    case Resolving(tries, recovering) =>
      && (!recovering ==> Holds(w, j.after, {}))
      && (!w.restarts ==> tries == 3 || (tries == 2 && hash(w.runtime.content) == j.prepared.targetHash))
    case Fencing(tries, recovering, seen) =>
      && (!recovering ==> Holds(w, j.after, {}))
      && Remembered(hash, w.runtime, seen)
      && seen.contentHash == j.prepared.previousHash != j.prepared.targetHash
      && j.prepared.expected.instance <= seen.instance
      && (j.prepared.expected.instance == seen.instance ==> j.prepared.expected.revision <= seen.revision)
      && (!w.restarts ==> tries == 3 && seen.instance == w.runtime.instance
                          && (CanFence(w.runtime, seen) || hash(w.runtime.content) == j.prepared.targetHash))
    case Finishing(applied, left, _) =>
      left <= j.before.Keys && OutcomeSafe(hash, w, j, applied) && Holds(w, Side(j, applied), left)
    case Recording(applied, _) =>
      OutcomeSafe(hash, w, j, applied) && Holds(w, Side(j, applied), {})
    case Removing(applied, _) =>
      && OutcomeSafe(hash, w, j, applied) && Holds(w, Side(j, applied), {})
      && (w.receipt.Some? ==> hash(w.receipt.value.config) == hash(w.runtime.content))
    case Conflicted => false
  }

  /** No journal: disk, receipt and runtime agree, and nothing in flight can change that. */
  ghost predicate Agreement(hash: Fingerprint, w: World) {
    && CONFIG_PATH in w.disk
    && hash(w.disk[CONFIG_PATH].data) == hash(w.runtime.content)
    && (w.receipt.Some? ==> hash(w.receipt.value.config) == hash(w.runtime.content))
    && (forall put, willing | put in w.sent :: Deliver(hash, w.runtime, put, willing) == w.runtime)
  }

  /** Journal, disk, runtime and receipt are on the way from one side to the other. */
  ghost predicate Between(hash: Fingerprint, w: World, j: Journal) {
    JournalSound(hash, w, j) && DiskBetween(w, j) && RuntimeBetween(hash, w, j)
  }

  /** No PUT in flight can change the runtime, but for the journal's own once every file is written. */
  ghost predicate PutsSound(hash: Fingerprint, w: World, j: Journal) {
    forall put | put in w.sent :: Harmless(hash, w.runtime, put) || (put == PutOf(j) && Holds(w, j.after, {}))
  }

  ghost predicate PendingSound(hash: Fingerprint, w: World, j: Journal) {
    Between(hash, w, j) && PutsSound(hash, w, j) && PhaseSound(hash, w, j)
  }

  /** Disk and runtime are on one side of the journal, and its PUT cannot move them off it. */
  ghost predicate Decided(hash: Fingerprint, w: World, j: Journal, applied: bool) {
    OutcomeSafe(hash, w, j, applied) && Holds(w, Side(j, applied), {})
  }

  /** Should the journal come back, recovering it again would be sound, and end where it ended. */
  ghost predicate Reopenable(hash: Fingerprint, w: World) {
    w.unsynced.Some? ==>
      && PendingSound(hash, w.(phase := Idle), w.unsynced.value)
      && (Decided(hash, w, w.unsynced.value, true) || Decided(hash, w, w.unsynced.value, false))
  }

  ghost predicate Ready(hash: Fingerprint, w: World) {
    || w.phase.Idle?
    || (w.phase.Preparing?
        && CONFIG_PATH in w.phase.targets
        && var p := w.phase.prepared;
           && Remembered(hash, w.runtime, p.expected)
           && p.expected.contentHash == p.previousHash == hash(w.runtime.content)
           && p.targetHash == hash(w.phase.targets[CONFIG_PATH]))
  }

  ghost predicate PutsHarmless(hash: Fingerprint, w: World) {
    forall put | put in w.sent :: Harmless(hash, w.runtime, put)
  }

  ghost predicate SteadySound(hash: Fingerprint, w: World) {
    Agreement(hash, w) && PutsHarmless(hash, w) && Reopenable(hash, w) && Ready(hash, w)
  }

  ghost predicate PutsPast(w: World) {
    forall put | put in w.sent :: FromThePast(w.runtime, put)
  }

  ghost predicate Inv(hash: Fingerprint, w: World) {
    && PutsPast(w)
    && (w.journal.None? ==> SteadySound(hash, w))
    && (w.journal.Some? ==> PendingSound(hash, w, w.journal.value))
  }

  // ---------------------------------------------------------------- one step

  /** Journal, disk and runtime say the same whatever the manager is about to do. */
  lemma Aside(hash: Fingerprint, w: World, v: World, j: Journal)
    requires v == w.(journal := v.journal, unsynced := v.unsynced, phase := v.phase)
    ensures Between(hash, w, j) <==> Between(hash, v, j)
    ensures PutsSound(hash, w, j) <==> PutsSound(hash, v, j)
    ensures PutsPast(w) <==> PutsPast(v)
    ensures forall applied :: Decided(hash, w, j, applied) <==> Decided(hash, v, j, applied)
  {
  }

  lemma AsideSteady(hash: Fingerprint, w: World, v: World)
    requires v == w.(phase := v.phase)
    ensures Agreement(hash, w) <==> Agreement(hash, v)
    ensures PutsHarmless(hash, w) <==> PutsHarmless(hash, v)
    ensures Reopenable(hash, w) <==> Reopenable(hash, v)
    ensures PutsPast(w) <==> PutsPast(v)
  {
    hide Between, PutsSound, Decided;
    if w.unsynced.Some? { Aside(hash, w, v, w.unsynced.value); }
  }

  lemma WorkHasJournal(hash: Fingerprint, w: World)
    requires Inv(hash, w)
    ensures w.phase.Idle? || w.phase.Preparing? || w.journal.Some?
  {
    hide PendingSound, Agreement, PutsHarmless, Reopenable, PutsPast;
  }

  /** The journal and the files in the middle of a step that leaves them alone. */
  lemma SameFiles(hash: Fingerprint, w: World, v: World, j: Journal)
    requires w.disk == v.disk && w.origin == v.origin
    ensures JournalSound(hash, w, j) <==> JournalSound(hash, v, j)
    ensures DiskBetween(w, j) <==> DiskBetween(v, j)
  {
  }

  lemma LatePutBetween(hash: Fingerprint, w: World, a: Action)
    requires Inv(hash, w) && Enabled(hash, w, a) && a.DeliverLate?
    ensures var w' := Next(hash, w, a); w'.journal.Some? ==> Between(hash, w', w'.journal.value)
  {
    hide SteadySound;
  }

  lemma LatePutPuts(hash: Fingerprint, w: World, a: Action)
    requires Inv(hash, w) && Enabled(hash, w, a) && a.DeliverLate?
    ensures var w' := Next(hash, w, a); PutsPast(w') && (w'.journal.Some? ==> PutsSound(hash, w', w'.journal.value))
  {
    hide JournalSound, DiskBetween, SteadySound, PhaseSound;
  }

  lemma LatePutPhase(hash: Fingerprint, w: World, a: Action)
    requires Inv(hash, w) && Enabled(hash, w, a) && a.DeliverLate?
    ensures var w' := Next(hash, w, a); w'.journal.Some? ==> PhaseSound(hash, w', w'.journal.value)
  {
    hide SteadySound;
  }

  lemma LatePutSteady(hash: Fingerprint, w: World, a: Action)
    requires Inv(hash, w) && Enabled(hash, w, a) && a.DeliverLate?
    ensures var w' := Next(hash, w, a); w'.journal.None? ==> w' == w
  {
    hide PendingSound, Reopenable;
  }

  lemma InvLatePut(hash: Fingerprint, w: World, a: Action)
    requires Inv(hash, w) && Enabled(hash, w, a) && a.DeliverLate?
    ensures Inv(hash, Next(hash, w, a))
  {
    hide Between, PutsSound, PhaseSound, SteadySound, PutsPast;
    LatePutBetween(hash, w, a);
    LatePutPuts(hash, w, a);
    LatePutPhase(hash, w, a);
    LatePutSteady(hash, w, a);
  }

  lemma ReplyBetween(hash: Fingerprint, w: World, a: Action)
    requires Inv(hash, w) && Enabled(hash, w, a) && a.DeliverAndReply?
    ensures var w' := Next(hash, w, a); w'.journal.Some? ==> Between(hash, w', w'.journal.value)
  {
    hide PutsSound, SteadySound, PutsPast;
  }

  lemma ReplyPuts(hash: Fingerprint, w: World, a: Action)
    requires Inv(hash, w) && Enabled(hash, w, a) && a.DeliverAndReply?
    ensures var w' := Next(hash, w, a); PutsPast(w') && (w'.journal.Some? ==> PutsSound(hash, w', w'.journal.value))
  {
    hide JournalSound, DiskBetween, SteadySound, PhaseSound;
  }

  lemma ReplyPhase(hash: Fingerprint, w: World, a: Action)
    requires Inv(hash, w) && Enabled(hash, w, a) && a.DeliverAndReply?
    ensures var w' := Next(hash, w, a); w'.journal.Some? ==> PhaseSound(hash, w', w'.journal.value)
  {
    hide JournalSound, DiskBetween, RuntimeBetween, PutsSound, PutsPast, SteadySound;
  }

  lemma InvReply(hash: Fingerprint, w: World, a: Action)
    requires Inv(hash, w) && Enabled(hash, w, a) && a.DeliverAndReply?
    ensures Inv(hash, Next(hash, w, a))
  {
    hide Between, PutsSound, PhaseSound, SteadySound, PutsPast;
    ReplyBetween(hash, w, a);
    ReplyPuts(hash, w, a);
    ReplyPhase(hash, w, a);
  }

  /** A fence bumps the revision and nothing else. */
  lemma FenceBetween(hash: Fingerprint, w: World, v: World, j: Journal)
    requires Between(hash, w, j) && v == w.(runtime := v.runtime, phase := v.phase)
             && (v.runtime == w.runtime || v.runtime == Fence(w.runtime))
    ensures Between(hash, v, j)
  {
    hide JournalSound, DiskBetween;
    SameFiles(hash, w, v, j);
  }

  lemma FencePuts(hash: Fingerprint, w: World, a: Action)
    requires Inv(hash, w) && Enabled(hash, w, a) && (a.TryFence? || a.FenceReplyLost?)
    ensures var w' := Next(hash, w, a); PutsPast(w') && (w'.journal.Some? ==> PutsSound(hash, w', w'.journal.value))
  {
    hide JournalSound, DiskBetween, SteadySound, RuntimeBetween;
  }

  lemma FencePhase(hash: Fingerprint, w: World, a: Action)
    requires Inv(hash, w) && Enabled(hash, w, a) && a.TryFence?
    ensures var w' := Next(hash, w, a); w'.journal.Some? ==> PhaseSound(hash, w', w'.journal.value)
  {
    hide JournalSound, DiskBetween, RuntimeBetween, PutsSound, PutsPast, SteadySound;
  }

  /** Won or lost, a fence keeps the invariant; a won one proves the previous content behind it. */
  lemma InvFence(hash: Fingerprint, w: World, a: Action)
    requires Inv(hash, w) && Enabled(hash, w, a) && (a.TryFence? || a.FenceReplyLost?)
    ensures Inv(hash, Next(hash, w, a))
  {
    hide Between, PutsSound, PhaseSound, SteadySound, PutsPast;
    WorkHasJournal(hash, w);
    FenceBetween(hash, w, Next(hash, w, a), w.journal.value);
    FencePuts(hash, w, a);
    if a.TryFence? { FencePhase(hash, w, a); } else { IdlePhase(hash, Next(hash, w, a), w.journal.value); }
  }

  lemma IdlePhase(hash: Fingerprint, w: World, j: Journal)
    requires w.phase.Idle?
    ensures PhaseSound(hash, w, j)
  {
  }

  lemma RestartBetween(hash: Fingerprint, w: World, a: Action)
    requires Inv(hash, w) && Enabled(hash, w, a) && a.RestartRuntime?
    ensures var w' := Next(hash, w, a); w'.journal.Some? ==> Between(hash, w', w'.journal.value)
  {
    hide PutsSound, SteadySound, PutsPast, PhaseSound;
  }

  lemma RestartPuts(hash: Fingerprint, w: World, a: Action)
    requires Inv(hash, w) && Enabled(hash, w, a) && a.RestartRuntime?
    ensures var w' := Next(hash, w, a); PutsPast(w') && (w'.journal.Some? ==> PutsSound(hash, w', w'.journal.value))
  {
    hide JournalSound, DiskBetween, SteadySound, PhaseSound;
  }

  lemma RestartPhase(hash: Fingerprint, w: World, a: Action)
    requires Inv(hash, w) && Enabled(hash, w, a) && a.RestartRuntime?
    ensures var w' := Next(hash, w, a); w'.journal.Some? ==> PhaseSound(hash, w', w'.journal.value)
  {
    hide PutsSound, SteadySound, PutsPast;
  }

  lemma RestartAgrees(hash: Fingerprint, w: World, a: Action)
    requires Inv(hash, w) && Enabled(hash, w, a) && a.RestartRuntime?
    ensures var w' := Next(hash, w, a); w'.journal.None? ==> Agreement(hash, w') && PutsHarmless(hash, w') && Ready(hash, w')
  {
    hide PendingSound, Reopenable;
  }

  /** A journal that may come back survives a restart, and so does the side it ended on. */
  lemma RestartReopens(hash: Fingerprint, w: World, a: Action)
    requires Inv(hash, w) && Enabled(hash, w, a) && a.RestartRuntime? && w.journal.None? && w.unsynced.Some?
    ensures var j := w.unsynced.value; var w' := Next(hash, w, a);
            Between(hash, w', j) && (Decided(hash, w', j, true) || Decided(hash, w', j, false))
  {
    hide PutsSound, PutsPast, PhaseSound, Ready;
  }

  lemma RestartReopenable(hash: Fingerprint, w: World, a: Action)
    requires Inv(hash, w) && Enabled(hash, w, a) && a.RestartRuntime? && w.journal.None?
    ensures Reopenable(hash, Next(hash, w, a))
  {
    hide Between, PutsSound, PutsPast, Decided, Agreement, Ready, PutsHarmless;
    var w' := Next(hash, w, a);
    if w.unsynced.Some? {
      var j := w.unsynced.value;
      RestartReopens(hash, w, a);
      Aside(hash, w', w'.(phase := Idle), j);
      RestartAgrees(hash, w, a);
      HarmlessPuts(hash, w', j);
      IdlePhase(hash, w'.(phase := Idle), j);
    }
  }

  lemma HarmlessPuts(hash: Fingerprint, w: World, j: Journal)
    requires PutsHarmless(hash, w)
    ensures PutsSound(hash, w, j)
  {
  }

  lemma InvRestart(hash: Fingerprint, w: World, a: Action)
    requires Inv(hash, w) && Enabled(hash, w, a) && a.RestartRuntime?
    ensures Inv(hash, Next(hash, w, a))
  {
    hide Between, PutsSound, PhaseSound, PutsPast, Agreement, PutsHarmless, Reopenable, Ready;
    RestartBetween(hash, w, a);
    RestartPuts(hash, w, a);
    RestartPhase(hash, w, a);
    RestartAgrees(hash, w, a);
    if w.journal.None? { RestartReopenable(hash, w, a); }
  }

  lemma InvPrepare(hash: Fingerprint, w: World, a: Action)
    requires Inv(hash, w) && Enabled(hash, w, a) && a.Prepare?
    ensures Inv(hash, Next(hash, w, a))
  {
    hide Between, PutsSound, PhaseSound, PutsPast, Agreement, PutsHarmless, Reopenable;
    AsideSteady(hash, w, Next(hash, w, a));
    PreparedNow(hash, w, a);
  }

  lemma PreparedNow(hash: Fingerprint, w: World, a: Action)
    requires Enabled(hash, w, a) && a.Prepare?
    ensures Ready(hash, Next(hash, w, a))
  {
  }

  lemma InvCrash(hash: Fingerprint, w: World, a: Action)
    requires Inv(hash, w) && Enabled(hash, w, a) && a.Crash?
    ensures Inv(hash, Next(hash, w, a))
  {
    hide Between, PutsSound, PhaseSound, PutsPast, Agreement, PutsHarmless, Reopenable;
    var w' := Next(hash, w, a);
    AsideSteady(hash, w, w');
    if w.journal.Some? {
      Aside(hash, w, w', w.journal.value);
      IdlePhase(hash, w', w.journal.value);
    }
  }

  lemma InvPowerLoss(hash: Fingerprint, w: World, a: Action)
    requires Inv(hash, w) && Enabled(hash, w, a) && a.PowerLoss?
    ensures Inv(hash, Next(hash, w, a))
  {
    hide Between, PutsSound, PhaseSound, PutsPast, Agreement, PutsHarmless, Decided;
    var w', j := Next(hash, w, a), w.unsynced.value;
    Aside(hash, w.(phase := Idle), w', j);
    Aside(hash, w, w', j);
    IdlePhase(hash, w', j);
  }

  lemma QuietPhase(hash: Fingerprint, w: World, a: Action)
    requires Inv(hash, w) && Enabled(hash, w, a) && (a.Recover? || a.LoseReply? || a.CheckStatus?)
    ensures var w' := Next(hash, w, a); w'.journal.Some? ==> PhaseSound(hash, w', w'.journal.value)
  {
    hide JournalSound, DiskBetween, RuntimeBetween, PutsSound, PutsPast, SteadySound;
  }

  lemma StatusPhase(hash: Fingerprint, w: World, a: Action)
    requires Inv(hash, w) && Enabled(hash, w, a) && a.ReadStatus?
    ensures var w' := Next(hash, w, a); w'.journal.Some? ==> PhaseSound(hash, w', w'.journal.value)
  {
    hide DiskBetween, PutsSound, PutsPast, SteadySound;
  }

  lemma InvQuiet(hash: Fingerprint, w: World, a: Action)
    requires Inv(hash, w) && Enabled(hash, w, a) && (a.Recover? || a.LoseReply? || a.CheckStatus? || a.ReadStatus?)
    ensures Inv(hash, Next(hash, w, a))
  {
    hide Between, PutsSound, PhaseSound, PutsPast, Agreement, PutsHarmless, Reopenable;
    WorkHasJournal(hash, w);
    Aside(hash, w, Next(hash, w, a), w.journal.value);
    if a.ReadStatus? { StatusPhase(hash, w, a); } else { QuietPhase(hash, w, a); }
  }

  lemma RemoveAgrees(hash: Fingerprint, w: World, a: Action)
    requires Inv(hash, w) && Enabled(hash, w, a) && a.RemoveJournal?
    ensures var w' := Next(hash, w, a); Agreement(hash, w') && PutsHarmless(hash, w')
  {
    hide SteadySound;
  }

  lemma RemovedIsDecided(hash: Fingerprint, w: World, j: Journal)
    requires PhaseSound(hash, w, j) && w.phase.Removing?
    ensures Decided(hash, w, j, w.phase.applied)
  {
    hide OutcomeSafe, Holds;
  }

  lemma InvRemove(hash: Fingerprint, w: World, a: Action)
    requires Inv(hash, w) && Enabled(hash, w, a) && a.RemoveJournal?
    ensures Inv(hash, Next(hash, w, a))
  {
    hide Between, PutsSound, PhaseSound, PutsPast, Agreement, PutsHarmless, Decided;
    var w', j := Next(hash, w, a), w.journal.value;
    RemoveAgrees(hash, w, a);
    RemovedIsDecided(hash, w, j);
    Aside(hash, w, w', j);
    IdlePhase(hash, w'.(phase := Idle), j);
  }

  lemma InvOpen(hash: Fingerprint, w: World, a: Action)
    requires Inv(hash, w) && Enabled(hash, w, a) && a.OpenJournal?
    ensures Inv(hash, Next(hash, w, a))
  {
    hide Reopenable;
  }

  lemma InstallBetween(hash: Fingerprint, w: World, a: Action)
    requires Inv(hash, w) && Enabled(hash, w, a) && a.Install?
    ensures var w' := Next(hash, w, a); w'.journal.Some? ==> Between(hash, w', w'.journal.value)
  {
    hide PutsSound, SteadySound, PutsPast, PhaseSound;
  }

  lemma InstallPuts(hash: Fingerprint, w: World, a: Action)
    requires Inv(hash, w) && Enabled(hash, w, a) && a.Install?
    ensures var w' := Next(hash, w, a); PutsPast(w') && (w'.journal.Some? ==> PutsSound(hash, w', w'.journal.value))
  {
    hide JournalSound, DiskBetween, SteadySound, PhaseSound;
  }

  lemma InstallPhase(hash: Fingerprint, w: World, a: Action)
    requires Inv(hash, w) && Enabled(hash, w, a) && a.Install?
    ensures var w' := Next(hash, w, a); w'.journal.Some? ==> PhaseSound(hash, w', w'.journal.value)
  {
    hide JournalSound, DiskBetween, RuntimeBetween, PutsSound, PutsPast, SteadySound;
  }

  lemma InvInstall(hash: Fingerprint, w: World, a: Action)
    requires Inv(hash, w) && Enabled(hash, w, a) && a.Install?
    ensures Inv(hash, Next(hash, w, a))
  {
    hide Between, PutsSound, PhaseSound, SteadySound, PutsPast;
    InstallBetween(hash, w, a);
    InstallPuts(hash, w, a);
    InstallPhase(hash, w, a);
  }

  /** Writing a record of one side keeps every file on one of the two sides. */
  lemma RewriteKeepsBetween(w: World, j: Journal, p: Path, applied: bool)
    requires j.before.Keys == j.after.Keys && DiskBetween(w, j) && p in j.before
    ensures DiskBetween(w.(disk := Restore(w.disk, p, Side(j, applied)[p])), j)
  {
  }

  lemma RewriteBetween(hash: Fingerprint, w: World, v: World, j: Journal, p: Path, applied: bool)
    requires Between(hash, w, j) && OutcomeSafe(hash, w, j, applied) && p in j.before && p in Side(j, applied)
    requires v == w.(disk := Restore(w.disk, p, Side(j, applied)[p]), phase := v.phase)
    ensures Between(hash, v, j)
  {
    hide DiskBetween;
    RewriteKeepsBetween(w, j, p, applied);
    SameFiles(hash, v.(phase := w.phase), v, j);
  }

  lemma FinishingFacts(hash: Fingerprint, w: World, j: Journal)
    requires PhaseSound(hash, w, j) && w.phase.Finishing?
    ensures w.phase.left <= j.before.Keys && OutcomeSafe(hash, w, j, w.phase.applied)
  {
    hide OutcomeSafe, Holds;
  }

  lemma RedoPuts(hash: Fingerprint, w: World, a: Action)
    requires Inv(hash, w) && Enabled(hash, w, a) && a.Rewrite? && w.phase.applied
    ensures var w' := Next(hash, w, a); PutsPast(w') && (w'.journal.Some? ==> PutsSound(hash, w', w'.journal.value))
  {
    hide JournalSound, DiskBetween, SteadySound, PhaseSound;
  }

  lemma UndoPuts(hash: Fingerprint, w: World, a: Action)
    requires Inv(hash, w) && Enabled(hash, w, a) && a.Rewrite? && !w.phase.applied
    ensures var w' := Next(hash, w, a); PutsPast(w') && (w'.journal.Some? ==> PutsSound(hash, w', w'.journal.value))
  {
    hide JournalSound, DiskBetween;
  }

  lemma RewritePhase(hash: Fingerprint, w: World, a: Action)
    requires Inv(hash, w) && Enabled(hash, w, a) && a.Rewrite?
    ensures var w' := Next(hash, w, a); w'.journal.Some? ==> PhaseSound(hash, w', w'.journal.value)
  {
    hide JournalSound, DiskBetween, RuntimeBetween, PutsSound, PutsPast, SteadySound;
  }

  lemma InvRewrite(hash: Fingerprint, w: World, a: Action)
    requires Inv(hash, w) && Enabled(hash, w, a) && a.Rewrite?
    ensures Inv(hash, Next(hash, w, a))
  {
    hide Between, PutsSound, PhaseSound, SteadySound, PutsPast, OutcomeSafe;
    FinishingFacts(hash, w, w.journal.value);
    RewriteBetween(hash, w, Next(hash, w, a), w.journal.value, a.path, w.phase.applied);
    RewritePhase(hash, w, a);
    if w.phase.applied { RedoPuts(hash, w, a); } else { UndoPuts(hash, w, a); }
  }

  lemma ReceiptBetween(hash: Fingerprint, w: World, a: Action)
    requires Inv(hash, w) && Enabled(hash, w, a) && a.WriteReceipt?
    ensures var w' := Next(hash, w, a); w'.journal.Some? ==> Between(hash, w', w'.journal.value)
  {
    hide PutsSound, SteadySound, PutsPast;
  }

  lemma ReceiptPuts(hash: Fingerprint, w: World, a: Action)
    requires Inv(hash, w) && Enabled(hash, w, a) && a.WriteReceipt?
    ensures var w' := Next(hash, w, a); PutsPast(w') && (w'.journal.Some? ==> PutsSound(hash, w', w'.journal.value))
  {
    hide JournalSound, DiskBetween, SteadySound, PhaseSound;
  }

  lemma ReceiptPhase(hash: Fingerprint, w: World, a: Action)
    requires Inv(hash, w) && Enabled(hash, w, a) && a.WriteReceipt?
    ensures var w' := Next(hash, w, a); w'.journal.Some? ==> PhaseSound(hash, w', w'.journal.value)
  {
    hide DiskBetween, PutsSound, PutsPast, SteadySound;
  }

  lemma InvReceipt(hash: Fingerprint, w: World, a: Action)
    requires Inv(hash, w) && Enabled(hash, w, a) && a.WriteReceipt?
    ensures Inv(hash, Next(hash, w, a))
  {
    hide Between, PutsSound, PhaseSound, SteadySound, PutsPast;
    ReceiptBetween(hash, w, a);
    ReceiptPuts(hash, w, a);
    ReceiptPhase(hash, w, a);
  }

  lemma SendBetween(hash: Fingerprint, w: World, v: World, j: Journal)
    requires Between(hash, w, j) && v == w.(sent := v.sent, phase := v.phase)
    ensures Between(hash, v, j)
  {
    hide JournalSound, DiskBetween;
    SameFiles(hash, w, v, j);
  }

  lemma SendPuts(hash: Fingerprint, w: World, a: Action)
    requires Inv(hash, w) && Enabled(hash, w, a) && a.SendPut?
    ensures var w' := Next(hash, w, a); PutsPast(w') && (w'.journal.Some? ==> PutsSound(hash, w', w'.journal.value))
  {
    hide JournalSound, DiskBetween;
  }

  lemma SendPhase(hash: Fingerprint, w: World, a: Action)
    requires Inv(hash, w) && Enabled(hash, w, a) && a.SendPut?
    ensures var w' := Next(hash, w, a); w'.journal.Some? ==> PhaseSound(hash, w', w'.journal.value)
  {
    hide JournalSound, DiskBetween, RuntimeBetween, PutsSound, PutsPast, SteadySound;
  }

  lemma InvSend(hash: Fingerprint, w: World, a: Action)
    requires Inv(hash, w) && Enabled(hash, w, a) && a.SendPut?
    ensures Inv(hash, Next(hash, w, a))
  {
    hide Between, PutsSound, PhaseSound, SteadySound, PutsPast;
    SendBetween(hash, w, Next(hash, w, a), w.journal.value);
    SendPuts(hash, w, a);
    SendPhase(hash, w, a);
  }

  predicate RuntimeSide(a: Action) {
    a.DeliverLate? || a.DeliverAndReply? || a.TryFence? || a.FenceReplyLost? || a.RestartRuntime?
  }

  predicate FileSide(a: Action) {
    a.OpenJournal? || a.Install? || a.Rewrite? || a.WriteReceipt? || a.RemoveJournal?
  }

  lemma InvRuntimeSide(hash: Fingerprint, w: World, a: Action)
    requires Inv(hash, w) && Enabled(hash, w, a) && RuntimeSide(a)
    ensures Inv(hash, Next(hash, w, a))
  {
    hide Inv, Enabled, Next;
    if a.DeliverLate? { InvLatePut(hash, w, a); }
    else if a.DeliverAndReply? { InvReply(hash, w, a); }
    else if a.RestartRuntime? { InvRestart(hash, w, a); }
    else { InvFence(hash, w, a); }
  }

  lemma InvFileSide(hash: Fingerprint, w: World, a: Action)
    requires Inv(hash, w) && Enabled(hash, w, a) && FileSide(a)
    ensures Inv(hash, Next(hash, w, a))
  {
    hide Inv, Enabled, Next;
    if a.OpenJournal? { InvOpen(hash, w, a); }
    else if a.Install? { InvInstall(hash, w, a); }
    else if a.WriteReceipt? { InvReceipt(hash, w, a); }
    else if a.RemoveJournal? { InvRemove(hash, w, a); }
    else { InvRewrite(hash, w, a); }
  }

  lemma InvControlSide(hash: Fingerprint, w: World, a: Action)
    requires Inv(hash, w) && Enabled(hash, w, a) && !RuntimeSide(a) && !FileSide(a)
    ensures Inv(hash, Next(hash, w, a))
  {
    hide Inv, Enabled, Next;
    if a.SendPut? { InvSend(hash, w, a); }
    else if a.Prepare? { InvPrepare(hash, w, a); }
    else if a.Crash? { InvCrash(hash, w, a); }
    else if a.PowerLoss? { InvPowerLoss(hash, w, a); }
    else { InvQuiet(hash, w, a); }
  }

  /** Every atomic step of the manager, the network and the runtime keeps the invariant. */
  lemma InvNext(hash: Fingerprint, w: World, a: Action)
    requires Inv(hash, w) && Enabled(hash, w, a)
    ensures Inv(hash, Next(hash, w, a))
  {
    hide Inv, Enabled, Next;
    if RuntimeSide(a) { InvRuntimeSide(hash, w, a); }
    else if FileSide(a) { InvFileSide(hash, w, a); }
    else { InvControlSide(hash, w, a); }
  }

  // ---------------------------------------------------------------- whole runs

  ghost predicate StepTo(hash: Fingerprint, w: World, w': World) {
    exists a :: Enabled(hash, w, a) && Next(hash, w, a) == w'
  }

  ghost predicate IsRun(hash: Fingerprint, ws: seq<World>) {
    && |ws| > 0
    && (forall i | 0 <= i < |ws| - 1 :: StepTo(hash, ws[i], ws[i + 1]))
  }

  /** A node that has been verified at startup: no journal, nothing in flight. */
  ghost predicate Initial(hash: Fingerprint, w: World) {
    w.journal.None? && w.unsynced.None? && w.phase.Idle? && w.sent == {} && Agreement(hash, w)
  }

  lemma {:induction false} RunKeepsInv(hash: Fingerprint, ws: seq<World>, i: nat)
    requires IsRun(hash, ws) && Inv(hash, ws[0]) && i < |ws|
    ensures Inv(hash, ws[i])
  {
    hide Inv, Enabled, Next;
    if i > 0 {
      RunKeepsInv(hash, ws, i - 1);
      assert StepTo(hash, ws[i - 1], ws[i - 1 + 1]);
      var a :| Enabled(hash, ws[i - 1], a) && Next(hash, ws[i - 1], a) == ws[i];
      InvNext(hash, ws[i - 1], a);
    }
  }

  /**
   Safety of every run from a verified start, with crashes at any point, lost
   replies, late and repeated PUTs, and (when allowed) runtime restarts.
   */
  lemma RunsAreSafe(hash: Fingerprint, ws: seq<World>, i: nat)
    requires IsRun(hash, ws) && Initial(hash, ws[0]) && i < |ws|
    ensures ws[i].journal.None? ==> Agreement(hash, ws[i])
    ensures ws[i].journal.Some? ==>
              var p := ws[i].journal.value.prepared;
              hash(ws[i].runtime.content) == p.previousHash || hash(ws[i].runtime.content) == p.targetHash
    ensures !ws[i].phase.Conflicted?
    ensures !ws[i].restarts && ws[i].phase.Resolving? ==> ws[i].phase.tries >= 2
  {
    RunKeepsInv(hash, ws, i);
  }

  lemma HoldsIsOverlay(w: World, j: Journal, applied: bool)
    requires DiskBetween(w, j) && j.before.Keys == j.after.Keys && Holds(w, Side(j, applied), {})
    requires forall p | p in j.before :: j.before[p] == Capture(w.origin, p)
    ensures w.disk == if applied then Overlay(w.origin, j.after) else w.origin
  {
    var goal := if applied then Overlay(w.origin, j.after) else w.origin;
    forall p ensures Capture(w.disk, p) == Capture(goal, p) {
      assert p in j.before <==> p in j.after;
    }
    SameCaptures(w.disk, goal);
  }

  lemma SameCaptures(a: Disk, b: Disk)
    requires forall p :: Capture(a, p) == Capture(b, p)
    ensures a == b
  {
    assert forall p :: p in a <==> p in b by {
      forall p ensures p in a <==> p in b { assert Capture(a, p) == Capture(b, p); }
    }
    forall p | p in a ensures a[p] == b[p] { assert Capture(a, p) == Capture(b, p); }
  }

  ghost predicate OneSide(hash: Fingerprint, from: Disk, j: Journal, w': World) {
    || (w'.disk == from && hash(w'.runtime.content) == j.prepared.previousHash)
    || (w'.disk == Overlay(from, j.after) && hash(w'.runtime.content) == j.prepared.targetHash)
  }

  /** What the last step of a publication leaves on disk and in the runtime. */
  lemma ClosingIsOneSide(hash: Fingerprint, w: World, a: Action)
    requires Inv(hash, w) && w.journal.Some? && Enabled(hash, w, a) && a.RemoveJournal?
    ensures OneSide(hash, w.origin, w.journal.value, Next(hash, w, a))
  {
    HoldsIsOverlay(w, w.journal.value, w.phase.applied);
  }

  lemma OnlyRemovalCloses(hash: Fingerprint, w: World, w': World) returns (a: Action)
    requires w.journal.Some? && StepTo(hash, w, w') && w'.journal.None?
    ensures Enabled(hash, w, a) && Next(hash, w, a) == w' && a.RemoveJournal?
  {
    a :| Enabled(hash, w, a) && Next(hash, w, a) == w';
  }

  lemma ClosingStep(hash: Fingerprint, w: World, w': World)
    requires Inv(hash, w) && w.journal.Some? && StepTo(hash, w, w') && w'.journal.None?
    ensures OneSide(hash, w.origin, w.journal.value, w')
  {
    hide Inv, OneSide, Enabled, Next;
    var a := OnlyRemovalCloses(hash, w, w');
    ClosingIsOneSide(hash, w, a);
  }

  /** The world an undo that runs to its end leaves behind. */
  function Undone(w: World): World
    requires w.journal.Some?
  {
    w.(disk := w.origin, journal := None, unsynced := w.journal, receipt := w.journal.value.oldReceipt, phase := Idle)
  }

  /**
   A restart in the middle of an undo is harmless exactly when the configuration
   file it loads already hashes to the previous content. Otherwise the undo ends
   with the new content running over the old file.
   */
  lemma RestartDuringUndo(hash: Fingerprint, w: World, instance: nat)
    requires Inv(hash, w) && w.journal.Some? && w.phase.Finishing? && !w.phase.applied
    requires instance > w.runtime.instance
    ensures CONFIG_PATH in w.disk
    ensures Agreement(hash, Undone(w.(runtime := Runtime(instance, 0, w.disk[CONFIG_PATH].data))))
            <==> hash(w.disk[CONFIG_PATH].data) == w.journal.value.prepared.previousHash
  {
    var j := w.journal.value;
    assert Capture(w.origin, CONFIG_PATH) == j.before[CONFIG_PATH];
  }

  lemma Steps(hash: Fingerprint, ws: seq<World>, a: Action)
    requires IsRun(hash, ws) && Enabled(hash, ws[|ws| - 1], a)
    ensures IsRun(hash, ws + [Next(hash, ws[|ws| - 1], a)])
  {
    hide Enabled, Next;
    var more := ws + [Next(hash, ws[|ws| - 1], a)];
    forall i | 0 <= i < |more| - 1 ensures StepTo(hash, more[i], more[i + 1]) {
      if i < |ws| - 1 { assert StepTo(hash, ws[i], ws[i + 1]); }
    }
  }

  lemma RunFrom(hash: Fingerprint, w: World, a: Action, ws: seq<World>)
    requires Enabled(hash, w, a) && IsRun(hash, ws) && ws[0] == Next(hash, w, a)
    ensures IsRun(hash, [w] + ws)
  {
    hide Enabled, Next;
    var more := [w] + ws;
    forall i | 0 <= i < |more| - 1 ensures StepTo(hash, more[i], more[i + 1]) {
      if i > 0 { assert StepTo(hash, ws[i - 1], ws[i - 1 + 1]); }
    }
  }

  /** One record goes back to what it was. */
  lemma UndoneOne(hash: Fingerprint, w: World, p: Path)
    requires w.journal.Some? && w.phase.Finishing? && !w.phase.applied && p in w.phase.left
    requires w.phase.left <= w.journal.value.before.Keys && JournalSound(hash, w, w.journal.value)
    requires DiskBetween(w, w.journal.value) && Holds(w, w.journal.value.before, w.phase.left)
    ensures Enabled(hash, w, Rewrite(p))
    ensures var v := Next(hash, w, Rewrite(p));
            && v.journal == w.journal && v.phase == w.phase.(left := w.phase.left - {p}) && Undone(v) == Undone(w)
            && JournalSound(hash, v, w.journal.value) && DiskBetween(v, w.journal.value)
            && Holds(v, w.journal.value.before, v.phase.left)
  {
    RewriteKeepsBetween(w, w.journal.value, p, false);
    SameFiles(hash, w.(disk := Next(hash, w, Rewrite(p)).disk), Next(hash, w, Rewrite(p)), w.journal.value);
  }

  /** The remaining steps of an undo, whatever runs meanwhile: records, receipt, journal. */
  lemma {:induction false} UndoRuns(hash: Fingerprint, w: World) returns (ws: seq<World>)
    requires w.journal.Some? && w.phase.Finishing? && !w.phase.applied
    requires w.phase.left <= w.journal.value.before.Keys && JournalSound(hash, w, w.journal.value)
    requires DiskBetween(w, w.journal.value) && Holds(w, w.journal.value.before, w.phase.left)
    ensures IsRun(hash, ws) && ws[0] == w && ws[|ws| - 1] == Undone(w)
    decreases w.phase.left
  {
    if w.phase.left == {} {
      HoldsIsOverlay(w, w.journal.value, false);
      var v := Next(hash, w, WriteReceipt);
      FirstStep(hash, Next(hash, v, RemoveJournal));
      RunFrom(hash, v, RemoveJournal, [Next(hash, v, RemoveJournal)]);
      ws := [v] + [Next(hash, v, RemoveJournal)];
      RunFrom(hash, w, WriteReceipt, ws);
      ws := [w] + ws;
    } else {
      hide Enabled, Next, JournalSound, DiskBetween, Holds, Undone, IsRun;
      var p :| p in w.phase.left;
      UndoneOne(hash, w, p);
      ws := UndoRuns(hash, Next(hash, w, Rewrite(p)));
      RunFrom(hash, w, Rewrite(p), ws);
      ws := [w] + ws;
    }
  }

  /** A publication up to its PUT, whose reply is lost. */
  lemma LostReplyRun(hash: Fingerprint, previous: Bytes, next: Bytes) returns (ws: seq<World>)
    ensures IsRun(hash, ws) && |ws| == 6 && Initial(hash, ws[0])
    ensures var disk: Disk := map[CONFIG_PATH := File(previous, 0, 0)];
            var w := ws[5];
            && w.runtime == Runtime(1, 0, previous) && w.journal.Some? && w.phase == Resolving(3, false)
            && w.journal.value == Journal(Prepared(StatusOf(hash, w.runtime), hash(previous), hash(next)), next,
                                          CaptureAll(disk, {CONFIG_PATH}),
                                          AfterRecords(disk, map[CONFIG_PATH := next]), None)
            && w.disk == map[CONFIG_PATH := File(next, 0, 0)]
  {
    hide IsRun, Inv;
    var disk: Disk := map[CONFIG_PATH := File(previous, 0, 0)];
    var targets := map[CONFIG_PATH := next];
    var w := World(disk, None, None, None, Runtime(1, 0, previous), {}, Idle, true, disk);
    ws := [w];
    FirstStep(hash, w);
    Steps(hash, ws, Prepare(targets));
    var w1 := Next(hash, w, Prepare(targets));
    ws := ws + [w1];
    Steps(hash, ws, OpenJournal);
    var w2 := Next(hash, w1, OpenJournal);
    ws := ws + [w2];
    Steps(hash, ws, Install(CONFIG_PATH));
    var w3 := Next(hash, w2, Install(CONFIG_PATH));
    ws := ws + [w3];
    Steps(hash, ws, SendPut);
    var w4 := Next(hash, w3, SendPut);
    ws := ws + [w4];
    Steps(hash, ws, LoseReply);
    ws := ws + [Next(hash, w4, LoseReply)];
    assert targets.Keys == {CONFIG_PATH};
  }

  /**
   A run in which a restart breaks the undo: the reply of a PUT that never arrived is lost, the fence proves the
   previous content, and the new configuration file is still on disk when its undoing begins. The runtime restarts
   there, and the undo runs to its end.
   */
  lemma RestartBreaksUndo(hash: Fingerprint, previous: Bytes, next: Bytes,
                          instance: nat) returns (ws: seq<World>, vs: seq<World>)
    requires hash(previous) != hash(next) && instance > 1
    ensures IsRun(hash, ws) && Initial(hash, ws[0]) && IsRun(hash, vs)
    ensures var w := ws[|ws| - 1];
            && w.journal.Some? && w.phase.Finishing? && !w.phase.applied && CONFIG_PATH in w.disk
            && instance > w.runtime.instance
            && hash(w.disk[CONFIG_PATH].data) != w.journal.value.prepared.previousHash
            && vs[0] == w.(runtime := Runtime(instance, 0, w.disk[CONFIG_PATH].data))
    ensures vs[|vs| - 1].journal.None? && vs[|vs| - 1].phase.Idle? && !Agreement(hash, vs[|vs| - 1])
  {
    hide IsRun, Inv, Initial, CaptureAll, AfterRecords, Agreement;
    ws := LostReplyRun(hash, previous, next);
    var w5 := ws[5];
    Steps(hash, ws, ReadStatus);
    var w6 := Next(hash, w5, ReadStatus);
    ws := ws + [w6];
    Steps(hash, ws, TryFence);
    var w7 := Next(hash, w6, TryFence);
    ws := ws + [w7];
    InitialIsInv(hash, ws[0]);
    RunKeepsInv(hash, ws, 7);
    RestartDuringUndo(hash, w7, instance);
    var v := w7.(runtime := Runtime(instance, 0, w7.disk[CONFIG_PATH].data));
    UndoStands(hash, w7, v);
    vs := UndoRuns(hash, v);
  }

  /** What the rest of an undo needs does not depend on the runtime. */
  lemma UndoStands(hash: Fingerprint, w: World, v: World)
    requires Inv(hash, w) && w.journal.Some? && w.phase.Finishing? && !w.phase.applied && v == w.(runtime := v.runtime)
    ensures v.phase.left <= v.journal.value.before.Keys && JournalSound(hash, v, v.journal.value)
    ensures DiskBetween(v, v.journal.value) && Holds(v, v.journal.value.before, v.phase.left)
  {
    hide PutsSound, RuntimeBetween, PutsPast, SteadySound;
  }

  lemma FirstStep(hash: Fingerprint, w: World)
    ensures IsRun(hash, [w])
  {
  }

  lemma {:induction false} OriginKept(hash: Fingerprint, ws: seq<World>, i: nat, k: nat)
    requires IsRun(hash, ws) && i < k < |ws| && forall m | i < m <= k :: ws[m].journal.Some?
    ensures ws[k].origin == ws[i + 1].origin && ws[k].journal == ws[i + 1].journal
    ensures ws[i].journal.None? && ws[i + 1].phase.Installing? ==> ws[k].origin == ws[i].disk
  {
    hide Inv, StepTo;
    assert StepTo(hash, ws[k - 1], ws[k - 1 + 1]);
    if k == i + 1 {
      if ws[i].journal.None? && ws[k].phase.Installing? { OpeningStep(hash, ws[i], ws[k]); }
    } else {
      OriginKept(hash, ws, i, k - 1);
      StayingStep(hash, ws[k - 1], ws[k]);
    }
  }

  lemma OpeningStep(hash: Fingerprint, w: World, w': World)
    requires StepTo(hash, w, w') && w.journal.None? && w'.journal.Some? && w'.phase.Installing?
    ensures w'.origin == w.disk
  {
  }

  lemma StayingStep(hash: Fingerprint, w: World, w': World)
    requires StepTo(hash, w, w') && w.journal.Some? && w'.journal.Some?
    ensures w'.origin == w.origin && w'.journal == w.journal
  {
  }

  /** From opening to removal of one journal the outcome is one side. */
  lemma JournalSpan(hash: Fingerprint, ws: seq<World>, i: nat, k: nat)
    requires IsRun(hash, ws) && Inv(hash, ws[0]) && i + 1 < k < |ws| && ws[k].journal.None?
    requires forall m | i < m < k :: ws[m].journal.Some?
    ensures OneSide(hash, ws[i + 1].origin, ws[i + 1].journal.value, ws[k])
    ensures ws[i].journal.None? && ws[i + 1].phase.Installing? ==> ws[i + 1].origin == ws[i].disk
  {
    hide Inv, OneSide, StepTo;
    OriginKept(hash, ws, i, k - 1);
    RunKeepsInv(hash, ws, k - 1);
    assert StepTo(hash, ws[k - 1], ws[k - 1 + 1]);
    ClosingStep(hash, ws[k - 1], ws[k]);
  }

  // ---------------------------------------------------------------- a journal that comes back

  /** A journal whose removal was lost is recovered again, and everything stays on the side it was closed on. */
  ghost predicate Again(hash: Fingerprint, w: World, j: Journal, applied: bool) {
    && Decided(hash, w, j, applied)
    && (|| w.phase.Idle? || (w.phase.Resolving? && w.phase.recovering) || (w.phase.Fencing? && w.phase.recovering)
        || ((w.phase.Finishing? || w.phase.Removing?) && w.phase.applied == applied))
  }

  ghost predicate Unmoved(hash: Fingerprint, w: World, v: World) {
    v.disk == w.disk && hash(v.runtime.content) == hash(w.runtime.content)
  }

  lemma AgainLatePut(hash: Fingerprint, w: World, a: Action, applied: bool)
    requires Inv(hash, w) && w.journal.Some? && Again(hash, w, w.journal.value, applied) && Enabled(hash, w, a)
             && a.DeliverLate?
    ensures Next(hash, w, a) == w
  {
    hide RuntimeBetween, PhaseSound, DiskBetween, Agreement, Reopenable;
  }

  lemma AgainFence(hash: Fingerprint, w: World, a: Action, applied: bool)
    requires Inv(hash, w) && w.journal.Some? && Again(hash, w, w.journal.value, applied) && Enabled(hash, w, a)
    requires a.TryFence? || a.FenceReplyLost?
    ensures Again(hash, Next(hash, w, a), w.journal.value, applied) && Unmoved(hash, w, Next(hash, w, a))
  {
    hide PutsSound, Between, SteadySound, PutsPast;
  }

  lemma AgainRestart(hash: Fingerprint, w: World, a: Action, applied: bool)
    requires Inv(hash, w) && w.journal.Some? && Again(hash, w, w.journal.value, applied) && Enabled(hash, w, a)
             && a.RestartRuntime?
    ensures Again(hash, Next(hash, w, a), w.journal.value, applied) && Unmoved(hash, w, Next(hash, w, a))
  {
    hide PutsSound, DiskBetween, SteadySound, PutsPast, PhaseSound;
  }

  lemma AgainRewrite(hash: Fingerprint, w: World, a: Action, applied: bool)
    requires Inv(hash, w) && w.journal.Some? && Again(hash, w, w.journal.value, applied) && Enabled(hash, w, a)
             && a.Rewrite?
    ensures Again(hash, Next(hash, w, a), w.journal.value, applied) && Unmoved(hash, w, Next(hash, w, a))
  {
    hide Inv;
    var w' := Next(hash, w, a);
    SameCaptures(w'.disk, w.disk);
  }

  lemma AgainQuiet(hash: Fingerprint, w: World, a: Action, applied: bool)
    requires Inv(hash, w) && w.journal.Some? && Again(hash, w, w.journal.value, applied) && Enabled(hash, w, a)
    requires a.WriteReceipt? || a.Crash? || a.Recover? || a.RemoveJournal?
    ensures Unmoved(hash, w, Next(hash, w, a))
    ensures Next(hash, w, a).journal.Some? ==> Again(hash, Next(hash, w, a), w.journal.value, applied)
  {
    hide Inv, OutcomeSafe, Holds;
    SameOutcome(hash, w, Next(hash, w, a), w.journal.value, applied);
  }

  lemma SameOutcome(hash: Fingerprint, w: World, v: World, j: Journal, applied: bool)
    requires v.disk == w.disk && v.runtime == w.runtime
    ensures Decided(hash, w, j, applied) <==> Decided(hash, v, j, applied)
  {
  }

  lemma AgainStatus(hash: Fingerprint, w: World, a: Action, applied: bool)
    requires Inv(hash, w) && w.journal.Some? && Again(hash, w, w.journal.value, applied) && Enabled(hash, w, a)
             && a.ReadStatus?
    ensures Again(hash, Next(hash, w, a), w.journal.value, applied) && Unmoved(hash, w, Next(hash, w, a))
  {
    hide PutsSound, JournalSound, DiskBetween, SteadySound, PutsPast, PhaseSound, Holds;
    SameOutcome(hash, w, Next(hash, w, a), w.journal.value, applied);
  }

  lemma AgainKept(hash: Fingerprint, w: World, w': World, applied: bool)
    requires Inv(hash, w) && w.journal.Some? && Again(hash, w, w.journal.value, applied) && StepTo(hash, w, w')
    ensures Unmoved(hash, w, w') && (w'.journal.Some? ==>
              w'.journal == w.journal && Again(hash, w', w.journal.value, applied))
  {
    hide Inv, Decided, Next;
    var a :| Enabled(hash, w, a) && Next(hash, w, a) == w';
    if w'.journal.Some? { StayingStep(hash, w, w'); }
    if a.DeliverLate? { AgainLatePut(hash, w, a, applied); }
    else if a.TryFence? || a.FenceReplyLost? { AgainFence(hash, w, a, applied); }
    else if a.RestartRuntime? { AgainRestart(hash, w, a, applied); }
    else if a.ReadStatus? { AgainStatus(hash, w, a, applied); }
    else if a.Rewrite? { AgainRewrite(hash, w, a, applied); }
    else { AgainQuiet(hash, w, a, applied); }
  }

  /** The journal that a power loss brings back is closed already. */
  lemma ReopeningStep(hash: Fingerprint, w: World, w': World) returns (applied: bool)
    requires Inv(hash, w) && StepTo(hash, w, w') && w.journal.None? && w'.journal.Some? && !w'.phase.Installing?
    ensures Again(hash, w', w'.journal.value, applied) && Unmoved(hash, w, w')
  {
    hide Inv, Decided, Next;
    var a :| Enabled(hash, w, a) && Next(hash, w, a) == w';
    ReopenedNow(hash, w, a);
    applied := Decided(hash, w, w.unsynced.value, true);
  }

  lemma ReopenedNow(hash: Fingerprint, w: World, a: Action)
    requires Inv(hash, w) && w.journal.None? && Enabled(hash, w, a) && Next(hash, w, a).journal.Some?
             && !Next(hash, w, a).phase.Installing?
    ensures a.PowerLoss? && w.unsynced.Some?
            && Next(hash, w, a) == w.(journal := w.unsynced, unsynced := None, phase := Idle)
    ensures Decided(hash, w, w.unsynced.value, true) || Decided(hash, w, w.unsynced.value, false)
    ensures forall applied :: Decided(hash, w, w.unsynced.value, applied) <==>
              Decided(hash, Next(hash, w, a), w.unsynced.value, applied)
  {
    hide Decided, PendingSound, Agreement, PutsHarmless, PutsPast;
    assert a.PowerLoss?;
    Aside(hash, w, Next(hash, w, a), w.unsynced.value);
  }

  lemma {:induction false} ReopenedStays(hash: Fingerprint, ws: seq<World>, i: nat, k: nat) returns (applied: bool)
    requires IsRun(hash, ws) && Inv(hash, ws[0]) && i < k < |ws|
    requires ws[i].journal.None? && ws[i + 1].journal.Some? && !ws[i + 1].phase.Installing?
    requires forall m | i < m < k :: ws[m].journal.Some?
    ensures Unmoved(hash, ws[i], ws[k]) && (ws[k].journal.Some? ==> Again(hash, ws[k], ws[k].journal.value, applied))
  {
    hide Inv, StepTo, Again;
    RunKeepsInv(hash, ws, k - 1);
    assert StepTo(hash, ws[k - 1], ws[k - 1 + 1]);
    if k == i + 1 {
      applied := ReopeningStep(hash, ws[i], ws[k]);
    } else {
      applied := ReopenedStays(hash, ws, i, k - 1);
      AgainKept(hash, ws[k - 1], ws[k], applied);
    }
  }

  lemma InitialIsInv(hash: Fingerprint, w: World)
    requires Initial(hash, w)
    ensures Inv(hash, w)
  {
  }

  /**
   Whatever happens while a journal exists, when it is gone again the disk is exactly the old disk with the runtime
   still on the old content, or exactly the old disk with every target replaced and the runtime on the new content.
   A journal that a power loss brought back leaves disk and content as they were.
   */
  lemma PublicationIsAllOrNothing(hash: Fingerprint, ws: seq<World>, i: nat, k: nat)
    requires IsRun(hash, ws) && Initial(hash, ws[0]) && i + 1 < k < |ws|
    requires ws[i].journal.None? && ws[k].journal.None? && forall m | i < m < k :: ws[m].journal.Some?
    ensures !ws[i + 1].phase.Installing? ==> Unmoved(hash, ws[i], ws[k])
    ensures ws[i + 1].phase.Installing? ==>
              && ws[i].phase.Preparing? && CONFIG_PATH in ws[i].phase.targets && CONFIG_PATH in ws[i].disk
              && (|| (ws[k].disk == ws[i].disk && hash(ws[k].runtime.content) == hash(ws[i].disk[CONFIG_PATH].data))
                  || (Replaced(ws[i].disk, ws[i].phase.targets, ws[k].disk)
                      && hash(ws[k].runtime.content) == hash(ws[i].phase.targets[CONFIG_PATH])))
  {
    hide Inv, OneSide, StepTo, Initial, Unmoved, Replaced;
    InitialIsInv(hash, ws[0]);
    JournalSpan(hash, ws, i, k);
    if !ws[i + 1].phase.Installing? {
      var applied := ReopenedStays(hash, ws, i, k);
    } else {
      RunKeepsInv(hash, ws, i);
      assert StepTo(hash, ws[i], ws[i + 1]);
      OpenedFor(hash, ws[i], ws[i + 1]);
      SideMeans(hash, ws[i], ws[i + 1].journal.value, ws[k]);
    }
  }

  /** The journal is opened for the prepared targets. */
  lemma OpenedFor(hash: Fingerprint, w: World, w': World)
    requires Inv(hash, w) && StepTo(hash, w, w') && w.journal.None? && w'.journal.Some? && w'.phase.Installing?
    ensures w.phase.Preparing? && CONFIG_PATH in w.phase.targets && CONFIG_PATH in w.disk
    ensures var j := w'.journal.value;
            && j.after == AfterRecords(w.disk, w.phase.targets)
            && j.prepared.targetHash == hash(w.phase.targets[CONFIG_PATH])
            && j.prepared.previousHash == hash(w.disk[CONFIG_PATH].data)
  {
    hide AfterRecords, CaptureAll, PutsPast, PutsHarmless, Reopenable;
    var a :| Enabled(hash, w, a) && Next(hash, w, a) == w';
    assert a.OpenJournal?;
  }

  lemma SideMeans(hash: Fingerprint, w: World, j: Journal, v: World)
    requires w.phase.Preparing? && CONFIG_PATH in w.phase.targets && CONFIG_PATH in w.disk
    requires j.after == AfterRecords(w.disk, w.phase.targets) && OneSide(hash, w.disk, j, v)
    requires j.prepared.targetHash == hash(w.phase.targets[CONFIG_PATH])
    requires j.prepared.previousHash == hash(w.disk[CONFIG_PATH].data)
    ensures || (v.disk == w.disk && hash(v.runtime.content) == hash(w.disk[CONFIG_PATH].data))
            || (Replaced(w.disk, w.phase.targets, v.disk)
                && hash(v.runtime.content) == hash(w.phase.targets[CONFIG_PATH]))
  {
    hide Replaced, Overlay, AfterRecords;
    AfterIsReplaced(w.disk, w.phase.targets);
  }
}
