/** Revision commits over seven files with an undo journal, and the digests that revision ids are bound to. */
module Revisions {
  import opened Basics

  type Id = string
  type Digest = string
  type Config = string
  type Registry = string

  datatype Bundle = Bundle(revisionId: Option<Id>, config: Config, registry: Registry)

  datatype StateFile = StateFile(
    current: Option<Id>, bundleHash: Option<Digest>, lastGoodId: Option<Id>, lastGoodHash: Option<Digest>,
    digests: map<Id, Digest>)

  /** The seven tracked files; None is a missing file. */
  datatype Files = Files(
    config: Option<Config>, registry: Option<Registry>, state: Option<StateFile>, current: Option<Config>,
    lastGood: Option<Config>, bundle: Option<Bundle>, lastGoodBundle: Option<Bundle>)

  /** How bundles are digested, and the name a local snapshot gets from its digest. */
  datatype Naming = Naming(digest: Bundle -> Digest, localId: Digest -> Id, isLocal: Id -> bool)

  ghost predicate Faithful(n: Naming) {
    && (forall a, b | n.digest(a) == n.digest(b) :: a == b)
    && (forall a, b | n.localId(a) == n.localId(b) :: a == b)
    && (forall d :: n.isLocal(n.localId(d)))
  }

  datatype Journal = Prepared(before: Files, revisionId: Option<Id>, hash: Digest) | Committed(revisionId: Option<Id>, hash: Digest)

  const BLANK := StateFile(None, None, None, None, map[])

  function StateOf(f: Files): StateFile { if f.state.Some? then f.state.value else BLANK }

  // ---------------------------------------------------------------- what a commit writes

  /** The snapshot of the files a commit replaces, under its own id or a local one. */
  function PreviousBundle(n: Naming, f: Files, s: StateFile): Bundle
    requires f.config.Some? && f.registry.Some?
  {
    var b := Bundle(s.current, f.config.value, f.registry.value);
    if b.revisionId.None? || s.bundleHash != Some(n.digest(b)) then b.(revisionId := Some(n.localId(n.digest(b)))) else b
  }

  function NextState(n: Naming, f: Files, target: Bundle): StateFile
    requires target.revisionId.Some?
  {
    var s := StateOf(f);
    var kept := if f.config.Some? && f.registry.Some? then
                  var p := PreviousBundle(n, f, s);
                  s.(lastGoodId := p.revisionId, lastGoodHash := Some(n.digest(p)))
                else s;
    kept.(current := target.revisionId, bundleHash := Some(n.digest(target)),
          digests := s.digests[target.revisionId.value := n.digest(target)])
  }

  /** All seven files after the commit. */
  function Goal(n: Naming, f: Files, target: Bundle): Files
    requires target.revisionId.Some?
  {
    var kept := f.config.Some? && f.registry.Some?;
    Files(Some(target.config), Some(target.registry), Some(NextState(n, f, target)), Some(target.config),
          if kept then Some(PreviousBundle(n, f, StateOf(f)).config) else f.lastGood, Some(target),
          if kept then Some(PreviousBundle(n, f, StateOf(f))) else f.lastGoodBundle)
  }

  /** Every file is as before or as the commit writes it. */
  ghost predicate Mixed(f: Files, before: Files, goal: Files) {
    && (f.config == before.config || f.config == goal.config)
    && (f.registry == before.registry || f.registry == goal.registry)
    && (f.state == before.state || f.state == goal.state) && (f.current == before.current || f.current == goal.current)
    && (f.lastGood == before.lastGood || f.lastGood == goal.lastGood)
    && (f.bundle == before.bundle || f.bundle == goal.bundle)
    && (f.lastGoodBundle == before.lastGoodBundle || f.lastGoodBundle == goal.lastGoodBundle)
  }

  /** The bundle a rollback would commit. */
  function LastGood(n: Naming, f: Files): Option<Bundle> {
    if f.lastGoodBundle.Some? && StateOf(f).lastGoodHash == Some(n.digest(f.lastGoodBundle.value)) then f.lastGoodBundle else None
  }

  /** What holds of settled files whatever ids were published. */
  ghost predicate StateOk(n: Naming, f: Files) {
    var s := StateOf(f);
    && (s.current.Some? ==> s.bundleHash.Some? && s.current.value in s.digests
                            && s.digests[s.current.value] == s.bundleHash.value)
    && (LastGood(n, f).Some? ==> LastGood(n, f).value.revisionId.Some?)
  }

  lemma GoalOk(n: Naming, f: Files, target: Bundle)
    requires StateOk(n, f) && target.revisionId.Some?
    ensures StateOk(n, Goal(n, f, target))
    ensures StateOf(Goal(n, f, target)).digests == StateOf(f).digests[target.revisionId.value := n.digest(target)]
  {
  }

  // ---------------------------------------------------------------- bindings

  ghost predicate Extends(a: map<Id, Digest>, b: map<Id, Digest>) {
    forall id | id in a :: id in b && b[id] == a[id]
  }

  /** The bundle's id is free, or bound to this bundle already. */
  predicate Fits(n: Naming, s: StateFile, b: Bundle) {
    b.revisionId.Some? && (b.revisionId.value in s.digests ==> s.digests[b.revisionId.value] == n.digest(b))
  }

  /** A commit keeps every binding exactly when its bundle fits. */
  lemma CommitKeepsBindings(n: Naming, f: Files, target: Bundle)
    requires target.revisionId.Some?
    ensures Extends(StateOf(f).digests, StateOf(Goal(n, f, target)).digests) <==> Fits(n, StateOf(f), target)
  {
    var id := target.revisionId.value;
    assert StateOf(Goal(n, f, target)).digests == StateOf(f).digests[id := n.digest(target)];
  }

  /** What a rollback would commit fits. */
  predicate RollbackFits(n: Naming, f: Files) {
    LastGood(n, f).Some? ==> Fits(n, StateOf(f), LastGood(n, f).value)
  }

  /** The snapshot that a commit leaves for the next rollback. */
  function KeptBundle(n: Naming, f: Files): Option<Bundle> {
    if f.config.Some? && f.registry.Some? then Some(PreviousBundle(n, f, StateOf(f))) else LastGood(n, f)
  }

  /**
   What a publisher has to check: after publishing `target`, a rollback fits exactly when the snapshot it leaves
   fits now and does not carry the published id, unless it is the published bundle itself.
   */
  lemma PublishingFits(n: Naming, f: Files, target: Bundle)
    requires Faithful(n) && StateOk(n, f) && target.revisionId.Some?
    ensures RollbackFits(n, Goal(n, f, target)) <==>
            (KeptBundle(n, f).Some? ==>
               if KeptBundle(n, f).value.revisionId == target.revisionId then KeptBundle(n, f).value == target
               else Fits(n, StateOf(f), KeptBundle(n, f).value))
  {
    assert LastGood(n, Goal(n, f, target)) == KeptBundle(n, f);
    if KeptBundle(n, f).Some? {
      var b := KeptBundle(n, f).value;
      assert n.digest(b) == n.digest(target) ==> b == target;
    }
  }

  /**
   A rollback can bind a name again: a first revision that is published under the local name of the files it
   replaces, with other content, has that name bound to the replaced files by the next rollback.
   */
  lemma PublishedLocalNameIsRebound(n: Naming, config: Config, registry: Registry, other: Config)
    requires Faithful(n) && other != config
    ensures var start := Files(Some(config), Some(registry), None, None, None, None, None);
            var name := n.localId(n.digest(Bundle(None, config, registry)));
            var published := Bundle(Some(name), other, registry);
            var after := Goal(n, start, published);
            && StateOk(n, start) && name !in StateOf(start).digests && Fits(n, StateOf(start), published)
            && LastGood(n, after) == Some(Bundle(Some(name), config, registry))
            && !RollbackFits(n, after)
            && StateOf(after).digests[name] == n.digest(published)
            && StateOf(Goal(n, after, LastGood(n, after).value)).digests[name] == n.digest(Bundle(Some(name), config, registry))
            && n.digest(published) != n.digest(Bundle(Some(name), config, registry))
  {
  }

  // ---------------------------------------------------------------- publishers that leave local names alone

  /** A local snapshot's id comes from the digest of the same configuration and registry under the id it replaced. */
  ghost predicate LocalShape(n: Naming, l: Id, b: Bundle) {
    exists previous: Option<Id> :: l == n.localId(n.digest(Bundle(previous, b.config, b.registry)))
  }

  lemma LocalUnique(n: Naming, l: Id, a: Bundle, b: Bundle)
    requires Faithful(n) && LocalShape(n, l, a) && LocalShape(n, l, b) && a.revisionId == b.revisionId
    ensures a == b
  {
    var p: Option<Id> :| l == n.localId(n.digest(Bundle(p, a.config, a.registry)));
    var q: Option<Id> :| l == n.localId(n.digest(Bundle(q, b.config, b.registry)));
  }

  /** A recorded binding of a local id is to a bundle of its shape. */
  ghost predicate BindingOk(n: Naming, id: Id, d: Digest) {
    n.isLocal(id) ==> exists b: Bundle :: b.revisionId == Some(id) && n.digest(b) == d && LocalShape(n, id, b)
  }

  /** An id already bound to this digest, or a local snapshot of its own shape. */
  ghost predicate Rollbackable(n: Naming, s: StateFile, b: Bundle) {
    && b.revisionId.Some?
    && var id := b.revisionId.value;
    if n.isLocal(id) then LocalShape(n, id, b) else id in s.digests && s.digests[id] == n.digest(b)
  }

  /** What holds in addition while no published id is local. */
  ghost predicate Sound(n: Naming, f: Files) {
    var s := StateOf(f);
    && (forall id | id in s.digests :: BindingOk(n, id, s.digests[id]))
    && (LastGood(n, f).Some? ==> Rollbackable(n, s, LastGood(n, f).value))
  }

  lemma SoundFits(n: Naming, f: Files)
    requires Faithful(n) && Sound(n, f)
    ensures RollbackFits(n, f)
    ensures LastGood(n, f).Some? ==> BindingOk(n, LastGood(n, f).value.revisionId.value, n.digest(LastGood(n, f).value))
  {
    if LastGood(n, f).Some? {
      var s, b := StateOf(f), LastGood(n, f).value;
      var id := b.revisionId.value;
      if n.isLocal(id) && id in s.digests {
        assert BindingOk(n, id, s.digests[id]);
        var a: Bundle :| a.revisionId == Some(id) && n.digest(a) == s.digests[id] && LocalShape(n, id, a);
        LocalUnique(n, id, a, b);
      }
    }
  }

  lemma PreviousShape(n: Naming, f: Files, s: StateFile)
    requires Faithful(n) && f.config.Some? && f.registry.Some?
    requires s.current.Some? ==> s.bundleHash.Some? && s.current.value in s.digests
                                 && s.digests[s.current.value] == s.bundleHash.value
    requires forall id | id in s.digests :: BindingOk(n, id, s.digests[id])
    ensures Rollbackable(n, s, PreviousBundle(n, f, s))
  {
    var b := Bundle(s.current, f.config.value, f.registry.value);
    var p := PreviousBundle(n, f, s);
    if p == b {
      var id := s.current.value;
      if n.isLocal(id) {
        assert BindingOk(n, id, s.digests[id]);
        var a: Bundle :| a.revisionId == Some(id) && n.digest(a) == s.digests[id] && LocalShape(n, id, a);
        assert a == b;
      }
    } else {
      assert p.revisionId.value == n.localId(n.digest(Bundle(s.current, p.config, p.registry)));
    }
  }

  lemma GoalSound(n: Naming, f: Files, target: Bundle)
    requires Faithful(n) && StateOk(n, f) && Sound(n, f) && Fits(n, StateOf(f), target)
    requires BindingOk(n, target.revisionId.value, n.digest(target))
    ensures Sound(n, Goal(n, f, target))
  {
    var s, g := StateOf(f), Goal(n, f, target);
    if f.config.Some? && f.registry.Some? { PreviousShape(n, f, s); }
    if LastGood(n, g).Some? {
      assert Rollbackable(n, s, LastGood(n, g).value);
    }
  }

  // ---------------------------------------------------------------- the directory

  datatype Outcome = Done | Replayed | Refused | Undone | RecoveryRequired | Crashed

  /** The durable steps of a commit after its journal. */
  datatype Step =
    | WriteConfig | WriteRegistry | Reload | WriteLastGoodBundle | WriteLastGood | WriteBundle | WriteCurrent | WriteState | WriteMarker

  /** The step that raises, and whether it had taken effect by then. */
  datatype Fault = Fault(step: Step, landed: bool)

  datatype Progress = On | Raised | Died

  class Directory {
    const naming: Naming
    var files: Files
    var journal: Option<Journal>
    ghost var target: Bundle          // what the open commit publishes
    ghost var published: set<Id>      // every id a publisher asked for

    /** The files that recovery settles on; a journal's undo record counts until the commit marker replaces it. */
    ghost function Resting(): Files
      reads this
    {
      if journal.Some? && journal.value.Prepared? then journal.value.before else files
    }

    ghost function Bindings(): map<Id, Digest>
      reads this
    {
      StateOf(Resting()).digests
    }

    ghost predicate OutsidersOnly()
      reads this
    {
      forall id | id in published :: !naming.isLocal(id)
    }

    ghost predicate Valid()
      reads this
    {
      && Faithful(naming) && StateOk(naming, Resting()) && (OutsidersOnly() ==> Sound(naming, Resting()))
      && (journal.Some? ==> JournalOk(journal.value))
    }

    ghost predicate JournalOk(j: Journal)
      reads this
    {
      && target.revisionId.Some? && j.revisionId == target.revisionId && j.hash == naming.digest(target)
      && if j.Prepared? then Mixed(files, j.before, Goal(naming, j.before, target))
         else files.config == Some(target.config) && files.registry == Some(target.registry) && files.bundle == Some(target)
              && StateOf(files).current == target.revisionId && StateOf(files).bundleHash == Some(j.hash)
    }

    constructor (naming: Naming, config: Option<Config>, registry: Option<Registry>)
      requires Faithful(naming)
      ensures Valid() && journal.None? && Bindings() == map[] && published == {}
    {
      this.naming := naming;
      files := Files(config, registry, None, None, None, None, None);
      journal, target, published := None, Bundle(None, "", ""), {};
    }

    /** An ordinary account mutation; it never runs while a journal is there. */
    method Mutate(config: Config, registry: Registry) returns (ok: bool)
      requires Valid()
      modifies `files
      ensures Valid() && ok == journal.None?
      ensures files == if ok then old(files).(config := Some(config), registry := Some(registry)) else old(files)
    {
      hide StateOk, Sound, Faithful, Mixed;
      if journal.Some? { return false; }
      MutatedOk(naming, files, config, registry);
      files := files.(config := Some(config), registry := Some(registry));
      ok := true;
    }

    /** Whether the process stops here; in calm weather it does not. */
    static method Fails(calm: bool) returns (fails: bool)
      ensures fails ==> !calm
    {
      fails := *;
      fails := fails && !calm;
    }

    /**
     `_recover_locked`. However often it fails, the files it settles on stay the same; when it completes, all seven
     are there.
     */
    method Recover(reloads: bool, calm: bool) returns (ok: bool)
      requires Valid()
      modifies `files, `journal
      ensures Valid() && Resting() == old(Resting())
      ensures ok ==> journal.None? && files == old(Resting())
      ensures !ok ==> journal == old(journal) && journal.Some? && journal.value.Prepared?
      ensures old(journal).None? ==> ok
      ensures calm && old(journal).Some? && old(journal).value.Prepared? ==>
                (ok <==> reloads && old(journal).value.before.config.Some?)
    {
      hide StateOk, Faithful, Sound, Goal;
      if journal.None? { return true; }
      if journal.value.Committed? {
        var id, hash := journal.value.revisionId, journal.value.hash;
        var state := StateOf(files);
        if files.config.None? || files.registry.None?
           || naming.digest(Bundle(id, files.config.value, files.registry.value)) != hash
           || state.bundleHash != Some(hash) || state.current != id || files.bundle.None?
           || naming.digest(files.bundle.value) != hash {
          return false;
        }
        journal := None;
        return true;
      }
      var before := journal.value.before;
      files := files.(config := before.config);
      var fails := Fails(calm);
      if fails { return false; }
      files := files.(registry := before.registry);
      fails := Fails(calm);
      if fails { return false; }
      files := files.(state := before.state);
      fails := Fails(calm);
      if fails { return false; }
      files := files.(current := before.current);
      fails := Fails(calm);
      if fails { return false; }
      files := files.(lastGood := before.lastGood);
      fails := Fails(calm);
      if fails { return false; }
      files := files.(bundle := before.bundle);
      fails := Fails(calm);
      if fails { return false; }
      files := files.(lastGoodBundle := before.lastGoodBundle);
      if files != before || before.config.None? || !reloads { return false; }
      journal := None;
      ok := true;
    }

    /** One file of an open commit; the step may raise, before or after it took effect, or the process may die. */
    method Put(step: Step, next: Files, fault: Option<Fault>, calm: bool) returns (p: Progress)
      requires Valid() && journal.Some? && journal.value.Prepared? && target.revisionId.Some?
      requires Mixed(next, journal.value.before, Goal(naming, journal.value.before, target))
      modifies `files
      ensures Valid()
      ensures p.On? ==> files == next && (fault.Some? ==> fault.value.step != step)
      ensures p.Raised? ==> fault.Some? && fault.value.step == step
      ensures calm ==> !p.Died?
    {
      hide StateOk, Faithful, Sound, Goal, Mixed;
      if fault == Some(Fault(step, false)) { return Raised; }
      files := next;
      if fault == Some(Fault(step, true)) { return Raised; }
      var dies := Fails(calm);
      p := if dies then Died else On;
    }

    /** The seven files of an open commit, in order. */
    method PutAll(wanted: Bundle, fault: Option<Fault>, calm: bool) returns (p: Progress)
      requires Valid() && journal.Some? && journal.value.Prepared? && wanted == target && files == journal.value.before
      modifies `files
      ensures Valid()
      ensures p.On? ==> files == Goal(naming, journal.value.before, target)
      ensures p.On? && fault.Some? ==> fault.value.step in {WriteLastGoodBundle, WriteLastGood, WriteMarker}
      ensures p.Raised? ==> fault.Some? && !fault.value.step.WriteMarker?
      ensures calm ==> !p.Died?
    {
      hide StateOk, Faithful, Sound, BindingOk, NextState, PreviousBundle, Goal;
      var f := journal.value.before;
      GoalFields(naming, f, wanted);
      var dies := Fails(calm);
      p := if dies then Died else On;
      if p.On? { p := Put(WriteConfig, files.(config := Some(wanted.config)), fault, calm); }
      if p.On? { p := Put(WriteRegistry, files.(registry := Some(wanted.registry)), fault, calm); }
      if p.On? { p := Put(Reload, files, fault, calm); }
      if p.On? && f.config.Some? && f.registry.Some? {
        var previous := PreviousBundle(naming, f, StateOf(f));
        p := Put(WriteLastGoodBundle, files.(lastGoodBundle := Some(previous)), fault, calm);
        if p.On? { p := Put(WriteLastGood, files.(lastGood := Some(previous.config)), fault, calm); }
      }
      if p.On? { p := Put(WriteBundle, files.(bundle := Some(wanted)), fault, calm); }
      if p.On? { p := Put(WriteCurrent, files.(current := Some(wanted.config)), fault, calm); }
      if p.On? { p := Put(WriteState, files.(state := Some(NextState(naming, f, wanted))), fault, calm); }
    }

    /** The end of a commit that did not get to its marker: the exception handler, or nothing at all. */
    method Stop(p: Progress, reloadsBack: bool, calm: bool) returns (r: Outcome)
      requires Valid() && journal.Some? && journal.value.Prepared?
      modifies `files, `journal
      ensures Valid() && Resting() == old(Resting())
      ensures r == Crashed || r == Undone || r == RecoveryRequired
      ensures r.Crashed? <==> !p.Raised?
      ensures r.Undone? <==> journal.None?
      ensures r.Undone? ==> files == old(Resting())
      ensures calm && p.Raised? ==> (r.Undone? <==> reloadsBack && old(journal).value.before.config.Some?)
    {
      hide StateOk, Faithful, Sound, Goal, Mixed;
      if !p.Raised? { return Crashed; }
      var ok := Recover(reloadsBack, calm);
      r := if ok then Undone else RecoveryRequired;
    }

    /**
     `_commit`: undo journal, seven files in order, commit marker, journal removal. Whatever happens, recovery settles
     on the files before the call or on all seven files of the commit.
     */
    method Commit(target: Bundle, fault: Option<Fault>, reloadsBack: bool, calm: bool) returns (r: Outcome)
      requires Valid() && journal.None? && target.revisionId.Some?
      requires OutsidersOnly() ==> Fits(naming, StateOf(files), target)
                                   && BindingOk(naming, target.revisionId.value, naming.digest(target))
      modifies `files, `journal, `target
      ensures Valid() && !r.Refused? && !r.Replayed?
      ensures Resting() == old(files) || Resting() == Goal(naming, old(files), target)
      ensures journal.Some? && journal.value.Prepared? ==> journal.value.before == old(files) && this.target == target
      ensures r.Done? ==> journal.None? && files == Goal(naming, old(files), target)
      ensures r.Undone? ==> journal.None?
                            && files == if fault == Some(Fault(WriteMarker, true)) then Goal(naming, old(files), target) else old(files)
      ensures r.RecoveryRequired? ==> journal.Some? && Resting() == old(files)
      ensures fault.None? ==> r.Done? || r.Crashed?
      ensures calm ==> !r.Crashed?
      ensures calm && r.RecoveryRequired? ==> !reloadsBack || old(files).config.None?
      ensures r.Done? && fault.Some? ==> fault.value.step.WriteLastGoodBundle? || fault.value.step.WriteLastGood?
    {
      hide StateOk, Faithful, Sound, BindingOk, NextState, PreviousBundle, Goal;
      var f := files;
      CommitOk(naming, f, target, OutsidersOnly());
      GoalFields(naming, f, target);
      var dies := Fails(calm);
      if dies { return Crashed; }
      this.target := target;
      journal := Some(Prepared(f, target.revisionId, naming.digest(target)));
      var p := PutAll(target, fault, calm);
      if p.On? && fault == Some(Fault(WriteMarker, false)) { p := Raised; }
      if !p.On? {
        r := Stop(p, reloadsBack, calm);
        return;
      }
      assert files == Goal(naming, f, target);
      journal := Some(Committed(target.revisionId, naming.digest(target)));
      if fault == Some(Fault(WriteMarker, true)) {
        // the marker is there, but the exception handler only knows that something was raised
        var ok := Recover(reloadsBack, calm);
        return Undone;
      }
      dies := Fails(calm);
      if dies { return Crashed; }
      journal := None;
      r := Done;
    }

    /** A commit, and recovery attempts until one completes: all seven files are as before, or all are the commit's. */
    method CommitAndRecover(target: Bundle, fault: Option<Fault>, reloadsBack: seq<bool>, calm: bool) returns (ok: bool)
      requires Valid() && journal.None? && target.revisionId.Some?
      requires OutsidersOnly() ==> Fits(naming, StateOf(files), target)
                                   && BindingOk(naming, target.revisionId.value, naming.digest(target))
      modifies `files, `journal, `target
      ensures Valid()
      ensures ok ==> journal.None? && (files == old(files) || files == Goal(naming, old(files), target))
      ensures !ok ==> journal.Some? && Resting() == old(files)
      ensures calm && old(files).config.Some? ==> ok
    {
      hide StateOk, Faithful, Sound, BindingOk, Mixed, Goal;
      var r := Commit(target, fault, false, false);
      ghost var end := Resting();
      for k := 0 to |reloadsBack|
        invariant Valid() && Resting() == end
        invariant journal.Some? && journal.value.Prepared? ==> end == old(files)
      {
        var back := Recover(reloadsBack[k], false);
      }
      ok := Recover(true, calm);
    }

    /** `apply_desired_revision` after its payload checks, for any id. */
    method Apply(id: Id, config: Config, registry: Registry, mayShrink: bool, shrinks: bool, fault: Option<Fault>,
                 reloadsBack: bool, calm: bool)
      returns (r: Outcome)
      requires Valid()
      modifies this
      ensures Valid() && Extends(old(Bindings()), Bindings()) && published == old(published) + {id}
      ensures Resting() == old(Resting())
              || Resting() == Goal(naming, old(Resting()), Bundle(Some(id), config, registry))
      ensures r.Done? ==> journal.None? && files == Goal(naming, old(Resting()), Bundle(Some(id), config, registry))
      ensures r.Replayed? ==> journal.None? && files == old(Resting()) && files.config == Some(config)
                              && files.registry == Some(registry)
                              && id in Bindings() && Bindings()[id] == naming.digest(Bundle(Some(id), config, registry))
      ensures r.Refused? ==> journal.None? && files == old(Resting())
      ensures r.RecoveryRequired? ==> journal.Some? && Resting() == old(Resting())
      ensures r.Undone? ==> journal.None? && files == if fault == Some(Fault(WriteMarker, true))
                                                      then Goal(naming, old(Resting()), Bundle(Some(id), config, registry))
                                                      else old(Resting())
      ensures id in old(Bindings()) && old(Bindings())[id] != naming.digest(Bundle(Some(id), config, registry)) ==>
                (r.Refused? || r.RecoveryRequired?) && Resting() == old(Resting())
      ensures id !in old(Bindings()) ==>
                !r.Replayed? && if shrinks && !mayShrink then r.Refused? || r.RecoveryRequired? else !r.Refused?
      ensures id in old(Bindings()) && StateOf(old(Resting())).current != Some(id) ==> r.Refused? || r.RecoveryRequired?
      ensures StateOf(old(Resting())).current == Some(id) ==>
                if old(Resting()).config == Some(config) && old(Resting()).registry == Some(registry)
                   && old(Bindings())[id] == naming.digest(Bundle(Some(id), config, registry))
                then r.Replayed? || r.RecoveryRequired? else r.Refused? || r.RecoveryRequired?
      ensures calm && fault.None? && old(journal).None? ==> r.Done? || r.Replayed? || r.Refused?
    {
      hide StateOk, Faithful, BindingOk, Sound, NextState, PreviousBundle, Extends, Mixed, Goal;
      ExtendsItself(Bindings());
      var wanted := Bundle(Some(id), config, registry);
      published := published + {id};
      var ok := Recover(reloadsBack, calm);
      if !ok { return RecoveryRequired; }
      var state := StateOf(files);
      CurrentBound(naming, files);
      if id in state.digests && state.digests[id] != naming.digest(wanted) { return Refused; }
      if id in state.digests && state.current != Some(id) { return Refused; }
      if state.current == Some(id) {
        if state.bundleHash != Some(naming.digest(wanted)) { return Refused; }
        if files.config.None? || files.registry.None?
           || naming.digest(Bundle(Some(id), files.config.value, files.registry.value)) != naming.digest(wanted) {
          return Refused;
        }
        SameBundle(naming, Bundle(Some(id), files.config.value, files.registry.value), wanted);
        return Replayed;
      }
      if shrinks && !mayShrink { return Refused; }
      if OutsidersOnly() { NotLocal(naming, id, naming.digest(wanted)); }
      CommitKeepsBindings(naming, files, wanted);
      r := Commit(wanted, fault, reloadsBack, calm);
    }

    /**
     `rollback_to_last_known_good`, which does not look at the bindings: it keeps them exactly when the bundle it
     commits fits, and always when no publisher used a local name.
     */
    method Rollback(fault: Option<Fault>, reloadsBack: bool, calm: bool) returns (r: Outcome)
      requires Valid()
      modifies `files, `journal, `target
      ensures Valid() && !r.Replayed?
      ensures var f := old(Resting());
              Resting() == f || (LastGood(naming, f).Some? && LastGood(naming, f).value.revisionId.Some?
                                 && Resting() == Goal(naming, f, LastGood(naming, f).value))
      ensures r.Done? ==> var f := old(Resting());
                LastGood(naming, f).Some? && LastGood(naming, f).value.revisionId.Some? && journal.None?
                && files == Goal(naming, f, LastGood(naming, f).value)
      ensures r.Refused? ==> journal.None? && files == old(Resting()) && LastGood(naming, files).None?
      ensures r.RecoveryRequired? ==> journal.Some? && Resting() == old(Resting())
      ensures r.Undone? ==> var f := old(Resting());
                journal.None? && LastGood(naming, f).Some? && LastGood(naming, f).value.revisionId.Some?
                && files == if fault == Some(Fault(WriteMarker, true)) then Goal(naming, f, LastGood(naming, f).value) else f
      ensures calm && fault.None? && old(journal).None? ==>
                if LastGood(naming, old(files)).Some? then r.Done? else r.Refused?
      ensures r.Done? ==> (Extends(old(Bindings()), Bindings()) <==> RollbackFits(naming, old(Resting())))
      ensures RollbackFits(naming, old(Resting())) ==> Extends(old(Bindings()), Bindings())
      ensures OutsidersOnly() ==> RollbackFits(naming, old(Resting()))
    {
      hide StateOk, Faithful, BindingOk, Sound, NextState, PreviousBundle, Extends, Mixed, Goal, Fits;
      ExtendsItself(Bindings());
      if OutsidersOnly() { SoundFits(naming, Resting()); }
      var ok := Recover(reloadsBack, calm);
      if !ok { return RecoveryRequired; }
      if files.lastGoodBundle.None? || StateOf(files).lastGoodHash != Some(naming.digest(files.lastGoodBundle.value)) { return Refused; }
      LastGoodNamed(naming, files);
      CommitKeepsBindings(naming, files, files.lastGoodBundle.value);
      r := Commit(files.lastGoodBundle.value, fault, reloadsBack, calm);
    }
  }

  lemma MutatedOk(n: Naming, f: Files, config: Config, registry: Registry)
    requires StateOk(n, f)
    ensures StateOk(n, f.(config := Some(config), registry := Some(registry)))
    ensures Sound(n, f) ==> Sound(n, f.(config := Some(config), registry := Some(registry)))
  {
  }

  lemma ExtendsItself(a: map<Id, Digest>)
    ensures Extends(a, a)
  {
  }

  lemma CommitOk(n: Naming, f: Files, target: Bundle, sound: bool)
    requires Faithful(n) && StateOk(n, f) && target.revisionId.Some?
    requires sound ==> Sound(n, f) && Fits(n, StateOf(f), target)
                       && BindingOk(n, target.revisionId.value, n.digest(target))
    ensures StateOk(n, Goal(n, f, target)) && (sound ==> Sound(n, Goal(n, f, target)))
  {
    hide Goal;
    GoalOk(n, f, target);
    if sound { GoalSound(n, f, target); }
  }

  lemma GoalFields(n: Naming, f: Files, target: Bundle)
    requires target.revisionId.Some?
    ensures var g := Goal(n, f, target);
            var kept := f.config.Some? && f.registry.Some?;
            && g == Files(Some(target.config), Some(target.registry), Some(NextState(n, f, target)), Some(target.config),
                          if kept then Some(PreviousBundle(n, f, StateOf(f)).config) else f.lastGood, Some(target),
                          if kept then Some(PreviousBundle(n, f, StateOf(f))) else f.lastGoodBundle)
            && StateOf(g).current == target.revisionId && StateOf(g).bundleHash == Some(n.digest(target))
  {
  }

  lemma CurrentBound(n: Naming, f: Files)
    requires StateOk(n, f)
    ensures var s := StateOf(f); s.current.Some? ==>
              s.bundleHash.Some? && s.current.value in s.digests && s.digests[s.current.value] == s.bundleHash.value
  {
  }

  lemma SameBundle(n: Naming, a: Bundle, b: Bundle)
    requires Faithful(n) && n.digest(a) == n.digest(b)
    ensures a == b
  {
  }

  lemma NotLocal(n: Naming, id: Id, d: Digest)
    requires !n.isLocal(id)
    ensures BindingOk(n, id, d)
  {
  }

  lemma LastGoodNamed(n: Naming, f: Files)
    requires StateOk(n, f) && LastGood(n, f).Some?
    ensures LastGood(n, f).value.revisionId.Some?
  {
  }
}
