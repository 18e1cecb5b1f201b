/** Publication, collection, reload and recovery over the VLESS journal, with a crash allowed at every write. */
module VlessPublisher {
  import opened Basics
  import opened ByteCounts
  import opened VlessJournal

  /** Sessions open, close and carry bytes; nothing else moves, and an idle process stays idle. */
  ghost predicate Drift(w: World, v: World) {
    && v == w.(native := v.native, busy := v.busy, carried := v.carried)
    && Reaches(w.carried, v.carried)
    && (forall id | id in w.native :: id in v.native && Reaches(w.native[id], v.native[id])
          && Reaches(Minus(v.native[id], w.native[id]), Minus(v.carried, w.carried)))
    && (forall id | Idle(w, id) :: Idle(v, id) && (id in w.native ==> v.native[id] == w.native[id]))
  }

  ghost predicate Idle(w: World, id: Id) {
    id !in w.busy && !Reached(w, id)
  }

  /** Whatever is idle stays so. */
  ghost predicate StaysIdle(w: World, v: World) {
    forall id | Idle(w, id) :: Idle(v, id)
  }

  /** Only the active generation has sessions or may get one. */
  ghost predicate Quiet(w: World) {
    w.target.Some? && BASELINE !in w.busy && forall g | Superseded(w.journal, g) :: g.id !in w.busy
  }

  lemma DriftItself(w: World)
    ensures Drift(w, w)
  {
  }

  lemma DriftTransitive(u: World, v: World, w: World)
    requires Drift(u, v) && Drift(v, w)
    ensures Drift(u, w)
  {
    hide Idle;
  }

  /** What a call drops for good is at most what was carried during it. */
  predicate LostAtMost(dropped: Bytes, dropped': Bytes, carried: Bytes, carried': Bytes) {
    Reaches(dropped, dropped') && Reaches(Minus(dropped', dropped), Minus(carried', carried))
  }

  /** The active generation runs the active view. */
  ghost predicate Current(j: Journal) {
    forall g | g in j.generations && g.id == j.activeId :: g.hash == j.activeHash
  }

  datatype Recovery = Recovered | Blocked | UnexpectedTarget

  class Publisher {
    const slots: seq<Slot>
    var journal: Journal
    var target: Option<Port>
    var native: map<Id, Bytes>
    var running: set<Id>
    var busy: set<Id>
    var listener: nat
    ghost var carried: Bytes
    ghost var dropped: Bytes
    ghost var doubled: Bytes

    ghost function W(): World
      reads this
    {
      World(journal, target, native, running, busy, listener, carried, dropped, doubled)
    }

    ghost predicate Valid()
      reads this
    {
      SlotsOk(slots) && Inv(slots, W()) && Current(journal)
    }

    /** `bootstrap`: the baseline alone. */
    constructor (slots: seq<Slot>, active: Digest, baseline: Digest)
      requires SlotsOk(slots)
      ensures Valid() && journal.phase.Steady? && target.None? && journal.activeId == BASELINE && dropped == ZERO
    {
      hide Inv, SlotsOk;
      InitialInv(slots, active, baseline);
      this.slots := slots;
      journal := Journal(Steady, [], BASELINE, active, baseline, ZERO, ZERO);
      target, native, running, busy, listener := None, map[BASELINE := ZERO], {}, {}, 0;
      carried, dropped, doubled := ZERO, ZERO, ZERO;
    }

    /** One thing the machine does by itself. */
    method OneEvent()
      requires Valid()
      modifies `native, `busy, `carried
      ensures Valid() && Drift(old(W()), W())
    {
      hide Inv, Drift;
      ghost var w := W();
      DriftItself(w);
      var id: Id := *;
      if id !in native { return; }
      if id !in busy {
        if target.None? && id == BASELINE {
          OpenedInv(slots, w, id);
          OpenedDrift(w, id);
          busy := busy + {id};
        } else if id in running && exists g | g in Held(journal) :: g.id == id && target == Some(g.slot.port) {
          NotBaseline(slots, w, id);
          OpenedInv(slots, w, id);
          OpenedDrift(w, id);
          busy := busy + {id};
        }
      } else if * {
        ClosedInv(slots, w, id);
        ClosedDrift(w, id);
        busy := busy - {id};
      } else {
        var up: nat :| true;
        var down: nat :| true;
        CarryingInv(slots, w, id, Bytes(up, down));
        CarryingDrift(w, id, Bytes(up, down));
        native := native[id := Plus(native[id], Bytes(up, down))];
        carried := Plus(carried, Bytes(up, down));
      }
    }

    /** Whether the publisher stops here; in calm weather it does not. */
    static method Dies(calm: bool) returns (dies: bool)
      ensures dies ==> !calm
    {
      dies := *;
      dies := dies && !calm;
    }

    method Environment()
      requires Valid()
      modifies `native, `busy, `carried
      ensures Valid() && Drift(old(W()), W())
    {
      hide Inv, Drift;
      DriftItself(W());
      var n: nat :| true;
      for i := 0 to n
        invariant Valid() && Drift(old(W()), W())
      {
        ghost var w := W();
        OneEvent();
        DriftTransitive(old(W()), w, W());
      }
    }
  
    /** One superseded generation of `collect_empty`. Nothing reaches it any more, so nothing is dropped. */
    method CollectOne(gen: Generation, calm: bool) returns (ok: bool)
      requires Valid() && Superseded(journal, gen)
      modifies this
      ensures Valid() && dropped == old(dropped) && target == old(target) && Reaches(old(carried), carried)
      ensures ok ==> journal.phase.Steady? && journal.activeId == old(journal).activeId
                     && journal.activeHash == old(journal).activeHash
      ensures ok ==> journal.generations == old(journal).generations
                     || journal.generations == Remove(old(journal).generations, gen.id)
      ensures gen.id in old(busy) ==> ok && W() == old(W())
      ensures calm && gen.id !in old(busy) ==>
                ok && journal.generations == Remove(old(journal).generations, gen.id) && gen.id !in running
      ensures running <= old(running) && StaysIdle(old(W()), W()) && journal.baselineHash == old(journal).baselineHash
    {
      hide Inv, Drift, Sum, Idle, Remove, StaysIdle;
      ghost var start := W();
      IdleItself(start);
      KnownProcess(slots, start, gen);
      if gen.id in busy { return true; }
      SupersededIdle(slots, start, gen);
      Environment();
      ghost var w := W();
      StillIdle(start, w, gen.id);
      DriftIdle(start, start, w);
      if gen.id in busy { return true; }
      var snapshot := native[gen.id];
      Environment();
      ghost var v := W();
      StillIdle(w, v, gen.id);
      DriftIdle(start, w, v);
      KnownProcess(slots, v, gen);
      var dies := Dies(calm);
      if dies { return false; }
      RetireIntentInv(slots, v, gen, snapshot);
      var delta := Minus(snapshot, gen.nativeStart);
      journal := journal.(phase := Retiring(gen, delta), generations := Remove(journal.generations, gen.id),
                          retiredTotals := Plus(journal.retiredTotals, delta));
      ghost var u := W();
      IntentIdle(slots, v, gen, snapshot);
      LessIdle(start, v, u);
      ok := DriveRetirement(calm);
      IdleTransitive(start, u, W());
    }

    /** `systemctl stop` of the retiring unit. */
    method Stop()
      requires Valid() && journal.phase.Retiring? && journal.phase.endpoint.id in native
      modifies `running, `busy, `dropped
      ensures Valid() && W() == Stopped(old(W()))
      ensures journal.phase.endpoint.id !in running && running <= old(running)
    {
      hide Inv;
      StoppedInv(slots, W());
      var e := journal.phase.endpoint;
      ghost var delta := journal.phase.delta;
      dropped := if e.id in running then Plus(dropped, Minus(Minus(native[e.id], e.nativeStart), delta)) else dropped;
      running, busy := running - {e.id}, busy - {e.id};
    }
  
    /** The stop of a journalled retirement and the steady journal after it. */
    method DriveRetirement(calm: bool) returns (ok: bool)
      requires Valid() && journal.phase.Retiring? && journal.phase.endpoint.id in native
      requires var e := journal.phase.endpoint; Reaches(Plus(e.nativeStart, journal.phase.delta), native[e.id])
      modifies this
      ensures Valid() && target == old(target) && running <= old(running) && (calm ==> ok)
      ensures journal == if ok then old(journal).(phase := Steady) else old(journal)
      ensures ok ==> old(journal).phase.endpoint.id !in running
      ensures Reaches(old(carried), carried) && Reaches(old(dropped), dropped)
      ensures var e := old(journal).phase.endpoint;
              var gap := Minus(Minus(old(native)[e.id], e.nativeStart), old(journal).phase.delta);
              && Reaches(Minus(dropped, old(dropped)), Plus(gap, Minus(carried, old(carried))))
              && (Idle(old(W()), e.id) && gap == ZERO ==> dropped == old(dropped))
      ensures StaysIdle(old(W()), W())
    {
      hide Inv, Drift, SlotsOk, Current, Idle, StaysIdle;
      IdleItself(W());
      ghost var u, e := W(), journal.phase.endpoint;
      ghost var idle := Idle(u, e.id);
      Environment();
      SinceSnapshot(u, W(), e.id);
      DriftIdle(u, u, W());
      if idle { StillIdle(u, W(), e.id); }
      var dies := Dies(calm);
      if dies { return false; }
      ghost var t := W();
      Stop();
      LessIdle(u, t, W());
      dies := Dies(calm);
      if dies { return false; }
      FinishedInv(slots, W());
      SameCurrent(journal, journal.(phase := Steady));
      ghost var q := W();
      journal := journal.(phase := Steady);
      LessIdle(u, q, W());
      ok := true;
    }

    /** `collect_empty` over the generations listed when it starts. */
    method CollectEmpty(calm: bool) returns (ok: bool)
      requires Valid() && journal.phase.Steady?
      modifies this
      ensures Valid() && dropped == old(dropped) && target == old(target) && Reaches(old(carried), carried)
      ensures ok ==> journal.phase.Steady? && journal.activeId == old(journal).activeId
                     && journal.activeHash == old(journal).activeHash
      ensures ok ==> forall g | g in journal.generations :: g in old(journal).generations
      ensures StaysIdle(old(W()), W()) && journal.baselineHash == old(journal).baselineHash
      ensures calm ==> ok && forall g | g in journal.generations :: g.id == journal.activeId || g.id in old(busy)
    {
      hide Inv, Remove, SlotsOk, StaysIdle;
      IdleItself(W());
      var todo := journal.generations;
      DistinctNow(slots, W());
      for k := 0 to |todo|
        invariant Valid() && dropped == old(dropped) && target == old(target) && journal.phase.Steady?
                  && Reaches(old(carried), carried)
        invariant journal.activeId == old(journal).activeId && journal.activeHash == old(journal).activeHash
        invariant forall i | k <= i < |todo| :: todo[i] in journal.generations
        invariant forall g | g in journal.generations :: g in old(journal).generations
        invariant StaysIdle(old(W()), W()) && journal.baselineHash == old(journal).baselineHash
        invariant calm ==> forall i | 0 <= i < k && todo[i] in journal.generations ::
                    todo[i].id == journal.activeId || todo[i].id in old(busy)
      {
        var gen := todo[k];
        if gen.id != journal.activeId {
          ghost var before, w := journal.generations, W();
          if gen.id !in old(busy) {
            SupersededIdle(slots, old(W()), gen);
            NowIdle(old(W()), w, gen.id);
          }
          ok := CollectOne(gen, calm);
          IdleTransitive(old(W()), w, W());
          if !ok { return false; }
          forall i | k < i < |todo| ensures todo[i] in journal.generations {
            assert Apart(todo[k], todo[i]);
            assert todo[i] in Remove(before, gen.id);
          }
        }
      }
      ok := true;
    }

    /** `force_retire_one_for_capacity`: None when there is nothing to retire, Some(false) when it raises. */
    method ForceRetireOne(calm: bool) returns (r: Option<bool>)
      requires Valid() && journal.phase.Steady?
      modifies this
      ensures Valid() && target == old(target)
      ensures r == Some(true) ==> journal.phase.Steady? && journal.activeId == old(journal).activeId
                                  && journal.activeHash == old(journal).activeHash
                                  && |journal.generations| < |old(journal).generations| && journal.activeId != BASELINE
      ensures r.None? ==> W() == old(W())
      ensures Reaches(old(carried), carried) && LostAtMost(old(dropped), dropped, old(carried), carried)
      ensures r == Some(true) ==> forall g | g in journal.generations :: g in old(journal).generations
      ensures r == Some(true) ==>
                && NextToRetire(old(journal)).Some? && NextToRetire(old(journal)).value.id !in running
                && journal.generations == Remove(old(journal).generations, NextToRetire(old(journal)).value.id)
      ensures calm && old(journal).activeId != BASELINE ==>
                r == if NextToRetire(old(journal)).Some? then Some(true) else None
      ensures var loser := NextToRetire(old(journal)); (loser.Some? ==> loser.value.id !in old(busy)) ==> dropped == old(dropped)
      ensures StaysIdle(old(W()), W()) && journal.baselineHash == old(journal).baselineHash
    {
      hide Inv, Drift, Remove, SlotsOk, Current, Idle, StaysIdle;
      IdleItself(W());
      var gens, activeId := journal.generations, journal.activeId;
      var active := First(gens, (g: Generation) => g.id == activeId);
      if journal.activeId != BASELINE { ActiveIsRouted(slots, W(), active); }
      if active.None? || target != Some(active.value.slot.port) { return Some(false); }
      KnownProcess(slots, W(), active.value);
      var superseded := NextToRetire(journal);
      if superseded.None? { return None; }
      var ok := RetireForced(superseded.value, calm);
      r := Some(ok);
    }

    /** Snapshot, journal, stop and steady journal of a superseded generation, whether it has sessions or not. */
    method RetireForced(gen: Generation, calm: bool) returns (ok: bool)
      requires Valid() && Superseded(journal, gen)
      modifies this
      ensures Valid() && target == old(target) && journal.baselineHash == old(journal).baselineHash
      ensures ok ==> && journal.phase.Steady? && journal.activeId == old(journal).activeId
                     && journal.activeHash == old(journal).activeHash && gen.id !in running
                     && journal.generations == Remove(old(journal).generations, gen.id)
                     && |journal.generations| < |old(journal).generations|
      ensures Reaches(old(carried), carried) && LostAtMost(old(dropped), dropped, old(carried), carried)
      ensures gen.id !in old(busy) ==> dropped == old(dropped)
      ensures StaysIdle(old(W()), W()) && (calm ==> ok)
    {
      hide Inv, Drift, Remove, SlotsOk, Current, Idle, StaysIdle;
      IdleItself(W());
      KnownProcess(slots, W(), gen);
      var snapshot := native[gen.id];
      ghost var w := W();
      ghost var idle := gen.id !in busy;
      if idle { SupersededIdle(slots, w, gen); }
      Environment();
      SinceSnapshot(w, W(), gen.id);
      DriftIdle(w, w, W());
      if idle { StillIdle(w, W(), gen.id); }
      ghost var v := W();
      var dies := Dies(calm);
      if dies { return false; }
      RetireIntentInv(slots, W(), gen, snapshot);
      RemoveShortens(journal.generations, gen);
      StillCurrent(journal, gen.id);
      var delta := Minus(snapshot, gen.nativeStart);
      journal := journal.(phase := Retiring(gen, delta), generations := Remove(journal.generations, gen.id),
                          retiredTotals := Plus(journal.retiredTotals, delta));
      ghost var u := W();
      LessIdle(w, v, u);
      HeldProcess(slots, u);
      if idle { IntentIdle(slots, v, gen, snapshot); }
      ok := DriveRetirement(calm);
      IdleTransitive(w, u, W());
    }

    /** `choose_slot`: the first slot of the list that no generation uses. */
    method ChooseSlot(enoughMemory: bool) returns (slot: Option<Slot>)
      requires Valid() && journal.phase.Steady?
      ensures slot.Some? <==> enoughMemory && exists i | 0 <= i < |slots| :: Free(journal, slots[i])
      ensures slot.Some? ==> exists i | 0 <= i < |slots| ::
                slots[i] == slot.value && Free(journal, slots[i]) && forall j | 0 <= j < i :: !Free(journal, slots[j])
    {
      if !enoughMemory { return None; }
      for i := 0 to |slots|
        invariant forall j | 0 <= j < i :: !Free(journal, slots[j])
      {
        if forall g | g in journal.generations :: g.slot.name != slots[i].name {
          return Some(slots[i]);
        }
      }
      return None;
    }

    /** `stage`: a started and probed candidate on a free slot; nothing points at it yet. */
    method Stage(hash: Digest, id: Id, probed: Bytes, enoughMemory: bool, calm: bool)
      returns (g: Option<Generation>, full: bool)
      requires Valid() && journal.phase.Steady?
      requires id != BASELINE && forall h | h in journal.generations :: h.id != id
      modifies `native, `running
      ensures Valid() && StaysIdle(old(W()), W()) && old(running) <= running
      ensures g.None? ==> W() == old(W())
      ensures full <==> !enoughMemory || forall i | 0 <= i < |slots| :: !Free(journal, slots[i])
      ensures full ==> g.None?
      ensures g.Some? ==> g.value.hash == hash && g.value.id == id && Candidate(slots, W(), g.value)
                          && g.value !in journal.generations && g.value.nativeStart == probed && id in running
      ensures g.Some? ==> exists i | 0 <= i < |slots| ::
                g.value.slot == slots[i] && Free(journal, slots[i]) && forall j | 0 <= j < i :: !Free(journal, slots[j])
      ensures calm && !full ==> g.Some?
    {
      hide Inv, Current, SlotsOk;
      IdleItself(W());
      var slot := ChooseSlot(enoughMemory);
      if slot.None? { return None, true; }
      full := false;
      var fails: bool := *;
      if fails && !calm { return None, false; } // validation, start or probe failed and the unit was stopped again
      var gen := Generation(id, slot.value, hash, probed);
      FreshSlot(slots, W(), gen);
      StagedInv(slots, W(), gen);
      native := native[id := probed];
      running := running + {id};
      g := Some(gen);
    }

    /** The switch of `publish` from its journal to the steady state. */
    method SwitchTo(endpoint: Generation, calm: bool) returns (ok: bool)
      requires Valid() && journal.phase.Steady? && Candidate(slots, W(), endpoint)
      modifies this
      ensures Valid()
      ensures ok ==> journal.phase.Steady? && journal.activeId == endpoint.id && journal.activeHash == endpoint.hash
                     && endpoint in journal.generations && target == Some(endpoint.slot.port)
      ensures !ok ==> journal.phase.Steady? || (journal.phase == Switching(endpoint) && Routed(journal, target))
      ensures dropped == old(dropped) && Reaches(old(carried), carried)
      ensures ok && Idle(old(W()), BASELINE) ==> Idle(W(), BASELINE)
      ensures ok ==> journal.generations == if endpoint in old(journal).generations then old(journal).generations
                                            else old(journal).generations + [endpoint]
      ensures calm ==> ok
      ensures journal.baselineHash == old(journal).baselineHash
    {
      hide Inv, Current, SlotsOk, Candidate, Drift;
      ghost var idle := Idle(W(), BASELINE);
      SwitchIntentInv(slots, W(), endpoint);
      SameCurrent(journal, journal.(phase := Switching(endpoint)));
      journal := journal.(phase := Switching(endpoint));
      RoutedNow(slots, W());
      ghost var w := W();
      Environment();
      DriftGrows(w, W());
      if idle { StillIdle(w, W(), BASELINE); }
      var dies := Dies(calm);
      if dies { return false; }
      RedirectedInv(slots, W(), Some(endpoint.slot.port));
      target := Some(endpoint.slot.port);
      ghost var v := W();
      Environment();
      DriftGrows(v, W());
      if idle { StillIdle(v, W(), BASELINE); }
      dies := Dies(calm);
      if dies { return false; }
      SettledInv(slots, W(), true);
      SettledCurrent(slots, W(), true);
      journal := journal.(phase := Steady, generations := Held(journal), activeId := endpoint.id, activeHash := endpoint.hash);
      ok := true;
    }
  
    /** `reload_baseline`: the carry is journalled before the core starts over, and steady only after it has. */
    method ReloadBaseline(hash: Digest, calm: bool) returns (ok: bool)
      requires Valid() && journal.phase.Steady?
      modifies this
      ensures Valid() && target == old(target)
      ensures ok ==> journal.phase.Steady? && journal.baselineHash == hash
      ensures ok && hash != old(journal).baselineHash ==> listener != old(listener)
      ensures journal.generations == old(journal).generations && journal.activeId == old(journal).activeId
      ensures journal.activeHash == old(journal).activeHash && journal.retiredTotals == old(journal).retiredTotals
      ensures Reaches(old(carried), carried) && LostAtMost(old(dropped), dropped, old(carried), carried)
      ensures old(target).Some? && BASELINE !in old(busy) ==> dropped == old(dropped)
      ensures hash == old(journal).baselineHash ==> ok && W() == old(W())
      ensures calm ==> ok
    {
      hide Inv, Current, SlotsOk, Drift;
      if hash == journal.baselineHash { return true; }
      var draining: bool := *;
      if draining && !calm { return false; } // legacy flows still draining
      HeldProcess(slots, W());
      BaselineCounts(slots, W());
      var snapshot := native[BASELINE];
      ghost var w := W();
      ghost var idle := target.Some? && BASELINE !in busy;
      Environment();
      SinceSnapshot(w, W(), BASELINE);
      if idle { StillIdle(w, W(), BASELINE); }
      var dies := Dies(calm);
      if dies { return false; }
      ReloadIntentInv(slots, W(), hash, snapshot);
      SameCurrent(journal, journal.(phase := Reloading(hash, listener), nativeCarry := Plus(journal.nativeCarry, snapshot)));
      journal := journal.(phase := Reloading(hash, listener), nativeCarry := Plus(journal.nativeCarry, snapshot));
      doubled := snapshot;
      ok := DriveReload(calm);
    }

    /** The reload command, once its journal is written; `doubled` bytes are in the carry and in the core. */
    method DriveReload(calm: bool) returns (ok: bool)
      requires Valid() && journal.phase.Reloading? && journal.phase.previousListener == listener
      requires BASELINE in native && Reaches(doubled, native[BASELINE])
      modifies this
      ensures Valid() && target == old(target) && (calm ==> ok)
      ensures journal == if ok then old(journal).(phase := Steady, baselineHash := old(journal).phase.pendingHash)
                         else old(journal)
      ensures ok ==> listener != old(listener)
      ensures Reaches(old(carried), carried) && Reaches(old(dropped), dropped)
      ensures Reaches(Minus(dropped, old(dropped)),
                      Plus(Minus(old(native)[BASELINE], old(doubled)), Minus(carried, old(carried))))
      ensures Idle(old(W()), BASELINE) && old(native)[BASELINE] == old(doubled) ==> dropped == old(dropped)
    {
      hide Inv, Current, SlotsOk, Drift;
      ghost var idle := Idle(W(), BASELINE);
      ghost var v := W();
      Environment();
      SinceSnapshot(v, W(), BASELINE);
      if idle { StillIdle(v, W(), BASELINE); }
      var dies := Dies(calm);
      if dies { return false; }
      RestartBaseline();
      ghost var u := W();
      Environment();
      SinceSnapshot(u, W(), BASELINE);
      dies := Dies(calm);
      if dies { return false; }
      FinishReload();
      ok := true;
    }

    /** The reload command takes effect. */
    method RestartBaseline()
      requires Valid() && journal.phase.Reloading?
      modifies `native, `listener, `busy, `dropped, `doubled
      ensures Valid() && listener == old(listener) + 1
      ensures BASELINE in old(native) && W() == Restarted(old(W()))
    {
      hide Inv, Current, SlotsOk;
      HeldProcess(slots, W());
      RestartedInv(slots, W());
      dropped := Plus(dropped, Minus(native[BASELINE], doubled));
      doubled := ZERO;
      native, listener, busy := native[BASELINE := ZERO], listener + 1, busy - {BASELINE};
    }

    /** The steady journal of a reload whose listener has moved on. */
    method FinishReload()
      requires Valid() && journal.phase.Reloading? && listener != journal.phase.previousListener
      modifies `journal
      ensures Valid() && journal == old(journal).(phase := Steady, baselineHash := old(journal).phase.pendingHash)
    {
      hide Inv, Current, SlotsOk;
      ReloadedInv(slots, W());
      SameCurrent(journal, journal.(phase := Steady, baselineHash := journal.phase.pendingHash));
      journal := journal.(phase := Steady, baselineHash := journal.phase.pendingHash);
    }

    /** `recover`, from whatever phase a crash left behind. `wanted` is the digest of the canonical view now. */
    method Recover(wanted: Digest, calm: bool) returns (r: Recovery)
      requires Valid()
      modifies this
      ensures Valid() && !r.UnexpectedTarget?
      ensures r.Recovered? ==> journal.phase.Steady?
      ensures r.Blocked? ==> journal == old(journal)
      ensures !old(journal).phase.Retiring? ==> dropped == old(dropped)
      ensures old(journal).phase.Switching? && r.Recovered? ==>
                old(journal).phase.pending in journal.generations && journal.activeHash == wanted
      ensures old(journal).phase.Retiring? && r.Recovered? ==>
                var e := old(journal).phase.endpoint;
                if e.id in old(busy) then journal.generations == old(journal).generations + [e]
                else journal.generations == old(journal).generations && e.id !in running
      ensures old(journal).phase.Reloading? && r.Recovered? ==>
                journal == old(journal).(phase := Steady, baselineHash := old(journal).phase.pendingHash)
      ensures old(journal).phase.Steady? ==> r.Recovered? && W() == old(W())
      ensures calm ==> (r.Blocked? <==> match old(journal).phase
                                        case Switching(p) => wanted != p.hash && wanted != old(journal).activeHash
                                        case Reloading(_, previous) => old(listener) == previous
                                        case _ => false)
    {
      hide Inv, Current, SlotsOk, Drift;
      match journal.phase {
        case Steady => return Recovered;
        case Retiring(e, delta) => r := RecoverRetiring(calm); return;
        case Switching(p) => r := RecoverSwitching(wanted, calm); return;
        case Reloading(_, previous) =>
          if listener == previous { return Blocked; }
          var starting: bool := *;
          if starting && !calm { return Blocked; } // the new instance is not ready
          FinishReload();
          return Recovered;
      }
    }
  
    /** A retirement that was cut off: finished if the process is idle or gone, taken back if it has sessions. */
    method RecoverRetiring(calm: bool) returns (r: Recovery)
      requires Valid() && journal.phase.Retiring?
      modifies this
      ensures Valid() && !r.UnexpectedTarget?
      ensures r.Blocked? ==> journal == old(journal)
      ensures r.Recovered? ==> journal.phase.Steady?
      ensures r.Recovered? ==>
                var e := old(journal).phase.endpoint;
                if e.id in old(busy) then journal.generations == old(journal).generations + [e]
                else journal.generations == old(journal).generations && e.id !in running
      ensures (forall g | g in Held(old(journal)) :: g.id in old(native))
              && (dropped == old(dropped) || dropped == Plus(old(dropped), Unseen(old(W()))))
      ensures calm ==> r.Recovered?
    {
      hide Inv, Current, SlotsOk;
      HeldProcess(slots, W());
      HeldCounted(slots, W());
      var e, delta := journal.phase.endpoint, journal.phase.delta;
      var unknown: bool := *;
      if unknown && !calm { return Blocked; } // the unit's state is unknown
      if e.id in busy {
        BusyRuns(slots, W(), e.id);
        AbortedInv(slots, W());
        AbortedCurrent(slots, W());
        journal := journal.(phase := Steady, generations := journal.generations + [e],
                            retiredTotals := Minus(journal.retiredTotals, delta));
      } else {
        if e.id in running { Stop(); }
        FinishedInv(slots, W());
        SameCurrent(journal, journal.(phase := Steady));
        journal := journal.(phase := Steady);
      }
      r := Recovered;
    }

    /** A switch that was cut off: forward when the wanted view is the pending one, back when it is the active one. */
    method RecoverSwitching(wanted: Digest, calm: bool) returns (r: Recovery)
      requires Valid() && journal.phase.Switching?
      modifies this
      ensures Valid() && !r.UnexpectedTarget?
      ensures r.Blocked? ==> journal == old(journal)
      ensures r.Recovered? ==> journal.phase.Steady? && old(journal).phase.pending in journal.generations
                               && journal.activeHash == wanted
      ensures r.Recovered? ==> var p := old(journal).phase.pending;
                if wanted == p.hash then journal.activeId == p.id && target == Some(p.slot.port)
                else journal.activeId == old(journal).activeId
                     && target == TargetOf(old(journal).generations, old(journal).activeId)
      ensures calm ==> (r.Blocked? <==> wanted != old(journal).phase.pending.hash && wanted != old(journal).activeHash)
      ensures dropped == old(dropped)
    {
      hide Inv, Current, SlotsOk;
      RoutedNow(slots, W());
      var p, home := journal.phase.pending, TargetOf(journal.generations, journal.activeId);
      if target != Some(p.slot.port) && target != home { return UnexpectedTarget; }
      var changed: bool := *;
      if changed && !calm { return Blocked; } // the pending process or its configuration changed, or it is not ready
      if wanted == p.hash {
        RedirectedInv(slots, W(), Some(p.slot.port));
        target := Some(p.slot.port);
        SettledInv(slots, W(), true);
        SettledCurrent(slots, W(), true);
        journal := journal.(phase := Steady, generations := Held(journal), activeId := p.id, activeHash := p.hash);
      } else if wanted == journal.activeHash {
        RedirectedInv(slots, W(), home);
        target := home;
        SettledInv(slots, W(), false);
        SettledCurrent(slots, W(), false);
        journal := journal.(phase := Steady, generations := Held(journal));
      } else {
        return Blocked;
      }
      r := Recovered;
    }

    /**
     `publish` with routing enabled. When it succeeds, new connections go to a listed generation that
     runs the wanted view, and the baseline runs the wanted configuration.
     */
    method Publish(wanted: Digest, baseline: Digest, id: Id, forceOnCapacity: bool, roomy: bool, calm: bool)
      returns (ok: bool)
      requires Valid() && journal.phase.Steady?
      modifies this
      ensures Valid()
      ensures ok ==> journal.phase.Steady? && journal.activeId != BASELINE && journal.activeHash == wanted
                     && journal.baselineHash == baseline
      ensures ok ==> exists g | g in journal.generations ::
                g.id == journal.activeId && g.hash == wanted && target == Some(g.slot.port)
      ensures Reaches(old(carried), carried) && LostAtMost(old(dropped), dropped, old(carried), carried)
      ensures ok ==> BASELINE in old(native) && BASELINE in native
                     && (forall g | g in old(journal).generations :: g.id in old(native))
                     && (forall g | g in journal.generations :: g.id in native)
                     && Reaches(Merged(old(journal), old(native)), Merged(journal, native))
      ensures ok && old(Quiet(W())) ==> dropped == old(dropped)
      ensures !forceOnCapacity && old(journal).baselineHash == baseline ==> dropped == old(dropped)
      ensures calm && roomy && NewId(old(journal), id) && RoomFor(slots, old(journal), forceOnCapacity) ==> ok
    {
      hide Inv, Current, SlotsOk, Candidate, StaysIdle, RoomFor, NewId;
      ok := Activate(wanted, id, forceOnCapacity, roomy, calm);
      if !ok { return; }
      ok := ReloadBaseline(baseline, calm);
      if ok { TotalsGrow(slots, old(W()), W()); }
    }

    /** The first half: new connections go to a generation with the wanted view. */
    method Activate(wanted: Digest, id: Id, forceOnCapacity: bool, roomy: bool, calm: bool) returns (ok: bool)
      requires Valid() && journal.phase.Steady?
      modifies this
      ensures Valid() && journal.baselineHash == old(journal).baselineHash
      ensures ok ==> journal.phase.Steady? && journal.activeId != BASELINE && journal.activeHash == wanted
      ensures ok ==> exists g | g in journal.generations ::
                g.id == journal.activeId && g.hash == wanted && target == Some(g.slot.port)
      ensures Reaches(old(carried), carried) && LostAtMost(old(dropped), dropped, old(carried), carried)
      ensures ok && old(Quiet(W())) ==> dropped == old(dropped) && target.Some? && BASELINE !in busy
      ensures !forceOnCapacity ==> dropped == old(dropped)
      ensures ok ==> NoTwin(old(journal).generations, journal.generations, wanted)
      ensures old(journal).activeId != BASELINE && wanted == old(journal).activeHash ==> ok && W() == old(W())
      ensures calm && roomy && NewId(old(journal), id) && RoomFor(slots, old(journal), forceOnCapacity) ==> ok
    {
      hide Inv, Current, SlotsOk, Candidate, StaysIdle, RoomFor, NewId, NoTwin;
      if journal.activeId != BASELINE && wanted == journal.activeHash {
        ActiveRoute(slots, W());
        SameHaveNoTwin(journal.generations, wanted);
        return true;
      }
      ok := CollectEmpty(calm);
      if !ok { return; }
      FewerLeaveRoom(slots, old(journal), journal, id, forceOnCapacity);
      if old(Quiet(W())) { StillQuiet(slots, old(W()), W()); }
      var reusable := First(journal.generations, (g: Generation) => g.hash == wanted);
      var endpoint := reusable;
      ghost var kept := journal.generations;
      if reusable.Some? {
        ListedCandidate(slots, W(), reusable.value);
      } else {
        endpoint := StageWithRoom(wanted, id, forceOnCapacity, roomy, calm);
        if endpoint.None? { return false; }
      }
      OnlyOneWanted(old(journal).generations, kept, journal.generations, endpoint.value, wanted);
      ok := SwitchTo(endpoint.value, calm);
      if !ok { return; }
      KnownProcess(slots, W(), endpoint.value);
    }

    /**
     The staging loop: one superseded generation makes room at a time, if the policy allows it and there is no room;
     `roomy` says that the memory checks pass.
     */
    method StageWithRoom(wanted: Digest, id: Id, forceOnCapacity: bool, roomy: bool, calm: bool)
      returns (endpoint: Option<Generation>)
      requires Valid() && journal.phase.Steady?
      modifies this
      ensures Valid()
      ensures endpoint.Some? ==> journal.phase.Steady? && Candidate(slots, W(), endpoint.value)
                                 && endpoint.value.hash == wanted
      ensures Reaches(old(carried), carried) && LostAtMost(old(dropped), dropped, old(carried), carried)
      ensures endpoint.Some? && old(Quiet(W())) ==> Quiet(W()) && dropped == old(dropped)
      ensures !forceOnCapacity || (roomy && exists i | 0 <= i < |slots| :: Free(old(journal), slots[i])) ==>
                && journal == old(journal) && busy == old(busy) && old(running) <= running && dropped == old(dropped)
                && target == old(target)
      ensures journal.baselineHash == old(journal).baselineHash
      ensures endpoint.Some? ==> forall g | g in journal.generations :: g in old(journal).generations
      ensures calm && roomy && NewId(old(journal), id) && RoomFor(slots, old(journal), forceOnCapacity) ==>
                endpoint.Some?
    {
      hide Inv, Current, SlotsOk, Candidate, StaysIdle, RoomFor, NewId, Free, NextToRetire, Remove;
      while true
        invariant Valid() && journal.phase.Steady?
        invariant old(Quiet(W())) ==> Quiet(W()) && dropped == old(dropped)
        invariant Reaches(old(carried), carried) && LostAtMost(old(dropped), dropped, old(carried), carried)
        invariant !forceOnCapacity || (roomy && exists i | 0 <= i < |slots| :: Free(old(journal), slots[i])) ==>
                    W() == old(W())
        invariant journal.baselineHash == old(journal).baselineHash
        invariant NewId(old(journal), id) ==> NewId(journal, id)
        invariant forall g | g in journal.generations :: g in old(journal).generations
        invariant RoomFor(slots, old(journal), forceOnCapacity) ==> RoomFor(slots, journal, forceOnCapacity)
        decreases |journal.generations|
      {
        var probed: Bytes := *;
        var tight: bool := *;
        var memory := roomy || !tight;
        NewIdIs(journal, id);
        if id == BASELINE || exists g | g in journal.generations :: g.id == id { return None; }
        var full: bool;
        endpoint, full := Stage(wanted, id, probed, memory, calm);
        if full { NoRoomMeans(slots, W(), forceOnCapacity); }
        if !full || !forceOnCapacity { return; }
        ghost var w := W();
        var updated := ForceRetireOne(calm);
        if updated == Some(true) { FewerLeaveRoom(slots, w.journal, journal, id, forceOnCapacity); }
        if updated != Some(true) { return None; }
        if Quiet(w) { StillQuiet(slots, w, W()); }
      }
    }
  }

  ghost predicate NewId(j: Journal, id: Id) {
    id != BASELINE && forall g | g in j.generations :: g.id != id
  }

  /** A slot is free, or the policy may free one of several. */
  ghost predicate RoomFor(slots: seq<Slot>, j: Journal, forceOnCapacity: bool) {
    || (exists i | 0 <= i < |slots| :: Free(j, slots[i]))
    || (forceOnCapacity && j.activeId != BASELINE && |slots| >= 2)
  }

  lemma NewIdIs(j: Journal, id: Id)
    ensures NewId(j, id) <==> !(id == BASELINE || exists g | g in j.generations :: g.id == id)
  {
  }

  lemma FewerLeaveRoom(slots: seq<Slot>, j: Journal, k: Journal, id: Id, forceOnCapacity: bool)
    requires k.activeId == j.activeId && forall g | g in k.generations :: g in j.generations
    ensures RoomFor(slots, j, forceOnCapacity) ==> RoomFor(slots, k, forceOnCapacity)
    ensures NewId(j, id) ==> NewId(k, id)
  {
    if i: nat :| i < |slots| && Free(j, slots[i]) {
      assert Free(k, slots[i]);
    }
  }

  /** With no slot free, the room there is comes from a superseded generation. */
  lemma NoRoomMeans(slots: seq<Slot>, w: World, forceOnCapacity: bool)
    requires SlotsOk(slots) && Inv(slots, w) && w.journal.phase.Steady?
    ensures (forall i | 0 <= i < |slots| :: !Free(w.journal, slots[i]))
            && RoomFor(slots, w.journal, forceOnCapacity) ==>
              forceOnCapacity && w.journal.activeId != BASELINE && NextToRetire(w.journal).Some?
  {
    DistinctNow(slots, w);
    hide Inv;
    var j := w.journal;
    if (forall i | 0 <= i < |slots| :: !Free(j, slots[i])) && RoomFor(slots, j, forceOnCapacity) {
      assert !Free(j, slots[0]) && !Free(j, slots[1]);
      var g :| g in j.generations && g.slot.name == slots[0].name;
      var h :| h in j.generations && h.slot.name == slots[1].name;
      if g.id == h.id { SameById(j.generations, g, h); }
    }
  }

  /** A generation joins the list only when no other one in it has the wanted view. */
  ghost predicate NoTwin(before: seq<Generation>, after: seq<Generation>, wanted: Digest) {
    forall g, h | g in after && h in after && h.hash == wanted && g !in before :: h == g
  }

  lemma SameHaveNoTwin(generations: seq<Generation>, wanted: Digest)
    ensures NoTwin(generations, generations, wanted)
  {
  }

  lemma OnlyOneWanted(before: seq<Generation>, kept: seq<Generation>, fewer: seq<Generation>, endpoint: Generation,
                      wanted: Digest)
    requires (forall g | g in kept :: g in before) && (forall g | g in fewer :: g in kept)
    requires endpoint in kept || forall g | g in kept :: g.hash != wanted
    ensures NoTwin(before, if endpoint in fewer then fewer else fewer + [endpoint], wanted)
            || (endpoint in kept && endpoint !in fewer)
  {
  }

  /** The generation that a forced retirement takes. */
  function NextToRetire(j: Journal): (r: Option<Generation>)
    ensures r.Some? ==> r.value in j.generations && r.value.id != j.activeId
    ensures r.None? ==> forall g | g in j.generations :: g.id == j.activeId
  {
    First(j.generations, (g: Generation) => g.id != j.activeId)
  }

  lemma IdleItself(w: World)
    ensures StaysIdle(w, w)
  {
  }

  lemma IdleTransitive(u: World, v: World, w: World)
    requires StaysIdle(u, v) && StaysIdle(v, w)
    ensures StaysIdle(u, w)
  {
    hide Idle;
  }

  lemma NowIdle(w: World, v: World, id: Id)
    requires StaysIdle(w, v) && Idle(w, id)
    ensures id !in v.busy
  {
  }

  lemma DriftIdle(u: World, v: World, w: World)
    requires StaysIdle(u, v) && Drift(v, w)
    ensures StaysIdle(u, w)
  {
    hide Idle;
  }

  /** Fewer sessions, processes and generations leave nothing less idle. */
  lemma LessIdle(u: World, v: World, w: World)
    requires StaysIdle(u, v) && w.target == v.target && w.running <= v.running && w.busy <= v.busy
    requires forall g | g in Held(w.journal) :: g in Held(v.journal)
    ensures StaysIdle(u, w)
  {
  }

  lemma StillQuiet(slots: seq<Slot>, w: World, v: World)
    requires Inv(slots, w) && Quiet(w) && w.journal.phase.Steady? && StaysIdle(w, v)
    requires v.target == w.target && v.journal.activeId == w.journal.activeId
    requires forall g | g in v.journal.generations :: g in w.journal.generations
    ensures Quiet(v)
  {
    hide Inv;
    assert Idle(w, BASELINE);
    forall g | Superseded(v.journal, g) ensures g.id !in v.busy {
      SupersededIdle(slots, w, g);
    }
  }

  lemma NotBaseline(slots: seq<Slot>, w: World, id: Id)
    requires Inv(slots, w) && exists g | g in Held(w.journal) :: g.id == id
    ensures id != BASELINE
  {
    hide DistinctIds, Sum;
  }

  lemma OpenedDrift(w: World, id: Id)
    requires Reached(w, id)
    ensures Drift(w, Opened(w, id))
  {
  }

  lemma ClosedDrift(w: World, id: Id)
    ensures Drift(w, Closed(w, id))
  {
  }

  lemma CarryingDrift(w: World, id: Id, d: Bytes)
    requires id in w.native && id in w.busy && Reaches(ZERO, d)
    ensures Drift(w, Carrying(w, id, d))
  {
  }

  lemma InitialInv(slots: seq<Slot>, active: Digest, baseline: Digest)
    ensures Inv(slots, World(Journal(Steady, [], BASELINE, active, baseline, ZERO, ZERO), None, map[BASELINE := ZERO],
                             {}, {}, 0, ZERO, ZERO, ZERO))
  {
    EmptyInv(slots, BASELINE, active, baseline);
  }

  lemma EmptyInv(slots: seq<Slot>, base: Id, active: Digest, baseline: Digest)
    requires base == BASELINE
    ensures Inv(slots, World(Journal(Steady, [], base, active, baseline, ZERO, ZERO), None, map[base := ZERO],
                             {}, {}, 0, ZERO, ZERO, ZERO))
  {
    var j := Journal(Steady, [], base, active, baseline, ZERO, ZERO);
    hide Shape, Balanced, Routed;
    EmptyShape(slots, j, base);
    EmptyBalanced(j, base);
  }

  lemma EmptyShape(slots: seq<Slot>, j: Journal, base: Id)
    requires j.phase.Steady? && j.generations == [] && j.activeId == base == BASELINE
    ensures Shape(slots, j) && Routed(j, None)
  {
    assert Held(j) == [];
  }

  lemma EmptyBalanced(j: Journal, base: Id)
    requires j.phase.Steady? && j.generations == [] && base == BASELINE && j.nativeCarry == ZERO
             && j.retiredTotals == ZERO
    ensures Balanced(World(j, None, map[base := ZERO], {}, {}, 0, ZERO, ZERO, ZERO))
  {
    var native := map[base := ZERO];
    assert Held(j) == [];
    assert Sum([], native) == ZERO;
  }

  lemma KnownProcess(slots: seq<Slot>, w: World, g: Generation)
    requires Inv(slots, w) && g in w.journal.generations
    ensures g.id in w.native && g.id in w.running && g.id != BASELINE && Reaches(g.nativeStart, w.native[g.id])
    ensures BASELINE in w.native
  {
    hide Sum, DistinctIds;
    assert g in Held(w.journal);
  }

  /** The redirect of a steady journal does not reach a superseded generation. */
  lemma SupersededIdle(slots: seq<Slot>, w: World, gen: Generation)
    requires Inv(slots, w) && Superseded(w.journal, gen) && gen.id !in w.busy
    ensures Idle(w, gen.id)
  {
    hide Sum, DistinctIds, Balanced;
    var j := w.journal;
    if j.activeId == BASELINE {
      TargetNone(j.generations, BASELINE);
    } else {
      var a :| a in j.generations && a.id == j.activeId;
      TargetIs(j.generations, a);
      OthersApart(j.generations, gen);
      forall g | g in j.generations && g.id == gen.id ensures g == gen { SameId(j.generations, g, gen); }
    }
  }

  lemma StillIdle(w: World, v: World, id: Id)
    requires Drift(w, v) && Idle(w, id)
    ensures Idle(v, id) && id !in v.busy && (id in w.native ==> id in v.native && v.native[id] == w.native[id])
    ensures Reaches(w.carried, v.carried)
  {
  }

  lemma IntentIdle(slots: seq<Slot>, w: World, gen: Generation, snapshot: Bytes)
    requires Inv(slots, w) && Superseded(w.journal, gen) && Idle(w, gen.id)
    ensures Idle(RetireIntent(w, gen, snapshot), gen.id)
  {
    hide Sum, DistinctIds, Balanced;
    KnownProcess(slots, w, gen);
    var v := RetireIntent(w, gen, snapshot);
    forall g | g in Held(v.journal) && g.id == gen.id ensures g in Held(w.journal) { }
  }

  predicate Free(j: Journal, slot: Slot) {
    forall g | g in j.generations :: g.slot.name != slot.name
  }

  function First(generations: seq<Generation>, p: Generation -> bool): (r: Option<Generation>)
    ensures r.Some? ==> r.value in generations && p(r.value)
    ensures r.None? ==> forall g | g in generations :: !p(g)
    ensures r.Some? ==> exists i | 0 <= i < |generations| :: generations[i] == r.value && forall k | 0 <= k < i ::
              !p(generations[k])
  {
    if generations == [] then None
    else if p(generations[0]) then Some(generations[0])
    else First(generations[1..], p)
  }

  lemma DistinctNow(slots: seq<Slot>, w: World)
    requires Inv(slots, w)
    ensures DistinctIds(w.journal.generations)
  {
    hide Sum, DistinctIds;
    DistinctHeld(w.journal);
  }

  lemma DriftGrows(w: World, v: World)
    requires Drift(w, v)
    ensures Reaches(w.carried, v.carried)
  {
  }

  lemma SinceSnapshot(w: World, v: World, id: Id)
    requires Drift(w, v) && id in w.native
    ensures id in v.native && Reaches(w.native[id], v.native[id]) && Reaches(w.carried, v.carried)
    ensures Reaches(Minus(v.native[id], w.native[id]), Minus(v.carried, w.carried))
  {
  }

  lemma HeldProcess(slots: seq<Slot>, w: World)
    requires Inv(slots, w)
    ensures w.journal.phase.Retiring? ==> w.journal.phase.endpoint.id in w.native
    ensures w.journal.phase.Switching? ==>
              w.journal.phase.pending.id in w.native && w.journal.phase.pending.id in w.running
    ensures BASELINE in w.native
  {
    hide Sum, DistinctIds;
    if w.journal.phase.Retiring? { assert w.journal.phase.endpoint in Held(w.journal); }
    if w.journal.phase.Switching? { assert w.journal.phase.pending in Held(w.journal); }
  }

  lemma HeldCounted(slots: seq<Slot>, w: World)
    requires Inv(slots, w)
    ensures forall g | g in Held(w.journal) :: g.id in w.native
  {
    hide Sum, DistinctIds;
  }

  lemma StillCurrent(j: Journal, id: Id)
    requires Current(j)
    ensures forall phase, totals :: Current(j.(phase := phase, generations := Remove(j.generations, id), retiredTotals := totals))
  {
  }

  lemma SameCurrent(j: Journal, k: Journal)
    requires Current(j) && k.generations == j.generations && k.activeId == j.activeId && k.activeHash == j.activeHash
    ensures Current(k)
  {
  }

  lemma FreshSlot(slots: seq<Slot>, w: World, g: Generation)
    requires SlotsOk(slots) && Inv(slots, w) && w.journal.phase.Steady?
    requires g.slot in slots && Free(w.journal, g.slot) && g.id != BASELINE && forall h | h in w.journal.generations ::
              h.id != g.id
    ensures Unused(slots, w.journal, g)
  {
    hide Sum, DistinctIds, Balanced;
    forall h | h in w.journal.generations ensures Apart(h, g) {
      var i :| 0 <= i < |slots| && slots[i] == g.slot;
      var k :| 0 <= k < |slots| && slots[k] == h.slot;
      assert i != k;
    }
  }

  lemma RoutedNow(slots: seq<Slot>, w: World)
    requires Inv(slots, w)
    ensures Routed(w.journal, w.target)
  {
    hide Sum, DistinctIds, Balanced;
  }

  lemma SettledCurrent(slots: seq<Slot>, w: World, forward: bool)
    requires Inv(slots, w) && Current(w.journal) && w.journal.phase.Switching?
    ensures Current(Settled(w, forward).journal)
  {
    hide Sum, DistinctIds, Balanced;
    var j, p := w.journal, w.journal.phase.pending;
    DistinctHeld(j);
    forall g | g in Held(j) && g.id == p.id ensures g == p { SameId(Held(j), g, p); }
    if p !in j.generations { NotActive(slots, j, p); }
  }

  lemma BaselineCounts(slots: seq<Slot>, w: World)
    requires Inv(slots, w)
    ensures BASELINE in w.native && Reaches(ZERO, w.native[BASELINE])
  {
    hide Sum, DistinctIds;
  }

  lemma BusyRuns(slots: seq<Slot>, w: World, id: Id)
    requires Inv(slots, w) && w.journal.phase.Retiring? && id == w.journal.phase.endpoint.id && id in w.busy
    ensures id in w.running
  {
    hide Sum, DistinctIds, Balanced;
    assert w.journal.phase.endpoint in Held(w.journal);
  }

  lemma AbortedCurrent(slots: seq<Slot>, w: World)
    requires Inv(slots, w) && Current(w.journal) && w.journal.phase.Retiring?
    ensures Current(Aborted(w).journal)
  {
    hide Sum, DistinctIds, Balanced;
    DistinctHeld(w.journal);
    assert w.journal.phase.endpoint in Held(w.journal);
    NotActive(slots, w.journal, w.journal.phase.endpoint);
  }

  lemma ListedCandidate(slots: seq<Slot>, w: World, g: Generation)
    requires Inv(slots, w) && g in w.journal.generations
    ensures Candidate(slots, w, g)
  {
    KnownProcess(slots, w, g);
  }

  lemma ActiveIsRouted(slots: seq<Slot>, w: World, active: Option<Generation>)
    requires SlotsOk(slots) && Inv(slots, w) && Current(w.journal) && w.journal.phase.Steady?
    requires w.journal.activeId != BASELINE
    requires active == First(w.journal.generations, (g: Generation) => g.id == w.journal.activeId)
    ensures active.Some? && w.target == Some(active.value.slot.port)
  {
    ActiveRoute(slots, w);
    DistinctNow(slots, w);
    hide Inv;
    var g :| g in w.journal.generations && g.id == w.journal.activeId && w.target == Some(g.slot.port);
    assert active.Some?;
    SameById(w.journal.generations, g, active.value);
  }

  lemma SameById(generations: seq<Generation>, g: Generation, h: Generation)
    requires DistinctIds(generations) && g in generations && h in generations && g.id == h.id
    ensures g == h
  {
    var i :| 0 <= i < |generations| && generations[i] == g;
    var k :| 0 <= k < |generations| && generations[k] == h;
    assert i == k;
  }

  lemma ActiveRoute(slots: seq<Slot>, w: World)
    requires Inv(slots, w) && Current(w.journal) && w.journal.phase.Steady? && w.journal.activeId != BASELINE
    ensures exists g | g in w.journal.generations ::
              g.id == w.journal.activeId && g.hash == w.journal.activeHash && w.target == Some(g.slot.port)
  {
    SteadyMeans(slots, w);
    hide Sum, DistinctIds, Balanced;
    var a :| a in w.journal.generations && a.id == w.journal.activeId;
    assert a.hash == w.journal.activeHash && w.target == Some(a.slot.port);
  }

  /** Between two steady states the reported totals never fall. */
  lemma TotalsGrow(slots: seq<Slot>, w: World, v: World)
    requires Inv(slots, w) && Inv(slots, v) && w.journal.phase.Steady? && v.journal.phase.Steady?
    requires LostAtMost(w.dropped, v.dropped, w.carried, v.carried)
    ensures BASELINE in w.native && BASELINE in v.native
    ensures forall g | g in w.journal.generations :: g.id in w.native
    ensures forall g | g in v.journal.generations :: g.id in v.native
    ensures Reaches(Merged(w.journal, w.native), Merged(v.journal, v.native))
  {
    hide DistinctIds, Sum;
    SteadyMeans(slots, w);
    SteadyMeans(slots, v);
  }

  // ---------------------------------------------------------------- when totals can fall

  /** Traffic alone leads from one world to the other. */
  ghost predicate Follows(slots: seq<Slot>, w: World, v: World) {
    Drift(w, v) && Inv(slots, v)
  }

  /** A process that is not idle may carry bytes, and an idle one cannot. */
  lemma CarriesMore(slots: seq<Slot>, w: World, id: Id) returns (v: World)
    requires Inv(slots, w) && id in w.native && !Idle(w, id)
    ensures Follows(slots, w, v) && v.native == w.native[id := Plus(w.native[id], Bytes(1, 1))]
            && v.journal == w.journal
  {
    hide Inv, Drift;
    v := w;
    if id !in w.busy {
      OpenedInv(slots, w, id);
      OpenedDrift(w, id);
      v := Opened(w, id);
    } else {
      DriftItself(w);
    }
    CarryingInv(slots, v, id, Bytes(1, 1));
    CarryingDrift(v, id, Bytes(1, 1));
    DriftTransitive(w, v, Carrying(v, id, Bytes(1, 1)));
    v := Carrying(v, id, Bytes(1, 1));
  }

  /** What a forced retirement reports, with its snapshot taken in `w` and its journal written in `v`. */
  ghost predicate RetiresWhole(slots: seq<Slot>, w: World, v: World, g: Generation)
    requires Inv(slots, w) && Superseded(w.journal, g) && Follows(slots, w, v)
  {
    KnownProcess(slots, w, g);
    KnownProcess(slots, v, g);
    RetiredCounted(slots, v, g, w.native[g.id]);
    Merged(RetireIntent(v, g, w.native[g.id]).journal, v.native) == Merged(v.journal, v.native)
  }

  lemma RetiredCounted(slots: seq<Slot>, w: World, g: Generation, snapshot: Bytes)
    requires Inv(slots, w) && Superseded(w.journal, g)
    ensures BASELINE in w.native && (forall h | h in w.journal.generations :: h.id in w.native)
    ensures forall h | h in RetireIntent(w, g, snapshot).journal.generations :: h.id in w.native
  {
    HeldCounted(slots, w);
    KnownProcess(slots, w, g);
  }

  /** A forced retirement keeps the totals whatever traffic there is exactly when its generation has no sessions. */
  lemma RetirementLossless(slots: seq<Slot>, w: World, g: Generation)
    requires Inv(slots, w) && Superseded(w.journal, g)
    ensures (forall v | Follows(slots, w, v) :: RetiresWhole(slots, w, v, g)) <==> g.id !in w.busy
  {
    hide Inv, Drift, Idle;
    KnownProcess(slots, w, g);
    if g.id !in w.busy {
      SupersededIdle(slots, w, g);
      forall v | Follows(slots, w, v) ensures RetiresWhole(slots, w, v, g) {
        StillIdle(w, v, g.id);
        SameJournal(w, v);
        KnownProcess(slots, v, g);
        RetireTotals(slots, v, g, w.native[g.id]);
      }
    } else {
      BusyIsNotIdle(w, g.id);
      var v := CarriesMore(slots, w, g.id);
      RetireTotals(slots, v, g, w.native[g.id]);
      assert Follows(slots, w, v) && !RetiresWhole(slots, w, v, g);
    }
  }

  lemma SameJournal(w: World, v: World)
    requires Drift(w, v)
    ensures v.journal == w.journal
  {
  }

  lemma BusyIsNotIdle(w: World, id: Id)
    requires id in w.busy
    ensures !Idle(w, id)
  {
  }

  /** What a whole reload reports, with its snapshot taken in `w` and its journal written in `v`. */
  ghost predicate ReloadsWhole(slots: seq<Slot>, w: World, v: World, hash: Digest)
    requires Inv(slots, w) && w.journal.phase.Steady? && Follows(slots, w, v)
  {
    BaselineCounts(slots, w);
    BaselineCounts(slots, v);
    HeldCounted(slots, v);
    SameJournal(w, v);
    var u := Reloaded(Restarted(ReloadIntent(v, hash, w.native[BASELINE])));
    Merged(u.journal, u.native) == Merged(v.journal, v.native)
  }

  /** A reload keeps the totals whatever traffic there is exactly when the baseline has no sessions and gets none. */
  lemma ReloadLossless(slots: seq<Slot>, w: World, hash: Digest)
    requires Inv(slots, w) && w.journal.phase.Steady?
    ensures (forall v | Follows(slots, w, v) :: ReloadsWhole(slots, w, v, hash)) <==>
              w.target.Some? && BASELINE !in w.busy
  {
    hide Inv, Drift;
    BaselineCounts(slots, w);
    if Idle(w, BASELINE) {
      forall v | Follows(slots, w, v) ensures ReloadsWhole(slots, w, v, hash) {
        StillIdle(w, v, BASELINE);
        SameJournal(w, v);
        ReloadTotals(slots, v, hash, w.native[BASELINE]);
      }
    } else {
      var v := CarriesMore(slots, w, BASELINE);
      ReloadTotals(slots, v, hash, w.native[BASELINE]);
      assert Follows(slots, w, v) && !ReloadsWhole(slots, w, v, hash);
    }
  }

  // ---------------------------------------------------------------- runs in which they do

  /** The world that `bootstrap` finds. */
  function Bootstrapped(active: Digest, baseline: Digest): World {
    World(Journal(Steady, [], BASELINE, active, baseline, ZERO, ZERO), None, map[BASELINE := ZERO], {}, {}, 0, ZERO, ZERO, ZERO)
  }

  /** A candidate is staged and new connections are switched to it. */
  function Launched(w: World, g: Generation): World {
    Settled(Redirected(SwitchIntent(Staged(w, g), g), Some(g.slot.port)), true)
  }

  lemma LaunchedInv(slots: seq<Slot>, w: World, g: Generation)
    requires Inv(slots, w) && w.journal.phase.Steady? && Unused(slots, w.journal, g)
    ensures var v := Launched(w, g);
            && Inv(slots, v) && v.target == Some(g.slot.port) && v.busy == w.busy && v.running == w.running + {g.id}
            && v.native == w.native[g.id := g.nativeStart] && v.dropped == w.dropped
            && v.journal == w.journal.(generations := w.journal.generations + [g], activeId := g.id, activeHash := g.hash)
  {
    hide Inv;
    StagedInv(slots, w, g);
    var a := Staged(w, g);
    SwitchIntentInv(slots, a, g);
    RedirectedInv(slots, SwitchIntent(a, g), Some(g.slot.port));
    SettledInv(slots, Redirected(SwitchIntent(a, g), Some(g.slot.port)), true);
    forall h | h in w.journal.generations ensures h != g {
      assert Held(w.journal) == w.journal.generations && Apart(h, g);
    }
  }

  /** A session opens on `g`, and `a` supersedes it. */
  lemma SupersededSession(slots: seq<Slot>, w: World, g: Generation, a: Generation)
    requires Inv(slots, w) && w.journal.phase.Steady? && w.journal.generations == [] && w.dropped == ZERO
    requires g.slot in slots && a.slot in slots && g.id != BASELINE && a.id != BASELINE && Apart(g, a)
    ensures var v := Launched(Opened(Launched(w, g), g.id), a);
            Inv(slots, v) && Superseded(v.journal, g) && g.id in v.busy && g.id in v.native && v.dropped == ZERO
  {
    hide Inv, Launched;
    LaunchedInv(slots, w, g);
    var u := Launched(w, g);
    assert g in Held(u.journal);
    OpenedInv(slots, u, g.id);
    LaunchedInv(slots, Opened(u, g.id), a);
  }

  lemma BootstrapInv(slots: seq<Slot>, active: Digest, baseline: Digest)
    ensures var w := Bootstrapped(active, baseline);
            Inv(slots, w) && w.journal.phase.Steady? && w.journal.generations == [] && w.dropped == ZERO
            && w.target.None?
  {
    hide Inv;
    InitialInv(slots, active, baseline);
  }

  /** More bytes after a snapshot: what a retirement makes of them. */
  lemma RetiredTooSoon(slots: seq<Slot>, w: World, g: Generation, d: Bytes)
    requires Inv(slots, w) && Superseded(w.journal, g) && g.id in w.busy && g.id in w.native && w.dropped == ZERO
             && Reaches(ZERO, d)
    ensures var v := Carrying(w, g.id, d);
            && Inv(slots, v) && Follows(slots, w, v)
            && var end := Finished(Stopped(RetireIntent(v, g, w.native[g.id])));
            && Inv(slots, end) && end.journal.phase.Steady? && end.dropped == d
            && BASELINE in v.native && (forall h | h in v.journal.generations :: h.id in v.native)
            && BASELINE in end.native && (forall h | h in end.journal.generations :: h.id in end.native)
            && Merged(end.journal, end.native) == Minus(Merged(v.journal, v.native), d)
  {
    hide Inv, Drift, Merged;
    CarryingInv(slots, w, g.id, d);
    CarryingDrift(w, g.id, d);
    KnownProcess(slots, w, g);
    Retires(slots, Carrying(w, g.id, d), g, w.native[g.id]);
  }

  /**
   A run in which a forced retirement loses bytes: a session opens on `g`, `a` supersedes it, and the session carries
   `d` after the retirement's snapshot. The totals fall by `d`.
   */
  lemma ForcedRetirementLoses(slots: seq<Slot>, active: Digest, baseline: Digest, g: Generation, a: Generation,
                              d: Bytes)
    requires g.slot in slots && a.slot in slots && g.id != BASELINE && a.id != BASELINE && Apart(g, a)
             && Reaches(ZERO, d) && d != ZERO
    ensures var w := Launched(Opened(Launched(Bootstrapped(active, baseline), g), g.id), a);
            && Inv(slots, w) && Superseded(w.journal, g) && g.id in w.native && g.id in w.busy
            && var v := Carrying(w, g.id, d);
            && Inv(slots, v) && Follows(slots, w, v)
            && var end := Finished(Stopped(RetireIntent(v, g, w.native[g.id])));
            && Inv(slots, end) && end.journal.phase.Steady? && end.dropped == d
            && BASELINE in v.native && (forall h | h in v.journal.generations :: h.id in v.native)
            && BASELINE in end.native && (forall h | h in end.journal.generations :: h.id in end.native)
            && Merged(end.journal, end.native) == Minus(Merged(v.journal, v.native), d) != Merged(v.journal, v.native)
  {
    hide Inv, Drift, Launched, Bootstrapped, Merged, Superseded;
    BootstrapInv(slots, active, baseline);
    SupersededSession(slots, Bootstrapped(active, baseline), g, a);
    RetiredTooSoon(slots, Launched(Opened(Launched(Bootstrapped(active, baseline), g), g.id), a), g, d);
  }

  /** A forced retirement from its journal to the steady state, without traffic in between. */
  lemma Retires(slots: seq<Slot>, v: World, g: Generation, snapshot: Bytes)
    requires Inv(slots, v) && Superseded(v.journal, g)
    requires g.id in v.native && Reaches(g.nativeStart, snapshot) && Reaches(snapshot, v.native[g.id])
    ensures BASELINE in v.native && (forall h | h in v.journal.generations :: h.id in v.native)
    ensures var end := Finished(Stopped(RetireIntent(v, g, snapshot)));
            && Inv(slots, end) && end.journal.phase.Steady?
            && end.dropped == Plus(v.dropped, Minus(v.native[g.id], snapshot))
            && end.native == v.native && (forall h | h in end.journal.generations :: h.id in end.native)
            && Merged(end.journal, end.native) == Minus(Merged(v.journal, v.native), Minus(v.native[g.id], snapshot))
  {
    hide Inv;
    KnownProcess(slots, v, g);
    RetiredCounted(slots, v, g, snapshot);
    RetireTotals(slots, v, g, snapshot);
    RetireIntentInv(slots, v, g, snapshot);
    StoppedInv(slots, RetireIntent(v, g, snapshot));
    FinishedInv(slots, Stopped(RetireIntent(v, g, snapshot)));
  }

  /** More bytes after a snapshot: what a reload makes of them. */
  lemma ReloadedTooSoon(slots: seq<Slot>, w: World, hash: Digest, d: Bytes)
    requires Inv(slots, w) && w.journal.phase.Steady? && BASELINE in w.busy && BASELINE in w.native
             && w.dropped == ZERO && Reaches(ZERO, d)
    ensures var v := Carrying(w, BASELINE, d);
            && Inv(slots, v) && Follows(slots, w, v)
            && var end := Reloaded(Restarted(ReloadIntent(v, hash, w.native[BASELINE])));
            && Inv(slots, end) && end.journal.phase.Steady? && end.dropped == d
            && BASELINE in v.native && (forall h | h in v.journal.generations :: h.id in v.native)
            && BASELINE in end.native && (forall h | h in end.journal.generations :: h.id in end.native)
            && Merged(end.journal, end.native) == Minus(Merged(v.journal, v.native), d)
  {
    hide Inv, Drift, Merged;
    BaselineCounts(slots, w);
    CarryingInv(slots, w, BASELINE, d);
    CarryingDrift(w, BASELINE, d);
    var v := Carrying(w, BASELINE, d);
    HeldCounted(slots, v);
    ReloadTotals(slots, v, hash, w.native[BASELINE]);
    ReloadIntentInv(slots, v, hash, w.native[BASELINE]);
    var u := ReloadIntent(v, hash, w.native[BASELINE]);
    RestartedInv(slots, u);
    ReloadedInv(slots, Restarted(u));
  }

  /**
   A run in which a reload loses bytes: a session opens on the baseline before the first switch and carries `d` after
   the reload's snapshot.
   */
  lemma ReloadLoses(slots: seq<Slot>, active: Digest, baseline: Digest, g: Generation, hash: Digest, d: Bytes)
    requires g.slot in slots && g.id != BASELINE && Reaches(ZERO, d) && d != ZERO
    ensures var w := Launched(Opened(Bootstrapped(active, baseline), BASELINE), g);
            && Inv(slots, w) && w.journal.phase.Steady? && BASELINE in w.native && BASELINE in w.busy
            && var v := Carrying(w, BASELINE, d);
            && Inv(slots, v) && Follows(slots, w, v)
            && var end := Reloaded(Restarted(ReloadIntent(v, hash, w.native[BASELINE])));
            && Inv(slots, end) && end.journal.phase.Steady? && end.dropped == d
            && BASELINE in v.native && (forall h | h in v.journal.generations :: h.id in v.native)
            && BASELINE in end.native && (forall h | h in end.journal.generations :: h.id in end.native)
            && Merged(end.journal, end.native) == Minus(Merged(v.journal, v.native), d) != Merged(v.journal, v.native)
  {
    hide Inv, Drift, Launched, Bootstrapped, Merged;
    BootstrapInv(slots, active, baseline);
    var w := Opened(Bootstrapped(active, baseline), BASELINE);
    OpenedInv(slots, Bootstrapped(active, baseline), BASELINE);
    LaunchedInv(slots, w, g);
    BaselineCounts(slots, Launched(w, g));
    ReloadedTooSoon(slots, Launched(w, g), hash, d);
  }
}
