/** The route synchroniser's methods. Flows keep arriving, sending and expiring between any two of its steps. */
module HotloadSwitch {
  import opened Basics
  import opened HotloadRules
  import opened Hotload

  datatype Outcome = Kept | Switched | Pending

  /** What traffic alone can never undo. */
  ghost predicate Stable(w: World, v: World) {
    && v == w.(flows := v.flows)
    && (forall port: Port | Owned(port) && port != BASE_PORT && port != w.active && NoFlows(w, port) ::
        NoFlows(v, port))
    && (Fastened(w) ==> Fastened(v))
    && (w.active == BASE_PORT && OnlyBase(w) ==> OnlyBase(v))
  }

  lemma StableItself(w: World)
    ensures Stable(w, w)
  {
  }

  lemma StableTransitive(u: World, v: World, w: World)
    requires Stable(u, v) && Stable(v, w)
    ensures Stable(u, w)
  {
    hide High, Cookie, NoFlows, Fastened, OnlyBase;
  }

  lemma SentStable(w: World, f: FlowId, packet: Packet)
    requires Inv(w) && f in w.flows
    ensures Stable(w, Sent(w, f, packet))
  {
    hide Cookie, High, Low, SetXmark, Walk, GenerationRules, AllPinned, NoFlows, Fastened;
    var v := Sent(w, f, packet);
    forall port: Port | Owned(port) && port != BASE_PORT && port != w.active && NoFlows(w, port) ensures NoFlows(v, port) {
      SentNoFlows(w, f, packet, port);
    }
    if Fastened(w) { SentFastened(w, f, packet); }
    var m := w.flows[f].mark;
    ChainDecides(Ports(w.generations), w.active, packet, m);
    CookieInHighByte(BASE_PORT);
    SetXmarkPins(m, Cookie(BASE_PORT));
  }

  lemma QuietStable(w: World, v: World)
    requires v == w.(flows := v.flows) && (Fastened(w) ==> Fastened(v)) && (OnlyBase(w) ==> OnlyBase(v))
    requires forall port: Port | Owned(port) && NoFlows(w, port) :: NoFlows(v, port)
    ensures Stable(w, v)
  {
  }

  /** A port that gets no new flows stays without them. */
  ghost predicate KeepsEmpty(w: World, v: World) {
    && v.active == w.active
    && (forall port: Port | Owned(port) && port != BASE_PORT && port != w.active && NoFlows(w, port) ::
        NoFlows(v, port))
  }

  lemma KeepsEmptyItself(w: World)
    ensures KeepsEmpty(w, w)
  {
  }

  lemma KeepsEmptyTransitive(u: World, v: World, w: World)
    requires KeepsEmpty(u, v) && KeepsEmpty(v, w)
    ensures KeepsEmpty(u, w)
  {
    hide NoFlows;
  }

  lemma StableKeepsEmpty(u: World, v: World, w: World)
    requires KeepsEmpty(u, v) && Stable(v, w)
    ensures KeepsEmpty(u, w)
  {
    hide NoFlows, Fastened, OnlyBase;
  }

  lemma SameFlowsEmpty(u: World, v: World, w: World)
    requires KeepsEmpty(u, v) && w.flows == v.flows && w.active == v.active
    ensures KeepsEmpty(u, w)
  {
    hide High, Cookie;
  }

  lemma NowEmpty(w: World, v: World, port: Port)
    requires KeepsEmpty(w, v) && Owned(port) && port != BASE_PORT && port != w.active && NoFlows(w, port)
    ensures NoFlows(v, port)
  {
    hide NoFlows;
  }

  /** A port of the pool whose unit is known to be inactive; `unclear` are those whose unit gave no clear answer. */
  ghost predicate FreePort(w: World, p: Port, unclear: set<Port>) {
    61037 < p < 61047 && p !in Ports(w.generations) && p !in w.running && p !in unclear
  }

  class Switch {
    var generations: seq<Generation>
    var active: Port
    var legacyMarked: bool
    var running: map<Port, Process>
    var flows: map<FlowId, Flow>
    var nextProcess: ProcessId

    ghost function W(): World
      reads this
    {
      World(generations, active, legacyMarked, running, flows)
    }

    ghost predicate Valid()
      reads this
    {
      Inv(W())
    }

    /** `_initial_state`: the base generation alone, and the unmarked flows it already serves. */
    constructor (sha256: Digest, flows: map<FlowId, Flow>)
      requires forall f | f in flows :: High(flows[f].mark) == 0 && AllBy(flows[f].served, 0)
      ensures Valid() && OnlyBase(W()) && active == BASE_PORT && !legacyMarked && this.flows == flows
    {
      generations, active, legacyMarked := [Generation(BASE_PORT, sha256)], BASE_PORT, false;
      running, this.flows, nextProcess := map[BASE_PORT := Process(0, sha256)], flows, 1;
      new;
      hide Cookie, High;
      assert Ports(generations) == [BASE_PORT];
    }

    /** One thing that may happen to the tracked flows. */
    method OneEvent()
      requires Valid()
      modifies `flows
      ensures Valid() && Stable(old(W()), W())
    {
      hide Inv, Stable, NoFlows, Fastened, OnlyBase, High;
      ghost var w := W();
      var f: FlowId := *;
      if f !in flows {
        var m: Mark := *;
        if High(m) == 0 {
          TrackedInv(w, f, m);
          TrackedOnlyBase(w, f, m);
          QuietStable(w, Tracked(w, f, m));
          flows := flows[f := Flow(m, [])];
        } else {
          StableItself(w);
        }
      } else if * {
        var packet: Packet := *;
        ListedNow(w);
        SentInv(w, f, packet);
        SentStable(w, f, packet);
        var v := Walk(GenerationRules(Ports(generations), active).value, packet, flows[f].mark);
        var served := if v.port.Some? && v.port.value in running then [running[v.port.value].id] else [];
        flows := flows[f := Flow(v.mark, flows[f].served + served)];
      } else if * {
        ExpiredInv(w, f);
        ExpiredOnlyBase(w, f);
        QuietStable(w, Expired(w, f));
        flows := flows - {f};
      } else {
        var m: Mark := *;
        if High(m) == High(flows[f].mark) {
          RemarkedInv(w, f, m);
          RemarkedOnlyBase(w, f, m);
          QuietStable(w, Remarked(w, f, m));
          flows := flows[f := flows[f].(mark := m)];
        } else {
          StableItself(w);
        }
      }
    }

    method Traffic()
      requires Valid()
      modifies `flows
      ensures Valid() && Stable(old(W()), W())
    {
      hide Inv, Stable;
      StableItself(W());
      var n: nat :| true;
      for i := 0 to n
        invariant Valid() && Stable(old(W()), W())
      {
        ghost var w := W();
        OneEvent();
        StableTransitive(old(W()), w, W());
      }
    }
  
    /** Whether a command fails or the process stops here; in calm weather neither happens. */
    static method Fails(calm: bool) returns (fails: bool)
      ensures fails ==> !calm
    {
      fails := *;
      fails := fails && !calm;
    }

    /** `_conntrack_empty`; a failing query counts as not empty. */
    method ConntrackEmpty(port: Port, calm: bool) returns (empty: bool)
      requires Owned(port)
      ensures empty ==> NoFlows(W(), port)
      ensures calm && NoFlows(W(), port) ==> empty
    {
      var fails := Fails(calm);
      if fails { return false; }
      empty := forall f | f in flows :: High(flows[f].mark) != Cookie(port);
    }

    /**
     One generation of `_retire_inactive`: it is stopped only after two proofs that no flow carries its
     cookie, and traffic cannot give it one in between.
     */
    method Retire(port: Port, calm: bool) returns (retired: bool)
      requires Valid() && port in Ports(generations)
      modifies `generations, `running, `flows
      ensures Valid()
      ensures retired <==> generations != old(generations)
      ensures retired ==> port != BASE_PORT && port != active && generations == Without(old(generations), port)
                          && running == old(running) - {port}
      ensures running == old(running) || running == old(running) - {port}
      ensures active in running && running[active] == old(running)[active]
      ensures KeepsEmpty(old(W()), W())
      ensures calm && Owned(port) && port != BASE_PORT && port != active && NoFlows(old(W()), port) ==> retired
    {
      hide Inv, Stable, NoFlows, Without, KeepsEmpty;
      ListedNow(W());
      OwnedPort(W(), port);
      ghost var start := W();
      KeepsEmptyItself(start);
      if port == BASE_PORT || port == active { return false; }
      var empty := ConntrackEmpty(port, calm);
      Traffic();
      StableKeepsEmpty(start, start, W());
      if !empty { return false; }
      StillEmpty(start, W(), port);
      var fails := Fails(calm);
      if fails { return false; } // not drained
      empty := ConntrackEmpty(port, calm);
      if !empty { return false; }
      ghost var seen := W();
      Traffic();
      StableKeepsEmpty(start, seen, W());
      StillEmpty(seen, W(), port);
      fails := Fails(calm);
      if fails { return false; } // the unit could not be stopped
      StoppedInv(W(), port);
      ghost var before := W();
      running := running - {port};
      SameFlowsEmpty(start, before, W());
      ghost var stopped := W();
      Traffic();
      StableKeepsEmpty(start, stopped, W());
      fails := Fails(calm);
      if fails { return false; } // a crash, or the state could not be written: still listed, not running
      DroppedInv(W(), port);
      ghost var last := W();
      Gone(W(), port);
      generations := Without(generations, port);
      SameFlowsEmpty(start, last, W());
      retired := true;
    }

    /** `_retire_inactive` over the generations listed when it starts. */
    method RetireInactive(calm: bool)
      requires Valid()
      modifies `generations, `running, `flows
      ensures Valid() && active in running && active in old(running)
      ensures forall p | p in running :: p in old(running) && running[p] == old(running)[p]
      ensures forall p | p in Ports(generations) :: p in Ports(old(generations))
      ensures calm ==> forall p | p in Ports(generations) ::
                p == BASE_PORT || p == active || (Owned(p) ==> !NoFlows(old(W()), p))
    {
      hide Inv, NoFlows, KeepsEmpty, Without;
      ListedNow(W());
      KeepsEmptyItself(W());
      var fails := Fails(calm);
      if fails { return; } // the state changed less than a minute ago
      var todo := generations;
      for i := 0 to |todo|
        invariant Valid() && active in running && active in old(running)
        invariant forall p | p in running :: p in old(running) && running[p] == old(running)[p]
        invariant forall p | p in Ports(generations) :: p in Ports(todo)
        invariant KeepsEmpty(old(W()), W())
        invariant calm ==> forall k | 0 <= k < i && todo[k].port in Ports(generations) ::
                    todo[k].port == BASE_PORT || todo[k].port == active
                    || (Owned(todo[k].port) ==> !NoFlows(old(W()), todo[k].port))
      {
        var port := todo[i].port;
        if port in Ports(generations) {
          ghost var w := W();
          if Owned(port) && port != BASE_PORT && port != active && NoFlows(old(W()), port) {
            NowEmpty(old(W()), w, port);
          }
          var retired := Retire(port, calm);
          KeepsEmptyTransitive(old(W()), w, W());
          if retired { WithoutPorts(w.generations, port); }
        }
        fails := Fails(calm);
        if fails { return; }
      }
    }

    /** `_allocate_port`: the first free slot above the base, or None when there is none. */
    method AllocatePort(unclear: set<Port>) returns (port: Option<Port>)
      requires Valid()
      ensures port.Some? ==> FreePort(W(), port.value, unclear) && forall p: Port | FreePort(W(), p, unclear) ::
                port.value <= p
      ensures port.None? ==> forall p: Port :: !FreePort(W(), p, unclear)
    {
      hide Inv;
      var tracked := Ports(generations);
      for p := BASE_PORT + 1 to PORT_LIMIT
        invariant forall q: Port | FreePort(W(), q, unclear) :: p <= q
      {
        if p !in tracked && p !in running && p !in unclear { return Some(p); }
      }
      return None;
    }

    /** `_start_new_candidate`: the candidate is listed only once it runs. */
    method StartNewCandidate(sha256: Digest, calm: bool) returns (port: Option<Port>)
      requires Valid()
      modifies `generations, `running, `flows, `nextProcess
      ensures Valid()
      ensures forall p | p in old(running) :: p in running && running[p] == old(running)[p]
      ensures port.Some? ==> port.value in Ports(generations) && port.value in running
                             && running[port.value].sha256 == sha256
                             && port.value !in old(running)
                             && generations == old(generations) + [Generation(port.value, sha256)]
      ensures port.None? ==> generations == old(generations)
      ensures calm && (exists p: Port :: FreePort(old(W()), p, {})) ==>
                port.Some? && FreePort(old(W()), port.value, {}) && forall p: Port | FreePort(old(W()), p, {}) ::
                    port.value <= p
    {
      hide Inv, Stable, NoFlows;
      var unclear: set<Port> := *;
      if calm { unclear := {}; }
      port := AllocatePort(unclear);
      if port.None? { return; }
      var p := port.value;
      StartedInv(W(), p, Process(nextProcess, sha256));
      running := running[p := Process(nextProcess, sha256)];
      nextProcess := nextProcess + 1;
      Traffic();
      ListedNow(W());
      var fails := Fails(calm);
      if fails {
        // not ready: an unlisted candidate may be stopped
        Unlisted(W(), p);
        StoppedInv(W(), p);
        running := running - {p};
        return None;
      }
      fails := Fails(calm);
      if fails { return None; } // the state could not be written; the candidate keeps running, unrouted
      PreparedInv(W(), Generation(p, sha256));
      generations := generations + [Generation(p, sha256)];
      assert Ports(generations)[|generations| - 1] == p;
    }

    /** `_candidate_for_hash`: a listed, ready generation with the wanted configuration. */
    method CandidateForHash(sha256: Digest, calm: bool) returns (port: Option<Port>)
      requires Valid()
      ensures port.Some? ==> port.value in Ports(generations) && port.value in running
                             && running[port.value].sha256 == sha256
                             && port.value != active
      ensures calm && port.None? ==>
                forall g | g in generations && g.sha256 == sha256 && g.port in running :: g.port == active
    {
      ListedNow(W());
      hide Inv, PlanOk;
      for i := 0 to |generations|
        invariant calm ==> forall k | 0 <= k < i && generations[k].sha256 == sha256 && generations[k].port in running ::
                    generations[k].port == active
      {
        var g := generations[i];
        if g.port != active && g.sha256 == sha256 && g.port in running {
          assert g in generations;
          InPorts(generations, g);
          var unready := Fails(calm);
          if !unready { return Some(g.port); } // ready on TCP and UDP
        }
      }
      return None;
    }

    /** The marking of flows that predate hot switching, before the first promotion. */
    method PinLegacy(calm: bool) returns (ok: bool)
      requires Valid() && !legacyMarked
      modifies `flows, `legacyMarked
      ensures Valid() && ok == legacyMarked && (ok ==> Fastened(W()))
      ensures calm && active == BASE_PORT && OnlyBase(old(W())) ==> ok
    {
      hide Inv, Stable, OnlyBase, Fastened, Cookie, High, SetXmark;
      ListedNow(W());
      ghost var start := W();
      Traffic();
      if active == BASE_PORT && OnlyBase(start) {
        StillOnlyBase(start, W());
        BaseMeans(W());
      }
      var owned := forall f | f in flows :: High(flows[f].mark) == 0 || High(flows[f].mark) == Cookie(BASE_PORT);
      if !owned { return false; }
      ghost var checked := W();
      BaseChecked(checked);
      Traffic();
      StillOnlyBase(checked, W());
      MigratedInv(W());
      flows := map f | f in flows :: flows[f].(mark := SetXmark(flows[f].mark, Cookie(BASE_PORT)));
      ghost var migrated := W();
      Traffic();
      StillFastened(migrated, W());
      var fails := Fails(calm);
      if fails { return false; }
      MarkedInv(W());
      FastenedFlows(W(), W().(legacyMarked := true));
      legacyMarked := true;
      ok := true;
    }

    /**
     `sync_routes`. Flows are pinned at every moment; when it reports a switch, new flows are handled by
     a process that runs the wanted configuration.
     */
    method SyncRoutes(sha256: Digest, reusable: bool, calm: bool) returns (r: Outcome)
      requires Valid()
      modifies this
      ensures Valid()
      ensures r.Switched? ==> active in running && running[active].sha256 == sha256
      ensures r.Kept? ==> reusable
      ensures !r.Switched? ==> active == old(active) && active in running && active in old(running)
                               && running[active] == old(running)[active]
      ensures calm && (old(legacyMarked) || (old(active) == BASE_PORT && OnlyBase(old(W())))) ==>
                if reusable then r.Kept? else (exists p: Port :: FreePort(old(W()), p, {})) ==> r.Switched?
    {
      hide Inv, Stable, PlanOk, OnlyBase;
      ListedNow(W());
      if !legacyMarked {
        var ok := PinLegacy(calm);
        if !ok { return Pending; }
      }
      Traffic();
      var fails := Fails(calm);
      if active != BASE_PORT && fails { return Pending; } // the active generation is not ready
      if reusable {
        RetireInactive(calm);
        return Kept;
      }
      RetireInactive(calm);
      assert forall p: Port | FreePort(old(W()), p, {}) :: FreePort(W(), p, {});
      var candidate := CandidateForHash(sha256, calm);
      if candidate.None? {
        candidate := StartNewCandidate(sha256, calm);
        if candidate.None? { return Pending; }
      }
      fails := Fails(calm);
      if fails { return Pending; } // the switch failed and the previous rules were restored
      PromotedInv(W(), candidate.value);
      active := candidate.value;
      RetireInactive(calm);
      return Switched;
    }
  }

  lemma FastenedFlows(w: World, v: World)
    requires Fastened(w) && w.flows == v.flows
    ensures Fastened(v)
  {
  }

  lemma ListedNow(w: World)
    requires Inv(w)
    ensures Listed(w)
  {
  }

  lemma TrackedOnlyBase(w: World, f: FlowId, m: Mark)
    requires High(m) == 0
    ensures OnlyBase(w) ==> OnlyBase(Tracked(w, f, m))
  {
    hide High, Cookie;
  }

  lemma ExpiredOnlyBase(w: World, f: FlowId)
    ensures OnlyBase(w) ==> OnlyBase(Expired(w, f))
  {
    hide High, Cookie;
  }

  lemma RemarkedOnlyBase(w: World, f: FlowId, m: Mark)
    requires f in w.flows && High(m) == High(w.flows[f].mark)
    ensures OnlyBase(w) ==> OnlyBase(Remarked(w, f, m))
  {
    hide High, Cookie;
  }

  lemma OwnedPort(w: World, port: Port)
    requires Listed(w) && port in Ports(w.generations)
    ensures Owned(port)
  {
  }

  lemma StillEmpty(w: World, v: World, port: Port)
    requires Stable(w, v) && Owned(port) && port != BASE_PORT && port != w.active && NoFlows(w, port)
    ensures NoFlows(v, port)
  {
    hide NoFlows;
  }

  lemma StillOnlyBase(w: World, v: World)
    requires Stable(w, v) && w.active == BASE_PORT && OnlyBase(w)
    ensures OnlyBase(v)
  {
    hide OnlyBase;
  }

  lemma StillFastened(w: World, v: World)
    requires Stable(w, v) && Fastened(w)
    ensures Fastened(v)
  {
    hide Fastened;
  }

  lemma BaseChecked(w: World)
    requires forall f | f in w.flows :: High(w.flows[f].mark) == 0 || High(w.flows[f].mark) == Cookie(BASE_PORT)
    ensures OnlyBase(w)
  {
    hide High, Cookie;
  }

  lemma BaseMeans(w: World)
    requires OnlyBase(w)
    ensures forall f | f in w.flows :: High(w.flows[f].mark) == 0 || High(w.flows[f].mark) == Cookie(BASE_PORT)
  {
    hide High, Cookie;
  }

  lemma Unlisted(w: World, port: Port)
    requires Listed(w) && port !in Ports(w.generations)
    ensures port != BASE_PORT && port != w.active
  {
  }

  lemma Gone(w: World, port: Port)
    requires port in Ports(w.generations)
    ensures Without(w.generations, port) != w.generations
  {
    PortListed(w.generations, port);
  }
}
