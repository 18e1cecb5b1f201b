/**
 Hot switching of the WireGuard proxy: candidate, promotion and retirement of generations while
 flows come, go and send packets at every point in between.
 */
module Hotload {
  import opened Basics
  import opened HotloadRules

  type ProcessId = nat
  type FlowId = nat
  type Digest = string

  datatype Generation = Generation(port: Port, sha256: Digest)

  /** A running proxy process; a port that is used again gets a process with a new identity. */
  datatype Process = Process(id: ProcessId, sha256: Digest)

  /** A tracked flow: its connection mark and the process that handled each of its packets so far. */
  datatype Flow = Flow(mark: Mark, served: seq<ProcessId>)

  datatype World = World(
    generations: seq<Generation>, active: Port, legacyMarked: bool,
    running: map<Port, Process>, flows: map<FlowId, Flow>)

  function Ports(generations: seq<Generation>): seq<Port> {
    seq(|generations|, i requires 0 <= i < |generations| => generations[i].port)
  }

  // ---------------------------------------------------------------- invariant

  ghost predicate Listed(w: World) {
    && PlanOk(Ports(w.generations), w.active)
    && BASE_PORT in w.running && w.active in w.running
    && (!w.legacyMarked ==> w.active == BASE_PORT)
    && (forall g | g in w.generations && g.port in w.running :: w.running[g.port].sha256 == g.sha256)
  }

  predicate AllBy(served: seq<ProcessId>, id: ProcessId) {
    forall i | 0 <= i < |served| :: served[i] == id
  }

  /** The flow's mark names this port, and the process there handled every packet so far. */
  predicate At(ports: seq<Port>, running: map<Port, Process>, flow: Flow, p: Port) {
    Names(ports, flow.mark, p) && p in running && AllBy(flow.served, running[p].id)
  }

  /** Every packet of the flow so far was handled by the process its next packet will reach. */
  ghost predicate Pinned(ports: seq<Port>, running: map<Port, Process>, legacyMarked: bool, flow: Flow) {
    if High(flow.mark) == 0 then
      flow.served != [] ==> !legacyMarked && BASE_PORT in running && AllBy(flow.served, running[BASE_PORT].id)
    else
      exists p: Port :: At(ports, running, flow, p)
  }

  ghost predicate AllPinned(w: World) {
    forall f | f in w.flows :: Pinned(Ports(w.generations), w.running, w.legacyMarked, w.flows[f])
  }

  ghost predicate Inv(w: World) {
    Listed(w) && AllPinned(w)
  }

  /** One flow, one process: from its first packet to its last. */
  lemma FlowsNeverMove(w: World, f: FlowId)
    requires Inv(w) && f in w.flows
    ensures forall i, j | 0 <= i < |w.flows[f].served| && 0 <= j < |w.flows[f].served| ::
              w.flows[f].served[i] == w.flows[f].served[j]
    ensures High(w.flows[f].mark) == 0 || exists p: Port ::
              p in Ports(w.generations) && Owned(p) && High(w.flows[f].mark) == Cookie(p)
  {
    hide Cookie, High;
    assert Pinned(Ports(w.generations), w.running, w.legacyMarked, w.flows[f]);
    if High(w.flows[f].mark) != 0 {
      var p: Port :| At(Ports(w.generations), w.running, w.flows[f], p);
    }
  }

  // ---------------------------------------------------------------- traffic

  /** One packet of a flow through the chain. */
  function Sent(w: World, f: FlowId, packet: Packet): World
    requires Listed(w) && f in w.flows
  {
    var v := Walk(GenerationRules(Ports(w.generations), w.active).value, packet, w.flows[f].mark);
    var served := if v.port.Some? && v.port.value in w.running then [w.running[v.port.value].id] else [];
    w.(flows := w.flows[f := Flow(v.mark, w.flows[f].served + served)])
  }

  lemma SentInv(w: World, f: FlowId, packet: Packet)
    requires Inv(w) && f in w.flows
    ensures Inv(Sent(w, f, packet))
    ensures Low(Sent(w, f, packet).flows[f].mark) == Low(w.flows[f].mark)
  {
    hide Cookie, High, Low, SetXmark, Walk, GenerationRules;
    var ports := Ports(w.generations);
    var before, after := w.flows[f], Sent(w, f, packet).flows[f];
    ChainDecides(ports, w.active, packet, before.mark);
    CookieInHighByte(BASE_PORT);
    CookieInHighByte(w.active);
    SetXmarkPins(before.mark, Cookie(BASE_PORT));
    SetXmarkPins(before.mark, Cookie(w.active));
    assert Pinned(ports, w.running, w.legacyMarked, before);
    assert Pinned(ports, w.running, w.legacyMarked, after) by {
      var v := Walk(GenerationRules(ports, w.active).value, packet, before.mark);
      if High(before.mark) == 0 {
        var home := if packet.established && Carried(packet) then BASE_PORT else w.active;
        assert Names(ports, v.mark, home);
        if v.port.Some? { NamesOne(ports, v.mark, v.port.value, home); }
        assert At(ports, w.running, after, home);
      } else {
        var p: Port :| At(ports, w.running, before, p);
        if v.port.Some? { NamesOne(ports, v.mark, v.port.value, p); }
        assert At(ports, w.running, after, p);
      }
    }
    PinnedExcept(w, Sent(w, f, packet), f);
  }

  lemma PinnedExcept(w: World, v: World, f: FlowId)
    requires AllPinned(w) && v == w.(flows := v.flows) && v.flows.Keys <= w.flows.Keys + {f}
    requires forall g | g in v.flows && g != f :: g in w.flows && v.flows[g] == w.flows[g]
    requires f in v.flows ==> Pinned(Ports(w.generations), w.running, w.legacyMarked, v.flows[f])
    ensures AllPinned(v)
  {
    hide Pinned;
  }

  /** No tracked flow carries the cookie of the port. */
  ghost predicate NoFlows(w: World, port: Port)
    requires Owned(port)
  {
    forall f | f in w.flows :: High(w.flows[f].mark) != Cookie(port)
  }

  /** A port that gets no new flows stays without flows. */
  lemma SentNoFlows(w: World, f: FlowId, packet: Packet, port: Port)
    requires Inv(w) && f in w.flows && Owned(port) && port != BASE_PORT && port != w.active && NoFlows(w, port)
    ensures NoFlows(Sent(w, f, packet), port)
  {
    hide Cookie, High, Low, SetXmark, Walk, GenerationRules, AllPinned;
    var m := w.flows[f].mark;
    ChainDecides(Ports(w.generations), w.active, packet, m);
    CookieInHighByte(BASE_PORT);
    CookieInHighByte(w.active);
    SetXmarkPins(m, Cookie(BASE_PORT));
    SetXmarkPins(m, Cookie(w.active));
    CookiesDiffer(port, BASE_PORT);
    CookiesDiffer(port, w.active);
  }

  /** Every flow that was ever served carries a mark. */
  ghost predicate Fastened(w: World) {
    forall f | f in w.flows && w.flows[f].served != [] :: High(w.flows[f].mark) != 0
  }

  lemma SentFastened(w: World, f: FlowId, packet: Packet)
    requires Inv(w) && f in w.flows && Fastened(w)
    ensures Fastened(Sent(w, f, packet))
  {
    hide Cookie, High, Low, SetXmark, Walk, GenerationRules, AllPinned;
    var m := w.flows[f].mark;
    ChainDecides(Ports(w.generations), w.active, packet, m);
    CookieInHighByte(BASE_PORT);
    CookieInHighByte(w.active);
    SetXmarkPins(m, Cookie(BASE_PORT));
    SetXmarkPins(m, Cookie(w.active));
  }

  /** A flow whose mark has no high bits yet, and no packet served: another chain may have set low bits. */
  function Tracked(w: World, f: FlowId, m: Mark): World {
    w.(flows := w.flows[f := Flow(m, [])])
  }

  lemma TrackedInv(w: World, f: FlowId, m: Mark)
    requires Inv(w) && High(m) == 0
    ensures Inv(Tracked(w, f, m)) && (Fastened(w) ==> Fastened(Tracked(w, f, m)))
    ensures forall port: Port | Owned(port) && NoFlows(w, port) :: NoFlows(Tracked(w, f, m), port)
  {
    hide Cookie, High;
    var ports := Ports(w.generations);
    forall p: Port | Owned(p) ensures High(m) != Cookie(p) { CookieInHighByte(p); }
    assert Pinned(ports, w.running, w.legacyMarked, Flow(m, []));
    PinnedExcept(w, Tracked(w, f, m), f);
  }

  /** Another chain may change low bits only. */
  function Remarked(w: World, f: FlowId, m: Mark): World
    requires f in w.flows
  {
    w.(flows := w.flows[f := w.flows[f].(mark := m)])
  }

  lemma RemarkedInv(w: World, f: FlowId, m: Mark)
    requires Inv(w) && f in w.flows && High(m) == High(w.flows[f].mark)
    ensures Inv(Remarked(w, f, m)) && (Fastened(w) ==> Fastened(Remarked(w, f, m)))
    ensures forall port: Port | Owned(port) && NoFlows(w, port) :: NoFlows(Remarked(w, f, m), port)
  {
    hide Cookie, High, Pinned, AllPinned, PlanOk;
    assert AllPinned(w) && Pinned(Ports(w.generations), w.running, w.legacyMarked, w.flows[f]) by { PinnedNow(w, f); }
    RemarkedPinned(Ports(w.generations), w.running, w.legacyMarked, w.flows[f], m);
    PinnedExcept(w, Remarked(w, f, m), f);
  }

  lemma PinnedNow(w: World, f: FlowId)
    requires AllPinned(w) && f in w.flows
    ensures Pinned(Ports(w.generations), w.running, w.legacyMarked, w.flows[f])
  {
  }

  lemma RemarkedPinned(ports: seq<Port>, running: map<Port, Process>, legacyMarked: bool, flow: Flow, m: Mark)
    requires Pinned(ports, running, legacyMarked, flow) && High(m) == High(flow.mark)
    ensures Pinned(ports, running, legacyMarked, flow.(mark := m))
  {
    hide Cookie, High;
    if High(m) != 0 {
      var p: Port :| At(ports, running, flow, p);
      assert At(ports, running, flow.(mark := m), p);
    }
  }

  function Expired(w: World, f: FlowId): World {
    w.(flows := w.flows - {f})
  }

  lemma ExpiredInv(w: World, f: FlowId)
    requires Inv(w)
    ensures Inv(Expired(w, f)) && (Fastened(w) ==> Fastened(Expired(w, f)))
    ensures forall port: Port | Owned(port) && NoFlows(w, port) :: NoFlows(Expired(w, f), port)
  {
    hide Pinned;
  }

  // ---------------------------------------------------------------- the manager's steps

  /** `systemctl start` of a port that is neither listed nor running. */
  function Started(w: World, port: Port, p: Process): World {
    w.(running := w.running[port := p])
  }

  lemma StartedInv(w: World, port: Port, p: Process)
    requires Inv(w) && port !in Ports(w.generations) && port !in w.running
    ensures Inv(Started(w, port, p))
  {
    hide Cookie, High;
    var ports := Ports(w.generations);
    forall g | g in w.generations ensures g.port != port { InPorts(w.generations, g); }
    forall f | f in w.flows ensures Pinned(ports, w.running[port := p], w.legacyMarked, w.flows[f]) {
      assert Pinned(ports, w.running, w.legacyMarked, w.flows[f]);
      if High(w.flows[f].mark) != 0 {
        var q: Port :| At(ports, w.running, w.flows[f], q);
        assert At(ports, w.running[port := p], w.flows[f], q);
      }
    }
  }

  lemma InPorts(generations: seq<Generation>, g: Generation)
    requires g in generations
    ensures g.port in Ports(generations)
  {
    var i :| 0 <= i < |generations| && generations[i] == g;
    assert Ports(generations)[i] == g.port;
  }

  lemma PortListed(generations: seq<Generation>, port: Port)
    requires port in Ports(generations)
    ensures exists g | g in generations :: g.port == port
  {
    var i :| 0 <= i < |generations| && Ports(generations)[i] == port;
    assert generations[i] in generations;
  }

  /** The process of a port that serves no flow stops. */
  function Stopped(w: World, port: Port): World {
    w.(running := w.running - {port})
  }

  lemma StoppedInv(w: World, port: Port)
    requires Inv(w) && port != BASE_PORT && port != w.active
    requires port in Ports(w.generations) && Owned(port) ==> NoFlows(w, port)
    ensures Inv(Stopped(w, port))
  {
    hide Cookie, High;
    var ports := Ports(w.generations);
    forall f | f in w.flows ensures Pinned(ports, w.running - {port}, w.legacyMarked, w.flows[f]) {
      assert Pinned(ports, w.running, w.legacyMarked, w.flows[f]);
      if High(w.flows[f].mark) != 0 {
        var q: Port :| At(ports, w.running, w.flows[f], q);
        assert q != port;
        assert At(ports, w.running - {port}, w.flows[f], q);
      }
    }
  }

  /** The state write that lists a running candidate. */
  function Prepared(w: World, g: Generation): World {
    w.(generations := w.generations + [g])
  }

  lemma PreparedInv(w: World, g: Generation)
    requires Inv(w) && Owned(g.port) && g.port !in Ports(w.generations)
    requires g.port in w.running && w.running[g.port].sha256 == g.sha256
    ensures Inv(Prepared(w, g))
  {
    hide Cookie, High;
    var ports, more := Ports(w.generations), Ports(w.generations + [g]);
    assert more == ports + [g.port];
    forall f | f in w.flows ensures Pinned(more, w.running, w.legacyMarked, w.flows[f]) {
      var m := w.flows[f].mark;
      assert Pinned(ports, w.running, w.legacyMarked, w.flows[f]);
      if High(m) != 0 {
        var p: Port :| At(ports, w.running, w.flows[f], p);
        assert At(more, w.running, w.flows[f], p);
      }
    }
  }

  /** Firewall switch and state write of a promotion, as one step. */
  function Promoted(w: World, port: Port): World {
    w.(active := port)
  }

  lemma PromotedInv(w: World, port: Port)
    requires Inv(w) && port in Ports(w.generations) && port in w.running && w.legacyMarked
    ensures Inv(Promoted(w, port))
  {
    hide Pinned;
  }

  function Without(generations: seq<Generation>, port: Port): (r: seq<Generation>)
    ensures forall g | g in r :: g in generations && g.port != port
    ensures forall g | g in generations && g.port != port :: g in r
    ensures |r| <= |generations|
  {
    if generations == [] then []
    else if generations[0].port == port then Without(generations[1..], port)
    else [generations[0]] + Without(generations[1..], port)
  }

  lemma WithoutPorts(generations: seq<Generation>, port: Port)
    ensures forall p :: p in Ports(Without(generations, port)) <==> p in Ports(generations) && p != port
  {
    var rest := Without(generations, port);
    forall p ensures p in Ports(rest) <==> p in Ports(generations) && p != port {
      if p in Ports(rest) {
        PortListed(rest, p);
        var g :| g in rest && g.port == p;
        InPorts(generations, g);
      }
      if p in Ports(generations) && p != port {
        PortListed(generations, p);
        var g :| g in generations && g.port == p;
        InPorts(rest, g);
      }
    }
  }

  ghost predicate DistinctPorts(generations: seq<Generation>) {
    forall i, j | 0 <= i < j < |generations| :: generations[i].port != generations[j].port
  }

  lemma {:induction false} WithoutDistinct(generations: seq<Generation>, port: Port)
    requires DistinctPorts(generations)
    ensures DistinctPorts(Without(generations, port))
  {
    if generations != [] {
      var head, tail := generations[0], generations[1..];
      assert forall i | 0 <= i < |tail| :: tail[i] == generations[i + 1];
      WithoutDistinct(tail, port);
      var rest := Without(tail, port);
      forall i | 0 <= i < |rest| ensures rest[i].port != head.port {
        assert rest[i] in rest && rest[i] in tail;
      }
    }
  }

  /** The state write that drops a stopped generation. */
  function Dropped(w: World, port: Port): World {
    w.(generations := Without(w.generations, port))
  }

  lemma DroppedInv(w: World, port: Port)
    requires Inv(w) && port != BASE_PORT && port != w.active && port !in w.running
    ensures Inv(Dropped(w, port))
  {
    hide Cookie, High, Without;
    assert forall i | 0 <= i < |w.generations| :: w.generations[i].port == Ports(w.generations)[i];
    WithoutDistinct(w.generations, port);
    WithoutPorts(w.generations, port);
    var ports, fewer := Ports(w.generations), Ports(Without(w.generations, port));
    assert forall i | 0 <= i < |fewer| :: fewer[i] == Without(w.generations, port)[i].port;
    assert PlanOk(fewer, w.active);
    forall f | f in w.flows ensures Pinned(fewer, w.running, w.legacyMarked, w.flows[f]) {
      var m := w.flows[f].mark;
      assert Pinned(ports, w.running, w.legacyMarked, w.flows[f]);
      if High(m) != 0 {
        var p: Port :| At(ports, w.running, w.flows[f], p);
        assert At(fewer, w.running, w.flows[f], p);
      }
    }
  }

  /** `conntrack -U`: every flow that is not the base generation's becomes it. */
  function Migrated(w: World): World {
    w.(flows := map f | f in w.flows :: w.flows[f].(mark := SetXmark(w.flows[f].mark, Cookie(BASE_PORT))))
  }

  ghost predicate OnlyBase(w: World) {
    forall f | f in w.flows :: High(w.flows[f].mark) == 0 || High(w.flows[f].mark) == Cookie(BASE_PORT)
  }

  lemma MigratedInv(w: World)
    requires Inv(w) && !w.legacyMarked && OnlyBase(w)
    ensures Inv(Migrated(w)) && Fastened(Migrated(w))
    ensures forall f | f in w.flows :: Low(Migrated(w).flows[f].mark) == Low(w.flows[f].mark)
  {
    hide Cookie, High, SetXmark, Low;
    var v := Migrated(w);
    var ports := Ports(w.generations);
    CookieInHighByte(BASE_PORT);
    forall f | f in v.flows ensures Pinned(ports, v.running, v.legacyMarked, v.flows[f]) && High(v.flows[f].mark) == Cookie(BASE_PORT)
      && Low(v.flows[f].mark) == Low(w.flows[f].mark)
    {
      SetXmarkPins(w.flows[f].mark, Cookie(BASE_PORT));
      assert Pinned(ports, w.running, w.legacyMarked, w.flows[f]);
      if High(w.flows[f].mark) != 0 {
        var p: Port :| At(ports, w.running, w.flows[f], p);
        NamesOne(ports, w.flows[f].mark, p, BASE_PORT);
      }
      assert At(ports, v.running, v.flows[f], BASE_PORT);
    }
  }

  lemma MarkedInv(w: World)
    requires Inv(w) && Fastened(w)
    ensures Inv(w.(legacyMarked := true))
  {
    hide Cookie, High;
    forall f | f in w.flows ensures Pinned(Ports(w.generations), w.running, true, w.flows[f]) {
      assert Pinned(Ports(w.generations), w.running, w.legacyMarked, w.flows[f]);
    }
  }
}
