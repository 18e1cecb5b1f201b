/** The connection-mark rules that pin each flow to the proxy generation that first served it. */
module HotloadRules {
  import opened Basics

  type Port = nat
  type Mark = bv32

  const BASE_PORT: Port := 61037
  const SLOT_COUNT: nat := 10
  const PORT_LIMIT: Port := BASE_PORT + SLOT_COUNT
  const COOKIE_MASK: Mark := 0xFF00_0000

  predicate Owned(port: Port) { BASE_PORT <= port < PORT_LIMIT }

  /** The connection mark of a generation: its slot number, counted from one, in the high byte. */
  function Cookie(port: Port): Mark
    requires Owned(port)
  {
    ((port - BASE_PORT + 1) as bv32) << 24
  }

  function High(m: Mark): Mark { m & COOKIE_MASK }

  function Low(m: Mark): Mark { m & !COOKIE_MASK }

  lemma CookieTable(port: Port)
    requires Owned(port)
    ensures Cookie(port) == match port - BASE_PORT
                            case 0 => 0x0100_0000 case 1 => 0x0200_0000 case 2 => 0x0300_0000 case 3 => 0x0400_0000
                            case 4 => 0x0500_0000 case 5 => 0x0600_0000 case 6 => 0x0700_0000 case 7 => 0x0800_0000
                            case 8 => 0x0900_0000 case _ => 0x0A00_0000
  {
  }

  lemma CookieInHighByte(port: Port)
    requires Owned(port)
    ensures High(Cookie(port)) == Cookie(port) && Low(Cookie(port)) == 0 && Cookie(port) != 0
  {
    CookieTable(port);
  }

  lemma CookiesDiffer(p: Port, q: Port)
    requires Owned(p) && Owned(q) && p != q
    ensures Cookie(p) != Cookie(q)
  {
    CookieTable(p);
    CookieTable(q);
  }

  /** CONNMARK --set-xmark value/mask. */
  function SetXmark(m: Mark, value: Mark): Mark { (m & !COOKIE_MASK) ^ value }

  lemma SetXmarkPins(m: Mark, value: Mark)
    requires Low(value) == 0
    ensures High(SetXmark(m, value)) == value && Low(SetXmark(m, value)) == Low(m)
  {
  }

  // ---------------------------------------------------------------- the chain

  datatype Proto = TCP | UDP | OtherProto

  /** `established` is conntrack's RELATED,ESTABLISHED. */
  datatype Packet = Packet(proto: Proto, established: bool)

  datatype Rule =
    | Connmark(proto: Option<Proto>, onlyEstablished: bool, mark: Mark, value: Mark)
    | Tproxy(carrier: Proto, mark: Mark, port: Port)

  datatype Verdict = Verdict(mark: Mark, port: Option<Port>)

  predicate Hits(rule: Rule, packet: Packet, m: Mark) {
    && High(m) == rule.mark
    && match rule
       case Connmark(proto, est, _, _) => (proto.Some? ==> proto.value == packet.proto) && (est ==> packet.established)
       case Tproxy(proto, _, _) => proto == packet.proto
  }

  /** Rules in order: CONNMARK changes the mark and goes on, TPROXY ends the walk. */
  function Walk(rules: seq<Rule>, packet: Packet, m: Mark): Verdict {
    if rules == [] then Verdict(m, None)
    else if !Hits(rules[0], packet, m) then Walk(rules[1..], packet, m)
    else match rules[0]
      case Connmark(_, _, _, value) => Walk(rules[1..], packet, SetXmark(m, value))
      case Tproxy(_, _, port) => Verdict(m, Some(port))
  }

  predicate PlanOk(ports: seq<Port>, active: Port) {
    && BASE_PORT in ports && active in ports
    && (forall p | p in ports :: Owned(p))
    && (forall i, j | 0 <= i < j < |ports| :: ports[i] != ports[j])
  }

  /** The TPROXY rules of `sorted(ports)` from a port on. */
  function TproxyFrom(ports: seq<Port>, from: Port): seq<Rule>
    requires BASE_PORT <= from <= PORT_LIMIT
    decreases PORT_LIMIT - from
  {
    if from == PORT_LIMIT then []
    else (if from in ports then [Tproxy(TCP, Cookie(from), from), Tproxy(UDP, Cookie(from), from)] else [])
         + TproxyFrom(ports, from + 1)
  }

  /** `_hotload_generation_rules`; None where it raises. */
  function GenerationRules(ports: seq<Port>, active: Port): (r: Option<seq<Rule>>)
    ensures r.Some? <==> PlanOk(ports, active)
  {
    if !PlanOk(ports, active) then None
    else Some([Connmark(Some(TCP), true, 0, Cookie(BASE_PORT)),
               Connmark(Some(UDP), true, 0, Cookie(BASE_PORT)),
               Connmark(None, false, 0, Cookie(active))]
              + TproxyFrom(ports, BASE_PORT))
  }

  /** The TPROXY rules are one for each protocol and listed port, to that port and under its own mark. */
  lemma {:induction false} TproxyRules(ports: seq<Port>, from: Port, proto: Proto, mark: Mark, port: Port)
    requires BASE_PORT <= from <= PORT_LIMIT && Owned(port) && from <= port
    ensures Tproxy(proto, mark, port) in TproxyFrom(ports, from) <==>
              port in ports && mark == Cookie(port) && (proto.TCP? || proto.UDP?)
    decreases PORT_LIMIT - from
  {
    hide Cookie;
    if from < port {
      TproxyRules(ports, from + 1, proto, mark, port);
    } else {
      NoLowerPorts(ports, from + 1, proto, mark, port);
    }
  }

  lemma {:induction false} NoLowerPorts(ports: seq<Port>, from: Port, proto: Proto, mark: Mark, port: Port)
    requires BASE_PORT <= from <= PORT_LIMIT && port < from
    ensures Tproxy(proto, mark, port) !in TproxyFrom(ports, from)
    decreases PORT_LIMIT - from
  {
    hide Cookie;
    if from < PORT_LIMIT { NoLowerPorts(ports, from + 1, proto, mark, port); }
  }

  // ---------------------------------------------------------------- what the chain decides

  predicate Carried(packet: Packet) { packet.proto.TCP? || packet.proto.UDP? }

  /** The generation a mark names, if it is listed. */
  predicate Names(ports: seq<Port>, m: Mark, port: Port) {
    port in ports && Owned(port) && High(m) == Cookie(port)
  }

  lemma NamesOne(ports: seq<Port>, m: Mark, p: Port, q: Port)
    requires Names(ports, m, p) && Names(ports, m, q)
    ensures p == q
  {
    if p != q { CookiesDiffer(p, q); }
  }

  lemma {:induction false} TproxyDecides(ports: seq<Port>, from: Port, packet: Packet, m: Mark)
    requires BASE_PORT <= from <= PORT_LIMIT
    ensures Walk(TproxyFrom(ports, from), packet, m).mark == m
    ensures var port := Walk(TproxyFrom(ports, from), packet, m).port;
            && (port.Some? ==> Names(ports, m, port.value) && from <= port.value)
            && (Carried(packet) ==> forall p: Port | Names(ports, m, p) && from <= p :: port == Some(p))
    decreases PORT_LIMIT - from
  {
    hide Cookie, High;
    if from < PORT_LIMIT {
      var rest := TproxyFrom(ports, from + 1);
      TproxyDecides(ports, from + 1, packet, m);
      if from in ports {
        var rules := TproxyFrom(ports, from);
        assert rules[1..][1..] == rest;
        forall p: Port | Names(ports, m, p) && Names(ports, m, from) ensures p == from { NamesOne(ports, m, p, from); }
      } else {
        assert TproxyFrom(ports, from) == rest;
      }
    }
  }

  /** The whole chain, for every mark and packet. */
  function Decided(ports: seq<Port>, active: Port, packet: Packet, m: Mark): Mark
    requires PlanOk(ports, active)
  {
    if High(m) != 0 then m
    else if packet.established && Carried(packet) then SetXmark(m, Cookie(BASE_PORT))
    else SetXmark(m, Cookie(active))
  }

  /**
   An unmarked flow is pinned: to the base listener when it is already established, to the active
   generation when it is new. A marked flow goes to the generation its mark names and to no other.
   The low 24 bits never change.
   */
  lemma ChainDecides(ports: seq<Port>, active: Port, packet: Packet, m: Mark)
    requires PlanOk(ports, active)
    ensures var v := Walk(GenerationRules(ports, active).value, packet, m);
            && v.mark == Decided(ports, active, packet, m) && Low(v.mark) == Low(m)
            && (v.port.Some? ==> Names(ports, v.mark, v.port.value))
            && (Carried(packet) ==> forall p: Port | Names(ports, v.mark, p) :: v.port == Some(p))
  {
    hide Cookie, SetXmark, High, Low, Walk;
    var rules := GenerationRules(ports, active).value;
    var tail := TproxyFrom(ports, BASE_PORT);
    assert rules[1..][1..][1..] == tail;
    CookieInHighByte(BASE_PORT);
    CookieInHighByte(active);
    SetXmarkPins(m, Cookie(BASE_PORT));
    SetXmarkPins(m, Cookie(active));
    var mark := Decided(ports, active, packet, m);
    WalkMarks(rules, tail, ports, active, packet, m);
    TproxyDecides(ports, BASE_PORT, packet, mark);
  }

  lemma WalkMarks(rules: seq<Rule>, tail: seq<Rule>, ports: seq<Port>, active: Port, packet: Packet, m: Mark)
    requires PlanOk(ports, active)
    requires rules == [Connmark(Some(TCP), true, 0, Cookie(BASE_PORT)),
                       Connmark(Some(UDP), true, 0, Cookie(BASE_PORT)),
                       Connmark(None, false, 0, Cookie(active))] + tail
    ensures Walk(rules, packet, m) == Walk(tail, packet, Decided(ports, active, packet, m))
  {
    hide Cookie, SetXmark, High, Low;
    CookieInHighByte(BASE_PORT);
    CookieInHighByte(active);
    SetXmarkPins(m, Cookie(BASE_PORT));
    SetXmarkPins(m, Cookie(active));
    var second := rules[1..];
    var third := second[1..];
    assert third[1..] == tail;
    var base := SetXmark(m, Cookie(BASE_PORT));
    if High(m) != 0 {
      assert Walk(rules, packet, m) == Walk(second, packet, m) == Walk(third, packet, m) == Walk(tail, packet, m);
    } else if packet.established && packet.proto.TCP? {
      assert Walk(rules, packet, m) == Walk(second, packet, base) == Walk(third, packet, base) == Walk(tail, packet, base);
    } else if packet.established && packet.proto.UDP? {
      assert Walk(rules, packet, m) == Walk(second, packet, m) == Walk(third, packet, base) == Walk(tail, packet, base);
    } else {
      assert Walk(rules, packet, m) == Walk(second, packet, m) == Walk(third, packet, m);
    }
  }
}
