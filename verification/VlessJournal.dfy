/**
 The journal of rolling VLESS generations: which processes it lists, where new connections go, and
 what the merged byte totals count.
 */
module VlessJournal {
  import opened Basics
  import opened ByteCounts

  type Id = string
  type SlotName = string
  type Port = nat
  type Digest = string

  const BASELINE: Id := "baseline"

  datatype Slot = Slot(name: SlotName, port: Port)

  datatype Generation = Generation(id: Id, slot: Slot, hash: Digest, nativeStart: Bytes)

  datatype Phase =
    | Steady
    | Retiring(endpoint: Generation, delta: Bytes)
    | Switching(pending: Generation)
    | Reloading(pendingHash: Digest, previousListener: nat)

  datatype Journal = Journal(
    phase: Phase, generations: seq<Generation>, activeId: Id, activeHash: Digest,
    baselineHash: Digest, nativeCarry: Bytes, retiredTotals: Bytes)

  /**
   The machine around the journal: the redirect target (None is the baseline listener), each process's
   native counters, which generations run, and which processes hold sessions. `carried` is what all
   processes carried since they were counted, `dropped` the part no total will ever show, and `doubled`
   what the carry repeats until the baseline core starts over.
   */
  datatype World = World(
    journal: Journal, target: Option<Port>, native: map<Id, Bytes>, running: set<Id>, busy: set<Id>,
    listener: nat, carried: Bytes, dropped: Bytes, doubled: Bytes)

  // ---------------------------------------------------------------- totals

  /** The generations' part of `merged_connections`. */
  function Sum(generations: seq<Generation>, native: map<Id, Bytes>): Bytes
    requires forall g | g in generations :: g.id in native
  {
    if generations == [] then ZERO
    else Plus(Minus(native[generations[0].id], generations[0].nativeStart), Sum(generations[1..], native))
  }

  /** The totals `merged_connections` reports. */
  function Merged(j: Journal, native: map<Id, Bytes>): Bytes
    requires BASELINE in native && forall g | g in j.generations :: g.id in native
  {
    Plus(Plus(Plus(native[BASELINE], j.nativeCarry), Sum(j.generations, native)), j.retiredTotals)
  }

  lemma {:induction false} SumAppend(a: seq<Generation>, b: seq<Generation>, native: map<Id, Bytes>)
    requires forall g | g in a + b :: g.id in native
    ensures (forall g | g in a :: g.id in native) && (forall g | g in b :: g.id in native)
    ensures Sum(a + b, native) == Plus(Sum(a, native), Sum(b, native))
  {
    assert (forall g | g in a :: g in a + b) && (forall g | g in b :: g in a + b);
    if a == [] {
      assert [] + b == b;
    } else {
      assert (a + b)[1..] == a[1..] + b;
      SumAppend(a[1..], b, native);
    }
  }

  const MAX_COUNTER: int := 0x7FFF_FFFF_FFFF_FFFF

  predicate InRange(p: Bytes) { 0 <= p.up <= MAX_COUNTER && 0 <= p.down <= MAX_COUNTER }

  /** A pair of counters that fits 63 bits. */
  ghost predicate Counter64(p: Bytes) {
    && 0 <= p.up && 0 <= p.down
    && p.up <= 0x7FFF_FFFF_FFFF_FFFF && p.down <= 0x7FFF_FFFF_FFFF_FFFF
  }

  /** When `merged_connections` raises no counter error. */
  ghost predicate CountersOk(j: Journal, native: map<Id, Bytes>)
    requires BASELINE in native && forall g | g in j.generations :: g.id in native
  {
    && Counter64(native[BASELINE]) && Reaches(ZERO, j.nativeCarry) && Reaches(ZERO, j.retiredTotals)
    && (forall g | g in j.generations :: Counter64(native[g.id]) && Reaches(g.nativeStart, native[g.id]))
    && Merged(j, native).up <= 0x7FFF_FFFF_FFFF_FFFF && Merged(j, native).down <= 0x7FFF_FFFF_FFFF_FFFF
  }

  /** The counter part of `merged_connections`: a loop over the endpoints, then the retired totals. */
  method MergedTotals(j: Journal, native: map<Id, Bytes>) returns (r: Option<Bytes>)
    requires BASELINE in native && forall g | g in j.generations :: g.id in native
    ensures r.Some? <==> CountersOk(j, native)
    ensures r.Some? ==> r.value == Merged(j, native)
  {
    if !InRange(native[BASELINE]) || !Reaches(ZERO, j.nativeCarry) { return None; }
    var total := Plus(native[BASELINE], j.nativeCarry);
    var gens := j.generations;
    for i := 0 to |gens|
      invariant forall g | g in gens[..i] ::
                g.id in native && InRange(native[g.id]) && Reaches(g.nativeStart, native[g.id])
      invariant total == Plus(Plus(native[BASELINE], j.nativeCarry), Sum(gens[..i], native))
    {
      var g := gens[i];
      assert g in gens;
      if !InRange(native[g.id]) || !Reaches(g.nativeStart, native[g.id]) { return None; }
      assert gens[..i + 1] == gens[..i] + [g];
      SumOne(gens[..i], g, native);
      total := Plus(total, Minus(native[g.id], g.nativeStart));
    }
    assert gens[..|gens|] == gens;
    if !Reaches(ZERO, j.retiredTotals) { return None; }
    total := Plus(total, j.retiredTotals);
    if !Reaches(total, Bytes(MAX_COUNTER, MAX_COUNTER)) { return None; }
    r := Some(total);
  }

  predicate Apart(g: Generation, h: Generation) {
    g.id != h.id && g.slot.name != h.slot.name && g.slot.port != h.slot.port
  }

  /** No id, slot or port is used twice. */
  ghost predicate DistinctIds(generations: seq<Generation>) {
    forall i, j | 0 <= i < j < |generations| :: Apart(generations[i], generations[j])
  }

  lemma DistinctTail(generations: seq<Generation>)
    requires DistinctIds(generations) && generations != []
    ensures DistinctIds(generations[1..]) && forall g | g in generations[1..] :: Apart(generations[0], g)
  {
    hide Apart;
    assert forall i | 0 <= i < |generations| - 1 :: generations[1..][i] == generations[i + 1];
  }

  lemma DistinctCons(head: Generation, tail: seq<Generation>)
    requires DistinctIds(tail) && forall g | g in tail :: Apart(head, g)
    ensures DistinctIds([head] + tail)
  {
    hide Apart;
    var all := [head] + tail;
    forall i, j | 0 <= i < j < |all| ensures Apart(all[i], all[j]) {
      assert all[j] == tail[j - 1];
      if i > 0 { assert all[i] == tail[i - 1]; }
    }
  }

  function Remove(generations: seq<Generation>, id: Id): (r: seq<Generation>)
    ensures forall g :: g in r <==> g in generations && g.id != id
    ensures |r| <= |generations|
  {
    if generations == [] then []
    else if generations[0].id == id then Remove(generations[1..], id)
    else [generations[0]] + Remove(generations[1..], id)
  }

  lemma {:induction false} RemoveKeeps(generations: seq<Generation>, id: Id)
    requires DistinctIds(generations)
    ensures DistinctIds(Remove(generations, id))
  {
    hide DistinctIds, Apart;
    if generations == [] {
    } else {
      DistinctTail(generations);
      RemoveKeeps(generations[1..], id);
      if generations[0].id != id { DistinctCons(generations[0], Remove(generations[1..], id)); }
    }
  }

  lemma {:induction false} RemoveNone(generations: seq<Generation>, id: Id)
    requires forall g | g in generations :: g.id != id
    ensures Remove(generations, id) == generations
  {
    if generations != [] { RemoveNone(generations[1..], id); }
  }

  lemma {:induction false} RemoveShortens(generations: seq<Generation>, g: Generation)
    requires g in generations
    ensures |Remove(generations, g.id)| < |generations|
  {
    if generations[0].id != g.id { RemoveShortens(generations[1..], g); }
  }

  lemma {:induction false} SumRemove(generations: seq<Generation>, g: Generation, native: map<Id, Bytes>)
    requires DistinctIds(generations) && g in generations && forall h | h in generations :: h.id in native
    ensures Sum(generations, native) == Plus(Sum(Remove(generations, g.id), native), Minus(native[g.id], g.nativeStart))
  {
    hide DistinctIds;
    var head, tail := generations[0], generations[1..];
    DistinctTail(generations);
    assert g == head || g in tail;
    if head.id == g.id {
      assert head == g;
      RemoveNone(tail, g.id);
    } else {
      SumRemove(tail, g, native);
      assert Remove(generations, g.id)[1..] == Remove(tail, g.id);
    }
  }

  lemma {:induction false} SumElsewhere(generations: seq<Generation>, native: map<Id, Bytes>, id: Id, p: Bytes)
    requires forall g | g in generations :: g.id in native && g.id != id
    ensures Sum(generations, native[id := p]) == Sum(generations, native)
  {
    if generations != [] { SumElsewhere(generations[1..], native, id, p); }
  }

  lemma {:induction false} SumGrows(generations: seq<Generation>, native: map<Id, Bytes>, g: Generation, d: Bytes)
    requires DistinctIds(generations) && g in generations && forall h | h in generations :: h.id in native
    ensures Sum(generations, native[g.id := Plus(native[g.id], d)]) == Plus(Sum(generations, native), d)
  {
    hide DistinctIds;
    var head, tail := generations[0], generations[1..];
    DistinctTail(generations);
    assert g == head || g in tail;
    if head.id == g.id {
      assert head == g && forall h | h in tail :: h.id != g.id;
      SumElsewhere(tail, native, g.id, Plus(native[g.id], d));
    } else {
      SumGrows(tail, native, g, d);
    }
  }

  // ---------------------------------------------------------------- invariant

  function TargetOf(generations: seq<Generation>, id: Id): Option<Port> {
    if generations == [] then None
    else if generations[0].id == id then Some(generations[0].slot.port)
    else TargetOf(generations[1..], id)
  }

  predicate Lists(generations: seq<Generation>, id: Id) {
    exists g | g in generations :: g.id == id
  }

  lemma {:induction false} TargetIs(generations: seq<Generation>, g: Generation)
    requires DistinctIds(generations) && g in generations
    ensures TargetOf(generations, g.id) == Some(g.slot.port)
  {
    DistinctTail(generations);
    assert g == generations[0] || g in generations[1..];
    if g != generations[0] { TargetIs(generations[1..], g); }
  }

  lemma {:induction false} TargetNone(generations: seq<Generation>, id: Id)
    requires forall g | g in generations :: g.id != id
    ensures TargetOf(generations, id) == None
  {
    if generations != [] { TargetNone(generations[1..], id); }
  }

  /** All generations of the moment: the listed ones, and the one a phase holds. */
  function Held(j: Journal): seq<Generation> {
    match j.phase
    case Switching(p) => if p in j.generations then j.generations else j.generations + [p]
    case Retiring(e, _) => j.generations + [e]
    case _ => j.generations
  }

  /** Ids, slots and ports pairwise distinct, every slot from the list, the active one listed. */
  ghost predicate Shape(slots: seq<Slot>, j: Journal) {
    && DistinctIds(Held(j))
    && (forall g | g in Held(j) :: g.slot in slots && g.id != BASELINE)
    && (j.activeId == BASELINE || Lists(j.generations, j.activeId))
  }

  /** Where new connections go. Outside a switch that is the active generation's port, or the baseline. */
  ghost predicate Routed(j: Journal, target: Option<Port>) {
    || target == TargetOf(j.generations, j.activeId)
    || (j.phase.Switching? && target == Some(j.phase.pending.slot.port))
  }

  /** What has been carried and is not in the reported totals yet. */
  function Unseen(w: World): Bytes
    requires forall g | g in Held(w.journal) :: g.id in w.native
  {
    match w.journal.phase
    case Switching(p) => if p in w.journal.generations then ZERO else Minus(w.native[p.id], p.nativeStart)
    case Retiring(e, delta) => if e.id in w.running then Minus(Minus(w.native[e.id], e.nativeStart), delta) else ZERO
    case Reloading(_, _) => Minus(ZERO, w.doubled)
    case Steady => ZERO
  }

  /** Bytes are conserved: carried = reported + not yet reported + dropped, and nothing twice when steady. */
  ghost predicate Balanced(w: World) {
    && BASELINE in w.native && (forall g | g in Held(w.journal) :: g.id in w.native)
    && w.carried == Plus(Plus(Merged(w.journal, w.native), Unseen(w)), w.dropped)
    && (w.doubled != ZERO ==> w.journal.phase.Reloading? && w.listener == w.journal.phase.previousListener)
    && Reaches(ZERO, w.dropped) && Reaches(ZERO, w.doubled) && Reaches(w.doubled, w.native[BASELINE])
    && (forall g | g in Held(w.journal) :: Reaches(g.nativeStart, w.native[g.id]))
    && (w.journal.phase.Retiring? ==>
          Reaches(Plus(w.journal.phase.endpoint.nativeStart, w.journal.phase.delta), w.native[w.journal.phase.endpoint.id]))
  }

  /** Only processes the journal knows run or hold sessions. */
  ghost predicate Alive(w: World) {
    && (forall g | g in w.journal.generations :: g.id in w.running)
    && (w.journal.phase.Switching? ==> w.journal.phase.pending.id in w.running)
    && (forall id | id in w.busy :: id == BASELINE || (id in w.running && Lists(Held(w.journal), id)))
  }

  ghost predicate Inv(slots: seq<Slot>, w: World) {
    Shape(slots, w.journal) && Routed(w.journal, w.target) && Balanced(w) && Alive(w)
  }

  // ---------------------------------------------------------------- what the machine does by itself

  /** A new connection reaches the process behind the redirect. */
  ghost predicate Reached(w: World, id: Id) {
    if id == BASELINE then w.target.None?
    else id in w.running && exists g | g in Held(w.journal) :: g.id == id && w.target == Some(g.slot.port)
  }

  function Opened(w: World, id: Id): World { w.(busy := w.busy + {id}) }

  lemma OpenedInv(slots: seq<Slot>, w: World, id: Id)
    requires Inv(slots, w) && Reached(w, id)
    ensures Inv(slots, Opened(w, id))
  {
    hide Balanced, Shape, Routed, Sum;
    var v := Opened(w, id);
    assert Balanced(v) by { BalancedSame(w, v); }
    assert Alive(v);
  }

  lemma BalancedSame(w: World, v: World)
    requires Balanced(w)
    requires v.journal == w.journal && v.native == w.native && v.listener == w.listener
    requires v.carried == w.carried && v.dropped == w.dropped && v.doubled == w.doubled
    requires w.journal.phase.Retiring? ==>
              (w.journal.phase.endpoint.id in w.running <==> w.journal.phase.endpoint.id in v.running)
    ensures Balanced(v)
  {
    hide Sum;
  }

  function Closed(w: World, id: Id): World { w.(busy := w.busy - {id}) }

  lemma ClosedInv(slots: seq<Slot>, w: World, id: Id)
    requires Inv(slots, w)
    ensures Inv(slots, Closed(w, id))
  {
    hide Balanced, Shape, Routed, Sum;
    BalancedSame(w, Closed(w, id));
  }

  /** A process with sessions carries bytes. */
  function Carrying(w: World, id: Id, d: Bytes): World
    requires id in w.native
  {
    w.(native := w.native[id := Plus(w.native[id], d)], carried := Plus(w.carried, d))
  }

  lemma CarryingInv(slots: seq<Slot>, w: World, id: Id, d: Bytes)
    requires Inv(slots, w) && id in w.busy && id in w.native && Reaches(ZERO, d)
    ensures Inv(slots, Carrying(w, id, d))
  {
    hide Shape, Routed, Sum;
    CarryingBalanced(slots, w, id, d);
  }

  lemma CarryingBalanced(slots: seq<Slot>, w: World, id: Id, d: Bytes)
    requires Shape(slots, w.journal) && Balanced(w) && Alive(w) && id in w.busy && id in w.native && Reaches(ZERO, d)
    ensures Balanced(Carrying(w, id, d))
  {
    hide Sum, DistinctIds, Apart, Lists, Merged, Unseen, Held;
    CarryingMerged(slots, w, id, d);
  }

  /** What a process carries is reported or, behind a snapshot that was taken, unseen. */
  lemma CarryingMerged(slots: seq<Slot>, w: World, id: Id, d: Bytes)
    requires Shape(slots, w.journal) && Balanced(w) && Alive(w) && id in w.busy && id in w.native && Reaches(ZERO, d)
    ensures BASELINE in w.native && forall g | g in Held(w.journal) :: g.id in w.native
    ensures var v := Carrying(w, id, d);
            Plus(Merged(v.journal, v.native), Unseen(v)) == Plus(Plus(Merged(w.journal, w.native), Unseen(w)), d)
  {
    hide Sum, DistinctIds, Apart, Lists;
    DistinctHeld(w.journal);
    CarryingSum(slots, w, id, d);
    if w.journal.phase.Retiring? { ApartIds(w.journal.generations, w.journal.phase.endpoint); }
    if w.journal.phase.Switching? && w.journal.phase.pending !in w.journal.generations {
      ApartIds(w.journal.generations, w.journal.phase.pending);
    }
    if id != BASELINE { ListsMeans(Held(w.journal), id); }
    ListsMeans(w.journal.generations, id);
  }

  lemma ListsMeans(generations: seq<Generation>, id: Id)
    ensures Lists(generations, id) <==> exists g | g in generations :: g.id == id
  {
  }

  lemma ApartIds(generations: seq<Generation>, g: Generation)
    requires forall h | h in generations :: Apart(h, g)
    ensures !Lists(generations, g.id)
  {
  }

  lemma CarryingSum(slots: seq<Slot>, w: World, id: Id, d: Bytes)
    requires Shape(slots, w.journal) && id in w.native && forall g | g in Held(w.journal) :: g.id in w.native
    ensures Sum(w.journal.generations, w.native[id := Plus(w.native[id], d)])
         == if Lists(w.journal.generations, id) then Plus(Sum(w.journal.generations, w.native), d) else Sum(w.journal.generations, w.native)
  {
    hide Sum, DistinctIds;
    DistinctHeld(w.journal);
    if Lists(w.journal.generations, id) {
      var g :| g in w.journal.generations && g.id == id;
      SumGrows(w.journal.generations, w.native, g, d);
    } else {
      SumElsewhere(w.journal.generations, w.native, id, Plus(w.native[id], d));
    }
  }

  /** The listed generations are distinct, also from the one a phase holds besides them. */
  lemma DistinctHeld(j: Journal)
    requires DistinctIds(Held(j))
    ensures DistinctIds(j.generations)
    ensures forall g, h | g in j.generations && h in Held(j) && h !in j.generations :: Apart(g, h)
    ensures j.phase.Retiring? ==> forall g | g in j.generations :: Apart(g, j.phase.endpoint)
    ensures j.phase.Switching? && j.phase.pending !in j.generations ==> forall g | g in j.generations ::
              Apart(g, j.phase.pending)
  {
    hide Apart;
    var held := Held(j);
    assert forall i | 0 <= i < |j.generations| :: held[i] == j.generations[i];
    forall g, h | g in j.generations && h in held && h !in j.generations ensures Apart(g, h) {
      var i :| 0 <= i < |j.generations| && j.generations[i] == g;
      var k :| 0 <= k < |held| && held[k] == h;
      assert Apart(held[i], held[k]);
    }
    if j.phase.Retiring? {
      forall g | g in j.generations ensures Apart(g, j.phase.endpoint) {
        var i :| 0 <= i < |j.generations| && j.generations[i] == g;
        assert Apart(held[i], held[|j.generations|]);
      }
    }
  }

  // ---------------------------------------------------------------- retirement

  /** The journal of a retirement: the generation leaves the list and its snapshot joins the retired totals. */
  function RetireIntent(w: World, g: Generation, snapshot: Bytes): World {
    var delta := Minus(snapshot, g.nativeStart);
    w.(journal := w.journal.(phase := Retiring(g, delta), generations := Remove(w.journal.generations, g.id),
                             retiredTotals := Plus(w.journal.retiredTotals, delta)))
  }

  ghost predicate Superseded(j: Journal, g: Generation) {
    j.phase.Steady? && g in j.generations && g.id != j.activeId
  }

  lemma RetireIntentInv(slots: seq<Slot>, w: World, g: Generation, snapshot: Bytes)
    requires Inv(slots, w) && Superseded(w.journal, g)
    requires g.id in w.native && Reaches(g.nativeStart, snapshot) && Reaches(snapshot, w.native[g.id])
    ensures Inv(slots, RetireIntent(w, g, snapshot))
  {
    hide Sum, DistinctIds, Shape, Balanced, Alive;
    TargetRemove(w.journal.generations, g.id, w.journal.activeId);
    RetireIntentShape(slots, w, g, snapshot);
    RetireIntentBalanced(slots, w, g, snapshot);
    RetireIntentAlive(slots, w, g, snapshot);
  }

  lemma RetireIntentShape(slots: seq<Slot>, w: World, g: Generation, snapshot: Bytes)
    requires Shape(slots, w.journal) && Superseded(w.journal, g)
    ensures Shape(slots, RetireIntent(w, g, snapshot).journal)
  {
    hide DistinctIds;
    var j, v := w.journal, RetireIntent(w, g, snapshot);
    RemoveKeeps(j.generations, g.id);
    OthersApart(j.generations, g);
    DistinctSnoc(Remove(j.generations, g.id), g);
    if j.activeId != BASELINE {
      var a :| a in j.generations && a.id == j.activeId;
      assert a in v.journal.generations;
    }
  }

  lemma RetireIntentBalanced(slots: seq<Slot>, w: World, g: Generation, snapshot: Bytes)
    requires Shape(slots, w.journal) && Superseded(w.journal, g) && Balanced(w) && Alive(w)
    requires g.id in w.native && Reaches(g.nativeStart, snapshot) && Reaches(snapshot, w.native[g.id])
    ensures Balanced(RetireIntent(w, g, snapshot))
  {
    hide Sum, DistinctIds;
    SumRemove(w.journal.generations, g, w.native);
    assert forall h | h in Held(RetireIntent(w, g, snapshot).journal) :: h in w.journal.generations;
  }

  lemma RetireIntentAlive(slots: seq<Slot>, w: World, g: Generation, snapshot: Bytes)
    requires Shape(slots, w.journal) && Superseded(w.journal, g) && Alive(w)
    ensures Alive(RetireIntent(w, g, snapshot))
  {
    hide DistinctIds;
    var v := RetireIntent(w, g, snapshot);
    forall id | id in w.busy && id != BASELINE ensures Lists(Held(v.journal), id) {
      var h :| h in w.journal.generations && h.id == id;
      SameId(w.journal.generations, h, g);
      assert h in Held(v.journal);
    }
  }

  lemma SameId(generations: seq<Generation>, g: Generation, h: Generation)
    requires DistinctIds(generations) && g in generations && h in generations
    ensures g.id == h.id ==> g == h
  {
    var i :| 0 <= i < |generations| && generations[i] == g;
    var k :| 0 <= k < |generations| && generations[k] == h;
  }

  lemma OthersApart(generations: seq<Generation>, g: Generation)
    requires DistinctIds(generations) && g in generations
    ensures forall h | h in generations && h.id != g.id :: Apart(h, g)
  {
    forall h | h in generations && h.id != g.id ensures Apart(h, g) {
      var i :| 0 <= i < |generations| && generations[i] == g;
      var k :| 0 <= k < |generations| && generations[k] == h;
      assert Apart(generations[if i < k then i else k], generations[if i < k then k else i]);
    }
  }

  lemma DistinctSnoc(generations: seq<Generation>, g: Generation)
    requires DistinctIds(generations) && forall h | h in generations :: Apart(h, g)
    ensures DistinctIds(generations + [g])
  {
    var all := generations + [g];
    forall i, k | 0 <= i < k < |all| ensures Apart(all[i], all[k]) {
      assert all[i] == generations[i];
      if k < |generations| { assert all[k] == generations[k]; }
    }
  }

  lemma {:induction false} TargetRemove(generations: seq<Generation>, id: Id, active: Id)
    requires id != active
    ensures TargetOf(Remove(generations, id), active) == TargetOf(generations, active)
  {
    if generations != [] {
      TargetRemove(generations[1..], id, active);
      if generations[0].id != id { assert Remove(generations, id)[1..] == Remove(generations[1..], id); }
    }
  }

  /** The retiring process stops; what it carried after the snapshot is dropped. */
  function Stopped(w: World): World
    requires w.journal.phase.Retiring? && w.journal.phase.endpoint.id in w.native
  {
    var e, delta := w.journal.phase.endpoint, w.journal.phase.delta;
    w.(running := w.running - {e.id}, busy := w.busy - {e.id},
       dropped := if e.id in w.running then Plus(w.dropped, Minus(Minus(w.native[e.id], e.nativeStart), delta)) else w.dropped)
  }

  lemma StoppedInv(slots: seq<Slot>, w: World)
    requires Inv(slots, w) && w.journal.phase.Retiring? && w.journal.phase.endpoint.id in w.native
    ensures Inv(slots, Stopped(w))
  {
    hide Sum, DistinctIds, Routed;
    DistinctHeld(w.journal);
  }

  function Finished(w: World): World {
    w.(journal := w.journal.(phase := Steady))
  }

  lemma FinishedInv(slots: seq<Slot>, w: World)
    requires Inv(slots, w) && w.journal.phase.Retiring? && w.journal.phase.endpoint.id !in w.running
    ensures Inv(slots, Finished(w))
  {
    hide Sum, DistinctIds;
    DistinctHeld(w.journal);
    forall id | id in w.busy && id != BASELINE ensures Lists(w.journal.generations, id) {
      var h :| h in Held(w.journal) && h.id == id;
      assert h in w.journal.generations;
    }
  }

  /** Recovery that finds the retiring process alive with sessions takes it back. */
  function Aborted(w: World): World
    requires w.journal.phase.Retiring?
  {
    var e, delta := w.journal.phase.endpoint, w.journal.phase.delta;
    w.(journal := w.journal.(phase := Steady, generations := w.journal.generations + [e],
                             retiredTotals := Minus(w.journal.retiredTotals, delta)))
  }

  lemma AbortedInv(slots: seq<Slot>, w: World)
    requires Inv(slots, w) && w.journal.phase.Retiring? && w.journal.phase.endpoint.id in w.running
    ensures Inv(slots, Aborted(w))
  {
    hide DistinctIds, Sum;
    var e := w.journal.phase.endpoint;
    SumOne(w.journal.generations, e, w.native);
    DistinctHeld(w.journal);
    NotActive(slots, w.journal, e);
    TargetAppend(w.journal.generations, e, w.journal.activeId);
    if w.journal.activeId != BASELINE {
      var a :| a in w.journal.generations && a.id == w.journal.activeId;
      assert a in w.journal.generations + [e];
    }
  }

  lemma NotActive(slots: seq<Slot>, j: Journal, g: Generation)
    requires Shape(slots, j) && g.id != BASELINE && forall h | h in j.generations :: Apart(h, g)
    ensures g.id != j.activeId
  {
    hide DistinctIds;
    if j.activeId != BASELINE {
      var a :| a in j.generations && a.id == j.activeId;
    }
  }

  lemma SumOne(generations: seq<Generation>, g: Generation, native: map<Id, Bytes>)
    requires forall h | h in generations + [g] :: h.id in native
    ensures g.id in native && forall h | h in generations :: h.id in native
    ensures Sum(generations + [g], native) == Plus(Sum(generations, native), Minus(native[g.id], g.nativeStart))
  {
    SumAppend(generations, [g], native);
    assert g in generations + [g];
    assert Sum([g][1..], native) == ZERO;
  }

  lemma {:induction false} TargetAppend(generations: seq<Generation>, g: Generation, id: Id)
    requires g.id != id
    ensures TargetOf(generations + [g], id) == TargetOf(generations, id)
  {
    if generations == [] {
      assert ([] + [g])[1..] == [];
    } else {
      assert (generations + [g])[1..] == generations[1..] + [g];
      TargetAppend(generations[1..], g, id);
    }
  }

  // ---------------------------------------------------------------- switching

  /** A candidate process has started; nothing points at it. */
  function Staged(w: World, g: Generation): World {
    w.(native := w.native[g.id := g.nativeStart], running := w.running + {g.id})
  }

  ghost predicate Unused(slots: seq<Slot>, j: Journal, g: Generation) {
    g.slot in slots && g.id != BASELINE && forall h | h in Held(j) :: Apart(h, g)
  }

  lemma StagedInv(slots: seq<Slot>, w: World, g: Generation)
    requires Inv(slots, w) && Unused(slots, w.journal, g) && w.journal.phase.Steady?
    ensures Inv(slots, Staged(w, g))
  {
    hide Sum, DistinctIds;
    SumElsewhere(w.journal.generations, w.native, g.id, g.nativeStart);
  }

  /** The journal of a switch to a listed generation or to the staged candidate. */
  function SwitchIntent(w: World, g: Generation): World {
    w.(journal := w.journal.(phase := Switching(g)))
  }

  /** A generation new connections may be switched to. */
  ghost predicate Candidate(slots: seq<Slot>, w: World, g: Generation) {
    && g.id in w.running && g.id in w.native
    && (g in w.journal.generations || (Unused(slots, w.journal, g) && w.native[g.id] == g.nativeStart))
  }

  lemma SwitchIntentInv(slots: seq<Slot>, w: World, g: Generation)
    requires Inv(slots, w) && w.journal.phase.Steady? && Candidate(slots, w, g)
    ensures Inv(slots, SwitchIntent(w, g))
  {
    hide Sum, DistinctIds;
    if g !in w.journal.generations { DistinctSnoc(w.journal.generations, g); }
    forall id | id in w.busy && id != BASELINE ensures Lists(Held(SwitchIntent(w, g).journal), id) {
      var h :| h in w.journal.generations && h.id == id;
      assert h in Held(SwitchIntent(w, g).journal);
    }
  }

  function Redirected(w: World, target: Option<Port>): World {
    w.(target := target)
  }

  lemma RedirectedInv(slots: seq<Slot>, w: World, target: Option<Port>)
    requires Inv(slots, w) && w.journal.phase.Switching?
    requires target == Some(w.journal.phase.pending.slot.port)
             || target == TargetOf(w.journal.generations, w.journal.activeId)
    ensures Inv(slots, Redirected(w, target))
  {
    hide Sum, DistinctIds, Shape, Balanced;
    BalancedSame(w, Redirected(w, target));
  }

  /** The end of a switch, forward or back: either way the pending generation stays in the list. */
  function Settled(w: World, forward: bool): World
    requires w.journal.phase.Switching?
  {
    var p := w.journal.phase.pending;
    w.(journal := w.journal.(phase := Steady, generations := Held(w.journal),
                             activeId := if forward then p.id else w.journal.activeId,
                             activeHash := if forward then p.hash else w.journal.activeHash))
  }

  lemma SettledInv(slots: seq<Slot>, w: World, forward: bool)
    requires Inv(slots, w) && w.journal.phase.Switching?
    requires w.target == if forward then Some(w.journal.phase.pending.slot.port) else TargetOf(w.journal.generations, w.journal.activeId)
    ensures Inv(slots, Settled(w, forward)) && w.journal.phase.pending in Settled(w, forward).journal.generations
  {
    hide Sum, DistinctIds;
    var j, p := w.journal, w.journal.phase.pending;
    DistinctHeld(j);
    if p !in j.generations { SumOne(j.generations, p, w.native); }
    if forward {
      TargetIs(Held(j), p);
    } else {
      if p !in j.generations {
        NotActive(slots, j, p);
        TargetAppend(j.generations, p, j.activeId);
      }
      if j.activeId != BASELINE {
        var a :| a in j.generations && a.id == j.activeId;
        assert a in Held(j);
      }
    }
  }

  // ---------------------------------------------------------------- baseline reload

  /** The journal of a reload: the snapshot joins the carry before the core starts over. */
  function ReloadIntent(w: World, hash: Digest, snapshot: Bytes): World {
    w.(journal := w.journal.(phase := Reloading(hash, w.listener), nativeCarry := Plus(w.journal.nativeCarry, snapshot)),
       doubled := snapshot)
  }

  lemma ReloadIntentInv(slots: seq<Slot>, w: World, hash: Digest, snapshot: Bytes)
    requires Inv(slots, w) && w.journal.phase.Steady? && BASELINE in w.native
    requires Reaches(ZERO, snapshot) && Reaches(snapshot, w.native[BASELINE])
    ensures Inv(slots, ReloadIntent(w, hash, snapshot))
  {
    hide Sum, DistinctIds;
  }

  /** The baseline core starts over on a new listener with counters at zero. */
  function Restarted(w: World): World
    requires BASELINE in w.native
  {
    w.(native := w.native[BASELINE := ZERO], listener := w.listener + 1, busy := w.busy - {BASELINE},
       dropped := Plus(w.dropped, Minus(w.native[BASELINE], w.doubled)), doubled := ZERO)
  }

  lemma RestartedInv(slots: seq<Slot>, w: World)
    requires Inv(slots, w) && w.journal.phase.Reloading? && BASELINE in w.native
    ensures Inv(slots, Restarted(w))
  {
    hide Sum, DistinctIds;
    SumElsewhere(w.journal.generations, w.native, BASELINE, ZERO);
  }

  function Reloaded(w: World): World
    requires w.journal.phase.Reloading?
  {
    w.(journal := w.journal.(phase := Steady, baselineHash := w.journal.phase.pendingHash))
  }

  lemma ReloadedInv(slots: seq<Slot>, w: World)
    requires Inv(slots, w) && w.journal.phase.Reloading? && w.listener != w.journal.phase.previousListener
    ensures Inv(slots, Reloaded(w))
  {
    hide Sum, DistinctIds;
  }

  // ---------------------------------------------------------------- what the invariant gives

  /** Slot names and ports are distinct in the specification. */
  ghost predicate SlotsOk(slots: seq<Slot>) {
    forall i, j | 0 <= i < j < |slots| :: slots[i].name != slots[j].name && slots[i].port != slots[j].port
  }

  /** A steady journal describes the machine: redirect, list and totals. */
  lemma SteadyMeans(slots: seq<Slot>, w: World)
    requires Inv(slots, w) && w.journal.phase.Steady?
    ensures DistinctIds(w.journal.generations) && |w.journal.generations| <= |slots|
    ensures w.journal.activeId == BASELINE ==> w.target == None
    ensures forall g | g in w.journal.generations && g.id == w.journal.activeId :: w.target == Some(g.slot.port)
    ensures w.journal.activeId != BASELINE ==> w.target.Some?
    ensures w.carried == Plus(Merged(w.journal, w.native), w.dropped)
  {
    hide Sum, DistinctIds;
    var j := w.journal;
    if j.activeId == BASELINE {
      TargetNone(j.generations, BASELINE);
    } else {
      var a :| a in j.generations && a.id == j.activeId;
      TargetIs(j.generations, a);
      forall g | g in j.generations && g.id == j.activeId ensures w.target == Some(g.slot.port) {
        TargetIs(j.generations, g);
      }
    }
    Bounded(slots, j.generations);
  }

  /** No more generations than slots. */
  lemma {:induction false} Bounded(slots: seq<Slot>, generations: seq<Generation>)
    requires DistinctIds(generations) && forall g | g in generations :: g.slot in slots
    ensures |generations| <= |slots|
  {
    if generations != [] {
      var head, tail := generations[0], generations[1..];
      DistinctTail(generations);
      var i :| 0 <= i < |slots| && slots[i] == head.slot;
      var rest := slots[..i] + slots[i + 1..];
      forall g | g in tail ensures g.slot in rest {
        var k :| 0 <= k < |slots| && slots[k] == g.slot;
        assert k != i;
        assert g.slot == rest[if k < i then k else k - 1];
      }
      Bounded(rest, tail);
    }
  }

  /** Retirement keeps the reported totals exactly when nothing was carried since its snapshot. */
  lemma RetireTotals(slots: seq<Slot>, w: World, g: Generation, snapshot: Bytes)
    requires Inv(slots, w) && Superseded(w.journal, g) && g.id in w.native
    ensures var v := RetireIntent(w, g, snapshot);
            && Merged(v.journal, v.native) == Minus(Merged(w.journal, w.native), Minus(w.native[g.id], snapshot))
            && (Merged(v.journal, v.native) == Merged(w.journal, w.native) <==> snapshot == w.native[g.id])
  {
    hide DistinctIds, Sum;
    SumRemove(w.journal.generations, g, w.native);
  }

  /** A retirement and its abort cancel out. */
  lemma AbortUndoes(slots: seq<Slot>, w: World, g: Generation, snapshot: Bytes)
    requires Inv(slots, w) && Superseded(w.journal, g) && g.id in w.native
    ensures var v := Aborted(RetireIntent(w, g, snapshot));
            && v.journal.retiredTotals == w.journal.retiredTotals && v.journal.phase == Steady
            && (forall h :: h in v.journal.generations <==> h in w.journal.generations)
            && Merged(v.journal, v.native) == Merged(w.journal, w.native)
  {
    hide DistinctIds, Sum;
    var j := w.journal;
    SumRemove(j.generations, g, w.native);
    var rest := Remove(j.generations, g.id);
    assert forall h | h in rest + [g] :: h in j.generations;
    SumOne(rest, g, w.native);
    forall h | h in j.generations ensures h in rest + [g] { SameId(j.generations, h, g); }
  }

  /** Over a whole reload the totals change by exactly what the old core carried after the snapshot, lost. */
  lemma ReloadTotals(slots: seq<Slot>, w: World, hash: Digest, snapshot: Bytes)
    requires Inv(slots, w) && w.journal.phase.Steady? && BASELINE in w.native
    ensures var v := Reloaded(Restarted(ReloadIntent(w, hash, snapshot)));
            && Merged(v.journal, v.native) == Minus(Merged(w.journal, w.native), Minus(w.native[BASELINE], snapshot))
            && (Merged(v.journal, v.native) == Merged(w.journal, w.native) <==> snapshot == w.native[BASELINE])
            && v.dropped == Plus(w.dropped, Minus(w.native[BASELINE], snapshot))
  {
    hide DistinctIds, Sum;
    SumElsewhere(w.journal.generations, w.native, BASELINE, ZERO);
  }
}
