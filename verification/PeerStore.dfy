/** The operations that write the peer registry; the process may stop after any of their writes. */
module PeerStore {
  import opened Basics
  import opened AddressIndex
  import opened PeerRegistry

  /** An applied peer, as the caller asks for it. */
  datatype Request = Request(id: Id, publicKey: Key, address: Address, nodeUserId: User, expiresAt: int)

  datatype Result = Rejected | Applied | Failed | Stopped

  /** What a snapshot of users and exits says of a peer: the fingerprint of its exit, or None when it has none. */
  type Snapshot = Request -> Option<Fingerprint>

  ghost predicate SnapshotOk(s: Snapshot) {
    forall q :: s(q).Some? ==> s(q).value != ""
  }

  function Asked(p: Peer): Request { Request(p.id, p.publicKey, p.address, p.nodeUserId, p.expiresAt) }

  /** `_binding_reason` is empty. */
  predicate Bound(s: Snapshot, p: Peer) { s(Asked(p)) == Some(p.exitFingerprint) }

  function Record(q: Request, fingerprint: Fingerprint, status: Status): Peer {
    Peer(q.id, q.publicKey, q.address, q.nodeUserId, fingerprint, q.expiresAt, status, None)
  }

  // ---------------------------------------------------------------- refresh

  predicate Retryable(reason: Option<string>) {
    reason == Some("KERNEL_INSTALL_FAILED") || reason == Some("KERNEL_ADDRESS_CONFLICT")
  }

  /** Which peer holds each live user. */
  ghost predicate Holders(peers: Peers, holder: map<User, Id>) {
    forall id | id in peers && Live(peers[id].status) ::
        peers[id].nodeUserId in holder && holder[peers[id].nodeUserId] == id
  }

  /** Every live peer is unexpired and has the exit it was recorded with. */
  ghost predicate Entitled(peers: Peers, ids: set<Id>, s: Snapshot, now: int) {
    forall id | id in peers && id in ids && Live(peers[id].status) :: peers[id].expiresAt > now && Bound(s, peers[id])
  }

  /** The user-to-peer dictionary `_refresh_peer_bindings` starts from. */
  method LiveUsers(peers: Peers) returns (holder: map<User, Id>)
    requires ReadOk(peers)
    ensures Holders(peers, holder) && HoldersReal(peers, holder)
  {
    hide ReadOk;
    holder := map[];
    var left := peers.Keys;
    while left != {}
      invariant left <= peers.Keys
      invariant forall id | id in peers && id !in left && Live(peers[id].status) ::
                peers[id].nodeUserId in holder && holder[peers[id].nodeUserId] == id
      invariant HoldersReal(peers, holder)
    {
      var id :| id in left;
      left := left - {id};
      if Live(peers[id].status) {
        OneHolder(peers, id);
        holder := holder[peers[id].nodeUserId := id];
      }
    }
  }

  lemma OneHolder(peers: Peers, id: Id)
    requires ReadOk(peers) && id in peers && Live(peers[id].status)
    ensures forall j | j in peers && Live(peers[j].status) && peers[j].nodeUserId == peers[id].nodeUserId :: j == id
  {
    forall j | j in peers && j != id && Live(peers[j].status) ensures peers[j].nodeUserId != peers[id].nodeUserId {
      assert Compatible(peers[j], peers[id]);
    }
  }

  /** One peer of `_refresh_peer_bindings`. */
  function Refreshed(p: Peer, s: Snapshot, now: int, recover: bool, free: bool): Peer {
    if p.status.REVOKED? then p
    else if p.expiresAt <= now then p.(status := EXPIRED, reason := Some("PEER_EXPIRED"))
    else if !Live(p.status) && !p.status.BLOCKED? then p
    else if !Bound(s, p) then p.(status := BLOCKED, reason := Some("RESIDENTIAL_BINDING"))
    else if recover && p.status.BLOCKED? && Retryable(p.reason) then
      if free then p.(status := ACTIVE, reason := None)
      else p.(status := BLOCKED, reason := Some("NODE_USER_PEER_CONFLICT"))
    else p
  }

  /** What a refresh makes of a peer, case by case. */
  lemma RefreshedExactly(p: Peer, s: Snapshot, now: int, recover: bool, free: bool)
    ensures var q := Refreshed(p, s, now, recover, free);
            && q == p.(status := q.status, reason := q.reason)
            && (p.status.REVOKED? || (p.expiresAt > now && (p.status.FAILED? || p.status.EXPIRED?)) ==> q == p)
            && (!p.status.REVOKED? && p.expiresAt <= now ==> q.status.EXPIRED? && q.reason == Some("PEER_EXPIRED"))
            && (p.expiresAt > now && (p.status.ACTIVE? || p.status.APPLYING? || p.status.BLOCKED?) ==>
                  if s(Asked(p)) != Some(p.exitFingerprint)
                  then q.status.BLOCKED? && q.reason == Some("RESIDENTIAL_BINDING")
                  else if !(recover && Stuck(p)) then q == p
                  else if free then q.status.ACTIVE? && q.reason.None?
                  else q.status.BLOCKED? && q.reason == Some("NODE_USER_PEER_CONFLICT"))
  {
  }

  /** Blocked for a reason that the next reconciliation may clear. */
  ghost predicate Stuck(p: Peer) {
    p.status.BLOCKED? && (p.reason == Some("KERNEL_INSTALL_FAILED") || p.reason == Some("KERNEL_ADDRESS_CONFLICT"))
  }

  /** Nobody else of the peer's user is live or may become so. */
  ghost predicate Alone(peers: Peers, id: Id)
    requires id in peers
  {
    forall j | j in peers && j != id && peers[j].nodeUserId == peers[id].nodeUserId ::
        !Live(peers[j].status) && !Stuck(peers[j])
  }

  /** Every entry of the dictionary is a peer that was live or may become so. */
  ghost predicate HoldersReal(peers: Peers, holder: map<User, Id>) {
    forall u | u in holder ::
      && holder[u] in peers && peers[holder[u]].nodeUserId == u
      && (Live(peers[holder[u]].status) || Stuck(peers[holder[u]]))
  }

  lemma RefreshedLive(p: Peer, s: Snapshot, now: int, recover: bool, free: bool)
    ensures Live(Refreshed(p, s, now, recover, free).status) ==> Live(p.status) || Stuck(p)
  {
  }

  ghost predicate RefreshedAll(before: Peers, after: Peers, s: Snapshot, now: int, recover: bool) {
    && after.Keys == before.Keys
    && forall id | id in after :: after[id] == Refreshed(before[id], s, now, recover, true)
                                  || after[id] == Refreshed(before[id], s, now, recover, false)
  }

  /** A peer that is live, unexpired and bound is left alone. */
  lemma EntitledStay(before: Peers, after: Peers, s: Snapshot, now: int, recover: bool, id: Id)
    requires RefreshedAll(before, after, s, now, recover) && id in before
    requires Live(before[id].status) && before[id].expiresAt > now && Bound(s, before[id])
    ensures id in after && after[id] == before[id]
  {
  }

  /** `_refresh_peer_bindings`: afterwards exactly the entitled peers can be live, and no user twice. */
  method RefreshBindings(peers: Peers, s: Snapshot, now: int, recover: bool) returns (r: Peers)
    requires ReadOk(peers)
    ensures ReadOk(r) && Evolves(peers, r) && r.Keys == peers.Keys
    ensures Entitled(r, r.Keys, s, now)
    ensures !recover ==> forall id | id in r && Live(r[id].status) :: r[id] == peers[id]
    ensures forall id | id in r && r[id].status.APPLYING? :: peers[id].status.APPLYING?
    ensures RefreshedAll(peers, r, s, now, recover)
    ensures forall id | recover && id in peers && Stuck(peers[id]) && peers[id].expiresAt > now && Bound(s, peers[id])
              && Alone(peers, id) :: r[id] == peers[id].(status := ACTIVE, reason := None)
  {
    hide ReadOk, Evolves, Refreshed, Holders, HoldersReal, Stuck, Alone, Bound;
    var holder := LiveUsers(peers);
    r := peers;
    EvolvesItself(peers);
    var left := peers.Keys;
    while left != {}
      invariant left <= peers.Keys && r.Keys == peers.Keys
      invariant ReadOk(r) && Evolves(peers, r) && Holders(r, holder)
      invariant forall id | id in left :: r[id] == peers[id]
      invariant forall id | id in r && id !in left ::
                r[id] == Refreshed(peers[id], s, now, recover, true)
                || r[id] == Refreshed(peers[id], s, now, recover, false)
      invariant HoldersReal(peers, holder)
      invariant forall id | recover && id in peers && id !in left && Stuck(peers[id]) && peers[id].expiresAt > now
                  && Bound(s, peers[id]) && Alone(peers, id) :: r[id] == peers[id].(status := ACTIVE, reason := None)
    {
      var id :| id in left;
      ghost var before := r;
      var p := r[id];
      var free := p.nodeUserId !in holder || holder[p.nodeUserId] == id;
      var q := Refreshed(p, s, now, recover, free);
      RefreshedPut(r, id, s, now, recover, free, holder);
      RefreshedLive(p, s, now, recover, free);
      if Stuck(p) && Alone(peers, id) {
        AloneIsFree(peers, holder, id);
        if recover && p.expiresAt > now && Bound(s, p) { StuckRecovers(p, s, now); }
      }
      r := r[id := q];
      if Live(q.status) && !Live(p.status) {
        HoldersMore(peers, holder, id);
        holder := holder[p.nodeUserId := id];
      }
      EvolvesTransitive(peers, before, r);
      left := left - {id};
    }
    RefreshedMeans(peers, r, s, now, recover);
  }

  lemma AloneIsFree(peers: Peers, holder: map<User, Id>, id: Id)
    requires HoldersReal(peers, holder) && id in peers && Alone(peers, id)
    ensures peers[id].nodeUserId !in holder || holder[peers[id].nodeUserId] == id
  {
  }

  lemma StuckRecovers(p: Peer, s: Snapshot, now: int)
    requires Stuck(p) && p.expiresAt > now && Bound(s, p)
    ensures Refreshed(p, s, now, true, true) == p.(status := ACTIVE, reason := None)
  {
  }

  lemma HoldersMore(peers: Peers, holder: map<User, Id>, id: Id)
    requires HoldersReal(peers, holder) && id in peers && (Live(peers[id].status) || Stuck(peers[id]))
    ensures HoldersReal(peers, holder[peers[id].nodeUserId := id])
  {
  }

  lemma RefreshedMeans(before: Peers, after: Peers, s: Snapshot, now: int, recover: bool)
    requires RefreshedAll(before, after, s, now, recover)
    ensures Entitled(after, after.Keys, s, now)
    ensures !recover ==> forall id | id in after && Live(after[id].status) :: after[id] == before[id]
    ensures forall id | id in after && after[id].status.APPLYING? :: before[id].status.APPLYING?
  {
  }

  lemma RefreshedPut(peers: Peers, id: Id, s: Snapshot, now: int, recover: bool, free: bool, holder: map<User, Id>)
    requires ReadOk(peers) && id in peers && Holders(peers, holder)
    requires free <==> peers[id].nodeUserId !in holder || holder[peers[id].nodeUserId] == id
    ensures var p, q := peers[id], Refreshed(peers[id], s, now, recover, free);
            var after := peers[id := q];
            && ReadOk(after) && Evolves(peers, after)
            && Holders(after, if Live(q.status) && !Live(p.status) then holder[p.nodeUserId := id] else holder)
            && (!recover && Live(q.status) ==> q == p) && (q.status.APPLYING? ==> p.status.APPLYING?)
  {
    var p, q := peers[id], Refreshed(peers[id], s, now, recover, free);
    var after := peers[id := q];
    assert SameIdentity(p, q);
    if Live(q.status) && !Live(p.status) {
      assert free;
      forall j | j in peers && j != id && Live(peers[j].status) ensures peers[j].nodeUserId != p.nodeUserId { }
    }
    assert MayPut(peers, q) by {
      hide Refreshed;
      forall j | j in peers && j != id ensures Compatible(peers[j], peers[id]) { }
    }
    Put(peers, q);
  }

  // ---------------------------------------------------------------- admission

  /** What an apply demands of the registry and of the kernel snapshot. */
  ghost predicate Admissible(peers: Peers, kernel: Kernel, q: Request, s: Snapshot, serverKey: Key, now: int,
                             adopt: bool)
    requires KernelOk(kernel)
  {
    && q.expiresAt > now && q.publicKey != serverKey && s(q).Some?
    && (q.id in peers ==>
          !peers[q.id].status.REVOKED? && SameIdentity(peers[q.id], Record(q, s(q).value, APPLYING)))
    && (q.id !in peers && q.publicKey in kernel ==> adopt && kernel[q.publicKey] == [IPv4(q.address, 32)])
    && (forall j | j in peers && j != q.id ::
          && peers[j].publicKey != q.publicKey && peers[j].address != q.address
          && (peers[j].nodeUserId == q.nodeUserId ==>
                !peers[j].status.ACTIVE? && !peers[j].status.APPLYING? && peers[j].publicKey !in kernel))
    && !Taken(kernel, q.address, q.publicKey)
  }

  predicate Contests(p: Peer, q: Request, kernel: Kernel) {
    || p.publicKey == q.publicKey || p.address == q.address
    || (p.nodeUserId == q.nodeUserId && (Live(p.status) || p.publicKey in kernel))
  }

  /** The checks of one peer; `_conflicts` scans, the batch asks the index, and both mean `Taken`. */
  method Admit(peers: Peers, kernel: Kernel, q: Request, s: Snapshot, serverKey: Key, now: int, adopt: bool,
               indexed: bool)
    returns (ok: bool)
    requires ReadOk(peers) && KernelOk(kernel)
    ensures ok <==> Admissible(peers, kernel, q, s, serverKey, now, adopt)
  {
    hide ReadOk, KernelOk, Taken;
    if q.expiresAt <= now || q.publicKey == serverKey { return false; }
    if q.id in peers {
      var e := peers[q.id];
      RecordId(peers, q.id);
      if e.status.REVOKED? || e.publicKey != q.publicKey || e.address != q.address
         || e.nodeUserId != q.nodeUserId { return false; }
      if s(q).Some? && e.exitFingerprint != s(q).value { return false; }
    } else if q.publicKey in kernel && !(adopt && kernel[q.publicKey] == [IPv4(q.address, WIDTH)]) {
      return false;
    }
    if s(q).None? { return false; }
    if exists j | j in peers :: j != q.id && Contests(peers[j], q, kernel) { return false; }
    var taken: bool;
    if indexed {
      taken := IndexedConflict(kernel, q.address, q.publicKey);
    } else {
      taken := ScanConflict(kernel, q.address, q.publicKey);
    }
    ok := !taken;
  }

  lemma RecordId(peers: Peers, id: Id)
    requires ReadOk(peers) && id in peers
    ensures peers[id].id == id
  {
  }

  /** The record an admitted request writes: a refresh of an ACTIVE peer stays ACTIVE. */
  function Intent(peers: Peers, q: Request, s: Snapshot): Peer
    requires s(q).Some?
  {
    Record(q, s(q).value, if q.id in peers && peers[q.id].status.ACTIVE? then ACTIVE else APPLYING)
  }

  lemma AdmittedPut(peers: Peers, kernel: Kernel, q: Request, s: Snapshot, serverKey: Key, now: int, adopt: bool)
    requires ReadOk(peers) && KernelOk(kernel) && SnapshotOk(s)
             && Admissible(peers, kernel, q, s, serverKey, now, adopt)
    ensures MayPut(peers, Intent(peers, q, s))
  {
    hide ReadOk, Taken, KernelOk;
  }

  // ---------------------------------------------------------------- the registry file

  /** Written intents: live records of known identities. */
  ghost predicate Intents(previous: Peers, data: Peers, ids: set<Id>) {
    forall id | id in ids ::
      && id in data && Live(data[id].status)
      && (id in previous ==> previous[id].id == id && SameIdentity(previous[id], data[id])
                             && previous[id].exitFingerprint != "")
  }

  /** Whoever is ACTIVE now was ACTIVE before, under the same identity. */
  ghost predicate NoneActivated(before: Peers, after: Peers) {
    forall id | id in after && after[id].status.ACTIVE? ::
      id in before && before[id].status.ACTIVE? && SameIdentity(before[id], after[id])
  }

  /** The same, but for some peers that are about to be rolled back. */
  ghost predicate NoneActivatedBut(before: Peers, after: Peers, ids: set<Id>) {
    forall id | id in after && after[id].status.ACTIVE? && id !in ids ::
      id in before && before[id].status.ACTIVE? && SameIdentity(before[id], after[id])
  }

  /** How a write of the registry ends: it may raise before or after the file was replaced. */
  datatype Writing = Wrote | RaisedBefore | RaisedAfter

  /** The readback shows the peer and its binding is the same as before. */
  predicate Confirmed(q: Request, verified: Kernel, s: Snapshot, later: Snapshot) {
    q.publicKey in verified && verified[q.publicKey] == [IPv4(q.address, WIDTH)] && later(q) == s(q)
  }

  /** The kernel shows the peer with its one address, and its exit is the one it was admitted with. */
  ghost predicate InPlace(q: Request, verified: Kernel, s: Snapshot, later: Snapshot) {
    q.publicKey in verified && verified[q.publicKey] == [IPv4(q.address, 32)] && later(q) == s(q)
  }

  /** The records of these peers are ACTIVE, everything else is the same. */
  function Promoted(data: Peers, ids: set<Id>): Peers {
    map id | id in data :: if id in ids then data[id].(status := ACTIVE) else data[id]
  }

  lemma AdmissibleFacts(peers: Peers, kernel: Kernel, q: Request, s: Snapshot, serverKey: Key, now: int, adopt: bool)
    requires KernelOk(kernel) && Admissible(peers, kernel, q, s, serverKey, now, adopt)
    ensures s(q).Some? && (q.id in peers ==> !peers[q.id].status.REVOKED?)
  {
  }

  lemma Activate(peers: Peers, id: Id)
    requires ReadOk(peers) && id in peers && Live(peers[id].status)
    ensures ReadOk(peers[id := peers[id].(status := ACTIVE)])
            && Evolves(peers, peers[id := peers[id].(status := ACTIVE)])
  {
  }

  lemma OneIntent(previous: Peers, p: Peer)
    requires ReadOk(previous) && MayPut(previous, p) && Live(p.status)
    requires p.status.ACTIVE? ==> p.id in previous && previous[p.id].status.ACTIVE?
    ensures var data := previous[p.id := p];
            Intents(previous, data, {p.id}) && NoneActivated(previous, data)
            && Promoted(data, {p.id}) == previous[p.id := p.(status := ACTIVE)]
  {
  }

  /** In memory the intents may be ACTIVE already. */
  lemma PromotedIntents(previous: Peers, data: Peers, ids: set<Id>)
    requires Intents(previous, data, ids) && NoneActivated(previous, data)
    ensures Intents(previous, Promoted(data, ids), ids) && NoneActivatedBut(previous, Promoted(data, ids), ids)
    ensures NoneActivatedBut(previous, data, ids)
            && Restored(previous, Promoted(data, ids), ids) == Restored(previous, data, ids)
  {
    var more := Promoted(data, ids);
    forall id | id in data ensures Restored(previous, more, ids)[id] == Restored(previous, data, ids)[id] { }
  }

  /** What a failed apply leaves of an intent: the record it refreshed, or a FAILED one. */
  function Fallback(previous: Peers, data: Peers, id: Id): Peer
    requires id in data
  {
    if id in previous && previous[id].status.ACTIVE? then previous[id] else Lower(data[id], FAILED, "APPLY_FAILED")
  }

  lemma RolledBackPut(previous: Peers, data: Peers, left: set<Id>, id: Id)
    requires ReadOk(data) && id in left && Intents(previous, data, left) && NoneActivatedBut(previous, data, left)
    ensures id in data
    ensures var p := Fallback(previous, data, id);
            && ReadOk(data[id := p]) && Evolves(data, data[id := p])
            && Intents(previous, data[id := p], left - {id}) && NoneActivatedBut(previous, data[id := p], left - {id})
  {
    if id in previous && previous[id].status.ACTIVE? {
      forall j | j in data && j != id ensures Compatible(data[j], data[id]) { }
      Put(data, previous[id]);
    } else {
      Lowered(data, id, FAILED, Some("APPLY_FAILED"));
    }
  }

  /** Refreshed records as they were, new intents FAILED, everyone else untouched. */
  function Restored(previous: Peers, data: Peers, ids: set<Id>): Peers {
    map id | id in data ::
      if id !in ids then data[id]
      else Fallback(previous, data, id)
  }

  lemma RestoredStep(previous: Peers, data: Peers, done: set<Id>, id: Id)
    requires id in data && id !in done
    ensures Restored(previous, data, done + {id})
         == Restored(previous, data, done)[id := Fallback(previous, data, id)]
  {
  }

  lemma RefreshedActivates(previous: Peers, before: Peers, after: Peers)
    requires NoneActivated(previous, before) && after.Keys == before.Keys
    requires forall id | id in after && Live(after[id].status) :: after[id] == before[id]
    ensures NoneActivated(previous, after)
  {
  }

  class Registry {
    var peers: Peers

    ghost predicate Valid()
      reads this
    {
      ReadOk(peers)
    }

    /** `_write` of a registry that passes its reader and continues the old one. */
    method Write(data: Peers)
      requires Valid() && ReadOk(data) && Evolves(peers, data)
      modifies this
      ensures Valid() && peers == data
    {
      peers := data;
    }

    /** Whether the process stops here; in calm weather it does not. */
    static method Stops(calm: bool) returns (stops: bool)
      ensures stops ==> !calm
    {
      stops := *;
      stops := stops && !calm;
    }

    /**
     `apply_peer`. `last` and `undo` are the ends of its last write and of the rollback's. A call that fails activates
     nobody, except when the last write raised after it had taken effect and the rollback could not be written: then
     the registry says ACTIVE of a peer that is installed and bound.
     */
    method ApplyPeer(q: Request, now: int, serverKey: Key, ready: bool, s: Snapshot, kernel: Kernel, adopt: bool,
                     routed: bool, verified: Kernel, later: Snapshot, last: Writing, cleanup: Option<Snapshot>,
                     undo: Writing, calm: bool) returns (r: Result)
      requires Valid() && KernelOk(kernel) && SnapshotOk(s)
      modifies this
      ensures Valid() && Evolves(old(peers), peers)
      ensures r.Rejected? <==> !(ready && Admissible(old(peers), kernel, q, s, serverKey, now, adopt))
      ensures r.Rejected? ==> peers == old(peers)
      ensures r.Applied? ==>
                routed && InPlace(q, verified, s, later) && last.Wrote?
                && peers == old(peers)[q.id := Record(q, s(q).value, ACTIVE)]
      ensures r.Failed? ==>
                if routed && InPlace(q, verified, s, later) && last.RaisedAfter? && undo.RaisedBefore?
                then peers == old(peers)[q.id := Record(q, s(q).value, ACTIVE)]
                else NoneActivated(old(peers), peers)
      ensures calm && !r.Rejected? ==> (r.Applied? <==> routed && InPlace(q, verified, s, later) && last.Wrote?)
                                       && !r.Stopped?
    {
      hide ReadOk, Evolves, KernelOk, SnapshotOk, Admissible, MayPut, NoneActivated, NoneActivatedBut, Intents, Promoted, Restored;
      EvolvesItself(peers);
      var ok := Admit(peers, kernel, q, s, serverKey, now, adopt, false);
      if !ready || !ok { return Rejected; }
      AdmissibleFacts(peers, kernel, q, s, serverKey, now, adopt);
      AdmittedPut(peers, kernel, q, s, serverKey, now, adopt);
      var stops := Stops(calm);
      if stops { return Stopped; } // the intent could not be written
      var previous := peers;
      var peer := Intent(peers, q, s);
      Put(peers, peer);
      Write(peers[q.id := peer]);
      stops := Stops(calm);
      if stops { return Stopped; }
      OneIntent(previous, peer);
      PromotedIntents(previous, peers, {q.id});
      var memory := peers;
      EvolvesItself(peers);
      if routed && Confirmed(q, verified, s, later) {
        Activate(peers, q.id);
        memory := peers[q.id := peer.(status := ACTIVE)];
        assert memory == previous[q.id := Record(q, s(q).value, ACTIVE)];
        EvolvesTransitive(previous, peers, memory);
        EvolvesItself(memory);
        if !last.RaisedBefore? { Write(memory); }
        if last.Wrote? { return Applied; }
      }
      ghost var before := peers;
      FailApply(memory, previous, {q.id}, cleanup, now, undo);
      EvolvesTransitive(previous, before, peers);
      r := Failed;
    }

    /**
     `_fail_apply_batch` on what the call has in memory: a refreshed record goes back to what it was, a new intent is
     FAILED, and then every peer that lost its entitlement is lowered too. The write may raise.
     */
    method FailApply(memory: Peers, previous: Peers, ids: set<Id>, cleanup: Option<Snapshot>, now: int, undo: Writing)
      requires Valid() && ReadOk(memory) && Evolves(peers, memory) && ReadOk(previous)
      requires Intents(previous, memory, ids) && NoneActivatedBut(previous, memory, ids)
      modifies this
      ensures Valid() && Evolves(old(peers), peers)
      ensures undo.RaisedBefore? ==> peers == old(peers)
      ensures !undo.RaisedBefore? ==>
                && NoneActivated(previous, peers)
                && (if cleanup.None? then peers == Restored(previous, memory, ids)
                    else RefreshedAll(Restored(previous, memory, ids), peers, cleanup.value, now, false))
      ensures !undo.RaisedBefore? && cleanup.None? ==>
                && peers.Keys == memory.Keys
                && forall id | id in peers ::
                     if id !in ids then peers[id] == memory[id]
                     else if id in previous && previous[id].status.ACTIVE? then peers[id] == previous[id]
                     else peers[id] == memory[id].(status := FAILED, reason := Some("APPLY_FAILED"))
    {
      hide ReadOk, Evolves, NoneActivated, NoneActivatedBut, Intents, Refreshed, RefreshedAll;
      var data := memory;
      var left := ids;
      EvolvesItself(peers);
      EvolvesItself(memory);
      assert ids - left == {} && Restored(previous, memory, {}) == memory;
      while left != {}
        invariant data == Restored(previous, memory, ids - left)
        invariant peers == old(peers) && left <= ids && ReadOk(data) && Evolves(memory, data)
                  && Intents(previous, data, left)
                  && NoneActivatedBut(previous, data, left)
      {
        var id :| id in left;
        ghost var before := data;
        RolledBackPut(previous, data, left, id);
        data := data[id := Fallback(previous, data, id)];
        EvolvesTransitive(memory, before, data);
        RestoredStep(previous, memory, ids - left, id);
        left := left - {id};
        assert ids - left == ids - (left + {id}) + {id};
      }
      assert ids - {} == ids;
      AllRolledBack(previous, data);
      if cleanup.Some? {
        ghost var before := data;
        data := RefreshBindings(data, cleanup.value, now, false);
        EvolvesTransitive(memory, before, data);
        RefreshedActivates(previous, before, data);
      }
      EvolvesTransitive(peers, memory, data);
      if undo.RaisedBefore? { return; }
      Write(data);
    }

    /** `apply_peers`: all or none of the batch is admitted, and one write records all intents. Failures are as above. */
    method ApplyPeers(batch: seq<Request>, now: int, serverKey: Key, ready: bool, s: Snapshot, kernel: Kernel,
                      adopt: bool, routed: bool, verified: Kernel, later: Snapshot, last: Writing,
                      cleanup: Option<Snapshot>, undo: Writing, calm: bool)
      returns (r: Result)
      requires Valid() && KernelOk(kernel) && SnapshotOk(s)
      modifies this
      ensures Valid() && Evolves(old(peers), peers)
      ensures r.Rejected? <==> !(ready && Normalized(batch, now) && forall i | 0 <= i < |batch| ::
                Admissible(old(peers), kernel, batch[i], s, serverKey, now, adopt))
      ensures r.Rejected? ==> peers == old(peers)
      ensures r.Applied? ==> routed && last.Wrote? && AllActive(peers, batch, s)
                             && forall i | 0 <= i < |batch| :: InPlace(batch[i], verified, s, later)
      ensures r.Failed? ==>
                if routed && (forall i | 0 <= i < |batch| :: InPlace(batch[i], verified, s, later)) && last.RaisedAfter?
                   && undo.RaisedBefore?
                then AllActive(peers, batch, s)
                else NoneActivated(old(peers), peers)
      ensures calm && !r.Rejected? ==>
                && (r.Applied? <==> routed && last.Wrote? && forall i | 0 <= i < |batch| ::
                    InPlace(batch[i], verified, s, later))
                && !r.Stopped?
    {
      hide ReadOk, Evolves, KernelOk, SnapshotOk, Admissible, MayPut, NoneActivated, NoneActivatedBut, Intents, Normalized, Written,
        Promoted, Restored, AllActive;
      EvolvesItself(peers);
      var normal := Normalize(batch, now);
      if !normal || !ready { return Rejected; }
      for i := 0 to |batch|
        invariant peers == old(peers)
        invariant forall k | 0 <= k < i :: Admissible(peers, kernel, batch[k], s, serverKey, now, adopt)
      {
        var ok := Admit(peers, kernel, batch[i], s, serverKey, now, adopt, true);
        if !ok { return Rejected; }
      }
      var stops := Stops(calm);
      if stops { return Stopped; } // the intents could not be written
      var previous := peers;
      var data := RecordBatch(batch, s, kernel, serverKey, now, adopt);
      Write(data);
      stops := Stops(calm);
      if stops { return Stopped; }
      var ids := set i | 0 <= i < |batch| :: batch[i].id;
      WrittenIntents(previous, data, batch, s);
      PromotedIntents(previous, data, ids);
      var memory := data;
      EvolvesItself(data);
      if routed && AllConfirmed(batch, verified, s, later) {
        memory := ActivateBatch(data, batch, s, previous);
        EvolvesTransitive(previous, data, memory);
        EvolvesItself(memory);
        if !last.RaisedBefore? { Write(memory); }
        if last.Wrote? { return Applied; }
      }
      ghost var before := peers;
      FailApply(memory, previous, ids, cleanup, now, undo);
      EvolvesTransitive(previous, before, peers);
      r := Failed;
    }

    /** The intents of an admitted batch. */
    method RecordBatch(batch: seq<Request>, s: Snapshot, kernel: Kernel, serverKey: Key, now: int,
                       adopt: bool) returns (data: Peers)
      requires Valid() && KernelOk(kernel) && SnapshotOk(s) && Normalized(batch, now)
      requires forall i | 0 <= i < |batch| :: Admissible(peers, kernel, batch[i], s, serverKey, now, adopt)
      ensures ReadOk(data) && Evolves(peers, data) && Written(peers, data, batch, s)
    {
      hide ReadOk, Evolves, KernelOk, SnapshotOk, Admissible, MayPut, Normalized, Written;
      data := peers;
      EvolvesItself(peers);
      forall i | 0 <= i < |batch| ensures s(batch[i]).Some? && MayPut(peers, Intent(peers, batch[i], s)) {
        AdmissibleFacts(peers, kernel, batch[i], s, serverKey, now, adopt);
        AdmittedPut(peers, kernel, batch[i], s, serverKey, now, adopt);
      }
      WrittenNone(peers, batch, s);
      for i := 0 to |batch|
        invariant ReadOk(data) && Evolves(peers, data) && Written(peers, data, batch[..i], s)
        invariant forall k | i <= k < |batch| ::
                  s(batch[k]).Some? && MayPut(data, Intent(peers, batch[k], s))
                  && MayPut(peers, Intent(peers, batch[k], s))
      {
        var p := Intent(peers, batch[i], s);
        ghost var before := data;
        Put(data, p);
        data := data[p.id := p];
        EvolvesTransitive(peers, before, data);
        forall k | i < k < |batch| ensures MayPut(data, Intent(peers, batch[k], s)) {
          StillPut(batch, now, i, k, before, p, Intent(peers, batch[k], s));
        }
        WrittenStep(peers, before, batch, s, i, now);
        assert batch[..i + 1] == batch[..i] + [batch[i]];
      }
      assert batch[..|batch|] == batch;
    }

    /** The final write of a verified batch. */
    method ActivateBatch(data: Peers, batch: seq<Request>, s: Snapshot, ghost previous: Peers) returns (final: Peers)
      requires ReadOk(data) && Written(previous, data, batch, s)
      ensures ReadOk(final) && Evolves(data, final) && AllActive(final, batch, s)
      ensures final == Promoted(data, set i | 0 <= i < |batch| :: batch[i].id)
    {
      hide ReadOk, Evolves, Intended, Written, Promoted;
      PromotedNone(data);
      final := data;
      EvolvesItself(data);
      AllIntended(previous, data, batch, s);
      ghost var done: set<Id> := {};
      for i := 0 to |batch|
        invariant ReadOk(final) && Evolves(data, final)
        invariant forall k | 0 <= k < |batch| :: Intended(final, batch[k], s)
        invariant forall k | 0 <= k < i :: batch[k].id in final && final[batch[k].id].status.ACTIVE?
        invariant final == Promoted(data, done) && done == set k | 0 <= k < i :: batch[k].id
      {
        ghost var before := final;
        IntendedLive(final, batch[i], s);
        IntendedLive(data, batch[i], s);
        PromotedOne(data, done, batch[i].id);
        done := done + {batch[i].id};
        Activate(final, batch[i].id);
        forall k | 0 <= k < |batch| ensures Intended(final[batch[i].id := final[batch[i].id].(status := ACTIVE)], batch[k], s) {
          StillIntended(final, batch[i], batch[k], s);
        }
        final := final[batch[i].id := final[batch[i].id].(status := ACTIVE)];
        EvolvesTransitive(data, before, final);
      }
      forall i | 0 <= i < |batch| ensures s(batch[i]).Some? && final[batch[i].id] == Record(batch[i], s(batch[i]).value, ACTIVE) {
        IntendedLive(final, batch[i], s);
      }
    }

    /** `revoke_peer`: the tombstone is written before anything is removed, and nothing undoes it. */
    method RevokePeer(id: Id, key: Key, kernel: Kernel, removed: bool, routed: bool, calm: bool) returns (r: Result)
      requires Valid()
      modifies this
      ensures Valid() && Evolves(old(peers), peers)
      ensures id in old(peers) && old(peers)[id].publicKey == key ==>
                !r.Rejected? && peers == old(peers)[id := old(peers)[id].(status := REVOKED, reason := Some("PEER_REVOKED"))]
      ensures id in old(peers) && r.Applied? ==> removed && routed
      ensures id in old(peers) && old(peers)[id].publicKey == key && calm ==>
                r == if removed && routed then Applied else Failed
      ensures id in old(peers) && old(peers)[id].publicKey != key ==> r.Rejected? && peers == old(peers)
      ensures id !in old(peers) ==> peers == old(peers)
                                    && (r.Rejected? <==> key in kernel || exists j | j in peers ::
                                        peers[j].publicKey == key)
                                    && (r.Rejected? || r.Applied?)
    {
      hide ReadOk, Evolves;
      EvolvesItself(peers);
      if id !in peers {
        return if key in kernel || exists j | j in peers :: peers[j].publicKey == key then Rejected else Applied;
      }
      if peers[id].publicKey != key { return Rejected; }
      Lowered(peers, id, REVOKED, Some("PEER_REVOKED"));
      Write(peers[id := peers[id].(status := REVOKED, reason := Some("PEER_REVOKED"))]);
      var stops := Stops(calm);
      if stops { return Stopped; }
      r := if removed && routed then Applied else Failed;
    }
  
    /** `reconcile` up to the routes: what expired, was interrupted, lost its exit or its address is lowered. */
    method Screen(now: int, kernel: Kernel, s: Option<Snapshot>) returns (ok: bool)
      requires Valid() && KernelOk(kernel)
      modifies this
      ensures Valid() && Evolves(old(peers), peers) && peers.Keys == old(peers).Keys && NoApplying(peers)
      ensures ok <==> s.Some?
      ensures forall id | id in old(peers) && old(peers)[id].status.ACTIVE? && old(peers)[id].expiresAt > now
                && (s.Some? ==> Bound(s.value, old(peers)[id]))
                && !Taken(kernel, old(peers)[id].address, old(peers)[id].publicKey) ::
                peers[id] == old(peers)[id]
    {
      hide Swept, Lower, ReadOk, Evolves, KernelOk, Entitled, NoApplying, RefreshedAll, Taken, Bound;
      var data := Interrupted(peers, now);
      SweptStay(now);
      Write(data);
      if s.None? { return false; }
      ghost var before := data;
      data := RefreshBindings(data, s.value, now, true);
      EvolvesTransitive(old(peers), before, data);
      RefreshKeepsNone(before, data, s.value, now);
      AllEntitledStay(before, data, s.value, now, true);
      ghost var refreshed := data;
      data := BlockConflicts(data, kernel);
      EvolvesTransitive(old(peers), refreshed, data);
      EvolvesTransitive(before, refreshed, data);
      Write(data);
      ok := true;
    }

    /** The rest of `reconcile`: what cannot be installed or lost its exit meanwhile is lowered, and the answer is true. */
    method Install(now: int, kernel: Kernel, installed: Id -> bool, verified: Option<Kernel>,
                   later: Option<Snapshot>) returns (r: Result)
      requires Valid() && NoApplying(peers)
      modifies this
      ensures Valid() && Evolves(old(peers), peers) && peers.Keys == old(peers).Keys
      ensures r.Applied? ==> verified.Some? && later.Some? && Delivered(peers, verified.value, later.value, now)
      ensures (r.Stopped? <==> verified.None? || later.None?) && !r.Rejected?
      ensures verified.Some? && later.Some? ==> (r.Applied? <==> peers == old(peers))
      ensures forall id | id in old(peers) && old(peers)[id].status.ACTIVE? && old(peers)[id].expiresAt > now
                && (later.Some? ==> Bound(later.value, old(peers)[id]))
                && Present(old(peers)[id], kernel, installed, verified) ::
                peers[id] == old(peers)[id]
    {
      hide Lower, ReadOk, Evolves, Delivered, Entitled, NoApplying, Installed, RefreshedAll, Present, Bound;
      EvolvesItself(peers);
      var data := BlockUninstalled(peers, kernel, installed, verified);
      if later.None? || verified.None? {
        Write(data);
        return Stopped;
      }
      ghost var before := data;
      data := RefreshBindings(data, later.value, now, false);
      EvolvesTransitive(peers, before, data);
      AllEntitledStay(before, data, later.value, now, false);
      if data != peers {
        Write(data);
        return Failed;
      }
      RefreshDelivers(before, data, verified.value, later.value, now);
      r := Applied;
    }

    /**
     `reconcile`. Its snapshots of the kernel and of the bindings are parameters, None when unreadable.
     When it completes, every ACTIVE peer is installed with exactly its address in the last readback, is
     unexpired and still has its exit, and no apply is left half done.
     */
    method Reconcile(now: int, kernel: Option<Kernel>, s: Option<Snapshot>, routed: bool, installed: Id -> bool,
                     verified: Option<Kernel>, later: Option<Snapshot>) returns (r: Result)
      requires Valid() && (kernel.Some? ==> KernelOk(kernel.value))
      modifies this
      ensures Valid() && Evolves(old(peers), peers) && peers.Keys == old(peers).Keys
      ensures r.Applied? ==> verified.Some? && later.Some? && Delivered(peers, verified.value, later.value, now)
      ensures (r.Stopped? <==> kernel.None? || s.None? || !routed || verified.None? || later.None?) && !r.Rejected?
      ensures forall id | id in old(peers) && old(peers)[id].status.ACTIVE? && old(peers)[id].expiresAt > now
                && (s.Some? ==> Bound(s.value, old(peers)[id])) && (later.Some? ==> Bound(later.value, old(peers)[id]))
                && (kernel.Some? ==> !Taken(kernel.value, old(peers)[id].address, old(peers)[id].publicKey)
                                     && Present(old(peers)[id], kernel.value, installed, verified)) ::
                peers[id] == old(peers)[id]
    {
      hide ReadOk, Evolves, KernelOk, Delivered, NoApplying, Present, Taken, Bound;
      EvolvesItself(peers);
      if kernel.None? { return Stopped; }
      var ok := Screen(now, kernel.value, s);
      if !ok || !routed { return Stopped; }
      ghost var screened := peers;
      r := Install(now, kernel.value, installed, verified, later);
      EvolvesTransitive(old(peers), screened, peers);
    }
  }

  ghost predicate NoApplying(peers: Peers) {
    forall id | id in peers :: !peers[id].status.APPLYING?
  }

  ghost predicate Installed(peers: Peers, verified: Kernel) {
    forall id | id in peers && peers[id].status.ACTIVE? ::
      peers[id].publicKey in verified && verified[peers[id].publicKey] == Host(peers[id])
  }

  ghost predicate Delivered(peers: Peers, verified: Kernel, s: Snapshot, now: int) {
    Installed(peers, verified) && Entitled(peers, peers.Keys, s, now) && NoApplying(peers)
  }

  function Lower(p: Peer, status: Status, reason: string): Peer { p.(status := status, reason := Some(reason)) }

  function Swept(p: Peer, now: int): Peer {
    if p.status.REVOKED? then p
    else if p.expiresAt <= now then Lower(p, EXPIRED, "PEER_EXPIRED")
    else if p.status.APPLYING? then Lower(p, FAILED, "APPLY_INTERRUPTED")
    else p
  }

  lemma SweptStay(now: int)
    ensures forall p: Peer | p.status.ACTIVE? && p.expiresAt > now :: Swept(p, now) == p
  {
  }

  /** The first loop of `reconcile`: expired peers expire and interrupted applies fail. */
  method Interrupted(peers: Peers, now: int) returns (r: Peers)
    requires ReadOk(peers)
    ensures ReadOk(r) && Evolves(peers, r) && r.Keys == peers.Keys && NoApplying(r)
    ensures forall id | id in peers :: r[id] == Swept(peers[id], now)
  {
    hide ReadOk, Evolves;
    r := peers;
    EvolvesItself(peers);
    var left := peers.Keys;
    while left != {}
      invariant left <= peers.Keys && r.Keys == peers.Keys && ReadOk(r) && Evolves(peers, r)
      invariant forall id | id in left :: r[id] == peers[id]
      invariant forall id | id in peers && id !in left :: r[id] == Swept(peers[id], now)
    {
      var id :| id in left;
      left := left - {id};
      ghost var before := r;
      if !r[id].status.REVOKED? {
        if r[id].expiresAt <= now {
          Lowered(r, id, EXPIRED, Some("PEER_EXPIRED"));
          r := r[id := r[id].(status := EXPIRED, reason := Some("PEER_EXPIRED"))];
        } else if r[id].status.APPLYING? {
          Lowered(r, id, FAILED, Some("APPLY_INTERRUPTED"));
          r := r[id := r[id].(status := FAILED, reason := Some("APPLY_INTERRUPTED"))];
        }
      }
      EvolvesItself(before);
      EvolvesTransitive(peers, before, r);
    }
  }

  /** ACTIVE peers whose address another kernel peer covers are blocked. */
  method BlockConflicts(peers: Peers, kernel: Kernel) returns (r: Peers)
    requires ReadOk(peers) && KernelOk(kernel) && NoApplying(peers)
    ensures ReadOk(r) && Evolves(peers, r) && r.Keys == peers.Keys && NoApplying(r)
    ensures forall id | id in peers ::
              r[id] == if peers[id].status.ACTIVE? && Taken(kernel, peers[id].address, peers[id].publicKey)
                       then Lower(peers[id], BLOCKED, "KERNEL_ADDRESS_CONFLICT") else peers[id]
  {
    hide ReadOk, Evolves, KernelOk, Taken;
    r := peers;
    EvolvesItself(peers);
    var left := peers.Keys;
    while left != {}
      invariant left <= peers.Keys && r.Keys == peers.Keys && ReadOk(r) && Evolves(peers, r) && NoApplying(r)
      invariant forall id | id in left :: r[id] == peers[id]
      invariant forall id | id in peers && id !in left ::
                  r[id] == if peers[id].status.ACTIVE? && Taken(kernel, peers[id].address, peers[id].publicKey)
                           then Lower(peers[id], BLOCKED, "KERNEL_ADDRESS_CONFLICT") else peers[id]
    {
      var id :| id in left;
      left := left - {id};
      ghost var before := r;
      var taken := IndexedConflict(kernel, r[id].address, r[id].publicKey);
      if r[id].status.ACTIVE? && taken {
        Lowered(r, id, BLOCKED, Some("KERNEL_ADDRESS_CONFLICT"));
        r := r[id := r[id].(status := BLOCKED, reason := Some("KERNEL_ADDRESS_CONFLICT"))];
      }
      EvolvesItself(before);
      EvolvesTransitive(peers, before, r);
    }
  }

  predicate Shown(p: Peer, kernel: Kernel) { p.publicKey in kernel && kernel[p.publicKey] == Host(p) }

  /** The peer is in the kernel already or could be set, and the readback shows it. */
  predicate Reachable(p: Peer, kernel: Kernel, installed: Id -> bool, verified: Option<Kernel>) {
    (Shown(p, kernel) || installed(p.id)) && (verified.Some? ==> Shown(p, verified.value))
  }

  /** The peer needs nothing or can be set, and is there with its one address when the kernel is read again. */
  ghost predicate Present(p: Peer, kernel: Kernel, installed: Id -> bool, verified: Option<Kernel>) {
    && (installed(p.id) || (p.publicKey in kernel && kernel[p.publicKey] == [IPv4(p.address, 32)]))
    && (verified.Some? ==> p.publicKey in verified.value && verified.value[p.publicKey] == [IPv4(p.address, 32)])
  }

  /** ACTIVE peers that are not in the kernel are set; those that cannot be, or are not there afterwards, are blocked. */
  method BlockUninstalled(peers: Peers, kernel: Kernel, installed: Id -> bool,
                          verified: Option<Kernel>) returns (r: Peers)
    requires ReadOk(peers) && NoApplying(peers)
    ensures ReadOk(r) && Evolves(peers, r) && r.Keys == peers.Keys && NoApplying(r)
    ensures verified.Some? ==> Installed(r, verified.value)
    ensures forall id | id in peers ::
              r[id] == if peers[id].status.ACTIVE? && !Present(peers[id], kernel, installed, verified)
                       then Lower(peers[id], BLOCKED, "KERNEL_INSTALL_FAILED") else peers[id]
  {
    hide ReadOk, Evolves;
    r := peers;
    EvolvesItself(peers);
    var left := peers.Keys;
    while left != {}
      invariant left <= peers.Keys && r.Keys == peers.Keys && ReadOk(r) && Evolves(peers, r) && NoApplying(r)
      invariant forall id | id in left :: r[id] == peers[id]
      invariant forall id | id in peers && id !in left ::
                  r[id] == if peers[id].status.ACTIVE? && !Reachable(peers[id], kernel, installed, verified)
                           then Lower(peers[id], BLOCKED, "KERNEL_INSTALL_FAILED") else peers[id]
    {
      var id :| id in left;
      left := left - {id};
      ghost var before := r;
      var p := r[id];
      if p.status.ACTIVE? {
        RecordId(r, id);
        if !Reachable(p, kernel, installed, verified) {
          Lowered(r, id, BLOCKED, Some("KERNEL_INSTALL_FAILED"));
          r := r[id := p.(status := BLOCKED, reason := Some("KERNEL_INSTALL_FAILED"))];
        }
      }
      EvolvesItself(before);
      EvolvesTransitive(peers, before, r);
    }
  }

  /** `_normalize_apply_batch`: a bounded batch of unexpired peers without a repeated identity. */
  ghost predicate Normalized(batch: seq<Request>, now: int) {
    && 1 <= |batch| <= 4000
    && (forall i | 0 <= i < |batch| :: batch[i].expiresAt > now)
    && (forall i, j | 0 <= i < j < |batch| :: Separate(batch[i], batch[j]))
  }

  const BATCH_APPLY_LIMIT: nat := 4000

  predicate Separate(p: Request, q: Request) {
    p.id != q.id && p.publicKey != q.publicKey && p.address != q.address && p.nodeUserId != q.nodeUserId
  }

  datatype Seen = Seen(ids: set<Id>, keys: set<Key>, addresses: set<Address>, users: set<User>)

  predicate SeenBefore(seen: Seen, q: Request) {
    q.id in seen.ids || q.publicKey in seen.keys || q.address in seen.addresses || q.nodeUserId in seen.users
  }

  function See(seen: Seen, q: Request): Seen {
    Seen(seen.ids + {q.id}, seen.keys + {q.publicKey}, seen.addresses + {q.address}, seen.users + {q.nodeUserId})
  }

  function SeenIn(batch: seq<Request>): Seen {
    if batch == [] then Seen({}, {}, {}, {}) else See(SeenIn(batch[..|batch| - 1]), batch[|batch| - 1])
  }

  lemma {:induction false} SeenMeans(batch: seq<Request>, q: Request)
    ensures SeenBefore(SeenIn(batch), q) <==> exists i | 0 <= i < |batch| :: !Separate(batch[i], q)
  {
    if batch != [] {
      var n := |batch| - 1;
      SeenMeans(batch[..n], q);
      if i :| 0 <= i < |batch| && !Separate(batch[i], q) {
        if i < n { assert !Separate(batch[..n][i], q); }
      }
      if SeenBefore(SeenIn(batch[..n]), q) {
        var i :| 0 <= i < n && !Separate(batch[..n][i], q);
        assert !Separate(batch[i], q);
      }
      assert SeenBefore(SeenIn(batch), q) <==> SeenBefore(SeenIn(batch[..n]), q) || !Separate(batch[n], q);
    }
  }

  method Normalize(batch: seq<Request>, now: int) returns (ok: bool)
    ensures ok <==> Normalized(batch, now)
  {
    hide Separate, SeenBefore, See;
    if |batch| < 1 || |batch| > BATCH_APPLY_LIMIT { return false; }
    var seen := Seen({}, {}, {}, {});
    assert batch[..0] == [];
    for i := 0 to |batch|
      invariant seen == SeenIn(batch[..i])
      invariant forall k | 0 <= k < i :: batch[k].expiresAt > now
      invariant forall j, k | 0 <= j < k < i :: Separate(batch[j], batch[k])
    {
      var q := batch[i];
      SeenMeans(batch[..i], q);
      if q.expiresAt <= now { return false; }
      if SeenBefore(seen, q) {
        ghost var j :| 0 <= j < i && !Separate(batch[..i][j], q);
        assert !Separate(batch[j], batch[i]);
        return false;
      }
      forall j | 0 <= j < i ensures Separate(batch[j], batch[i]) { assert Separate(batch[..i][j], q); }
      assert batch[..i + 1][..i] == batch[..i];
      seen := See(seen, q);
    }
    ok := true;
  }

  /** The record of a request, in a live state. */
  ghost predicate Intended(data: Peers, q: Request, s: Snapshot) {
    && q.id in data && s(q).Some? && Live(data[q.id].status)
    && data[q.id].(status := ACTIVE) == Record(q, s(q).value, ACTIVE)
  }

  lemma IntendedLive(data: Peers, q: Request, s: Snapshot)
    requires Intended(data, q, s)
    ensures q.id in data && Live(data[q.id].status) && s(q).Some?
    ensures data[q.id].status.ACTIVE? ==> data[q.id] == Record(q, s(q).value, ACTIVE)
  {
  }

  lemma StillIntended(data: Peers, q: Request, other: Request, s: Snapshot)
    requires Intended(data, q, s) && Intended(data, other, s)
    ensures Intended(data[q.id := data[q.id].(status := ACTIVE)], other, s)
  {
  }

  lemma AllIntended(previous: Peers, data: Peers, batch: seq<Request>, s: Snapshot)
    requires Written(previous, data, batch, s)
    ensures forall k | 0 <= k < |batch| :: Intended(data, batch[k], s)
  {
  }

  /** The file after the intents: exactly the batch's records differ from before. */
  ghost predicate Written(previous: Peers, data: Peers, batch: seq<Request>, s: Snapshot) {
    && (forall i | 0 <= i < |batch| ::
        s(batch[i]).Some? && batch[i].id in data && data[batch[i].id] == Intent(previous, batch[i], s))
    && (forall id | id in data && (forall i | 0 <= i < |batch| :: batch[i].id != id) ::
        id in previous && data[id] == previous[id])
    && (forall i | 0 <= i < |batch| && batch[i].id in previous :: previous[batch[i].id].id == batch[i].id
          && SameIdentity(previous[batch[i].id], data[batch[i].id]) && previous[batch[i].id].exitFingerprint != "")
  }

  lemma WrittenNone(peers: Peers, batch: seq<Request>, s: Snapshot)
    ensures Written(peers, peers, batch[..0], s)
  {
  }

  /** Recording one member of a batch leaves the others admissible. */
  lemma StillPut(batch: seq<Request>, now: int, i: nat, k: nat, data: Peers, p: Peer, q: Peer)
    requires Normalized(batch, now) && i < k < |batch| && Asked(p) == batch[i] && Asked(q) == batch[k]
    requires MayPut(data, q)
    ensures MayPut(data[p.id := p], q)
  {
    assert Separate(batch[i], batch[k]);
  }

  lemma WrittenStep(peers: Peers, data: Peers, batch: seq<Request>, s: Snapshot, i: nat, now: int)
    requires Normalized(batch, now) && i < |batch| && s(batch[i]).Some? && ReadOk(peers)
    requires Written(peers, data, batch[..i], s) && MayPut(peers, Intent(peers, batch[i], s))
    ensures var p := Intent(peers, batch[i], s);
            Written(peers, data[p.id := p], batch[..i + 1], s)
  {
    hide ReadOk, MayPut, Normalized, Separate, Intent;
    var p := Intent(peers, batch[i], s);
    var after, part := data[p.id := p], batch[..i + 1];
    OwnRecord(peers, batch[i], s);
    forall k | 0 <= k < i ensures batch[k].id != batch[i].id { OthersId(batch, now, k, i); }
    assert forall k | 0 <= k < i :: part[k] == batch[..i][k];
    assert part[i] == batch[i];
    forall id | id in after && (forall k | 0 <= k < |part| :: part[k].id != id) ensures id in peers && after[id] == peers[id] {
      assert id != part[i].id;
    }
  }

  lemma OthersId(batch: seq<Request>, now: int, k: nat, i: nat)
    requires Normalized(batch, now) && k < i < |batch|
    ensures batch[k].id != batch[i].id
  {
    assert Separate(batch[k], batch[i]);
  }

  lemma OwnRecord(peers: Peers, q: Request, s: Snapshot)
    requires ReadOk(peers) && s(q).Some? && MayPut(peers, Intent(peers, q, s))
    ensures var p := Intent(peers, q, s);
            p.id == q.id && (p.id in peers ==>
                peers[p.id].id == p.id && SameIdentity(peers[p.id], p) && peers[p.id].exitFingerprint != "")
  {
    if q.id in peers { PreviousFacts(peers, q.id); }
  }

  lemma PreviousFacts(peers: Peers, id: Id)
    requires ReadOk(peers) && id in peers
    ensures peers[id].id == id && peers[id].exitFingerprint != ""
  {
  }

  predicate AllConfirmed(batch: seq<Request>, verified: Kernel, s: Snapshot, later: Snapshot) {
    forall i | 0 <= i < |batch| :: Confirmed(batch[i], verified, s, later)
  }

  ghost predicate AllActive(peers: Peers, batch: seq<Request>, s: Snapshot) {
    forall i | 0 <= i < |batch| ::
      batch[i].id in peers && s(batch[i]).Some? && peers[batch[i].id] == Record(batch[i], s(batch[i]).value, ACTIVE)
  }

  lemma PromotedNone(data: Peers)
    ensures Promoted(data, {}) == data
  {
  }

  lemma PromotedOne(data: Peers, ids: set<Id>, id: Id)
    requires id in data
    ensures id in Promoted(data, ids)
    ensures Promoted(data, ids + {id}) == Promoted(data, ids)[id := Promoted(data, ids)[id].(status := ACTIVE)]
  {
  }

  lemma AllRolledBack(previous: Peers, data: Peers)
    requires NoneActivatedBut(previous, data, {})
    ensures NoneActivated(previous, data)
  {
  }

  lemma WrittenIntents(previous: Peers, data: Peers, batch: seq<Request>, s: Snapshot)
    requires Written(previous, data, batch, s)
    ensures Intents(previous, data, set i | 0 <= i < |batch| :: batch[i].id) && NoneActivated(previous, data)
  {
    forall id | id in data && data[id].status.ACTIVE? ensures id in previous && previous[id].status.ACTIVE?
                                                              && SameIdentity(previous[id], data[id]) {
      if i :| 0 <= i < |batch| && batch[i].id == id {
        assert data[batch[i].id] == Intent(previous, batch[i], s);
      }
    }
  }

  lemma AllEntitledStay(before: Peers, after: Peers, s: Snapshot, now: int, recover: bool)
    requires RefreshedAll(before, after, s, now, recover)
    ensures forall id | id in before && before[id].status.ACTIVE? && before[id].expiresAt > now
            && Bound(s, before[id]) ::
              id in after && after[id] == before[id]
  {
    hide RefreshedAll, Bound;
    forall id | id in before && before[id].status.ACTIVE? && before[id].expiresAt > now && Bound(s, before[id])
      ensures id in after && after[id] == before[id]
    {
      EntitledStay(before, after, s, now, recover, id);
    }
  }

  lemma RefreshKeepsNone(before: Peers, after: Peers, s: Snapshot, now: int)
    requires NoApplying(before) && after.Keys == before.Keys
    requires forall id | id in after :: after[id].status.APPLYING? ==> before[id].status.APPLYING?
    ensures NoApplying(after)
  {
  }

  lemma RefreshDelivers(before: Peers, after: Peers, verified: Kernel, s: Snapshot, now: int)
    requires Installed(before, verified) && NoApplying(before) && after.Keys == before.Keys
    requires Entitled(after, after.Keys, s, now) && forall id | id in after && Live(after[id].status) ::
              after[id] == before[id]
    ensures Delivered(after, verified, s, now)
  {
    hide Entitled;
  }
}
