/** The WireGuard peer registry: identities that never change, states that do, and the checks every reader makes. */
module PeerRegistry {
  import opened Basics
  import opened AddressIndex

  type Id = string
  type User = string
  type Fingerprint = string

  datatype Status = ACTIVE | APPLYING | REVOKED | EXPIRED | BLOCKED | FAILED

  datatype Peer = Peer(
    id: Id, publicKey: Key, address: Address, nodeUserId: User, exitFingerprint: Fingerprint,
    expiresAt: int, status: Status, reason: Option<string>)

  type Peers = map<Id, Peer>

  predicate Live(s: Status) { s.ACTIVE? || s.APPLYING? }

  function Host(p: Peer): seq<Network> { [IPv4(p.address, WIDTH)] }

  // ---------------------------------------------------------------- the reader's checks

  predicate Compatible(p: Peer, q: Peer) {
    && p.publicKey != q.publicKey && p.address != q.address
    && (Live(p.status) && Live(q.status) ==> p.nodeUserId != q.nodeUserId)
  }

  /** The checks on the records read so far. */
  ghost predicate ReadOkOn(peers: Peers, done: set<Id>) {
    && (forall id | id in peers && id in done :: peers[id].id == id && peers[id].exitFingerprint != "")
    && (forall i, j | i in peers && j in peers && i in done && j in done && i != j :: Compatible(peers[i], peers[j]))
  }

  ghost predicate ReadOk(peers: Peers) {
    && (forall id | id in peers :: peers[id].id == id && peers[id].exitFingerprint != "")
    && (forall i, j | i in peers && j in peers && i != j :: Compatible(peers[i], peers[j]))
  }

  ghost predicate Indexed(peers: Peers, done: set<Id>, addresses: set<Address>, keys: set<Key>, users: set<User>) {
    && (forall a :: a in addresses <==> exists i | i in peers && i in done :: peers[i].address == a)
    && (forall k :: k in keys <==> exists i | i in peers && i in done :: peers[i].publicKey == k)
    && (forall u :: u in users <==> exists i | i in peers && i in done ::
        Live(peers[i].status) && peers[i].nodeUserId == u)
  }

  predicate Hit(p: Peer, addresses: set<Address>, keys: set<Key>, users: set<User>) {
    p.address in addresses || p.publicKey in keys || (Live(p.status) && p.nodeUserId in users)
  }

  lemma HitMeans(peers: Peers, done: set<Id>, id: Id, addresses: set<Address>, keys: set<Key>, users: set<User>)
    requires id in peers && Indexed(peers, done, addresses, keys, users)
    ensures Hit(peers[id], addresses, keys, users) <==> exists i | i in peers && i in done ::
              !Compatible(peers[i], peers[id])
  {
    var p := peers[id];
    if p.address in addresses { var i :| i in peers && i in done && peers[i].address == p.address; }
    if p.publicKey in keys { var i :| i in peers && i in done && peers[i].publicKey == p.publicKey; }
    if Live(p.status) && p.nodeUserId in users {
      var i :| i in peers && i in done && Live(peers[i].status) && peers[i].nodeUserId == p.nodeUserId;
    }
  }

  lemma IndexedStep(peers: Peers, done: set<Id>, id: Id, addresses: set<Address>, keys: set<Key>, users: set<User>)
    requires id in peers && Indexed(peers, done, addresses, keys, users)
    ensures var p := peers[id];
            Indexed(peers, done + {id}, addresses + {p.address}, keys + {p.publicKey},
                    if Live(p.status) then users + {p.nodeUserId} else users)
  {
    var p, more := peers[id], done + {id};
    var as', ks, us := addresses + {p.address}, keys + {p.publicKey}, if Live(p.status) then users + {p.nodeUserId} else users;
    forall a ensures a in as' <==> exists i | i in peers && i in more :: peers[i].address == a {
      if a in addresses { var i :| i in peers && i in done && peers[i].address == a; assert i in more; }
    }
    forall k ensures k in ks <==> exists i | i in peers && i in more :: peers[i].publicKey == k {
      if k in keys { var i :| i in peers && i in done && peers[i].publicKey == k; assert i in more; }
    }
    forall u ensures u in us <==> exists i | i in peers && i in more :: Live(peers[i].status) && peers[i].nodeUserId == u {
      if u in users { var i :| i in peers && i in done && Live(peers[i].status) && peers[i].nodeUserId == u; assert i in more; }
    }
  }

  lemma ReadOkStep(peers: Peers, done: set<Id>, id: Id)
    requires ReadOkOn(peers, done) && id in peers && peers[id].id == id && peers[id].exitFingerprint != ""
    requires forall i | i in peers && i in done :: Compatible(peers[i], peers[id])
    ensures ReadOkOn(peers, done + {id})
  {
  }

  lemma ReadOkAll(peers: Peers)
    ensures ReadOkOn(peers, peers.Keys) <==> ReadOk(peers)
  {
    hide Compatible;
  }

  /** The loop of `_read` over its three sets. */
  method Read(peers: Peers) returns (ok: bool)
    ensures ok <==> ReadOk(peers)
  {
    hide ReadOkOn, Indexed, Hit;
    var left := peers.Keys;
    var addresses: set<Address>, keys: set<Key>, users: set<User> := {}, {}, {};
    ReadStart(peers);
    assert peers.Keys - left == {};
    while left != {}
      invariant left <= peers.Keys && ReadOkOn(peers, peers.Keys - left)
      invariant Indexed(peers, peers.Keys - left, addresses, keys, users)
    {
      var id :| id in left;
      var p := peers[id];
      ghost var done := peers.Keys - left;
      if p.id != id || p.exitFingerprint == "" { return false; }
      HitMeans(peers, done, id, addresses, keys, users);
      if Hit(p, addresses, keys, users) { return false; }
      ReadOkStep(peers, done, id);
      IndexedStep(peers, done, id, addresses, keys, users);
      addresses, keys := addresses + {p.address}, keys + {p.publicKey};
      if Live(p.status) { users := users + {p.nodeUserId}; }
      left := left - {id};
      assert peers.Keys - left == done + {id};
    }
    assert peers.Keys - {} == peers.Keys;
    ReadOkAll(peers);
    ok := true;
  }

  lemma ReadStart(peers: Peers)
    ensures ReadOkOn(peers, {}) && Indexed(peers, {}, {}, {}, {})
  {
  }

  // ---------------------------------------------------------------- what may change

  predicate SameIdentity(p: Peer, q: Peer) {
    p.id == q.id && p.publicKey == q.publicKey && p.address == q.address && p.nodeUserId == q.nodeUserId
    && p.exitFingerprint == q.exitFingerprint
  }

  /** No peer is forgotten or changes its identity, and a revoked one stays revoked. */
  ghost predicate Evolves(a: Peers, b: Peers) {
    forall id | id in a :: id in b && SameIdentity(a[id], b[id]) && (a[id].status.REVOKED? ==> b[id].status.REVOKED?)
  }

  lemma EvolvesItself(a: Peers)
    ensures Evolves(a, a)
  {
  }

  lemma EvolvesTransitive(a: Peers, b: Peers, c: Peers)
    requires Evolves(a, b) && Evolves(b, c)
    ensures Evolves(a, c)
  {
  }

  /** A peer may leave the live states at any time. */
  lemma Lowered(peers: Peers, id: Id, status: Status, reason: Option<string>)
    requires ReadOk(peers) && id in peers && !Live(status) && (peers[id].status.REVOKED? ==> status.REVOKED?)
    ensures ReadOk(peers[id := peers[id].(status := status, reason := reason)])
    ensures Evolves(peers, peers[id := peers[id].(status := status, reason := reason)])
  {
  }

  /** A live state is free when no other live peer has the user. */
  ghost predicate UserFree(peers: Peers, id: Id, user: User) {
    forall j | j in peers && j != id && Live(peers[j].status) :: peers[j].nodeUserId != user
  }

  /** A record may be put in when it clashes with no other record and keeps an existing identity. */
  ghost predicate MayPut(peers: Peers, p: Peer) {
    && p.exitFingerprint != ""
    && (p.id in peers ==> SameIdentity(peers[p.id], p) && (peers[p.id].status.REVOKED? ==> p.status.REVOKED?))
    && (forall j | j in peers && j != p.id :: peers[j].publicKey != p.publicKey && peers[j].address != p.address)
    && (Live(p.status) ==> UserFree(peers, p.id, p.nodeUserId))
  }

  lemma Put(peers: Peers, p: Peer)
    requires ReadOk(peers) && MayPut(peers, p)
    ensures ReadOk(peers[p.id := p]) && Evolves(peers, peers[p.id := p])
  {
  }
}
