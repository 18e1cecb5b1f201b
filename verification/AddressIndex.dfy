/** The IPv4 prefix trie over one kernel snapshot agrees with the linear scan it replaces. */
module AddressIndex {

  type Key = string

  const WIDTH: nat := 32

  function Pow2(n: nat): (r: nat)
    ensures r > 0
  {
    if n == 0 then 1 else 2 * Pow2(n - 1)
  }

  type Address = n: nat | n < 0x1_0000_0000

  /** An allowed-ips entry; `host` bits below the prefix are allowed, as with `strict=False`. */
  datatype Network = IPv4(host: Address, prefix: nat) | IPv6(text: string)

  predicate NetworkOk(n: Network) { n.IPv4? ==> n.prefix <= WIDTH }

  type Kernel = map<Key, seq<Network>>

  ghost predicate KernelOk(kernel: Kernel) {
    forall key, i | key in kernel && 0 <= i < |kernel[key]| :: NetworkOk(kernel[key][i])
  }

  // ---------------------------------------------------------------- the linear scan

  /** The first `prefix` bits, as a number. */
  function Top(a: Address, prefix: nat): int
    requires prefix <= WIDTH
  {
    a / Pow2(WIDTH - prefix)
  }

  /** `address in network`. */
  predicate Contains(n: Network, a: Address)
    requires NetworkOk(n)
  {
    n.IPv4? && Top(n.host, n.prefix) == Top(a, n.prefix)
  }

  /** What the scan of `_conflicts` asks: some other key owns an IPv4 network with the address. */
  ghost predicate Taken(kernel: Kernel, a: Address, key: Key)
    requires KernelOk(kernel)
  {
    exists other, i | other in kernel && 0 <= i < |kernel[other]| :: other != key && Contains(kernel[other][i], a)
  }

  // ---------------------------------------------------------------- bits

  function Bit(a: Address, i: nat): bool
    requires i < WIDTH
  {
    (a / Pow2(WIDTH - 1 - i)) % 2 == 1
  }

  function Path(a: Address, n: nat): seq<bool>
    requires n <= WIDTH
  {
    seq(n, i requires 0 <= i < n => Bit(a, i))
  }

  lemma HalvedTop(a: Address, n: nat)
    requires n < WIDTH
    ensures Top(a, n) == Top(a, n + 1) / 2
    ensures Bit(a, n) <==> Top(a, n + 1) % 2 == 1
  {
    var d := Pow2(WIDTH - 1 - n);
    assert Pow2(WIDTH - n) == 2 * d;
    DivDiv(a, d);
  }

  lemma DivDiv(a: nat, d: nat)
    requires d > 0
    ensures a / (2 * d) == (a / d) / 2
  {
    var q, r := a / d, a % d;
    assert a == q * d + r;
    var h, b := q / 2, q % 2;
    assert q == 2 * h + b;
    assert a == h * (2 * d) + (b * d + r) by { assert (2 * h + b) * d == h * (2 * d) + b * d; }
    assert 0 <= b * d + r < 2 * d;
    QuotientIs(a, 2 * d, h, b * d + r);
  }

  lemma QuotientIs(a: nat, d: nat, q: nat, r: nat)
    requires d > 0 && a == q * d + r && r < d
    ensures a / d == q
  {
    MulStep(a / d, q, d);
    MulStep(q, a / d, d);
  }

  lemma {:induction false} MulStep(x: nat, y: nat, d: nat)
    ensures x < y ==> x * d + d <= y * d
  {
    if x + 1 < y {
      MulStep(x, y - 1, d);
      assert y * d == (y - 1) * d + d;
    } else if x < y {
      assert (x + 1) * d == x * d + d;
    }
  }

  /** Equal prefixes are equal paths. */
  lemma {:induction false} TopIsPath(a: Address, b: Address, n: nat)
    requires n <= WIDTH
    ensures Top(a, n) == Top(b, n) <==> Path(a, n) == Path(b, n)
  {
    hide Pow2, Top, Bit;
    if n == 0 {
      SmallTop(a);
      SmallTop(b);
    } else {
      TopIsPath(a, b, n - 1);
      HalvedTop(a, n - 1);
      HalvedTop(b, n - 1);
      assert Path(a, n) == Path(a, n - 1) + [Bit(a, n - 1)];
      assert Path(b, n) == Path(b, n - 1) + [Bit(b, n - 1)];
      assert Path(a, n)[..n - 1] == Path(a, n - 1) && Path(b, n)[..n - 1] == Path(b, n - 1);
      assert Path(a, n)[n - 1] == Bit(a, n - 1) && Path(b, n)[n - 1] == Bit(b, n - 1);
      SameNumber(Top(a, n), Top(b, n));
    }
  }

  lemma SameNumber(x: int, y: int)
    ensures x == y <==> x / 2 == y / 2 && (x % 2 == 1 <==> y % 2 == 1)
  {
  }

  lemma SmallTop(a: Address)
    ensures Top(a, 0) == 0
  {
    assert Pow2(32) == 0x1_0000_0000 by {
      assert Pow2(8) == 256;
      assert Pow2(16) == 65536;
      assert Pow2(24) == 16777216;
    }
  }

  // ---------------------------------------------------------------- the trie

  predicate EndsAt(n: Network, path: seq<bool>) {
    n.IPv4? && n.prefix == |path| <= WIDTH && Path(n.host, n.prefix) == path
  }

  /**
   The nested dictionaries, by path: a path is a key exactly when its node exists, and its value is the
   node's owner set (empty for a node without one).
   */
  class Index {
    var nodes: map<seq<bool>, set<Key>>

    /** Every prefix of a node's path has a node. */
    ghost predicate Closed()
      reads this
    {
      && [] in nodes
      && forall path, n: nat | path in nodes && n <= |path| :: path[..n] in nodes
    }

    ghost predicate Holds(owners: iset<(Key, seq<bool>)>)
      reads this
    {
      && Closed()
      && forall key, path :: (path in nodes && key in nodes[path]) <==> (key, path) in owners
    }

    constructor ()
      ensures Holds(iset{})
    {
      nodes := map[[] := {}];
    }

    /** One network: the walk that creates missing nodes, then the owner at its end. */
    method Insert(key: Key, n: Network, ghost owners: iset<(Key, seq<bool>)>)
      requires NetworkOk(n) && Holds(owners)
      modifies this
      ensures Holds(if n.IPv4? then owners + iset{(key, Path(n.host, n.prefix))} else owners)
    {
      if n.IPv6? { return; }
      hide Bit;
      var path: seq<bool> := [];
      for i := 0 to n.prefix
        invariant Holds(owners) && path == Path(n.host, i) && path in nodes
      {
        var next := path + [Bit(n.host, i)];
        if next !in nodes {
          Grow(nodes, path, next);
          nodes := nodes[next := {}];
        }
        path := next;
      }
      nodes := nodes[path := nodes[path] + {key}];
    }

    /** `conflicts`: the walk along the address, down to the first missing node. */
    method Conflicts(a: Address, key: Key, ghost owners: iset<(Key, seq<bool>)>) returns (r: bool)
      requires Holds(owners)
      ensures r <==> exists other, n: nat | n <= WIDTH :: other != key && (other, Path(a, n)) in owners
    {
      hide Bit;
      var path: seq<bool> := [];
      for depth := 0 to WIDTH + 1
        invariant depth <= WIDTH ==> path == Path(a, depth) && path in nodes
        invariant forall other, n: nat | n < depth && n <= WIDTH :: other != key ==> (other, Path(a, n)) !in owners
      {
        if exists other | other in nodes[path] :: other != key {
          ghost var other :| other in nodes[path] && other != key;
          assert (other, Path(a, depth)) in owners;
          return true;
        }
        assert forall other | other != key :: (other, Path(a, depth)) !in owners;
        if depth == WIDTH { return false; }
        var next := path + [Bit(a, depth)];
        assert next == Path(a, depth + 1);
        if next !in nodes {
          forall other, n: nat | depth < n <= WIDTH && other != key ensures (other, Path(a, n)) !in owners {
            assert Path(a, n)[..depth + 1] == next;
          }
          return false;
        }
        path := next;
      }
      r := false;
    }
  }

  lemma Grow(nodes: map<seq<bool>, set<Key>>, path: seq<bool>, next: seq<bool>)
    requires path in nodes && |next| == |path| + 1 && next[..|path|] == path
    requires forall q, n: nat | q in nodes && n <= |q| :: q[..n] in nodes
    ensures forall q, n: nat | q in nodes[next := {}] && n <= |q| :: q[..n] in nodes[next := {}]
  {
    forall q, n: nat | q in nodes[next := {}] && n <= |q| ensures q[..n] in nodes[next := {}] {
      if q == next {
        if n <= |path| {
          assert next[..n] == path[..n];
        } else {
          assert next[..n] == next;
        }
      }
    }
  }

  ghost function Pairs(key: Key, networks: seq<Network>): iset<(Key, seq<bool>)> {
    iset path: seq<bool> | HasPath(networks, path) :: (key, path)
  }

  ghost predicate HasPath(networks: seq<Network>, path: seq<bool>) {
    exists i | 0 <= i < |networks| :: EndsAt(networks[i], path)
  }

  ghost function AllPairs(kernel: Kernel, keys: set<Key>): iset<(Key, seq<bool>)> {
    iset key: Key, path: seq<bool> | key in keys && key in kernel && (key, path) in Pairs(key, kernel[key]) ::
        (key, path)
  }

  lemma PairsStep(key: Key, networks: seq<Network>, n: Network)
    requires NetworkOk(n)
    ensures Pairs(key, networks + [n])
            == if n.IPv4? then Pairs(key, networks) + iset{(key, Path(n.host, n.prefix))} else Pairs(key, networks)
  {
    var more := networks + [n];
    forall path: seq<bool> ensures HasPath(more, path) <==> HasPath(networks, path) || EndsAt(n, path) {
      if HasPath(networks, path) {
        var i :| 0 <= i < |networks| && EndsAt(networks[i], path);
        assert EndsAt(more[i], path);
      }
      if EndsAt(n, path) { assert EndsAt(more[|networks|], path); }
    }
    hide HasPath;
    var all := if n.IPv4? then Pairs(key, networks) + iset{(key, Path(n.host, n.prefix))} else Pairs(key, networks);
    forall pair: (Key, seq<bool>) ensures pair in Pairs(key, more) <==> pair in all {
      assert EndsAt(n, pair.1) <==> n.IPv4? && pair.1 == Path(n.host, n.prefix);
      assert pair in Pairs(key, more) <==> pair.0 == key && HasPath(more, pair.1);
      assert pair in Pairs(key, networks) <==> pair.0 == key && HasPath(networks, pair.1);
    }
  }

  /** The index of a whole snapshot. */
  method Build(kernel: Kernel) returns (index: Index)
    requires KernelOk(kernel)
    ensures fresh(index) && index.Holds(AllPairs(kernel, kernel.Keys))
  {
    hide EndsAt;
    index := new Index();
    var left := kernel.Keys;
    assert AllPairs(kernel, {}) == iset{};
    assert kernel.Keys - left == {};
    while left != {}
      invariant left <= kernel.Keys && fresh(index) && index.Holds(AllPairs(kernel, kernel.Keys - left))
    {
      var key :| key in left;
      ghost var done := kernel.Keys - left;
      var networks := kernel[key];
      assert Pairs(key, networks[..0]) == iset{};
      for i := 0 to |networks|
        invariant fresh(index) && index.Holds(AllPairs(kernel, done) + Pairs(key, networks[..i]))
      {
        assert NetworkOk(networks[i]);
        assert networks[..i + 1] == networks[..i] + [networks[i]];
        PairsStep(key, networks[..i], networks[i]);
        index.Insert(key, networks[i], AllPairs(kernel, done) + Pairs(key, networks[..i]));
        assert AllPairs(kernel, done) + Pairs(key, networks[..i + 1])
            == if networks[i].IPv4? then AllPairs(kernel, done) + Pairs(key, networks[..i])
               + iset{(key, Path(networks[i].host, networks[i].prefix))}
               else AllPairs(kernel, done) + Pairs(key, networks[..i]);
      }
      assert networks[..|networks|] == networks;
      assert AllPairs(kernel, done + {key}) == AllPairs(kernel, done) + Pairs(key, networks);
      left := left - {key};
      assert kernel.Keys - left == done + {key};
    }
    assert kernel.Keys - {} == kernel.Keys;
  }

  /** A prefix on the address's path is a network that contains the address. */
  lemma OnThePath(kernel: Kernel, a: Address, other: Key)
    requires KernelOk(kernel) && other in kernel
    ensures (exists n: nat | n <= WIDTH :: (other, Path(a, n)) in AllPairs(kernel, kernel.Keys))
       <==> exists i | 0 <= i < |kernel[other]| :: Contains(kernel[other][i], a)
  {
    hide Pow2, Top, Bit;
    var networks := kernel[other];
    forall i | 0 <= i < |networks| && networks[i].IPv4?
      ensures Contains(networks[i], a) <==> EndsAt(networks[i], Path(a, networks[i].prefix))
    {
      assert NetworkOk(networks[i]);
      TopIsPath(networks[i].host, a, networks[i].prefix);
    }
    if exists i | 0 <= i < |networks| :: Contains(networks[i], a) {
      var i :| 0 <= i < |networks| && Contains(networks[i], a);
      assert (other, Path(a, networks[i].prefix)) in Pairs(other, networks);
    }
    if n: nat :| n <= WIDTH && (other, Path(a, n)) in AllPairs(kernel, kernel.Keys) {
      assert (other, Path(a, n)) in Pairs(other, networks);
      var i :| 0 <= i < |networks| && EndsAt(networks[i], Path(a, n));
      assert networks[i].prefix == n;
    }
  }

  /** The trie's answer is the linear scan's, for every snapshot, address and key. */
  method IndexedConflict(kernel: Kernel, a: Address, key: Key) returns (r: bool)
    requires KernelOk(kernel)
    ensures r <==> Taken(kernel, a, key)
  {
    hide Pow2, Top, Bit, EndsAt, Contains;
    var index := Build(kernel);
    r := index.Conflicts(a, key, AllPairs(kernel, kernel.Keys));
    Agreement(kernel, a, key);
  }

  lemma Agreement(kernel: Kernel, a: Address, key: Key)
    requires KernelOk(kernel)
    ensures (exists other, n: nat | n <= WIDTH ::
              other != key && (other, Path(a, n)) in AllPairs(kernel, kernel.Keys)) <==>
              Taken(kernel, a, key)
  {
    hide Pow2, Top, Bit, EndsAt, Contains;
    if Taken(kernel, a, key) {
      var other, i :| other in kernel && 0 <= i < |kernel[other]| && other != key && Contains(kernel[other][i], a);
      OnThePath(kernel, a, other);
    }
    if other, n: nat :| n <= WIDTH && other != key && (other, Path(a, n)) in AllPairs(kernel, kernel.Keys) {
      OnThePath(kernel, a, other);
      var i :| 0 <= i < |kernel[other]| && Contains(kernel[other][i], a);
    }
  }

  /** The scan that `_conflicts` runs over the snapshot. */
  method ScanConflict(kernel: Kernel, a: Address, key: Key) returns (r: bool)
    requires KernelOk(kernel)
    ensures r <==> Taken(kernel, a, key)
  {
    hide Contains;
    var left := kernel.Keys;
    while left != {}
      invariant left <= kernel.Keys
      invariant forall other, i | other in kernel && other !in left && 0 <= i < |kernel[other]| :: other != key ==>
                !Contains(kernel[other][i], a)
    {
      var other :| other in left;
      left := left - {other};
      if other == key { continue; }
      for i := 0 to |kernel[other]|
        invariant forall k | 0 <= k < i :: !Contains(kernel[other][k], a)
      {
        assert NetworkOk(kernel[other][i]);
        if Contains(kernel[other][i], a) { return true; }
      }
    }
    r := false;
  }
}
