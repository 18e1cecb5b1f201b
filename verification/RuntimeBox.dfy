/**
 The compare-and-swap side of a running sing-box: one instance, a revision that
 every accepted change and every fence advances, and the options it is running.
 */
module RuntimeBox {
  type Bytes = string
  type Hash = string

  /** `hash` is the fingerprint of a configuration after the binary's own normalisation; it need not be injective. */
  type Fingerprint = Bytes -> Hash

  datatype Runtime = Runtime(instance: nat, revision: nat, content: Bytes)

  datatype Status = Status(instance: nat, revision: nat, contentHash: Hash)

  /** A PUT of a whole configuration that names the instance and revision it was prepared against. */
  datatype Put = Put(config: Bytes, instance: nat, revision: nat)

  datatype Reply = Accepted(status: Status) | Conflict | Refused

  function StatusOf(hash: Fingerprint, rt: Runtime): Status {
    Status(rt.instance, rt.revision, hash(rt.content))
  }

  /**
   What a PUT does to the runtime. `willing` stands for everything that can
   still refuse it: the planner, the inbound and outbound preparers, a closed box.
   */
  function Deliver(hash: Fingerprint, rt: Runtime, put: Put, willing: bool): Runtime {
    if put.instance != rt.instance then rt
    else if hash(put.config) == hash(rt.content) then rt
    else if put.revision != rt.revision then rt
    else if !willing then rt
    else Runtime(rt.instance, rt.revision + 1, put.config)
  }

  function Answer(hash: Fingerprint, rt: Runtime, put: Put, willing: bool): Reply {
    if put.instance != rt.instance then Conflict
    else if hash(put.config) == hash(rt.content) then Accepted(StatusOf(hash, rt))
    else if put.revision != rt.revision then Conflict
    else if !willing then Refused
    else Accepted(StatusOf(hash, Deliver(hash, rt, put, willing)))
  }

  predicate CanFence(rt: Runtime, seen: Status) {
    seen.instance == rt.instance && seen.revision == rt.revision
  }

  function Fence(rt: Runtime): Runtime {
    rt.(revision := rt.revision + 1)
  }

  /** A PUT that no longer can change what the runtime serves, whenever it arrives. */
  predicate Harmless(hash: Fingerprint, rt: Runtime, put: Put) {
    || put.instance != rt.instance
    || put.revision < rt.revision
    || hash(put.config) == hash(rt.content)
  }

  /** The PUT was prepared against this runtime's present or its past. */
  predicate FromThePast(rt: Runtime, put: Put) {
    put.instance < rt.instance || (put.instance == rt.instance && put.revision <= rt.revision)
  }

  /** A status read earlier: the pair (instance, revision) determines the content. */
  predicate Remembered(hash: Fingerprint, rt: Runtime, seen: Status) {
    && (seen.instance < rt.instance || (seen.instance == rt.instance && seen.revision <= rt.revision))
    && (CanFence(rt, seen) ==> hash(rt.content) == seen.contentHash)
  }

  /** `Box`: the fields that the reload entry points change. */
  class Box {
    const hash: Fingerprint
    const instance: nat
    var revision: nat
    var options: Bytes
    var view: Status

    ghost predicate Valid()
      reads this
    {
      view == StatusOf(hash, State())
    }

    ghost function State(): Runtime
      reads this
    {
      Runtime(instance, revision, options)
    }

    constructor (hash: Fingerprint, instance: nat, options: Bytes)
      ensures Valid() && State() == Runtime(instance, 0, options) && this.hash == hash
    {
      this.hash, this.instance, this.revision, this.options := hash, instance, 0, options;
      this.view := Status(instance, 0, hash(options));
    }

    method ReloadUsers(put: Put, willing: bool) returns (reply: Reply)
      requires Valid()
      modifies this
      ensures Valid()
      ensures State() == Deliver(hash, old(State()), put, willing)
      ensures reply == Answer(hash, old(State()), put, willing)
    {
      var status := view;
      if put.instance != status.instance { return Conflict; }
      if hash(put.config) == status.contentHash { return Accepted(status); }
      if put.revision != status.revision { return Conflict; }
      if !willing { return Refused; }
      options := put.config;
      revision := revision + 1;
      view := Status(instance, revision, hash(options));
      reply := Accepted(view);
    }

    method FenceUserRuntime(seen: Status) returns (reply: Reply)
      requires Valid()
      modifies this
      ensures Valid()
      ensures State() == if CanFence(old(State()), seen) then Fence(old(State())) else old(State())
      ensures reply == if CanFence(old(State()), seen) then Accepted(StatusOf(hash, State())) else Conflict
    {
      if seen.instance != view.instance || seen.revision != view.revision { return Conflict; }
      revision := revision + 1;
      view := Status(instance, revision, view.contentHash);
      reply := Accepted(view);
    }
  }

  /** Once harmless, always harmless: neither another PUT nor a fence nor its own delivery revives a PUT of the past. */
  lemma HarmlessForever(hash: Fingerprint, rt: Runtime, put: Put, other: Put, willing: bool)
    requires FromThePast(rt, put) && Harmless(hash, rt, put)
    ensures Deliver(hash, rt, put, willing) == rt
    ensures Harmless(hash, Deliver(hash, rt, other, willing), put)
    ensures Harmless(hash, Fence(rt), put)
  {
  }
}
