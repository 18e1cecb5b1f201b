/**
 The runtime writer: a bounded first-in first-out queue that merges tasks into
 batches, replays the valid prefix of a rejected batch, and finishes every task once.
 */
module WriteQueue {
  import opened Basics
  import opened TaskStates

  type TaskId = nat
  type Config = string
  type Value = string

  datatype Applied = Applied(config: Config, value: Value)

  /** A mutation closure: the new configuration and a result, or None when it raises. */
  type Callback = Config -> Option<Applied>

  datatype Item = Item(id: TaskId, callback: Callback, size: nat, units: nat, isolated: bool, keys: set<string>)

  /** How a publication ends: it goes through, it is rolled back, or its outcome stays open either way. */
  datatype Verdict = Went | RolledBack | Open(applied: bool)

  /** One call of `_finish`; `kept` says whether its effect is in the configuration. */
  datatype Finish = Finish(id: TaskId, state: State, value: Option<Value>, kept: bool)

  // ---------------------------------------------------------------- one task at a time

  datatype Outcome = Outcome(config: Config, finishes: seq<Finish>)

  function RunOne(item: Item, c: Config): Outcome {
    match item.callback(c)
    case None => Outcome(c, [Finish(item.id, FAILED, None, false)])
    case Some(a) => Outcome(a.config, [Finish(item.id, SUCCEEDED, Some(a.value), true)])
  }

  /** The reference: every task alone, in order. */
  function RunAll(items: seq<Item>, c: Config): Outcome {
    if items == [] then Outcome(c, [])
    else
      var first := RunOne(items[0], c);
      var rest := RunAll(items[1..], first.config);
      Outcome(rest.config, first.finishes + rest.finishes)
  }

  lemma {:induction false} RunAllAppend(a: seq<Item>, b: seq<Item>, c: Config)
    ensures var first := RunAll(a, c);
            var rest := RunAll(b, first.config);
            RunAll(a + b, c) == Outcome(rest.config, first.finishes + rest.finishes)
  {
    if a == [] {
      assert [] + b == b;
    } else {
      assert (a + b)[1..] == a[1..] + b;
      RunAllAppend(a[1..], b, RunOne(a[0], c).config);
    }
  }

  // ---------------------------------------------------------------- one batch

  datatype Staged = Staged(config: Config, values: seq<Value>) | Rejected(index: nat)

  /** The callbacks of a batch on one working copy, up to the first that raises. */
  function Stage(items: seq<Item>, c: Config): (r: Staged)
    ensures r.Staged? ==> |r.values| == |items|
    ensures r.Rejected? ==> r.index < |items|
  {
    if items == [] then Staged(c, [])
    else match items[0].callback(c)
      case None => Rejected(0)
      case Some(a) =>
        match Stage(items[1..], a.config)
        case Rejected(i) => Rejected(i + 1)
        case Staged(d, vs) => Staged(d, [a.value] + vs)
  }

  function Successes(items: seq<Item>, values: seq<Value>): seq<Finish>
    requires |items| == |values|
  {
    seq(|items|, i requires 0 <= i < |items| => Finish(items[i].id, SUCCEEDED, Some(values[i]), true))
  }

  /** A batch that stages is the sequential run of its tasks. */
  lemma {:induction false} StagedIsSequential(items: seq<Item>, c: Config)
    requires Stage(items, c).Staged?
    ensures RunAll(items, c) == Outcome(Stage(items, c).config, Successes(items, Stage(items, c).values))
  {
    if items != [] {
      var a := items[0].callback(c).value;
      StagedIsSequential(items[1..], a.config);
      var rest := Stage(items[1..], a.config);
      assert Successes(items, [a.value] + rest.values)
          == [Finish(items[0].id, SUCCEEDED, Some(a.value), true)] + Successes(items[1..], rest.values);
    }
  }

  /** The prefix of a rejected batch stages, and the rejected task raises right after it. */
  lemma {:induction false} RejectedPrefix(items: seq<Item>, c: Config)
    requires Stage(items, c).Rejected?
    ensures var i := Stage(items, c).index;
            && Stage(items[..i], c).Staged?
            && items[i].callback(Stage(items[..i], c).config).None?
  {
    if items[0].callback(c).Some? {
      var i := Stage(items, c).index;
      RejectedPrefix(items[1..], items[0].callback(c).value.config);
      assert items[..i][1..] == items[1..][..i - 1];
    }
  }

  // ---------------------------------------------------------------- what a set of finishes means

  /** The configuration that keeps exactly the effects marked as kept, in order. */
  function Replay(items: seq<Item>, finishes: seq<Finish>, c: Config): Option<Config>
    requires |items| == |finishes|
  {
    if items == [] then Some(c)
    else if !finishes[0].kept then Replay(items[1..], finishes[1..], c)
    else match items[0].callback(c)
      case None => None
      case Some(a) => Replay(items[1..], finishes[1..], a.config)
  }

  lemma {:induction false} ReplayAppend(a: seq<Item>, fa: seq<Finish>, b: seq<Item>, fb: seq<Finish>, c: Config)
    requires |a| == |fa| && |b| == |fb| && Replay(a, fa, c).Some?
    ensures Replay(a + b, fa + fb, c) == Replay(b, fb, Replay(a, fa, c).value)
  {
    if a == [] {
      assert [] + b == b && [] + fb == fb;
    } else {
      assert (a + b)[1..] == a[1..] + b && (fa + fb)[1..] == fa[1..] + fb;
      ReplayAppend(a[1..], fa[1..], b, fb, if fa[0].kept then a[0].callback(c).value.config else c);
    }
  }

  function Same(items: seq<Item>, state: State, kept: bool): seq<Finish> {
    seq(|items|, i requires 0 <= i < |items| => Finish(items[i].id, state, None, kept))
  }

  lemma {:induction false} ReplayNone(items: seq<Item>, finishes: seq<Finish>, c: Config)
    requires |items| == |finishes| && forall i | 0 <= i < |finishes| :: !finishes[i].kept
    ensures Replay(items, finishes, c) == Some(c)
  {
    if items != [] { ReplayNone(items[1..], finishes[1..], c); }
  }

  lemma {:induction false} ReplayStaged(items: seq<Item>, finishes: seq<Finish>, c: Config)
    requires |items| == |finishes| && Stage(items, c).Staged? && forall i | 0 <= i < |finishes| :: finishes[i].kept
    ensures Replay(items, finishes, c) == Some(Stage(items, c).config)
  {
    if items != [] { ReplayStaged(items[1..], finishes[1..], items[0].callback(c).value.config); }
  }

  /** Each task is finished once, in order, and its state tells the truth about its effect. */
  ghost predicate Truthful(items: seq<Item>, finishes: seq<Finish>, c: Config, c': Config) {
    && |finishes| == |items|
    && (forall i | 0 <= i < |items| ::
          && finishes[i].id == items[i].id
          && (finishes[i].state.SUCCEEDED? ==> finishes[i].kept)
          && (finishes[i].state.FAILED? || finishes[i].state.CANCELLED? ==> !finishes[i].kept))
    && Replay(items, finishes, c) == Some(c')
  }

  lemma TruthfulAppend(a: seq<Item>, fa: seq<Finish>, b: seq<Item>, fb: seq<Finish>, c: Config, d: Config, e: Config)
    requires Truthful(a, fa, c, d) && Truthful(b, fb, d, e)
    ensures Truthful(a + b, fa + fb, c, e)
  {
    ReplayAppend(a, fa, b, fb, c);
  }

  // ---------------------------------------------------------------- costs

  function Units(items: seq<Item>): nat {
    if items == [] then 0 else items[0].units + Units(items[1..])
  }

  function Bytes(items: seq<Item>): nat {
    if items == [] then 0 else items[0].size + Bytes(items[1..])
  }

  lemma {:induction false} CostsAppend(a: seq<Item>, b: seq<Item>)
    ensures Units(a + b) == Units(a) + Units(b) && Bytes(a + b) == Bytes(a) + Bytes(b)
  {
    if a == [] {
      assert [] + b == b;
    } else {
      assert (a + b)[1..] == a[1..] + b;
      CostsAppend(a[1..], b);
    }
  }

  lemma CostsSnoc(items: seq<Item>, item: Item)
    ensures Units(items + [item]) == Units(items) + item.units && Bytes(items + [item]) == Bytes(items) + item.size
  {
    CostsAppend(items, [item]);
  }

  const BATCH_BYTES: nat := 1048576 // 1 << 20

  /** What `_run` puts into one batch. */
  predicate BatchOk(items: seq<Item>, batchSize: nat) {
    && (|items| > 1 ==> Units(items) <= batchSize && Bytes(items) <= 1048576)
    && (|items| > 1 ==> forall i | 0 <= i < |items| :: !items[i].isolated)
    && (forall i, j | 0 <= i < j < |items| :: items[i].keys !! items[j].keys)
  }

  /** `live` holds exactly the unfinished tasks, all of them distinct and small enough for one batch. */
  ghost predicate Tracked(items: seq<Item>, live: set<TaskId>, nextId: TaskId, batchSize: nat) {
    && (forall i | 0 <= i < |items| :: items[i].id < nextId && items[i].units <= batchSize && items[i].id in live)
    && (forall i, j | 0 <= i < j < |items| :: items[i].id != items[j].id)
    && (forall id | id in live :: exists i | 0 <= i < |items| :: items[i].id == id)
  }

  lemma TrackedAdd(items: seq<Item>, live: set<TaskId>, item: Item, batchSize: nat)
    requires Tracked(items, live, item.id, batchSize) && item.units <= batchSize
    ensures item.id !in live
    ensures Tracked(items + [item], live + {item.id}, item.id + 1, batchSize)
  {
    var more := items + [item];
    assert forall i | 0 <= i < |items| :: more[i] == items[i];
    forall id | id in live + {item.id} ensures exists i | 0 <= i < |more| :: more[i].id == id {
      if id != item.id {
        var i :| 0 <= i < |items| && items[i].id == id;
        assert more[i].id == id;
      } else {
        assert more[|items|].id == id;
      }
    }
  }

  lemma TrackedDrop(items: seq<Item>, live: set<TaskId>, nextId: TaskId, batchSize: nat)
    requires Tracked(items, live, nextId, batchSize) && items != []
    ensures Tracked(items[1..], live - {items[0].id}, nextId, batchSize)
  {
    forall id | id in live - {items[0].id} ensures exists i | 0 <= i < |items[1..]| :: items[1..][i].id == id {
      var i :| 0 <= i < |items| && items[i].id == id;
      assert items[1..][i - 1].id == id;
    }
  }

  lemma TrackedNone(live: set<TaskId>, nextId: TaskId, batchSize: nat)
    requires Tracked([], live, nextId, batchSize)
    ensures live == {}
  {
    assert forall id | id in live :: id in {};
  }

  function Ids(items: seq<Item>): seq<TaskId> {
    seq(|items|, i requires 0 <= i < |items| => items[i].id)
  }

  function FinishedIds(finishes: seq<Finish>): seq<TaskId> {
    seq(|finishes|, i requires 0 <= i < |finishes| => finishes[i].id)
  }

  lemma QueuedOneMore(finished: seq<Finish>, items: seq<Item>, item: Item)
    ensures FinishedIds(finished) + Ids(items + [item]) == FinishedIds(finished) + Ids(items) + [item.id]
  {
    assert Ids(items + [item]) == Ids(items) + [item.id];
  }

  lemma FinishedOneMore(finished: seq<Finish>, items: seq<Item>, finish: Finish)
    requires items != [] && items[0].id == finish.id
    ensures FinishedIds(finished + [finish]) + Ids(items[1..]) == FinishedIds(finished) + Ids(items)
  {
    assert FinishedIds(finished + [finish]) == FinishedIds(finished) + [finish.id];
    assert Ids(items) == [finish.id] + Ids(items[1..]);
  }

  lemma QueueStart(batchSize: nat)
    ensures Units([]) == 0 && Bytes([]) == 0 && Tracked([], {}, 0, batchSize) && FinishedIds([]) == Ids([]) == []
  {
  }

  lemma MoreIds(tasks: seq<Item>, item: Item)
    ensures Ids(tasks + [item]) == Ids(tasks) + [item.id]
  {
  }

  lemma WaitingMore(tasks: seq<Item>, item: Item, n: nat)
    ensures n <= |tasks| ==> (tasks + [item])[n..] == tasks[n..] + [item] && (tasks + [item])[..n] == tasks[..n]
  {
  }

  class Writer {
    const capacity: nat
    const byteCapacity: nat
    const batchSize: nat
    const outcome: nat -> Verdict     // the k-th publication's verdict
    var publications: nat
    var pending: seq<Item>
    var live: set<TaskId>
    var units: nat
    var bytes: nat
    var paused: bool
    var closed: bool
    var nextId: TaskId
    var config: Config
    ghost var running: seq<Item>      // taken from `pending`, not finished yet
    ghost var finished: seq<Finish>   // every call of `_finish`
    ghost const origin: Config        // the configuration the writer started with
    ghost var tasks: seq<Item>        // every task `submit` took, oldest first

    /**
     The counters are the sums over the unfinished tasks and stay within capacity; accepted tasks
     finish once each, in the order they were accepted.
     */
    ghost predicate Valid()
      reads this
    {
      && units == Units(running + pending) <= capacity
      && bytes == Bytes(running + pending) <= byteCapacity
      && Tracked(running + pending, live, nextId, batchSize)
      && Ids(tasks) == FinishedIds(finished) + Ids(running + pending)
    }

    ghost predicate Fine(from: nat, to: nat) {
      forall k | from <= k < to :: outcome(k).Went?
    }

    ghost predicate Settled(from: nat, to: nat) {
      forall k | from <= k < to :: !outcome(k).Open?
    }

    /**
     Between two turns: the tasks finished so far are the oldest ones, their states tell the truth about the
     configuration, and as long as every publication went through, configuration and outcomes are those of
     running them one at a time.
     */
    ghost predicate Worked()
      reads this
    {
      && running == [] && |finished| <= |tasks| && tasks[|finished|..] == pending
      && Truthful(tasks[..|finished|], finished, origin, config)
      && (Fine(0, publications) ==> Outcome(config, finished) == RunAll(tasks[..|finished|], origin))
    }

    constructor (capacity: nat, byteCapacity: nat, batchSize: nat, config: Config, outcome: nat -> Verdict)
      ensures Valid() && running == [] && pending == [] && finished == [] && this.config == config
      ensures !paused && !closed && publications == 0 && this.outcome == outcome
      ensures Worked() && tasks == [] && origin == config
      ensures this.capacity == capacity && this.byteCapacity == byteCapacity && this.batchSize == batchSize
    {
      hide Units, Bytes, Tracked, Ids, FinishedIds;
      QueueStart(batchSize);
      this.capacity, this.byteCapacity, this.batchSize, this.config := capacity, byteCapacity, batchSize, config;
      this.outcome, publications := outcome, 0;
      pending, live, units, bytes, paused, closed, nextId := [], {}, 0, 0, false, false, 0;
      running, finished, tasks, origin := [], [], [], config;
      new;
      TruthfulNone(config);
      assert running + pending == [];
    }

    /** `submit`: None when the queue is closed, paused or full; nothing is dropped and nothing overtakes. */
    method Submit(callback: Callback, units: nat, size: nat, isolated: bool,
                  keys: set<string>) returns (id: Option<TaskId>)
      requires Valid()
      modifies `pending, `live, `units, `bytes, `nextId, `tasks
      ensures Valid() && (old(Worked()) ==> Worked())
      ensures id.Some? <==> units >= 1 && size >= 1 && !closed && !paused && units <= batchSize
                            && old(this.units) + units <= capacity && old(this.bytes) + size <= byteCapacity
      ensures id.Some? ==> id.value !in old(live)
      ensures id.Some? ==> pending == old(pending) + [Item(id.value, callback, size, units, isolated, keys)]
      ensures id.None? ==> pending == old(pending) && tasks == old(tasks)
      ensures id.Some? ==> tasks == old(tasks) + [Item(id.value, callback, size, units, isolated, keys)]
    {
      hide Tracked, Units, Bytes, Ids, FinishedIds, Truthful, RunAll;
      if units < 1 || size < 1 || closed || paused { return None; }
      if units > batchSize || this.units + units > capacity || this.bytes + size > byteCapacity { return None; }
      var item := Item(nextId, callback, size, units, isolated, keys);
      ghost var before := running + pending;
      TrackedAdd(before, live, item, batchSize);
      live := live + {item.id};
      pending := pending + [item];
      assert running + pending == before + [item];
      CostsSnoc(before, item);
      QueuedOneMore(finished, before, item);
      MoreIds(tasks, item);
      WaitingMore(tasks, item, |finished|);
      tasks := tasks + [item];
      this.units, this.bytes := this.units + units, this.bytes + size;
      nextId := nextId + 1;
      id := Some(item.id);
    }

    /** `_finish` of the oldest running task. */
    method FinishTask(item: Item, state: State, value: Option<Value>, ghost kept: bool)
      requires Valid() && running != [] && running[0] == item
      modifies `live, `units, `bytes, `running, `finished
      ensures Valid() && running == old(running)[1..]
      ensures finished == old(finished) + [Finish(item.id, state, value, kept)]
    {
      hide Tracked, Ids, FinishedIds;
      ghost var before := running + pending;
      FinishedOneMore(finished, before, Finish(item.id, state, value, kept));
      assert before[0] == item && before[1..] == running[1..] + pending;
      TrackedDrop(before, live, nextId, batchSize);
      live := live - {item.id};
      units, bytes := units - item.units, bytes - item.size;
      running := running[1..];
      finished := finished + [Finish(item.id, state, value, kept)];
    }
  
    /** The inner loop of `_run`: the longest prefix of the queue that may share a publication. */
    method TakeBatch() returns (items: seq<Item>)
      requires Valid() && running == [] && pending != []
      modifies `pending, `running
      ensures Valid() && running == items
      ensures items != [] && items + pending == old(pending) && BatchOk(items, batchSize)
      ensures pending != [] ==> !BatchOk(items + [pending[0]], batchSize)
    {
      hide Tracked, Ids, FinishedIds, BatchOk, Units, Bytes, KeysAre;
      BatchStart(batchSize);
      items := [];
      var taken, size: nat, keys: set<string> := 0, 0, {};
      ghost var all := pending;
      while pending != []
        invariant items + pending == all && (items == [] ==> pending != [])
        invariant taken == Units(items) && size == Bytes(items)
        invariant KeysAre(keys, items)
        invariant BatchOk(items, batchSize)
        decreases |pending|
      {
        var item := pending[0];
        if items != [] && (item.isolated || items[0].isolated || keys * item.keys != {}
                           || taken + item.units > batchSize || size + item.size > BATCH_BYTES) {
          BatchFull(items, item, keys, batchSize);
          break;
        }
        BatchGrows(items, item, keys, batchSize);
        CostsSnoc(items, item);
        items := items + [item];
        pending := pending[1..];
        taken, size, keys := taken + item.units, size + item.size, keys + item.keys;
      }
      running := items;
      assert [] + all == all;
    }

    method FinishAll(items: seq<Item>, finishes: seq<Finish>, ghost rest: seq<Item>)
      requires Valid() && running == items + rest && |finishes| == |items|
      requires forall i | 0 <= i < |items| :: finishes[i].id == items[i].id
      modifies `live, `units, `bytes, `running, `finished
      ensures Valid() && running == rest && finished == old(finished) + finishes
    {
      for i := 0 to |items|
        invariant Valid() && running == items[i..] + rest && finished == old(finished) + finishes[..i]
      {
        assert running[0] == items[i] && running[1..] == items[i + 1..] + rest;
        FinishTask(items[i], finishes[i].state, finishes[i].value, finishes[i].kept);
      }
    }

    /**
     `_process`. Each task is finished exactly once, in queue order, and its state is truthful. When
     every publication goes through, the batch is indistinguishable from running its tasks alone, in
     order. The writer pauses exactly when a publication's outcome stays open.
     */
    method Process(items: seq<Item>, ghost rest: seq<Item>)
      requires Valid() && items != [] && running == items + rest
      modifies `live, `units, `bytes, `running, `finished, `config, `paused, `publications
      ensures Valid() && running == rest
      ensures old(finished) <= finished && Truthful(items, finished[|old(finished)|..], old(config), config)
      ensures old(publications) <= publications
      ensures Fine(old(publications), publications) && !old(paused) ==>
                Outcome(config, finished[|old(finished)|..]) == RunAll(items, old(config))
      ensures paused <==> old(paused) || !Settled(old(publications), publications)
      decreases |items|, 1
    {
      hide Truthful, Tracked, RunAll, Replay, Units, Bytes, Ids, FinishedIds;
      var staged := Stage(items, config);
      if staged.Staged? {
        var finishes;
        finishes := Publish(items, staged);
        FinishAll(items, finishes, rest);
        assert finished[|old(finished)|..] == finishes;
      } else {
        ProcessRejected(items, staged.index, rest);
      }
    }

    /** Publishing a staged batch: it goes through, it fails and is rolled back, or its outcome is unknown. */
    method Publish(items: seq<Item>, staged: Staged) returns (finishes: seq<Finish>)
      requires items != [] && Stage(items, config) == staged && staged.Staged?
      modifies `config, `paused, `publications
      ensures publications == old(publications) + 1
      ensures Truthful(items, finishes, old(config), config)
      ensures var verdict := outcome(old(publications));
              && (verdict.Went? ==> Outcome(config, finishes) == RunAll(items, old(config)))
              && (verdict.RolledBack? ==> config == old(config) && finishes == Same(items, FAILED, false))
              && (verdict.Open? ==> finishes == Same(items, UNKNOWN, verdict.applied))
              && (paused <==> old(paused) || verdict.Open?)
    {
      StagedIsSequential(items, config);
      var verdict := outcome(publications);
      publications := publications + 1;
      match verdict {
        case Went =>
          finishes := Successes(items, staged.values);
          ReplayStaged(items, finishes, config);
          config := staged.config;
        case RolledBack =>
          finishes := Same(items, FAILED, false);
          ReplayNone(items, finishes, config);
        case Open(applied) =>
          paused, finishes := true, Same(items, UNKNOWN, applied);
          if applied {
            ReplayStaged(items, finishes, config);
            config := staged.config;
          } else {
            ReplayNone(items, finishes, config);
          }
      }
    }

    /** The `BatchRejected` handler: prefix, rejected task, suffix. */
    method ProcessRejected(items: seq<Item>, index: nat, ghost rest: seq<Item>)
      requires Valid() && items != [] && running == items + rest
      requires Stage(items, config) == Rejected(index)
      modifies `live, `units, `bytes, `running, `finished, `config, `paused, `publications
      ensures Valid() && running == rest
      ensures old(finished) <= finished && Truthful(items, finished[|old(finished)|..], old(config), config)
      ensures old(publications) <= publications
      ensures Fine(old(publications), publications) && !old(paused) ==>
                Outcome(config, finished[|old(finished)|..]) == RunAll(items, old(config))
      ensures paused <==> old(paused) || !Settled(old(publications), publications)
      decreases |items|, 0
    {
      hide Truthful, Tracked, RunAll, Replay, Units, Bytes, Ids, FinishedIds, Stage, Same;
      ghost var start, done := config, finished;
      var item, suffix := items[index], items[index + 1..];
      ghost var fp, fs := [], [];
      RunsAround(items, config);
      assert running == items[..index] + (items[index..] + rest);
      ProcessPrefix(items[..index], items[index..] + rest);
      fp := finished[|done|..];
      ghost var middle, during := config, finished;
      assert during == done + fp && running == [item] + (suffix + rest);
      FinishTask(item, FAILED, None, false);
      assert running == suffix + rest;
      ghost var between := finished;
      ProcessSuffix(suffix, rest);
      fs := finished[|between|..];
      assert finished[|done|..] == fp + [Finish(item.id, FAILED, None, false)] + fs;
      JoinRejected(items, index, fp, fs, start, middle, config);
    }

    /** The tasks before a rejected one, if any. */
    method ProcessPrefix(prefix: seq<Item>, ghost rest: seq<Item>)
      requires Valid() && running == prefix + rest
      modifies `live, `units, `bytes, `running, `finished, `config, `paused, `publications
      ensures Valid() && running == rest
      ensures old(finished) <= finished && Truthful(prefix, finished[|old(finished)|..], old(config), config)
      ensures old(publications) <= publications
      ensures Fine(old(publications), publications) && !old(paused) ==>
                Outcome(config, finished[|old(finished)|..]) == RunAll(prefix, old(config))
      ensures paused <==> old(paused) || !Settled(old(publications), publications)
      decreases |prefix|, 2
    {
      hide Truthful, Tracked, RunAll, Replay, Units, Bytes, Ids, FinishedIds;
      if prefix == [] {
        TruthfulNone(config);
        assert running == rest && finished[|old(finished)|..] == [];
      } else {
        Process(prefix, rest);
      }
    }

    /** The tasks behind a rejected one: cancelled when the prefix left the outcome open, processed otherwise. */
    method ProcessSuffix(suffix: seq<Item>, ghost rest: seq<Item>)
      requires Valid() && running == suffix + rest
      modifies `live, `units, `bytes, `running, `finished, `config, `paused, `publications
      ensures Valid() && running == rest
      ensures old(finished) <= finished && Truthful(suffix, finished[|old(finished)|..], old(config), config)
      ensures old(publications) <= publications
      ensures Fine(old(publications), publications) && !old(paused) ==>
                Outcome(config, finished[|old(finished)|..]) == RunAll(suffix, old(config))
      ensures paused <==> old(paused) || !Settled(old(publications), publications)
      ensures old(paused) ==> config == old(config) && finished == old(finished) + Same(suffix, CANCELLED, false)
      decreases |suffix|, 2
    {
      hide Truthful, Tracked, RunAll, Replay, Units, Bytes, Ids, FinishedIds;
      if suffix == [] {
        TruthfulNone(config);
        assert running == rest && finished[|old(finished)|..] == [];
      } else if paused {
        var cancelled := Same(suffix, CANCELLED, false);
        FinishAll(suffix, cancelled, rest);
        TruthfulSame(suffix, CANCELLED, config);
        assert finished[|old(finished)|..] == cancelled;
      } else {
        Process(suffix, rest);
      }
    }

    /** One turn of the worker thread that finds work: a batch is taken and settled. */
    method Turn() returns (ghost items: seq<Item>)
      requires Valid() && Worked() && pending != [] && !paused && !closed
      modifies `pending, `live, `units, `bytes, `running, `finished, `config, `paused, `publications
      ensures Valid() && Worked()
      ensures items != [] && items + pending == old(pending) && BatchOk(items, batchSize)
      ensures old(finished) <= finished && Truthful(items, finished[|old(finished)|..], old(config), config)
      ensures old(publications) <= publications
      ensures Fine(old(publications), publications) ==>
                Outcome(config, finished[|old(finished)|..]) == RunAll(items, old(config))
      ensures paused <==> !Settled(old(publications), publications)
    {
      hide Truthful, Tracked, RunAll, Replay, Units, Bytes, Ids, FinishedIds, BatchOk;
      var batch := TakeBatch();
      items := batch;
      assert running == batch + [];
      Process(batch, []);
      assert finished == old(finished) + finished[|old(finished)|..];
      WorkedMore(tasks, items, old(finished), finished[|old(finished)|..], origin, old(config), config);
    }

    /**
     The worker until its queue is empty or it pauses. If every publication goes through, the whole queue ends as if
     its tasks had run one at a time, whatever batches were taken.
     */
    method Drain()
      requires Valid() && Worked() && !paused && !closed
      modifies `pending, `live, `units, `bytes, `running, `finished, `config, `paused, `publications
      ensures Valid() && Worked() && (pending == [] || paused)
      ensures old(publications) <= publications && old(finished) <= finished
      ensures paused <==> !Settled(old(publications), publications)
      ensures Fine(old(publications), publications) ==>
                pending == [] && Outcome(config, finished[|old(finished)|..]) == RunAll(old(pending), old(config))
      ensures Fine(0, publications) ==> Outcome(config, finished) == RunAll(tasks, origin)
    {
      hide Truthful, Tracked, RunAll, Replay, Units, Bytes, Ids, FinishedIds, BatchOk;
      ghost var taken: seq<Item> := [];
      TruthfulNone(config);
      while pending != [] && !paused
        invariant Valid() && Worked() && old(pending) == taken + pending
        invariant old(publications) <= publications && old(finished) <= finished
        invariant paused <==> !Settled(old(publications), publications)
        invariant Fine(old(publications), publications) ==>
                  Outcome(config, finished[|old(finished)|..]) == RunAll(taken, old(config))
        decreases |pending|
      {
        ghost var done, before := finished, config;
        ghost var items := Turn();
        RunAllAppend(taken, items, old(config));
        assert finished[|old(finished)|..] == done[|old(finished)|..] + finished[|done|..];
        taken := taken + items;
      }
      if pending == [] {
        assert taken == old(pending) && tasks[..|finished|] == tasks;
      }
    }

    /** The worker's last act: what is still queued is cancelled, and nothing was applied. */
    method Shutdown()
      requires Valid() && running == []
      modifies `pending, `live, `units, `bytes, `running, `finished, `closed
      ensures Valid() && closed && pending == [] && running == [] && live == {} && units == 0 && bytes == 0
      ensures FinishedIds(finished) == Ids(tasks)
      ensures old(Worked()) ==> Truthful(tasks, finished, origin, config)
      ensures old(finished) <= finished
      ensures Truthful(old(pending), finished[|old(finished)|..], config, config)
      ensures forall f | f in finished[|old(finished)|..] :: f.state == CANCELLED
    {
      hide Truthful, Tracked, Replay, RunAll, Units, Bytes, Ids, FinishedIds;
      closed := true;
      var items, finishes := pending, Same(pending, CANCELLED, false);
      assert [] + pending == pending + [];
      running, pending := pending, [];
      FinishAll(items, finishes, []);
      assert running + pending == [];
      QueueStart(batchSize);
      TrackedNone(live, nextId, batchSize);
      TruthfulSame(items, CANCELLED, config);
      assert finished[|old(finished)|..] == finishes;
      if old(Worked()) {
        WorkedMore(tasks, items, old(finished), finishes, origin, config, config);
        TruthfulLength(items, finishes, config, config);
        assert tasks[..|old(finished) + finishes|] == tasks;
      }
    }
  }

  lemma TruthfulLength(items: seq<Item>, finishes: seq<Finish>, c: Config, d: Config)
    requires Truthful(items, finishes, c, d)
    ensures |items| == |finishes|
  {
  }

  /** What the finished tasks and one more batch say about all of them. */
  lemma WorkedMore(tasks: seq<Item>, items: seq<Item>, finished: seq<Finish>, more: seq<Finish>, start: Config,
                   c: Config, d: Config)
    requires |finished| <= |tasks| && items <= tasks[|finished|..]
    requires Truthful(tasks[..|finished|], finished, start, c) && Truthful(items, more, c, d)
    ensures |finished + more| <= |tasks| && tasks[|finished + more|..] == tasks[|finished|..][|items|..]
    ensures Truthful(tasks[..|finished + more|], finished + more, start, d)
    ensures Outcome(c, finished) == RunAll(tasks[..|finished|], start) && Outcome(d, more) == RunAll(items, c) ==>
              Outcome(d, finished + more) == RunAll(tasks[..|finished + more|], start)
  {
    hide Truthful, RunAll;
    TruthfulLength(items, more, c, d);
    assert tasks[..|finished + more|] == tasks[..|finished|] + items;
    TruthfulAppend(tasks[..|finished|], finished, items, more, start, c, d);
    RunAllAppend(tasks[..|finished|], items, start);
  }

  lemma TruthfulNone(c: Config)
    ensures Truthful([], [], c, c) && RunAll([], c) == Outcome(c, [])
  {
  }

  lemma TruthfulSame(items: seq<Item>, state: State, c: Config)
    requires state.FAILED? || state.CANCELLED?
    ensures Truthful(items, Same(items, state, false), c, c)
  {
    ReplayNone(items, Same(items, state, false), c);
  }

  lemma JoinRejected(items: seq<Item>, index: nat, fp: seq<Finish>, fs: seq<Finish>, c: Config, d: Config, e: Config)
    requires index < |items| && Truthful(items[..index], fp, c, d) && Truthful(items[index + 1..], fs, d, e)
    ensures Truthful(items, fp + [Finish(items[index].id, FAILED, None, false)] + fs, c, e)
  {
    hide Replay;
    var failed := [Finish(items[index].id, FAILED, None, false)];
    TruthfulSame([items[index]], FAILED, d);
    assert Same([items[index]], FAILED, false) == failed;
    TruthfulAppend(items[..index], fp, [items[index]], failed, c, d, d);
    TruthfulAppend(items[..index] + [items[index]], fp + failed, items[index + 1..], fs, c, d, e);
    assert items == items[..index] + [items[index]] + items[index + 1..];
  }

  /** Running a rejected batch task by task: the prefix, a failure, the suffix. */
  lemma RunsAround(items: seq<Item>, c: Config)
    requires Stage(items, c).Rejected?
    ensures var i := Stage(items, c).index;
            var first := RunAll(items[..i], c);
            var rest := RunAll(items[i + 1..], first.config);
            RunAll(items, c) == Outcome(rest.config, first.finishes + [Finish(items[i].id, FAILED, None, false)] + rest.finishes)
  {
    var i := Stage(items, c).index;
    RejectedPrefix(items, c);
    StagedIsSequential(items[..i], c);
    var first := RunAll(items[..i], c);
    RunAllAppend(items[..i], items[i..], c);
    assert items == items[..i] + items[i..];
    assert items[i..][1..] == items[i + 1..];
  }

  ghost predicate KeysAre(keys: set<string>, items: seq<Item>) {
    forall k :: k in keys <==> exists i | 0 <= i < |items| :: k in items[i].keys
  }

  lemma BatchStart(batchSize: nat)
    ensures BatchOk([], batchSize) && KeysAre({}, []) && Units([]) == 0 && Bytes([]) == 0
  {
  }

  lemma BatchFull(items: seq<Item>, item: Item, keys: set<string>, batchSize: nat)
    requires items != []
    requires KeysAre(keys, items)
    requires item.isolated || items[0].isolated || keys * item.keys != {}
             || Units(items) + item.units > batchSize || Bytes(items) + item.size > BATCH_BYTES
    ensures !BatchOk(items + [item], batchSize)
  {
    var more := items + [item];
    CostsAppend(items, [item]);
    assert more[0] == items[0] && more[|items|] == item;
    if keys * item.keys != {} {
      var k :| k in keys * item.keys;
      var i :| 0 <= i < |items| && k in items[i].keys;
      assert k in more[i].keys * more[|items|].keys;
    }
  }

  lemma BatchGrows(items: seq<Item>, item: Item, keys: set<string>, batchSize: nat)
    requires BatchOk(items, batchSize)
    requires KeysAre(keys, items)
    requires items != [] ==> !item.isolated && !items[0].isolated && keys * item.keys == {}
                             && Units(items) + item.units <= batchSize && Bytes(items) + item.size <= BATCH_BYTES
    ensures BatchOk(items + [item], batchSize)
    ensures KeysAre(keys + item.keys, items + [item])
  {
    var more := items + [item];
    CostsAppend(items, [item]);
    assert forall i | 0 <= i < |items| :: more[i] == items[i];
    forall i | 0 <= i < |items| ensures items[i].keys !! item.keys {
      forall k | k in items[i].keys ensures k !in item.keys {
        assert k in keys;
        assert k !in keys * item.keys;
      }
    }
    forall k ensures k in keys + item.keys <==> exists i | 0 <= i < |more| :: k in more[i].keys {
      if k in keys { var i :| 0 <= i < |items| && k in items[i].keys; assert k in more[i].keys; }
      if k in item.keys { assert k in more[|items|].keys; }
    }
  }
}
