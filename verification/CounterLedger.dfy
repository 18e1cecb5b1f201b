/**
 Native user counters: cumulative odometers per runtime instance, booked to their owners by the difference
 to a durable baseline.
 */
module CounterLedger {
  import opened Basics
  import opened ByteCounts

  type Instance = string
  type Key = string
  type User = string

  const MAX_BYTES: int := 0x7FFF_FFFF_FFFF_FFFF
  const PREFIX := "node-manager:"

  predicate InRange(b: Bytes) { 0 <= b.up <= MAX_BYTES && 0 <= b.down <= MAX_BYTES }

  /** One row of a snapshot; `legacy` is the key the counter would have without its id. */
  datatype Sample = Sample(key: Key, legacy: Key, name: string, value: Bytes, retirable: bool)

  datatype Snapshot = Snapshot(instance: Instance, version: int, rows: seq<Sample>)

  datatype Row = Row(value: Bytes, owner: Option<User>)

  datatype State = State(instance: Instance, rows: map<Key, Row>, retired: seq<Instance>, pending: map<Key, Bytes>)

  // ---------------------------------------------------------------- the books

  datatype Counter = Counter(instance: Instance, key: Key)

  /** A booking moves a counter's baseline from one observed value to the next; `via` is the key it continues. */
  datatype Entry =
    | Opening(user: User, value: Bytes)
    | Booking(owner: Option<User>, counter: Counter, via: Key, from: Bytes, to: Bytes)
    | Reset(cleared: User)

  /** The last observed value of a counter. */
  function Last(book: seq<Entry>, c: Counter): Option<Bytes> {
    if book == [] then None
    else
      var e := book[|book| - 1];
      if e.Booking? && e.counter == c then Some(e.to) else Last(book[..|book| - 1], c)
  }

  /** What an entry makes of a user's total. */
  function Posted(t: Bytes, e: Entry, u: User): Bytes {
    if e.Opening? then (if e.user == u then Plus(t, e.value) else t)
    else if e.Booking? then (if e.owner == Some(u) then Plus(t, Minus(e.to, e.from)) else t)
    else if e.cleared == u then ZERO else t
  }

  /** What a user has used since the last reset. */
  function Total(book: seq<Entry>, u: User): Bytes {
    if book == [] then ZERO else Posted(Total(book[..|book| - 1], u), book[|book| - 1], u)
  }

  /** A booking starts where the books left its counter: at zero, or at its own value when it only sets a baseline. */
  predicate Links(book: seq<Entry>, e: Entry) {
    e.Booking? ==>
      && Reaches(e.from, e.to)
      && (e.via != e.counter.key ==> Last(book, e.counter).None?)
      && match Last(book, Counter(e.counter.instance, e.via))
         case Some(v) => e.from == v
         case None => e.from == ZERO || e.from == e.to
  }

  ghost predicate Chained(book: seq<Entry>) {
    book != [] ==> Chained(book[..|book| - 1]) && Links(book[..|book| - 1], book[|book| - 1])
  }

  lemma BookMore(book: seq<Entry>, e: Entry)
    ensures (book + [e])[..|book|] == book && (book + [e])[|book|] == e
    ensures Chained(book) && Links(book, e) ==> Chained(book + [e])
  {
  }

  // ---------------------------------------------------------------- telescoping

  /** What was booked for a counter in all. */
  function Booked(book: seq<Entry>, c: Counter): Bytes {
    if book == [] then ZERO
    else
      var e, rest := book[|book| - 1], book[..|book| - 1];
      if e.Booking? && e.counter == c then Plus(Booked(rest, c), Minus(e.to, e.from)) else Booked(rest, c)
  }

  /** Where the counter's first booking started. */
  function Start(book: seq<Entry>, c: Counter): Option<Bytes> {
    if book == [] then None
    else
      var e, rest := book[|book| - 1], book[..|book| - 1];
      if Start(rest, c).Some? then Start(rest, c)
      else if e.Booking? && e.counter == c then Some(e.from) else None
  }

  /** Every increment between two observed values of a counter is booked exactly once. */
  lemma {:induction false} Telescopes(book: seq<Entry>, c: Counter)
    requires Chained(book)
    ensures Last(book, c).Some? <==> Start(book, c).Some?
    ensures Last(book, c).Some? ==> Booked(book, c) == Minus(Last(book, c).value, Start(book, c).value)
    ensures Last(book, c).None? ==> Booked(book, c) == ZERO
    ensures Start(book, c).Some? ==> Reaches(Start(book, c).value, Last(book, c).value)
  {
    if book != [] {
      Telescopes(book[..|book| - 1], c);
    }
  }

  lemma {:induction false} ChainedPrefix(book: seq<Entry>, i: nat)
    requires Chained(book) && i <= |book|
    ensures Chained(book[..i]) && (i < |book| ==> Links(book[..i], book[i]))
  {
    if i == |book| {
      assert book[..i] == book;
    } else if i < |book| - 1 {
      ChainedPrefix(book[..|book| - 1], i);
      assert book[..|book| - 1][..i] == book[..i];
    }
  }

  lemma {:induction false} StartStays(book: seq<Entry>, i: nat, c: Counter)
    requires i <= |book| && Start(book[..i], c).Some?
    ensures Start(book, c) == Start(book[..i], c)
  {
    if i == |book| {
      assert book[..i] == book;
    } else {
      assert book[..|book| - 1][..i] == book[..i];
      StartStays(book[..|book| - 1], i, c);
    }
  }

  /**
   A counter with an id that takes over the baseline of its id-less predecessor starts where that one stopped: what
   both booked together is the last observed value minus the predecessor's start.
   */
  lemma Handover(book: seq<Entry>, i: nat, c: Counter)
    requires Chained(book) && i < |book| && book[i].Booking? && book[i].counter == c && book[i].via != c.key
    requires Last(book[..i], Counter(c.instance, book[i].via)).Some?
    ensures var p := Counter(c.instance, book[i].via);
            && Start(book[..i], p).Some? && Last(book, c).Some? && Start(book, c) == Last(book[..i], p)
            && Plus(Booked(book[..i], p), Booked(book, c)) == Minus(Last(book, c).value, Start(book[..i], p).value)
  {
    hide Booked, Last, Start, Chained;
    ChainedPrefix(book, i);
    Telescopes(book[..i], c);
    Telescopes(book[..i], Counter(c.instance, book[i].via));
    Telescopes(book, c);
    StartNow(book, i, c);
    StartStays(book, i + 1, c);
  }

  lemma StartNow(book: seq<Entry>, i: nat, c: Counter)
    requires i < |book| && Start(book[..i], c).None? && book[i].Booking? && book[i].counter == c
    ensures Start(book[..i + 1], c) == Some(book[i].from)
  {
    assert book[..i + 1][..i] == book[..i] && book[..i + 1][i] == book[i];
  }

  // ---------------------------------------------------------------- the store against the books

  function Used(users: map<User, Bytes>, u: User): Bytes {
    if u in users then users[u] else ZERO
  }

  ghost predicate Agrees(users: map<User, Bytes>, book: seq<Entry>) {
    forall u :: Used(users, u) == Total(book, u)
  }

  /** The baselines are the last observed values. */
  ghost predicate Baselined(instance: Instance, rows: map<Key, Row>, book: seq<Entry>) {
    forall k | k in rows :: Last(book, Counter(instance, k)) == Some(rows[k].value)
  }

  /** Every other counter in the books belongs to a retired instance. */
  ghost predicate Elsewhere(instance: Instance, past: set<Instance>, book: seq<Entry>) {
    forall c: Counter | Last(book, c).Some? :: c.instance == instance || c.instance in past
  }

  lemma LastMore(book: seq<Entry>, e: Entry, c: Counter)
    ensures Last(book + [e], c) == if e.Booking? && e.counter == c then Some(e.to) else Last(book, c)
  {
    BookMore(book, e);
  }

  lemma TotalMore(book: seq<Entry>, e: Entry, u: User)
    ensures Total(book + [e], u) == Posted(Total(book, u), e, u)
  {
    BookMore(book, e);
  }

  // ---------------------------------------------------------------- one row of a snapshot

  /** The baseline a row continues from: its own, the one of its id-less predecessor, or none. */
  function Previous(rows: map<Key, Row>, sample: Sample, version: int): Option<Key> {
    if sample.key in rows then Some(sample.key)
    else if version == 2 && sample.legacy in rows then Some(sample.legacy)
    else None
  }

  function OwnerOf(previous: Option<Row>, sample: Sample, lookup: string -> Option<User>): Option<User> {
    var named := lookup(sample.name);
    if previous.Some? then if named.Some? then named else previous.value.owner
    else if named.None? && PREFIX <= sample.name then Some(sample.name[|PREFIX|..])
    else named
  }

  /** The value the difference is taken from. */
  function BaseOf(previous: Option<Row>, sample: Sample, migrate: bool): Bytes {
    if previous.Some? then previous.value.value else if migrate then sample.value else ZERO
  }

  datatype Acc = Acc(rows: map<Key, Row>, users: map<User, Bytes>, pending: map<Key, Bytes>, seen: set<Key>)

  /** The checks and updates of one row; None where the loop raises. */
  function BookRow(acc: Acc, sample: Sample, version: int, migrate: bool, lookup: string -> Option<User>): Option<Acc> {
    var key := Previous(acc.rows, sample, version);
    var previous := if key.Some? then (if key.value in acc.rows then Some(acc.rows[key.value]) else None) else None;
    var rows := if key.Some? then acc.rows - {key.value} else acc.rows;
    var owner := OwnerOf(previous, sample, lookup);
    var base := BaseOf(previous, sample, migrate);
    if sample.key in acc.seen then None
    else if previous.Some? && lookup(sample.name).Some? && previous.value.owner.Some?
            && lookup(sample.name) != previous.value.owner then None
    else if !InRange(sample.value) || !Reaches(base, sample.value) then None
    else
      var pending := if version != 2 then acc.pending
                     else if sample.retirable then acc.pending[sample.key := sample.value] else acc.pending - {sample.key};
      var after := Acc(rows[sample.key := Row(sample.value, owner)], acc.users, pending, acc.seen + {sample.key});
      if owner.None? then Some(after)
      else
        var total := Plus(Used(acc.users, owner.value), Minus(sample.value, base));
        if total.up > MAX_BYTES || total.down > MAX_BYTES then None
        else Some(after.(users := acc.users[owner.value := total]))
  }

  /** The booking a row makes. */
  function EntryOf(rows: map<Key, Row>, instance: Instance, sample: Sample, version: int, migrate: bool,
                   lookup: string -> Option<User>): Entry {
    var key := Previous(rows, sample, version);
    var previous := if key.Some? && key.value in rows then Some(rows[key.value]) else None;
    Booking(OwnerOf(previous, sample, lookup), Counter(instance, sample.key), if key.Some? then key.value else sample.key,
            BaseOf(previous, sample, migrate), sample.value)
  }

  /** The row's counter was observed before, above zero or beside an id-less baseline, but has lost its baseline. */
  predicate Recounted(book: seq<Entry>, instance: Instance, rows: map<Key, Row>, sample: Sample, version: int) {
    var last := Last(book, Counter(instance, sample.key));
    sample.key !in rows && last.Some? && (last.value != ZERO || (version == 2 && sample.legacy in rows))
  }

  lemma BookRowKeeps(instance: Instance, acc: Acc, sample: Sample, version: int, migrate: bool,
                     lookup: string -> Option<User>, book: seq<Entry>)
    requires Agrees(acc.users, book) && Baselined(instance, acc.rows, book)
    requires BookRow(acc, sample, version, migrate, lookup).Some?
    ensures var after := BookRow(acc, sample, version, migrate, lookup).value;
            var e := EntryOf(acc.rows, instance, sample, version, migrate, lookup);
            Agrees(after.users, book + [e]) && Baselined(instance, after.rows, book + [e])
  {
    var after := BookRow(acc, sample, version, migrate, lookup).value;
    var e := EntryOf(acc.rows, instance, sample, version, migrate, lookup);
    BookMore(book, e);
    forall u ensures Used(after.users, u) == Total(book + [e], u) { TotalMore(book, e, u); }
    forall k ensures Last(book + [e], Counter(instance, k))
              == if k == sample.key then Some(sample.value) else Last(book, Counter(instance, k)) {
      LastMore(book, e, Counter(instance, k));
    }
  }

  /** A booked row continues its counter's books exactly when it is not counted again. */
  lemma RowLinks(instance: Instance, acc: Acc, sample: Sample, version: int, migrate: bool,
                 lookup: string -> Option<User>, book: seq<Entry>)
    requires Baselined(instance, acc.rows, book) && BookRow(acc, sample, version, migrate, lookup).Some?
    requires migrate ==> Last(book, Counter(instance, sample.key)).None?
    requires version == 2 ==> sample.legacy != sample.key
    ensures Links(book, EntryOf(acc.rows, instance, sample, version, migrate, lookup))
            <==> !Recounted(book, instance, acc.rows, sample, version)
  {
  }

  lemma ElsewhereMore(instance: Instance, past: set<Instance>, book: seq<Entry>, e: Entry)
    requires Elsewhere(instance, past, book) && (e.Booking? ==> e.counter.instance == instance)
    ensures Elsewhere(instance, past, book + [e])
  {
    forall c: Counter | Last(book + [e], c).Some? ensures c.instance == instance || c.instance in past {
      LastMore(book, e, c);
    }
  }

  /**
   What the client requires of a snapshot: at most one row per inbound and user, and with ids every row has one, so
   that no row's key is a key without id.
   */
  ghost predicate WellKeyed(snapshot: Snapshot) {
    snapshot.version == 2 ==>
      && (forall i, j | 0 <= i < |snapshot.rows| && 0 <= j < |snapshot.rows| ::
          snapshot.rows[i].legacy != snapshot.rows[j].key)
      && (forall i, j | 0 <= i < j < |snapshot.rows| :: snapshot.rows[i].legacy != snapshot.rows[j].legacy)
  }

  function KeysOf(rows: seq<Sample>): set<Key> { set i | 0 <= i < |rows| :: rows[i].key }

  /** Whether an instance may still be counted: the guard of the instance change. */
  predicate MayCount(state: State, epochs: set<Instance>, snapshot: Snapshot) {
    || snapshot.instance == state.instance
    || (snapshot.instance !in state.retired && !(snapshot.version == 2 && snapshot.instance in epochs))
  }

  lemma MayCountExactly(state: State, epochs: set<Instance>, snapshot: Snapshot)
    ensures MayCount(state, epochs, snapshot) <==>
              snapshot.instance == state.instance
              || !(snapshot.instance in state.retired || (snapshot.version == 2 && snapshot.instance in epochs))
  {
  }

  // ---------------------------------------------------------------- the store

  /** Keys seen so far have their sampled value as baseline. */
  ghost predicate Sampled(snapshot: Snapshot, i: nat, acc: Acc)
    requires i <= |snapshot.rows|
  {
    && acc.seen == KeysOf(snapshot.rows[..i]) && acc.seen <= acc.rows.Keys
    && forall k | 0 <= k < i :: snapshot.rows[k].key in acc.rows
                                && acc.rows[snapshot.rows[k].key].value == snapshot.rows[k].value
  }

  /** The snapshot repeats the baselines. */
  ghost predicate Repeats(snapshot: Snapshot, rows: map<Key, Row>) {
    forall i | 0 <= i < |snapshot.rows| ::
        snapshot.rows[i].key in rows && rows[snapshot.rows[i].key].value == snapshot.rows[i].value
  }

  ghost predicate Unmoved(start: Acc, acc: Acc) {
    && (forall k | k in start.rows :: k in acc.rows && acc.rows[k].value == start.rows[k].value)
    && forall u :: Used(acc.users, u) == Used(start.users, u)
  }

  /** The snapshot's rows are booked once each, in order, to the owner their name is looked up to. */
  ghost predicate Entered(snapshot: Snapshot, i: nat, rows: map<Key, Row>, lookup: string -> Option<User>, start: nat,
                          posted: seq<Entry>)
    requires i <= |snapshot.rows|
  {
    && |posted| == start + i
    && forall k | 0 <= k < i :: EntryFor(snapshot.instance, snapshot.rows[k], rows, lookup, posted[start + k])
  }

  ghost predicate EntryFor(instance: Instance, sample: Sample, rows: map<Key, Row>, lookup: string -> Option<User>,
                     e: Entry) {
    && e.Booking? && e.counter == Counter(instance, sample.key) && e.to == sample.value
    && sample.key in rows && rows[sample.key].owner == e.owner
    && (lookup(sample.name).Some? ==> e.owner == lookup(sample.name))
  }

  lemma EnteredNone(snapshot: Snapshot, acc: Acc, lookup: string -> Option<User>, book: seq<Entry>)
    ensures Entered(snapshot, 0, acc.rows, lookup, |book|, book)
  {
  }

  lemma RowEntered(snapshot: Snapshot, i: nat, acc: Acc, migrate: bool, lookup: string -> Option<User>, start: nat,
                   posted: seq<Entry>)
    requires WellKeyed(snapshot) && i < |snapshot.rows| && Sampled(snapshot, i, acc)
             && Entered(snapshot, i, acc.rows, lookup, start, posted)
    requires BookRow(acc, snapshot.rows[i], snapshot.version, migrate, lookup).Some?
    ensures var e := EntryOf(acc.rows, snapshot.instance, snapshot.rows[i], snapshot.version, migrate, lookup);
            Entered(snapshot, i + 1, BookRow(acc, snapshot.rows[i], snapshot.version, migrate, lookup).value.rows,
                    lookup, start, posted + [e])
  {
    hide BookRow, EntryOf, KeysOf, WellKeyed;
    var sample := snapshot.rows[i];
    KeysGrow(snapshot.rows, i);
    KeysPart(snapshot.rows, i);
    BookRowIs(acc, snapshot.instance, sample, snapshot.version, migrate, lookup);
    OwnerLookup(acc.rows, snapshot.instance, sample, snapshot.version, migrate, lookup);
    EntryFacts(acc.rows, snapshot.instance, sample, snapshot.version, migrate, lookup);
    ViaOutside(snapshot, i, acc, migrate, lookup);
    var e := EntryOf(acc.rows, snapshot.instance, sample, snapshot.version, migrate, lookup);
    var next, more := BookRow(acc, sample, snapshot.version, migrate, lookup).value, posted + [e];
    assert EntryFor(snapshot.instance, sample, next.rows, lookup, e);
    forall k | 0 <= k < i + 1 ensures EntryFor(snapshot.instance, snapshot.rows[k], next.rows, lookup, more[start + k]) {
      if k < i {
        assert more[start + k] == posted[start + k];
        assert EntryFor(snapshot.instance, snapshot.rows[k], acc.rows, lookup, posted[start + k]);
        assert snapshot.rows[k].key in acc.seen;
      }
    }
  }

  lemma OwnerLookup(rows: map<Key, Row>, instance: Instance, sample: Sample, version: int, migrate: bool,
                    lookup: string -> Option<User>)
    ensures EntryOf(rows, instance, sample, version, migrate, lookup).Booking?
    ensures lookup(sample.name).Some? ==>
              EntryOf(rows, instance, sample, version, migrate, lookup).owner == lookup(sample.name)
  {
  }

  /** The rows of a snapshot one after the other; None once one of them raises. */
  function BookRows(acc: Acc, rows: seq<Sample>, version: int, migrate: bool,
                    lookup: string -> Option<User>): Option<Acc> {
    if rows == [] then Some(acc)
    else
      var before := BookRows(acc, rows[..|rows| - 1], version, migrate, lookup);
      if before.None? then None else BookRow(before.value, rows[|rows| - 1], version, migrate, lookup)
  }

  lemma {:induction false} RaisedForGood(acc: Acc, rows: seq<Sample>, i: nat, version: int, migrate: bool,
                                         lookup: string -> Option<User>)
    requires i <= |rows| && BookRows(acc, rows[..i], version, migrate, lookup).None?
    ensures BookRows(acc, rows, version, migrate, lookup).None?
  {
    if i < |rows| {
      assert rows[..|rows| - 1][..i] == rows[..i];
      RaisedForGood(acc, rows[..|rows| - 1], i, version, migrate, lookup);
    } else {
      assert rows[..i] == rows;
    }
  }

  lemma BookNext(acc: Acc, rows: seq<Sample>, i: nat, version: int, migrate: bool, lookup: string -> Option<User>)
    requires i < |rows| && BookRows(acc, rows[..i], version, migrate, lookup).Some?
    ensures BookRows(acc, rows[..i + 1], version, migrate, lookup)
            == BookRow(BookRows(acc, rows[..i], version, migrate, lookup).value, rows[i], version, migrate, lookup)
  {
    hide BookRow;
    assert rows[..i + 1][..i] == rows[..i];
  }

  /** Some row of the snapshot is counted again. */
  ghost predicate Recounts(book: seq<Entry>, rows: map<Key, Row>, snapshot: Snapshot) {
    exists i | 0 <= i < |snapshot.rows| :: Recounted(book, snapshot.instance, rows, snapshot.rows[i], snapshot.version)
  }

  /** Rows not yet reached find books and baselines as they were. */
  ghost predicate Framed(snapshot: Snapshot, i: nat, start: Acc, acc: Acc, book: seq<Entry>, posted: seq<Entry>)
    requires i <= |snapshot.rows|
  {
    && (forall k | k !in acc.seen :: Last(posted, Counter(snapshot.instance, k)) == Last(book, Counter(snapshot.instance, k)))
    && (forall k | k !in acc.seen && (snapshot.version == 2 ==>
        forall j | 0 <= j < i :: snapshot.rows[j].legacy != k) ::
          (k in acc.rows <==> k in start.rows) && (k in acc.rows ==> acc.rows[k] == start.rows[k]))
  }

  lemma FramedNone(snapshot: Snapshot, acc: Acc, book: seq<Entry>)
    ensures Framed(snapshot, 0, acc, acc, book, book)
  {
  }

  lemma RowFramed(snapshot: Snapshot, i: nat, start: Acc, acc: Acc, migrate: bool, lookup: string -> Option<User>,
                  book: seq<Entry>, posted: seq<Entry>)
    requires i < |snapshot.rows| && Framed(snapshot, i, start, acc, book, posted)
    requires BookRow(acc, snapshot.rows[i], snapshot.version, migrate, lookup).Some?
    ensures var e := EntryOf(acc.rows, snapshot.instance, snapshot.rows[i], snapshot.version, migrate, lookup);
            Framed(snapshot, i + 1, start, BookRow(acc, snapshot.rows[i], snapshot.version, migrate, lookup).value, book, posted + [e])
  {
    hide BookRow, EntryOf, Last;
    var sample := snapshot.rows[i];
    var e := EntryOf(acc.rows, snapshot.instance, sample, snapshot.version, migrate, lookup);
    var next := BookRow(acc, sample, snapshot.version, migrate, lookup).value;
    BookRowIs(acc, snapshot.instance, sample, snapshot.version, migrate, lookup);
    EntryFacts(acc.rows, snapshot.instance, sample, snapshot.version, migrate, lookup);
    forall k | k !in next.seen ensures Last(posted + [e], Counter(snapshot.instance, k)) == Last(book, Counter(snapshot.instance, k)) {
      LastMore(posted, e, Counter(snapshot.instance, k));
    }
    forall k | k !in next.seen && (snapshot.version == 2 ==> forall j | 0 <= j < i + 1 :: snapshot.rows[j].legacy != k)
      ensures (k in next.rows <==> k in start.rows) && (k in next.rows ==> next.rows[k] == start.rows[k])
    {
      if snapshot.version == 2 { assert snapshot.rows[i].legacy != k; }
    }
  }

  /** The row the loop reaches is counted again exactly when it would have been at the start. */
  lemma SameRecount(snapshot: Snapshot, i: nat, start: Acc, acc: Acc, book: seq<Entry>, posted: seq<Entry>)
    requires WellKeyed(snapshot) && i < |snapshot.rows| && Framed(snapshot, i, start, acc, book, posted)
    requires snapshot.rows[i].key !in acc.seen && acc.seen == KeysOf(snapshot.rows[..i])
    ensures Recounted(posted, snapshot.instance, acc.rows, snapshot.rows[i], snapshot.version)
            <==> Recounted(book, snapshot.instance, start.rows, snapshot.rows[i], snapshot.version)
  {
    hide Last;
    var sample := snapshot.rows[i];
    if snapshot.version == 2 {
      assert forall j | 0 <= j < i :: snapshot.rows[j].legacy != sample.key && snapshot.rows[j].legacy != sample.legacy;
      forall k | k in KeysOf(snapshot.rows[..i]) ensures k != sample.legacy {
        var j :| 0 <= j < i && snapshot.rows[..i][j].key == k;
        assert snapshot.rows[i].legacy != snapshot.rows[j].key;
      }
    }
  }

  // ---------------------------------------------------------------- what a snapshot continues

  /** The baseline a sample continues: its own, that of its counter without id, its first sight of a migration, or zero. */
  ghost function Continues(prior: map<Key, Row>, sample: Sample, version: int, migrate: bool): Bytes {
    if sample.key in prior then prior[sample.key].value
    else if version == 2 && sample.legacy in prior then prior[sample.legacy].value
    else if migrate then sample.value
    else ZERO
  }

  /** Who owns it: the name's user, else the owner of that baseline, else the user a managed name spells out. */
  ghost function Belongs(prior: map<Key, Row>, sample: Sample, version: int,
                         lookup: string -> Option<User>): Option<User> {
    if lookup(sample.name).Some? then lookup(sample.name)
    else if sample.key in prior then prior[sample.key].owner
    else if version == 2 && sample.legacy in prior then prior[sample.legacy].owner
    else if "node-manager:" <= sample.name then Some(sample.name[13..])
    else None
  }

  ghost predicate EntryFrom(prior: map<Key, Row>, sample: Sample, version: int, migrate: bool,
                            lookup: string -> Option<User>, e: Entry) {
    && e.Booking? && e.to == sample.value
    && e.from == Continues(prior, sample, version, migrate) && e.owner == Belongs(prior, sample, version, lookup)
  }

  /** The rows are booked from the baselines before the snapshot, whatever the rows before them did. */
  ghost predicate Continued(snapshot: Snapshot, i: nat, prior: map<Key, Row>, migrate: bool,
                            lookup: string -> Option<User>, start: nat, posted: seq<Entry>)
    requires i <= |snapshot.rows|
  {
    && |posted| == start + i
    && forall n | start <= n < |posted| ::
         EntryFrom(prior, snapshot.rows[n - start], snapshot.version, migrate, lookup, posted[n])
  }

  lemma ContinuedNone(snapshot: Snapshot, prior: map<Key, Row>, migrate: bool, lookup: string -> Option<User>,
                      book: seq<Entry>)
    ensures Continued(snapshot, 0, prior, migrate, lookup, |book|, book)
  {
  }

  lemma RowContinues(snapshot: Snapshot, i: nat, start: Acc, acc: Acc, migrate: bool, lookup: string -> Option<User>,
                     book: seq<Entry>, posted: seq<Entry>)
    requires WellKeyed(snapshot) && i < |snapshot.rows| && Framed(snapshot, i, start, acc, book, posted)
    requires snapshot.rows[i].key !in acc.seen && acc.seen == KeysOf(snapshot.rows[..i])
    ensures var e := EntryOf(acc.rows, snapshot.instance, snapshot.rows[i], snapshot.version, migrate, lookup);
            EntryFrom(start.rows, snapshot.rows[i], snapshot.version, migrate, lookup, e)
  {
    hide Last;
    var sample := snapshot.rows[i];
    if snapshot.version == 2 {
      assert forall j | 0 <= j < i :: snapshot.rows[j].legacy != sample.key && snapshot.rows[j].legacy != sample.legacy;
      forall k | k in KeysOf(snapshot.rows[..i]) ensures k != sample.legacy {
        var j :| 0 <= j < i && snapshot.rows[..i][j].key == k;
        assert snapshot.rows[i].legacy != snapshot.rows[j].key;
      }
    }
  }

  /** A pair of counters that fits 63 bits. */
  ghost predicate Counter64(b: Bytes) {
    && 0 <= b.up && 0 <= b.down
    && b.up <= 0x7FFF_FFFF_FFFF_FFFF && b.down <= 0x7FFF_FFFF_FFFF_FFFF
  }

  ghost function Recorded(prior: map<Key, Row>, sample: Sample, version: int): Option<User> {
    if sample.key in prior then prior[sample.key].owner
    else if version == 2 && sample.legacy in prior then prior[sample.legacy].owner
    else None
  }

  ghost predicate Overflows(used: Bytes, value: Bytes, base: Bytes) {
    used.up + value.up - base.up > 0x7FFF_FFFF_FFFF_FFFF || used.down + value.down - base.down > 0x7FFF_FFFF_FFFF_FFFF
  }

  lemma PreviousMeans(rows: map<Key, Row>, sample: Sample, version: int, migrate: bool, lookup: string -> Option<User>)
    ensures var key := Previous(rows, sample, version);
            var previous := if key.Some? then (if key.value in rows then Some(rows[key.value]) else None) else None;
            && BaseOf(previous, sample, migrate) == Continues(rows, sample, version, migrate)
            && OwnerOf(previous, sample, lookup) == Belongs(rows, sample, version, lookup)
            && (if previous.Some? then previous.value.owner else None) == Recorded(rows, sample, version)
  {
  }

  lemma RowRaisesHere(acc: Acc, sample: Sample, version: int, migrate: bool, lookup: string -> Option<User>)
    ensures var base, owner := Continues(acc.rows, sample, version, migrate), Belongs(acc.rows, sample, version, lookup);
            var recorded := Recorded(acc.rows, sample, version);
            BookRow(acc, sample, version, migrate, lookup).None? <==>
              || sample.key in acc.seen
              || (recorded.Some? && lookup(sample.name).Some? && lookup(sample.name) != recorded)
              || !Counter64(sample.value) || sample.value.up < base.up || sample.value.down < base.down
              || (owner.Some? && Overflows(Used(acc.users, owner.value), sample.value, base))
  {
    hide Previous, BaseOf, OwnerOf, Continues, Belongs, Recorded, Used;
    PreviousMeans(acc.rows, sample, version, migrate, lookup);
  }

  lemma SamePrior(rows: map<Key, Row>, prior: map<Key, Row>, sample: Sample, version: int, migrate: bool,
                  lookup: string -> Option<User>)
    requires (sample.key in rows <==> sample.key in prior)
             && (sample.key in rows ==> rows[sample.key] == prior[sample.key])
    requires version == 2 ==> (sample.legacy in rows <==> sample.legacy in prior)
                              && (sample.legacy in rows ==> rows[sample.legacy] == prior[sample.legacy])
    ensures Continues(rows, sample, version, migrate) == Continues(prior, sample, version, migrate)
    ensures Belongs(rows, sample, version, lookup) == Belongs(prior, sample, version, lookup)
    ensures Recorded(rows, sample, version) == Recorded(prior, sample, version)
  {
  }

  /**
   A row raises exactly when its counter is repeated, out of range or behind its baseline, when its owner changed, or
   when the owner's total overflows.
   */
  lemma RowRaises(snapshot: Snapshot, i: nat, start: Acc, acc: Acc, migrate: bool, lookup: string -> Option<User>,
                  book: seq<Entry>, posted: seq<Entry>)
    requires WellKeyed(snapshot) && i < |snapshot.rows| && Framed(snapshot, i, start, acc, book, posted)
    requires acc.seen == KeysOf(snapshot.rows[..i])
    ensures var sample, prior := snapshot.rows[i], start.rows;
            var base := Continues(prior, sample, snapshot.version, migrate);
            var owner := Belongs(prior, sample, snapshot.version, lookup);
            var recorded := Recorded(prior, sample, snapshot.version);
            BookRow(acc, sample, snapshot.version, migrate, lookup).None? <==>
              || (exists j | 0 <= j < i :: snapshot.rows[j].key == sample.key)
              || (recorded.Some? && lookup(sample.name).Some? && lookup(sample.name) != recorded)
              || !Counter64(sample.value) || sample.value.up < base.up || sample.value.down < base.down
              || (owner.Some? && Overflows(Used(acc.users, owner.value), sample.value, base))
  {
    hide Framed, BookRow, Continues, Belongs, KeysOf, WellKeyed, Used;
    var sample := snapshot.rows[i];
    SeenExactly(snapshot, i);
    RowRaisesHere(acc, sample, snapshot.version, migrate, lookup);
    if sample.key !in acc.seen {
      FramedHere(snapshot, i, start, acc, book, posted);
      SamePrior(acc.rows, start.rows, sample, snapshot.version, migrate, lookup);
    }
  }

  lemma SeenExactly(snapshot: Snapshot, i: nat)
    requires i < |snapshot.rows|
    ensures snapshot.rows[i].key in KeysOf(snapshot.rows[..i]) <==>
              exists j | 0 <= j < i :: snapshot.rows[j].key == snapshot.rows[i].key
  {
    if j :| 0 <= j < i && snapshot.rows[j].key == snapshot.rows[i].key {
      assert snapshot.rows[..i][j] == snapshot.rows[j];
    }
    if snapshot.rows[i].key in KeysOf(snapshot.rows[..i]) {
      var j :| 0 <= j < i && snapshot.rows[..i][j].key == snapshot.rows[i].key;
      assert snapshot.rows[j].key == snapshot.rows[i].key;
    }
  }

  lemma FramedHere(snapshot: Snapshot, i: nat, start: Acc, acc: Acc, book: seq<Entry>, posted: seq<Entry>)
    requires WellKeyed(snapshot) && i < |snapshot.rows| && Framed(snapshot, i, start, acc, book, posted)
    requires snapshot.rows[i].key !in acc.seen && acc.seen == KeysOf(snapshot.rows[..i])
    ensures var sample := snapshot.rows[i];
            && (sample.key in acc.rows <==> sample.key in start.rows)
            && (sample.key in acc.rows ==> acc.rows[sample.key] == start.rows[sample.key])
            && (snapshot.version == 2 ==> (sample.legacy in acc.rows <==> sample.legacy in start.rows)
                                          && (sample.legacy in acc.rows ==> acc.rows[sample.legacy] == start.rows[sample.legacy]))
  {
    hide Last;
    var sample := snapshot.rows[i];
    if snapshot.version == 2 {
      assert forall j | 0 <= j < i :: snapshot.rows[j].legacy != sample.key && snapshot.rows[j].legacy != sample.legacy;
      forall k | k in KeysOf(snapshot.rows[..i]) ensures k != sample.legacy {
        var j :| 0 <= j < i && snapshot.rows[..i][j].key == k;
        assert snapshot.rows[i].legacy != snapshot.rows[j].key;
      }
    }
  }

  lemma ContinuedMore(snapshot: Snapshot, i: nat, start: Acc, acc: Acc, migrate: bool, lookup: string -> Option<User>,
                      book: seq<Entry>, posted: seq<Entry>)
    requires WellKeyed(snapshot) && i < |snapshot.rows| && Framed(snapshot, i, start, acc, book, posted)
    requires acc.seen == KeysOf(snapshot.rows[..i])
    requires BookRow(acc, snapshot.rows[i], snapshot.version, migrate, lookup).Some?
    requires Continued(snapshot, i, start.rows, migrate, lookup, |book|, posted)
    ensures var e := EntryOf(acc.rows, snapshot.instance, snapshot.rows[i], snapshot.version, migrate, lookup);
            Continued(snapshot, i + 1, start.rows, migrate, lookup, |book|, posted + [e])
  {
    hide BookRow, EntryOf, Framed, WellKeyed, KeysOf, EntryFrom;
    BookRowIs(acc, snapshot.instance, snapshot.rows[i], snapshot.version, migrate, lookup);
    RowContinues(snapshot, i, start, acc, migrate, lookup, book, posted);
  }

  /** Entries that go nowhere add nothing. */
  lemma {:induction false} StillTotals(book: seq<Entry>, posted: seq<Entry>, u: User)
    requires book <= posted
    requires forall k | |book| <= k < |posted| :: posted[k].Booking? && posted[k].from == posted[k].to
    ensures Total(posted, u) == Total(book, u)
    decreases |posted|
  {
    if |posted| == |book| {
      assert posted == book;
    } else {
      var before, e := posted[..|posted| - 1], posted[|posted| - 1];
      assert before + [e] == posted;
      TotalMore(before, e, u);
      StillTotals(book, before, u);
    }
  }

  lemma MigrationAddsNothing(snapshot: Snapshot, lookup: string -> Option<User>, users: map<User, Bytes>,
                             after: map<User, Bytes>, book: seq<Entry>, posted: seq<Entry>)
    requires book <= posted && Agrees(users, book) && Agrees(after, posted)
    requires Continued(snapshot, |snapshot.rows|, map[], true, lookup, |book|, posted)
    ensures forall u :: Used(after, u) == Used(users, u)
  {
    hide Used, Total;
    forall u ensures Used(after, u) == Used(users, u) {
      forall k | |book| <= k < |posted| ensures posted[k].Booking? && posted[k].from == posted[k].to {
        assert EntryFrom(map[], snapshot.rows[k - |book|], snapshot.version, true, lookup, posted[k]);
      }
      StillTotals(book, posted, u);
    }
  }

  ghost predicate RecountsBy(book: seq<Entry>, rows: map<Key, Row>, snapshot: Snapshot, n: nat)
    requires n <= |snapshot.rows|
  {
    exists i | 0 <= i < n :: Recounted(book, snapshot.instance, rows, snapshot.rows[i], snapshot.version)
  }

  lemma ChainedMore(book: seq<Entry>, e: Entry)
    ensures Chained(book + [e]) <==> Chained(book) && Links(book, e)
  {
    BookMore(book, e);
  }

  /** One more row: the books stay chained exactly when it is not counted again. */
  lemma RowChained(snapshot: Snapshot, i: nat, start: Acc, acc: Acc, migrate: bool, lookup: string -> Option<User>,
                   book: seq<Entry>, posted: seq<Entry>)
    requires WellKeyed(snapshot) && i < |snapshot.rows| && Framed(snapshot, i, start, acc, book, posted)
             && acc.seen == KeysOf(snapshot.rows[..i])
    requires Baselined(snapshot.instance, acc.rows, posted)
             && BookRow(acc, snapshot.rows[i], snapshot.version, migrate, lookup).Some?
    requires migrate ==> forall c: Counter :: Last(book, c).None?
    requires Chained(posted) <==> Chained(book) && !RecountsBy(book, start.rows, snapshot, i)
    ensures var e := EntryOf(acc.rows, snapshot.instance, snapshot.rows[i], snapshot.version, migrate, lookup);
            Chained(posted + [e]) <==> Chained(book) && !RecountsBy(book, start.rows, snapshot, i + 1)
  {
    hide BookRow, EntryOf, Recounted, Links, Chained, KeysOf;
    var e := EntryOf(acc.rows, snapshot.instance, snapshot.rows[i], snapshot.version, migrate, lookup);
    BookRowIs(acc, snapshot.instance, snapshot.rows[i], snapshot.version, migrate, lookup);
    SameRecount(snapshot, i, start, acc, book, posted);
    if snapshot.version == 2 { assert snapshot.rows[i].legacy != snapshot.rows[i].key; }
    RowLinks(snapshot.instance, acc, snapshot.rows[i], snapshot.version, migrate, lookup, posted);
    ChainedMore(posted, e);
  }

  /** The row loop of `apply_counters`, on copies. */
  method BookAll(snapshot: Snapshot, start: Acc, migrate: bool, lookup: string -> Option<User>,
                 ghost past: set<Instance>, ghost book: seq<Entry>)
    returns (r: Option<Acc>, ghost posted: seq<Entry>)
    requires WellKeyed(snapshot) && start.seen == {}
    requires Agrees(start.users, book) && Baselined(snapshot.instance, start.rows, book)
             && Elsewhere(snapshot.instance, past, book)
    requires migrate ==> forall c: Counter :: Last(book, c).None?
    ensures book <= posted
    ensures r == BookRows(start, snapshot.rows, snapshot.version, migrate, lookup)
    ensures r.Some? ==>
      && Agrees(r.value.users, posted) && Baselined(snapshot.instance, r.value.rows, posted)
      && Elsewhere(snapshot.instance, past, posted) && Sampled(snapshot, |snapshot.rows|, r.value)
      && (Repeats(snapshot, start.rows) ==> Unmoved(start, r.value))
      && Entered(snapshot, |snapshot.rows|, r.value.rows, lookup, |book|, posted)
      && Continued(snapshot, |snapshot.rows|, start.rows, migrate, lookup, |book|, posted)
      && (Chained(posted) <==> Chained(book) && !Recounts(book, start.rows, snapshot))
      && LeavesOthers(snapshot, book, posted)
  {
    hide BookRows, Entered, Agrees, Baselined, Elsewhere, WellKeyed, Sampled, Repeats, Unmoved,
      BookRow, EntryOf, Framed, Chained, Recounted, Continued;
    var acc := start;
    posted := book;
    SampledNone(snapshot, acc);
    UnmovedItself(acc);
    EnteredNone(snapshot, acc, lookup, book);
    BookNone(acc, snapshot.rows, snapshot.version, migrate, lookup);
    FramedNone(snapshot, acc, book);
    ContinuedNone(snapshot, start.rows, migrate, lookup, book);
    for i := 0 to |snapshot.rows|
      invariant BookRows(start, snapshot.rows[..i], snapshot.version, migrate, lookup) == Some(acc)
      invariant book <= posted
      invariant Agrees(acc.users, posted) && Baselined(snapshot.instance, acc.rows, posted)
                && Elsewhere(snapshot.instance, past, posted)
      invariant Sampled(snapshot, i, acc) && (Repeats(snapshot, start.rows) ==> Unmoved(start, acc))
      invariant Entered(snapshot, i, acc.rows, lookup, |book|, posted)
      invariant Framed(snapshot, i, start, acc, book, posted)
      invariant Continued(snapshot, i, start.rows, migrate, lookup, |book|, posted)
      invariant Chained(posted) <==> Chained(book) && !RecountsBy(book, start.rows, snapshot, i)
    {
      var sample := snapshot.rows[i];
      var next := BookRow(acc, sample, snapshot.version, migrate, lookup);
      BookNext(start, snapshot.rows, i, snapshot.version, migrate, lookup);
      if next.None? {
        RaisedForGood(start, snapshot.rows, i + 1, snapshot.version, migrate, lookup);
        return None, posted;
      }
      ghost var e := EntryOf(acc.rows, snapshot.instance, sample, snapshot.version, migrate, lookup);
      BookRowKeeps(snapshot.instance, acc, sample, snapshot.version, migrate, lookup, posted);
      EntryFacts(acc.rows, snapshot.instance, sample, snapshot.version, migrate, lookup);
      ElsewhereMore(snapshot.instance, past, posted, e);
      RowSampled(snapshot, i, acc, migrate, lookup);
      RowEntered(snapshot, i, acc, migrate, lookup, |book|, posted);
      RowFramed(snapshot, i, start, acc, migrate, lookup, book, posted);
      SampledSeen(snapshot, i, acc);
      ContinuedMore(snapshot, i, start, acc, migrate, lookup, book, posted);
      RowChained(snapshot, i, start, acc, migrate, lookup, book, posted);
      if Repeats(snapshot, start.rows) { RowUnmoved(snapshot, i, start, acc, migrate, lookup); }
      posted := posted + [e];
      acc := next.value;
    }
    assert snapshot.rows[..|snapshot.rows|] == snapshot.rows;
    SampledSeen(snapshot, |snapshot.rows|, acc);
    FramedOthers(snapshot, start, acc, book, posted);
    r := Some(acc);
  }

  /** What a snapshot does not show keeps its last observed value. */
  ghost predicate LeavesOthers(snapshot: Snapshot, book: seq<Entry>, posted: seq<Entry>) {
    forall k | k !in KeysOf(snapshot.rows) ::
        Last(posted, Counter(snapshot.instance, k)) == Last(book, Counter(snapshot.instance, k))
  }

  lemma FramedOthers(snapshot: Snapshot, start: Acc, acc: Acc, book: seq<Entry>, posted: seq<Entry>)
    requires Framed(snapshot, |snapshot.rows|, start, acc, book, posted) && acc.seen == KeysOf(snapshot.rows)
    ensures LeavesOthers(snapshot, book, posted)
  {
  }

  lemma SampledSeen(snapshot: Snapshot, i: nat, acc: Acc)
    requires i <= |snapshot.rows| && Sampled(snapshot, i, acc)
    ensures acc.seen == KeysOf(snapshot.rows[..i])
  {
  }

  lemma BookNone(acc: Acc, rows: seq<Sample>, version: int, migrate: bool, lookup: string -> Option<User>)
    ensures BookRows(acc, rows[..0], version, migrate, lookup) == Some(acc)
  {
  }

  // ---------------------------------------------------------------- which snapshots are accepted

  ghost predicate Migrates(users: map<User, Bytes>, state: Option<State>, collected: bool) {
    state.None? && (collected || exists u | u in users :: users[u].up + users[u].down != 0)
  }

  function StartOf(users: map<User, Bytes>, state: Option<State>, snapshot: Snapshot): Acc {
    if state.None? || state.value.instance != snapshot.instance then Acc(map[], users, map[], {})
    else Acc(state.value.rows, users, state.value.pending, {})
  }

  /** The instance may be counted, no row raises, and no baseline is left without a row. */
  ghost predicate Accepts(users: map<User, Bytes>, state: Option<State>, collected: bool, epochs: set<Instance>,
                          snapshot: Snapshot, lookup: string -> Option<User>) {
    && (state.Some? ==> MayCount(state.value, epochs, snapshot))
    && var booked := BookRows(StartOf(users, state, snapshot), snapshot.rows, snapshot.version, Migrates(users, state, collected), lookup);
       booked.Some? && booked.value.rows.Keys <= booked.value.seen
  }

  datatype Core = Core(users: map<User, Bytes>, state: Option<State>, collected: bool, epochs: set<Instance>)

  /** The instances that are retired after an accepted snapshot: those kept in the state, and those in the archive. */
  function RetiredList(state: Option<State>, snapshot: Snapshot): seq<Instance> {
    if state.None? then []
    else if state.value.instance != snapshot.instance then state.value.retired + [state.value.instance]
    else state.value.retired
  }

  /** The store after a snapshot, or None where it is rejected. */
  ghost function After(c: Core, snapshot: Snapshot, lookup: string -> Option<User>): Option<Core> {
    if !Accepts(c.users, c.state, c.collected, c.epochs, snapshot, lookup) then None
    else
      var acc := BookRows(StartOf(c.users, c.state, snapshot), snapshot.rows, snapshot.version,
                          Migrates(c.users, c.state, c.collected), lookup).value;
      var retired := RetiredList(c.state, snapshot);
      var archived := snapshot.version == 2;
      Some(Core(acc.users, Some(State(snapshot.instance, acc.rows, if archived then [] else retired, acc.pending)), c.collected,
                if archived then c.epochs + Members(retired) else c.epochs))
  }

  /**
   A retired instance can be counted again: once a snapshot with ids has moved it to the archive, a snapshot of it
   without ids is accepted and its bytes are added a second time.
   */
  lemma RetiredIsCountedTwice(u: User, v: nat)
    requires 0 < v && 2 * v <= MAX_BYTES
    ensures var lookup: string -> Option<User> := (name: string) => Some(u);
            var retired := Snapshot("a", 1, [Sample("k", "k", "n", Bytes(v, 0), false)]);
            var next := Snapshot("b", 2, []);
            var first := After(Core(map[], None, false, {}), retired, lookup);
            && WellKeyed(retired) && WellKeyed(next) && first.Some? && Used(first.value.users, u) == Bytes(v, 0)
            && var second := After(first.value, next, lookup);
            && second.Some? && Used(second.value.users, u) == Bytes(v, 0)
            && var third := After(second.value, retired, lookup);
            && third.Some? && Used(third.value.users, u) == Bytes(2 * v, 0)
  {
    hide BookRows;
    var lookup: string -> Option<User> := (name: string) => Some(u);
    var sample := Sample("k", "k", "n", Bytes(v, 0), false);
    var retired, next := Snapshot("a", 1, [sample]), Snapshot("b", 2, []);
    var none: map<Key, Bytes> := map[];
    var row := map["k" := Row(Bytes(v, 0), Some(u))];
    var c1 := Core(map[u := Bytes(v, 0)], Some(State("a", row, [], none)), false, {});
    var c2 := Core(c1.users, Some(State("b", map[], [], none)), false, {"a"});
    OneRow(Acc(map[], map[], none, {}), sample, 1, false, lookup);
    assert After(Core(map[], None, false, {}), retired, lookup) == Some(c1);
    NoRows(Acc(map[], c1.users, none, {}), 2, false, lookup);
    assert "a"[0] != "b"[0];
    assert RetiredList(c1.state, next) == ["a"] && Members(["a"]) == {"a"};
    assert c1.epochs + {"a"} == c2.epochs;
    assert After(c1, next, lookup) == Some(c2);
    OneRow(Acc(map[], c1.users, none, {}), sample, 1, false, lookup);
  }

  lemma NoRows(acc: Acc, version: int, migrate: bool, lookup: string -> Option<User>)
    ensures BookRows(acc, [], version, migrate, lookup) == Some(acc)
  {
  }

  lemma OneRow(acc: Acc, sample: Sample, version: int, migrate: bool, lookup: string -> Option<User>)
    ensures BookRows(acc, [sample], version, migrate, lookup) == BookRow(acc, sample, version, migrate, lookup)
  {
    hide BookRow;
    assert [sample][..0] == [];
    assert BookRows(acc, [sample][..0], version, migrate, lookup) == Some(acc);
  }

  predicate Within(b: Bytes) { b.up <= MAX_BYTES && b.down <= MAX_BYTES }

  /** The store holds what these rows say, under the owners they would be looked up to again. */
  ghost predicate Replayable(rows: seq<Sample>, acc: Acc, lookup: string -> Option<User>) {
    && (forall j, k | 0 <= j < k < |rows| :: rows[j].key != rows[k].key)
    && forall k | 0 <= k < |rows| :: Held(rows[k], acc, lookup)
  }

  predicate Held(sample: Sample, acc: Acc, lookup: string -> Option<User>) {
    && sample.key in acc.rows && acc.rows[sample.key].value == sample.value && InRange(sample.value)
    && var owner := acc.rows[sample.key].owner;
       && (lookup(sample.name).Some? ==> owner == lookup(sample.name))
       && (owner.Some? ==> Within(Used(acc.users, owner.value)))
  }

  /** A booked row is held, and so is every row held before it. */
  lemma BookRowHolds(acc: Acc, sample: Sample, other: Sample, version: int, migrate: bool,
                     lookup: string -> Option<User>)
    requires BookRow(acc, sample, version, migrate, lookup).Some?
    ensures Held(sample, BookRow(acc, sample, version, migrate, lookup).value, lookup)
    ensures Held(other, acc, lookup) && other.key != sample.key && !(version == 2 && other.key == sample.legacy) ==>
              Held(other, BookRow(acc, sample, version, migrate, lookup).value, lookup)
    ensures sample.key !in acc.seen
            && BookRow(acc, sample, version, migrate, lookup).value.seen == acc.seen + {sample.key}
  {
  }

  lemma {:induction false} BookedReplayable(start: Acc, rows: seq<Sample>, version: int, migrate: bool,
                                            lookup: string -> Option<User>)
    requires start.seen == {} && BookRows(start, rows, version, migrate, lookup).Some?
    requires version == 2 ==> forall i, j | 0 <= i < |rows| && 0 <= j < |rows| :: rows[i].legacy != rows[j].key
    ensures Replayable(rows, BookRows(start, rows, version, migrate, lookup).value, lookup)
    ensures BookRows(start, rows, version, migrate, lookup).value.seen == KeysOf(rows)
  {
    hide BookRow, Held, KeysOf;
    if rows == [] {
      NoKeys();
    } else {
      var n := |rows| - 1;
      var acc := BookRows(start, rows[..n], version, migrate, lookup).value;
      BookedReplayable(start, rows[..n], version, migrate, lookup);
      assert rows[..n + 1] == rows;
      KeysGrow(rows, n);
      BookRowHolds(acc, rows[n], rows[n], version, migrate, lookup);
      forall k | 0 <= k < n ensures rows[k].key != rows[n].key
                                    && Held(rows[k], BookRow(acc, rows[n], version, migrate, lookup).value, lookup) {
        assert rows[..n][k] == rows[k];
        BookRowHolds(acc, rows[n], rows[k], version, migrate, lookup);
      }
    }
  }

  lemma NoKeys()
    ensures KeysOf([]) == {}
  {
  }

  /** A held row is booked again, with nothing to add. */
  lemma HeldAgain(acc: Acc, sample: Sample, b: Acc, version: int, lookup: string -> Option<User>)
    requires Held(sample, acc, lookup) && sample.key !in b.seen && b.rows == acc.rows
    requires forall u :: Used(b.users, u) == Used(acc.users, u)
    ensures var next := BookRow(b, sample, version, false, lookup);
            && next.Some? && next.value.rows == acc.rows && next.value.seen == b.seen + {sample.key}
            && forall u :: Used(next.value.users, u) == Used(acc.users, u)
  {
    hide BookRow, EntryOf, Used, Held;
    HeldPasses(b, sample, version, lookup, acc);
    ZeroRow(b, "", sample, version, false, lookup);
    BookRowIs(b, "", sample, version, false, lookup);
    assert (acc.rows - {sample.key})[sample.key := acc.rows[sample.key]] == acc.rows;
  }

  lemma HeldPasses(b: Acc, sample: Sample, version: int, lookup: string -> Option<User>, acc: Acc)
    requires Held(sample, acc, lookup) && sample.key !in b.seen && b.rows == acc.rows
    requires forall u :: Used(b.users, u) == Used(acc.users, u)
    ensures BookRow(b, sample, version, false, lookup).Some?
    ensures sample.key in b.rows && b.rows[sample.key].value == sample.value
    ensures EntryOf(b.rows, "", sample, version, false, lookup).Booking?
    ensures EntryOf(b.rows, "", sample, version, false, lookup).owner == b.rows[sample.key].owner
  {
    hide Used;
  }

  lemma {:induction false} Replay(acc: Acc, rows: seq<Sample>, start: Acc, version: int, lookup: string -> Option<User>)
    requires Replayable(rows, acc, lookup) && start == acc.(pending := start.pending, seen := {})
    ensures var again := BookRows(start, rows, version, false, lookup);
            && again.Some? && again.value.rows == acc.rows && again.value.seen == KeysOf(rows)
            && forall u :: Used(again.value.users, u) == Used(acc.users, u)
  {
    hide BookRow, Held, Used;
    if rows != [] {
      var n := |rows| - 1;
      Replay(acc, rows[..n], start, version, lookup);
      assert rows[..n + 1] == rows;
      KeysGrow(rows, n);
      assert rows[n].key !in KeysOf(rows[..n]);
      HeldAgain(acc, rows[n], BookRows(start, rows[..n], version, false, lookup).value, version, lookup);
    }
  }

  /** A snapshot that was accepted is accepted again by the store it leaves, and adds nothing. */
  lemma RepeatIsAccepted(users: map<User, Bytes>, state: Option<State>, collected: bool, epochs: set<Instance>,
                         snapshot: Snapshot, lookup: string -> Option<User>, retired: seq<Instance>,
                         later: set<Instance>)
    requires WellKeyed(snapshot) && Accepts(users, state, collected, epochs, snapshot, lookup)
    ensures var acc := BookRows(StartOf(users, state, snapshot), snapshot.rows, snapshot.version,
                            Migrates(users, state, collected), lookup).value;
            var after := Some(State(snapshot.instance, acc.rows, retired, acc.pending));
            && Accepts(acc.users, after, true, later, snapshot, lookup)
            && var again := BookRows(StartOf(acc.users, after, snapshot), snapshot.rows, snapshot.version, false, lookup).value;
               again.rows == acc.rows && forall u :: Used(again.users, u) == Used(acc.users, u)
  {
    hide BookRows, KeysOf, Used;
    var start := StartOf(users, state, snapshot);
    var acc := BookRows(start, snapshot.rows, snapshot.version, Migrates(users, state, collected), lookup).value;
    BookedReplayable(start, snapshot.rows, snapshot.version, Migrates(users, state, collected), lookup);
    Replay(acc, snapshot.rows, acc.(seen := {}), snapshot.version, lookup);
  }

  lemma SampledNone(snapshot: Snapshot, acc: Acc)
    requires acc.seen == {}
    ensures Sampled(snapshot, 0, acc)
  {
  }

  lemma UnmovedItself(acc: Acc)
    ensures Unmoved(acc, acc)
  {
  }

  lemma EntryFacts(rows: map<Key, Row>, instance: Instance, sample: Sample, version: int, migrate: bool,
                   lookup: string -> Option<User>)
    ensures var e := EntryOf(rows, instance, sample, version, migrate, lookup);
            e.Booking? && e.counter == Counter(instance, sample.key)
            && (e.via == sample.key || (version == 2 && sample.key !in rows && e.via == sample.legacy))
  {
  }

  /** The accumulator after a row, in terms of its booking. */
  lemma BookRowIs(acc: Acc, instance: Instance, sample: Sample, version: int, migrate: bool,
                  lookup: string -> Option<User>)
    requires BookRow(acc, sample, version, migrate, lookup).Some?
    ensures var next := BookRow(acc, sample, version, migrate, lookup).value;
            var e := EntryOf(acc.rows, instance, sample, version, migrate, lookup);
            && e.Booking? && next.rows == (acc.rows - {e.via})[sample.key := Row(sample.value, e.owner)]
            && next.seen == acc.seen + {sample.key}
            && next.users == (if e.owner.None? then acc.users
                              else acc.users[e.owner.value := Plus(Used(acc.users, e.owner.value), Minus(e.to, e.from))])
            && e.to == sample.value && (e.via in acc.rows ==> e.from == acc.rows[e.via].value)
            && (sample.key in acc.rows ==> e.via == sample.key) && sample.key !in acc.seen
  {
    assert acc.rows - {sample.key} == acc.rows || sample.key in acc.rows;
  }

  lemma ViaOutside(snapshot: Snapshot, i: nat, acc: Acc, migrate: bool, lookup: string -> Option<User>)
    requires WellKeyed(snapshot) && i < |snapshot.rows|
    ensures EntryOf(acc.rows, snapshot.instance, snapshot.rows[i], snapshot.version, migrate, lookup).Booking?
    ensures EntryOf(acc.rows, snapshot.instance, snapshot.rows[i], snapshot.version, migrate, lookup).via
            !in KeysOf(snapshot.rows) - {snapshot.rows[i].key}
  {
    hide EntryOf;
    EntryFacts(acc.rows, snapshot.instance, snapshot.rows[i], snapshot.version, migrate, lookup);
  }

  lemma RowSampled(snapshot: Snapshot, i: nat, acc: Acc, migrate: bool, lookup: string -> Option<User>)
    requires WellKeyed(snapshot) && i < |snapshot.rows| && Sampled(snapshot, i, acc)
    requires BookRow(acc, snapshot.rows[i], snapshot.version, migrate, lookup).Some?
    ensures Sampled(snapshot, i + 1, BookRow(acc, snapshot.rows[i], snapshot.version, migrate, lookup).value)
  {
    hide BookRow, EntryOf, KeysOf;
    KeysGrow(snapshot.rows, i);
    BookRowIs(acc, snapshot.instance, snapshot.rows[i], snapshot.version, migrate, lookup);
    ViaOutside(snapshot, i, acc, migrate, lookup);
    KeysPart(snapshot.rows, i);
  }

  lemma KeysPart(rows: seq<Sample>, i: nat)
    requires i <= |rows|
    ensures KeysOf(rows[..i]) <= KeysOf(rows)
  {
    forall k | k in KeysOf(rows[..i]) ensures k in KeysOf(rows) {
      var j :| 0 <= j < i && rows[..i][j].key == k;
      assert rows[j].key == k;
    }
  }

  lemma RowUnmoved(snapshot: Snapshot, i: nat, start: Acc, acc: Acc, migrate: bool, lookup: string -> Option<User>)
    requires i < |snapshot.rows| && Repeats(snapshot, start.rows) && Unmoved(start, acc)
    requires BookRow(acc, snapshot.rows[i], snapshot.version, migrate, lookup).Some?
    ensures Unmoved(start, BookRow(acc, snapshot.rows[i], snapshot.version, migrate, lookup).value)
  {
    hide BookRow, EntryOf, Unmoved;
    var sample := snapshot.rows[i];
    UnmovedFacts(start, acc, sample.key);
    ZeroRow(acc, snapshot.instance, sample, snapshot.version, migrate, lookup);
    var e := EntryOf(acc.rows, snapshot.instance, sample, snapshot.version, migrate, lookup);
    UnmovedRow(start, acc, BookRow(acc, sample, snapshot.version, migrate, lookup).value, sample.key, Row(sample.value, e.owner));
  }

  /** A row that repeats its baseline books nothing. */
  lemma ZeroRow(acc: Acc, instance: Instance, sample: Sample, version: int, migrate: bool,
                lookup: string -> Option<User>)
    requires BookRow(acc, sample, version, migrate, lookup).Some? && sample.key in acc.rows
             && acc.rows[sample.key].value == sample.value
    ensures var next := BookRow(acc, sample, version, migrate, lookup).value;
            var e := EntryOf(acc.rows, instance, sample, version, migrate, lookup);
            e.Booking? && next.rows == (acc.rows - {sample.key})[sample.key := Row(sample.value, e.owner)]
            && forall u :: Used(next.users, u) == Used(acc.users, u)
  {
    hide BookRow, EntryOf, Used;
    BookRowIs(acc, instance, sample, version, migrate, lookup);
    var next := BookRow(acc, sample, version, migrate, lookup).value;
    var e := EntryOf(acc.rows, instance, sample, version, migrate, lookup);
    if e.owner.Some? { SameUsed(acc.users, e.owner.value, Minus(e.to, e.from)); }
  }

  lemma SameUsed(users: map<User, Bytes>, owner: User, d: Bytes)
    requires d == ZERO
    ensures forall u :: Used(users[owner := Plus(Used(users, owner), d)], u) == Used(users, u)
  {
    var after := users[owner := Plus(Used(users, owner), d)];
    forall u ensures Used(after, u) == Used(users, u) { }
  }

  lemma UnmovedFacts(start: Acc, acc: Acc, key: Key)
    requires Unmoved(start, acc) && key in start.rows
    ensures key in acc.rows && acc.rows[key].value == start.rows[key].value
  {
  }

  lemma UnmovedRow(start: Acc, acc: Acc, next: Acc, key: Key, row: Row)
    requires Unmoved(start, acc) && key in acc.rows && row.value == acc.rows[key].value
    requires next.rows == (acc.rows - {key})[key := row] && forall u :: Used(next.users, u) == Used(acc.users, u)
    ensures Unmoved(start, next)
  {
    hide Used;
  }

  /** At most 256 keys at a time. */
  method NextBatch(keys: set<Key>) returns (batch: set<Key>, left: set<Key>)
    requires keys != {}
    ensures batch + left == keys && batch !! left && 1 <= |batch| <= 256 && (left != {} ==> |batch| == 256)
  {
    batch, left := {}, keys;
    while left != {} && |batch| < 256
      invariant batch + left == keys && batch !! left && |batch| <= 256 && (batch == {} ==> left != {})
      decreases left
    {
      var k :| k in left;
      batch, left := batch + {k}, left - {k};
    }
  }

  /** All keys that were pending, but for those still `left`, were asked about; the confirmed ones are settled. */
  ghost predicate Finalized(before: State, after: State, confirms: Key -> bool, left: set<Key>) {
    && left <= before.pending.Keys
    && var gone := set k | k in before.pending && k !in left && confirms(k);
       after == before.(rows := before.rows - gone, pending := before.pending - gone)
  }

  lemma FinalizedNone(s: State, confirms: Key -> bool)
    ensures Finalized(s, s, confirms, s.pending.Keys)
    ensures s.pending == map[] ==> Finalized(s, s, confirms, {})
  {
    assert s.rows - {} == s.rows && s.pending - {} == s.pending;
    assert (set k | k in s.pending && k !in s.pending.Keys && confirms(k)) == {};
    if s.pending == map[] { assert (set k | k in s.pending && k !in {} && confirms(k)) == {}; }
  }

  lemma FinalizedMore(before: State, s: State, confirms: Key -> bool, left: set<Key>, batch: set<Key>, rest: set<Key>)
    requires Finalized(before, s, confirms, left) && batch + rest == left && batch !! rest
    ensures var confirmed := set k | k in batch && confirms(k);
            Finalized(before, s.(rows := s.rows - confirmed, pending := s.pending - confirmed), confirms, rest)
  {
    var gone := set k | k in before.pending && k !in left && confirms(k);
    var confirmed := set k | k in batch && confirms(k);
    assert (set k | k in before.pending && k !in rest && confirms(k)) == gone + confirmed;
    assert before.rows - gone - confirmed == before.rows - (gone + confirmed);
    assert before.pending - gone - confirmed == before.pending - (gone + confirmed);
  }

  function Members(s: seq<Instance>): set<Instance> { set i | i in s }

  function Past(state: State, epochs: set<Instance>): set<Instance> { epochs + Members(state.retired) }

  ghost predicate StoreOk(users: map<User, Bytes>, state: Option<State>, epochs: set<Instance>, book: seq<Entry>) {
    && Agrees(users, book)
    && (state.None? ==> forall c: Counter :: Last(book, c).None?)
    && (state.Some? ==>
          && Baselined(state.value.instance, state.value.rows, book)
          && Elsewhere(state.value.instance, Past(state.value, epochs), book))
  }

  /** `apply_counters` on values: what is stored when it returns, and the archive of retired instances in any case. */
  method Tally(c: Core, snapshot: Snapshot, lookup: string -> Option<User>, ghost book: seq<Entry>)
    returns (r: Option<Core>, epochs: set<Instance>, ghost posted: seq<Entry>)
    requires StoreOk(c.users, c.state, c.epochs, book) && WellKeyed(snapshot)
    ensures r == After(c, snapshot, lookup)
    ensures r.None? ==> posted == book && StoreOk(c.users, c.state, epochs, book)
    ensures r.Some? ==>
      && StoreOk(r.value.users, r.value.state, epochs, posted) && epochs == r.value.epochs
      && r.value.collected == c.collected
      && book <= posted && r.value.state.Some? && r.value.state.value.instance == snapshot.instance
      && r.value.state.value.rows.Keys == KeysOf(snapshot.rows)
      && (forall i | 0 <= i < |snapshot.rows| :: snapshot.rows[i].key in r.value.state.value.rows
                                                 && r.value.state.value.rows[snapshot.rows[i].key].value == snapshot.rows[i].value)
      && Entered(snapshot, |snapshot.rows|, r.value.state.value.rows, lookup, |book|, posted)
      && Continued(snapshot, |snapshot.rows|, if Current(c.state, snapshot) then c.state.value.rows else map[],
                   c.state.None? && (c.collected || exists u | u in c.users :: c.users[u].up + c.users[u].down != 0),
                   lookup, |book|, posted)
      && (Chained(posted) <==> Chained(book) && !Recounts(book, StartOf(c.users, c.state, snapshot).rows, snapshot))
      && LeavesOthers(snapshot, book, posted)
      && (c.state.Some? && c.state.value.instance == snapshot.instance && Repeats(snapshot, c.state.value.rows) ==>
            forall u :: Used(r.value.users, u) == Used(c.users, u))
  {
    hide StoreOk, Used, WellKeyed, After, StartOf, RetiredList, Members, Migrates, BookRows, Agrees, Baselined, Elsewhere, Repeats, KeysOf,
      Entered, Chained, Recounts, Sampled, MayCount, LeavesOthers, Continued;
    var migrate := c.state.None? && (c.collected || exists u | u in c.users :: c.users[u].up + c.users[u].down != 0);
    MigratesIs(c.users, c.state, c.collected);
    AfterIs(c, snapshot, lookup);
    epochs, posted := c.epochs, book;
    if c.state.Some? && !MayCount(c.state.value, c.epochs, snapshot) { return None, epochs, posted; }
    var start, retired := StartOf(c.users, c.state, snapshot), RetiredList(c.state, snapshot);
    Turnover(c.users, c.state, c.epochs, snapshot, book);
    StartRows(c.users, c.state, snapshot);
    if snapshot.version == 2 {
      epochs := epochs + Members(retired);
    }
    Widened(c.users, c.state, c.epochs, epochs, book);
    ghost var more;
    var booked;
    booked, more := BookAll(snapshot, start, migrate, lookup, c.epochs + Members(retired), book);
    if booked.None? { return None, epochs, posted; }
    var acc := booked.value;
    SampledKeys(snapshot, acc);
    if !(acc.rows.Keys <= acc.seen) { return None, epochs, posted; }
    var kept := if snapshot.version == 2 then [] else retired;
    posted := more;
    NoMembers();
    NowOk(acc.users, State(snapshot.instance, acc.rows, kept, acc.pending), epochs, c.epochs + Members(retired), posted);
    r := Some(Core(acc.users, Some(State(snapshot.instance, acc.rows, kept, acc.pending)), c.collected, epochs));
  }

  lemma NoMembers()
    ensures Members([]) == {}
  {
  }

  // ---------------------------------------------------------------- counters without a baseline

  /** The books of an instance: its baselines, and the last value of every counter that has lost its baseline. */
  ghost predicate Followed(instance: Instance, rows: map<Key, Row>, gone: map<Key, Bytes>, book: seq<Entry>) {
    forall k :: Last(book, Counter(instance, k))
                == if k in rows then Some(rows[k].value) else if k in gone then Some(gone[k]) else None
  }

  /** The counters an instance has lost once only `kept` keys are left, with their values in `rows` or before. */
  function Lost(rows: map<Key, Row>, gone: map<Key, Bytes>, kept: set<Key>): map<Key, Bytes> {
    map k | k in rows.Keys + gone.Keys && k !in kept :: if k in rows then rows[k].value else gone[k]
  }

  /** Some row shows a counter that lost its baseline above zero, or one beside an id-less baseline. */
  predicate ShowsGone(gone: map<Key, Bytes>, rows: map<Key, Row>, snapshot: Snapshot) {
    exists i | 0 <= i < |snapshot.rows| ::
      && snapshot.rows[i].key in gone && snapshot.rows[i].key !in rows
      && (gone[snapshot.rows[i].key] != ZERO || (snapshot.version == 2 && snapshot.rows[i].legacy in rows))
  }

  lemma FollowedRecounts(rows: map<Key, Row>, gone: map<Key, Bytes>, book: seq<Entry>, snapshot: Snapshot)
    requires Followed(snapshot.instance, rows, gone, book)
    ensures Recounts(book, rows, snapshot) <==> ShowsGone(gone, rows, snapshot)
  {
    hide Last;
  }

  /** After a snapshot of the same instance. */
  lemma FollowedOn(rows: map<Key, Row>, gone: map<Key, Bytes>, book: seq<Entry>, snapshot: Snapshot,
                   next: map<Key, Row>, posted: seq<Entry>)
    requires Followed(snapshot.instance, rows, gone, book) && LeavesOthers(snapshot, book, posted)
    requires Baselined(snapshot.instance, next, posted) && next.Keys == KeysOf(snapshot.rows)
    ensures Followed(snapshot.instance, next, Lost(rows, gone, next.Keys), posted)
  {
    hide Last, KeysOf;
  }

  /** After confirmed counters have left the baselines. */
  lemma FollowedLess(instance: Instance, rows: map<Key, Row>, gone: map<Key, Bytes>, book: seq<Entry>,
                     confirmed: set<Key>)
    requires Followed(instance, rows, gone, book)
    ensures Followed(instance, rows - confirmed, Lost(rows, gone, rows.Keys - confirmed), book)
  {
    hide Last;
  }

  lemma LostNothing(kept: set<Key>)
    ensures Lost(map[], map[], kept) == map[]
  {
  }

  predicate Current(state: Option<State>, snapshot: Snapshot) {
    state.Some? && state.value.instance == snapshot.instance
  }

  /** The instance was never counted before. */
  predicate Unheard(state: Option<State>, epochs: set<Instance>, snapshot: Snapshot) {
    state.Some? ==> snapshot.instance != state.value.instance && snapshot.instance !in Past(state.value, epochs)
  }

  lemma FollowedReset(instance: Instance, rows: map<Key, Row>, gone: map<Key, Bytes>, book: seq<Entry>, u: User)
    requires Followed(instance, rows, gone, book)
    ensures Followed(instance, rows, gone, book + [Reset(u)])
  {
    hide Last;
    forall k ensures Last(book + [Reset(u)], Counter(instance, k)) == Last(book, Counter(instance, k)) {
      LastMore(book, Reset(u), Counter(instance, k));
    }
  }

  lemma NowBaselined(users: map<User, Bytes>, state: State, epochs: set<Instance>, book: seq<Entry>)
    requires StoreOk(users, Some(state), epochs, book)
    ensures Baselined(state.instance, state.rows, book)
  {
  }

  /** An instance that is neither the current one nor past has nothing in the books. */
  lemma NothingBooked(users: map<User, Bytes>, state: Option<State>, epochs: set<Instance>, book: seq<Entry>,
                      instance: Instance)
    requires StoreOk(users, state, epochs, book)
    requires state.Some? ==> instance != state.value.instance && instance !in Past(state.value, epochs)
    ensures Followed(instance, map[], map[], book)
  {
    hide Agrees, Baselined;
    forall k ensures Last(book, Counter(instance, k)).None? { }
  }

  class Store {
    var users: map<User, Bytes>
    var state: Option<State>
    var collected: bool                // a sample was taken before the native counters were read
    var epochs: set<Instance>          // instances retired for good, in the archive
    ghost var book: seq<Entry>
    ghost var known: bool              // nothing was booked for the current instance before it became current
    ghost var gone: map<Key, Bytes>    // its counters that were settled or handed over, with their last values

    ghost predicate Valid()
      reads this
    {
      && StoreOk(users, state, epochs, book)
      && (known && state.Some? ==> Followed(state.value.instance, state.value.rows, gone, book))
    }

    constructor (users: map<User, Bytes>, collected: bool)
      ensures Valid() && Chained(book) && this.collected == collected && this.users == users && state.None?
              && epochs == {}
    {
      this.users, this.collected, state, epochs, book, known, gone := users, collected, None, {}, [], false, map[];
      new;
      ghost var left := users.Keys;
      while left != {}
        invariant this.users == users && this.collected == collected && state.None? && epochs == {}
                  && left <= users.Keys && Chained(book)
        invariant forall u :: Total(book, u) == if u in users && u !in left then users[u] else ZERO
        invariant forall c: Counter :: Last(book, c).None?
      {
        ghost var u :| u in left;
        ghost var e := Opening(u, users[u]);
        BookMore(book, e);
        forall v ensures Total(book + [e], v) == Posted(Total(book, v), e, v) { TotalMore(book, e, v); }
        forall c: Counter ensures Last(book + [e], c).None? { LastMore(book, e, c); }
        book := book + [e];
        left := left - {u};
      }
    }

    ghost function Held(): Core
      reads this
    {
      Core(users, state, collected, epochs)
    }

    /** No native snapshot was counted yet, but traffic was. */
    ghost predicate FirstOfAnOldStore()
      reads this
    {
      state.None? && (collected || exists u | u in users :: users[u].up + users[u].down != 0)
    }

    /**
     `apply_counters`. An accepted snapshot becomes the baseline map exactly, and each counter's increment since
     its last observed value is booked to its owner; a rejected one changes no total and no baseline. Every byte is
     still booked once exactly when no row is counted again.
     */
    method Apply(snapshot: Snapshot, lookup: string -> Option<User>) returns (ok: bool)
      requires Valid() && WellKeyed(snapshot)
      modifies this
      ensures Valid()
      ensures ok <==> After(old(Held()), snapshot, lookup).Some?
      ensures ok ==> Held() == After(old(Held()), snapshot, lookup).value
      ensures !ok ==> users == old(users) && state == old(state) && book == old(book)
      ensures ok ==> state.Some? && state.value.instance == snapshot.instance && old(book) <= book
      ensures ok ==> state.value.rows.Keys == KeysOf(snapshot.rows)
      ensures ok ==> forall i | 0 <= i < |snapshot.rows| ::
                state.value.rows[snapshot.rows[i].key].value == snapshot.rows[i].value
      ensures ok ==> Entered(snapshot, |snapshot.rows|, state.value.rows, lookup, |old(book)|, book)
      ensures ok ==> Continued(snapshot, |snapshot.rows|,
                               if Current(old(state), snapshot) then old(state).value.rows else map[],
                               old(FirstOfAnOldStore()), lookup, |old(book)|, book)
      ensures ok ==> forall i | 0 <= i < |snapshot.rows| :: Counter64(snapshot.rows[i].value)
      ensures ok ==> forall i, j | 0 <= i < j < |snapshot.rows| :: snapshot.rows[i].key != snapshot.rows[j].key
      ensures ok && snapshot.version == 2 ==> forall i | 0 <= i < |snapshot.rows| ::
                Lookup(state.value.pending, snapshot.rows[i].key)
                == if snapshot.rows[i].retirable then Some(snapshot.rows[i].value) else None
      ensures ok && old(state).Some? && snapshot.instance != old(state).value.instance ==>
                snapshot.instance !in old(state).value.retired
                && (snapshot.version == 2 ==> snapshot.instance !in old(epochs))
      ensures ok && old(FirstOfAnOldStore()) ==> forall u :: Used(users, u) == Used(old(users), u)
      ensures ok ==> (Chained(book) <==> Chained(old(book))
                                         && !Recounts(old(book), StartOf(old(users), old(state), snapshot).rows, snapshot))
      ensures ok && old(state).Some? && old(state).value.instance == snapshot.instance
              && Repeats(snapshot, old(state).value.rows)
              ==> forall u :: Used(users, u) == Used(old(users), u)
      ensures ok ==> (known <==> if Current(old(state), snapshot) then old(known) else Unheard(old(state), old(epochs), snapshot))
      ensures ok && known ==> gone == if Current(old(state), snapshot)
                                      then Lost(old(state).value.rows, old(gone), state.value.rows.Keys) else map[]
      ensures !ok ==> known == old(known) && gone == old(gone)
    {
      hide StoreOk, After, WellKeyed, Used, Recounts, Chained, Entered, Repeats, KeysOf, StartOf, Followed,
           LeavesOthers, Lost, Past, Continued;
      var r, archived, posted := Tally(Core(users, state, collected, epochs), snapshot, lookup, book);
      if r.Some? {
        ghost var next := r.value.state.value;
        AcceptedFacts(Core(users, state, collected, epochs), snapshot, lookup);
        if FirstOfAnOldStore() {
          StoreAgrees(users, state, epochs, book);
          StoreAgrees(r.value.users, r.value.state, archived, posted);
          MigrationAddsNothing(snapshot, lookup, users, r.value.users, book, posted);
        }
        NowBaselined(r.value.users, next, archived, posted);
        if Current(state, snapshot) {
          if known { FollowedOn(state.value.rows, gone, book, snapshot, next.rows, posted); }
          gone := Lost(state.value.rows, gone, next.rows.Keys);
        } else {
          known := Unheard(state, epochs, snapshot);
          if known {
            NothingBooked(users, state, epochs, book, snapshot.instance);
            FollowedOn(map[], map[], book, snapshot, next.rows, posted);
            LostNothing(next.rows.Keys);
          }
          gone := map[];
        }
      }
      epochs := archived;
      if r.None? { return false; }
      users, state, book := r.value.users, r.value.state, posted;
      ok := true;
    }

    /**
     Of an instance that came up new, a snapshot counts a byte again exactly when it shows a counter that was settled
     or handed over above zero, or one beside an id-less baseline.
     */
    lemma CurrentInstanceRecounts(snapshot: Snapshot)
      requires Valid() && known && Current(state, snapshot)
      ensures Recounts(book, StartOf(users, state, snapshot).rows, snapshot) <==>
                ShowsGone(gone, state.value.rows, snapshot)
    {
      hide Followed, Recounts, ShowsGone, StoreOk;
      FollowedRecounts(state.value.rows, gone, book, snapshot);
    }

    /** While every byte is booked once, what was booked for a counter is its baseline minus where it started. */
    lemma CountersTelescope(k: Key)
      requires Valid() && Chained(book) && state.Some? && k in state.value.rows
      ensures var c := Counter(state.value.instance, k);
              Start(book, c).Some? && Booked(book, c) == Minus(state.value.rows[k].value, Start(book, c).value)
    {
      Telescopes(book, Counter(state.value.instance, k));
    }

    /** A snapshot of a new instance counts nothing again, whatever the retired ones had. */
    lemma NewInstancesAreClean(snapshot: Snapshot)
      requires Valid() && !Current(state, snapshot) && Unheard(state, epochs, snapshot)
      ensures !Recounts(book, StartOf(users, state, snapshot).rows, snapshot)
    {
      hide Agrees, Baselined;
      forall k ensures Last(book, Counter(snapshot.instance, k)).None? { }
    }

    /** Whether the process stops here; in calm weather it does not. */
    static method Dies(calm: bool) returns (dies: bool)
      ensures dies ==> !calm
    {
      dies := *;
      dies := dies && !calm;
    }

    /**
     `finalize_retirements`: each confirmed batch leaves the baselines and the pending list together and is written
     before the next one; a confirmed counter is settled for good. No total changes.
     */
    method Finalize(instance: Instance, confirms: Key -> bool, calm: bool) returns (crashed: bool)
      requires Valid()
      modifies `state, `gone
      ensures Valid()
      ensures state.None? <==> old(state).None?
      ensures calm || state.None? ==> !crashed
      ensures state.Some? && state.value.instance != instance ==> state == old(state)
      ensures state.Some? ==> exists left :: Finalized(old(state).value, state.value, confirms, left)
      ensures !crashed && state.Some? && state.value.instance == instance ==>
                Finalized(old(state).value, state.value, confirms, {})
    {
      hide Finalized, Agrees, Baselined, Elsewhere, Followed, Lost;
      if state.None? { return false; }
      ghost var s0 := state.value;
      FinalizedNone(s0, confirms);
      if state.value.pending == map[] || state.value.instance != instance { return false; }
      var left := state.value.pending.Keys;
      while left != {}
        invariant state.Some? && state.value.instance == instance && Valid()
        invariant Finalized(s0, state.value, confirms, left)
      {
        var batch;
        ghost var s, before := state.value, left;
        batch, left := NextBatch(left);
        var confirmed := set k | k in batch && confirms(k);
        Confirmed(state.value.instance, state.value.rows, confirmed, book);
        if known { FollowedLess(state.value.instance, state.value.rows, gone, book, confirmed); }
        gone := Lost(state.value.rows, gone, state.value.rows.Keys - confirmed);
        state := Some(state.value.(rows := state.value.rows - confirmed, pending := state.value.pending - confirmed));
        FinalizedMore(s0, s, confirms, before, batch, left);
        var dies := Dies(calm);
        if dies { return true; }
      }
      crashed := false;
    }

    /** `reset_user_traffic`: the user starts again at zero, and the baselines stay. */
    method ResetUser(u: User)
      requires Valid()
      modifies `users, `book
      ensures Valid() && users == old(users)[u := ZERO] && book == old(book) + [Reset(u)]
      ensures Chained(book) <==> Chained(old(book))
    {
      hide Baselined, Elsewhere, Followed;
      ghost var e := Reset(u);
      BookMore(book, e);
      forall v ensures Total(book + [e], v) == Posted(Total(book, v), e, v) { TotalMore(book, e, v); }
      ResetKeeps(state, epochs, book, u);
      if known && state.Some? { FollowedReset(state.value.instance, state.value.rows, gone, book, u); }
      users, book := users[u := ZERO], book + [e];
    }
  }

  /** Before the first row: the old instance has become past. */
  /** No row of a booked snapshot is out of range, and none is repeated. */
  lemma {:induction false} BookedFacts(start: Acc, rows: seq<Sample>, version: int, migrate: bool,
                                       lookup: string -> Option<User>)
    requires BookRows(start, rows, version, migrate, lookup).Some?
    ensures forall i | 0 <= i < |rows| :: Counter64(rows[i].value)
    ensures forall i, j | 0 <= i < j < |rows| :: rows[i].key != rows[j].key
    ensures forall i | 0 <= i < |rows| :: rows[i].key in BookRows(start, rows, version, migrate, lookup).value.seen
    ensures version == 2 ==> forall i | 0 <= i < |rows| ::
              Lookup(BookRows(start, rows, version, migrate, lookup).value.pending, rows[i].key)
              == if rows[i].retirable then Some(rows[i].value) else None
    ensures version != 2 ==> BookRows(start, rows, version, migrate, lookup).value.pending == start.pending
  {
    if rows != [] {
      var init, last := rows[..|rows| - 1], rows[|rows| - 1];
      BookedFacts(start, init, version, migrate, lookup);
      var before := BookRows(start, init, version, migrate, lookup).value;
      RowFacts(before, last, version, migrate, lookup);
      assert forall i | 0 <= i < |init| :: rows[i] == init[i];
    }
  }

  lemma RowFacts(acc: Acc, sample: Sample, version: int, migrate: bool, lookup: string -> Option<User>)
    requires BookRow(acc, sample, version, migrate, lookup).Some?
    ensures Counter64(sample.value) && sample.key !in acc.seen
    ensures BookRow(acc, sample, version, migrate, lookup).value.seen == acc.seen + {sample.key}
    ensures version != 2 ==> BookRow(acc, sample, version, migrate, lookup).value.pending == acc.pending
    ensures version == 2 ==> forall k :: Lookup(BookRow(acc, sample, version, migrate, lookup).value.pending, k)
                                         == if k != sample.key then Lookup(acc.pending, k)
                                            else if sample.retirable then Some(sample.value) else None
  {
  }

  ghost function Lookup(pending: map<Key, Bytes>, k: Key): Option<Bytes> {
    if k in pending then Some(pending[k]) else None
  }

  lemma AcceptedFacts(c: Core, snapshot: Snapshot, lookup: string -> Option<User>)
    requires After(c, snapshot, lookup).Some?
    ensures forall i | 0 <= i < |snapshot.rows| :: Counter64(snapshot.rows[i].value)
    ensures forall i, j | 0 <= i < j < |snapshot.rows| :: snapshot.rows[i].key != snapshot.rows[j].key
    ensures snapshot.version == 2 ==> forall i | 0 <= i < |snapshot.rows| ::
              Lookup(After(c, snapshot, lookup).value.state.value.pending, snapshot.rows[i].key)
              == if snapshot.rows[i].retirable then Some(snapshot.rows[i].value) else None
    ensures c.state.Some? && snapshot.instance != c.state.value.instance ==>
              snapshot.instance !in c.state.value.retired && (snapshot.version == 2 ==> snapshot.instance !in c.epochs)
  {
    hide BookRows;
    BookedFacts(StartOf(c.users, c.state, snapshot), snapshot.rows, snapshot.version,
                Migrates(c.users, c.state, c.collected), lookup);
  }

  lemma StoreAgrees(users: map<User, Bytes>, state: Option<State>, epochs: set<Instance>, book: seq<Entry>)
    requires StoreOk(users, state, epochs, book)
    ensures Agrees(users, book)
  {
  }

  lemma StartRows(users: map<User, Bytes>, state: Option<State>, snapshot: Snapshot)
    ensures StartOf(users, state, snapshot).rows == if Current(state, snapshot) then state.value.rows else map[]
  {
  }

  lemma Turnover(users: map<User, Bytes>, state: Option<State>, epochs: set<Instance>, snapshot: Snapshot,
                 book: seq<Entry>)
    requires StoreOk(users, state, epochs, book)
    ensures Agrees(users, book) && (state.None? ==> forall c: Counter :: Last(book, c).None?)
    ensures var start := StartOf(users, state, snapshot);
            && start.seen == {} && start.users == users && Baselined(snapshot.instance, start.rows, book)
            && (state.Some? && state.value.instance == snapshot.instance ==> start.rows == state.value.rows)
            && Elsewhere(snapshot.instance, epochs + Members(RetiredList(state, snapshot)), book)
  {
    hide Agrees;
    if state.Some? && state.value.instance != snapshot.instance {
      var retired := state.value.retired + [state.value.instance];
      assert state.value.instance in retired && forall i | i in state.value.retired :: i in retired;
    }
  }

  lemma NowOk(users: map<User, Bytes>, state: State, epochs: set<Instance>, past: set<Instance>, book: seq<Entry>)
    requires Agrees(users, book) && Baselined(state.instance, state.rows, book) && Elsewhere(state.instance, past, book)
    requires past == epochs + Members(state.retired)
    ensures StoreOk(users, Some(state), epochs, book)
  {
  }

  lemma MigratesIs(users: map<User, Bytes>, state: Option<State>, collected: bool)
    ensures Migrates(users, state, collected) <==>
              state.None? && (collected || exists u | u in users :: users[u].up + users[u].down != 0)
  {
  }

  lemma AfterIs(c: Core, snapshot: Snapshot, lookup: string -> Option<User>)
    ensures var booked := BookRows(StartOf(c.users, c.state, snapshot), snapshot.rows, snapshot.version,
                            Migrates(c.users, c.state, c.collected), lookup);
            var retired := RetiredList(c.state, snapshot);
            var archived := snapshot.version == 2;
            After(c, snapshot, lookup)
            == if (c.state.Some? && !MayCount(c.state.value, c.epochs, snapshot)) || booked.None?
                  || !(booked.value.rows.Keys <= booked.value.seen) then None
               else Some(Core(booked.value.users, Some(State(snapshot.instance, booked.value.rows,
                                    if archived then [] else retired, booked.value.pending)),
                              c.collected, if archived then c.epochs + Members(retired) else c.epochs))
  {
    hide BookRows;
  }

  lemma SampledKeys(snapshot: Snapshot, acc: Acc)
    requires Sampled(snapshot, |snapshot.rows|, acc)
    ensures acc.rows.Keys <= acc.seen ==> acc.rows.Keys == KeysOf(snapshot.rows)
    ensures forall i | 0 <= i < |snapshot.rows| ::
              snapshot.rows[i].key in acc.rows && acc.rows[snapshot.rows[i].key].value == snapshot.rows[i].value
  {
    assert snapshot.rows[..|snapshot.rows|] == snapshot.rows;
  }

  lemma Widened(users: map<User, Bytes>, state: Option<State>, epochs: set<Instance>, more: set<Instance>,
                book: seq<Entry>)
    requires epochs <= more && StoreOk(users, state, epochs, book)
    ensures StoreOk(users, state, more, book)
  {
    hide Agrees, Baselined;
  }

  lemma KeysGrow(rows: seq<Sample>, i: nat)
    requires i < |rows|
    ensures KeysOf(rows[..i + 1]) == KeysOf(rows[..i]) + {rows[i].key} && rows[i].key in KeysOf(rows)
    ensures forall k | 0 <= k < i :: rows[k].key in KeysOf(rows[..i])
  {
    var more, less := rows[..i + 1], rows[..i];
    forall k | k in KeysOf(more) ensures k in KeysOf(less) + {rows[i].key} {
      var j :| 0 <= j < |more| && more[j].key == k;
      if j < i { assert less[j].key == k; }
    }
    forall k | k in KeysOf(less) ensures k in KeysOf(more) {
      var j :| 0 <= j < |less| && less[j].key == k;
      assert more[j].key == k;
    }
    assert more[i].key == rows[i].key;
    forall k | 0 <= k < i ensures rows[k].key in KeysOf(less) { assert less[k].key == rows[k].key; }
  }

  lemma Confirmed(instance: Instance, rows: map<Key, Row>, confirmed: set<Key>, book: seq<Entry>)
    requires Baselined(instance, rows, book)
    ensures Baselined(instance, rows - confirmed, book)
  {
  }

  lemma ResetKeeps(state: Option<State>, epochs: set<Instance>, book: seq<Entry>, u: User)
    ensures forall c: Counter :: Last(book + [Reset(u)], c) == Last(book, c)
    ensures state.Some? && Baselined(state.value.instance, state.value.rows, book)
        ==> Baselined(state.value.instance, state.value.rows, book + [Reset(u)])
    ensures state.Some? && Elsewhere(state.value.instance, Past(state.value, epochs), book)
        ==> Elsewhere(state.value.instance, Past(state.value, epochs), book + [Reset(u)])
  {
    forall c: Counter ensures Last(book + [Reset(u)], c) == Last(book, c) { LastMore(book, Reset(u), c); }
  }

  /** After a reset a user's total is what was booked later, and nothing from before. */
  lemma {:induction false} ResetForgets(book: seq<Entry>, later: seq<Entry>, u: User)
    ensures Total(book + [Reset(u)] + later, u) == Total(later, u)
  {
    var all := book + [Reset(u)] + later;
    if later == [] {
      assert all == book + [Reset(u)];
      TotalMore(book, Reset(u), u);
    } else {
      var n := |later| - 1;
      assert all[..|all| - 1] == book + [Reset(u)] + later[..n];
      ResetForgets(book, later[..n], u);
    }
  }
}
