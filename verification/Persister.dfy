/** The durable copy of a node's term, vote and log (persister.cpp), over an abstract key-value
    store whose batch writes are atomic. */
module Durable {
  import opened Wrappers
  import opened Messages

  /** `Index(i)` stands for the key std::to_string(i). */
  datatype Key = FirstIndex | LastIndex | StateKey | Index(i: nat)

  datatype Value = Number(n: nat) | State(term: nat, vote: Option<nat>) | Entry(entry: LogEntry)

  type Disk = map<Key, Value>

  function PutState(d: Disk, term: nat, vote: Option<nat>): Disk {
    d[StateKey := State(term, vote)]
  }

  function PutEntry(d: Disk, e: LogEntry): Disk {
    d + map[Index(e.index) := Entry(e), LastIndex := Number(e.index)]
  }

  function EntryRecords(es: seq<LogEntry>): map<Key, Value> {
    if es == [] then map[]
    else EntryRecords(es[..|es| - 1])[Index(es[|es| - 1].index) := Entry(es[|es| - 1])]
  }

  function PutBatch(d: Disk, es: seq<LogEntry>): Disk
    requires es != []
  {
    d + EntryRecords(es)[LastIndex := Number(es[|es| - 1].index)]
  }

  function PersistedTerm(d: Disk): nat {
    if StateKey in d && d[StateKey].State? then d[StateKey].term else 0
  }

  function PersistedVote(d: Disk): Option<nat> {
    if StateKey in d && d[StateKey].State? then d[StateKey].vote else None
  }

  /** Nothing has been started on this store yet. */
  predicate IsNew(d: Disk) {
    FirstIndex !in d && LastIndex !in d
  }

  /** What a restart reads back. */
  function Recovered(d: Disk): Result<seq<LogEntry>> {
    if IsNew(d) then Ok([])
    else if FirstIndex !in d || LastIndex !in d then Err(InvalidLogIndex)
    else if !d[FirstIndex].Number? || !d[LastIndex].Number? then Err(LogIndexToUllFailed)
    else
      var first, last := d[FirstIndex].n, d[LastIndex].n;
      if first == 0 || (last != 0 && first > last) then Err(InvalidLogIndex)
      else if last == 0 then Ok([])
      else if exists i :: first <= i <= last && Index(i) !in d then Err(LogEntriesRecoverFailed)
      else if exists i :: first <= i <= last && !d[Index(i)].Entry? then Err(LogEntryParseFailed)
      else Ok(seq(last - first + 1, j requires 0 <= j <= last - first => d[Index(first + j)].entry))
  }

  /** The store once recovery has run: it writes the two index keys where they are missing. */
  function Opened(d: Disk): Disk {
    if IsNew(d) then d[FirstIndex := Number(1)][LastIndex := Number(0)]
    else if FirstIndex in d && LastIndex in d && d[FirstIndex].Number? && d[LastIndex].Number?
            && d[FirstIndex].n != 0 && d[LastIndex].n == 0 then d[FirstIndex := Number(1)]
    else d
  }

  /** How the store answers while a node starts: whether the index keys and the state can be read, which
      entries cannot, and whether the index keys can be written. */
  datatype Health = Health(keysRead: bool, unread: set<nat>, written: bool, stateRead: bool)

  /** The store without the entries that cannot be read. */
  function Seen(d: Disk, h: Health): Disk {
    d - set i | i in h.unread :: Index(i)
  }

  function RecoveredUnder(d: Disk, h: Health): Result<seq<LogEntry>> {
    if !h.keysRead then Err(InvalidLogIndex)
    else if IsNew(d) && !h.written then Err(LogEntriesPersistFailed)
    else Recovered(Seen(d, h))
  }

  function OpenedUnder(d: Disk, h: Health): Disk {
    if h.keysRead && h.written then Opened(d) else d
  }

  /** The state record reads back as it was written, and is all that such a write changes. */
  lemma StateReadsBack(d: Disk, term: nat, vote: Option<nat>)
    ensures PersistedTerm(PutState(d, term, vote)) == term && PersistedVote(PutState(d, term, vote)) == vote
    ensures PutState(d, term, vote) - {StateKey} == d - {StateKey}
  {}

  /** A batch replaces the records of its entries and the last index, and nothing else. */
  lemma BatchWrites(d: Disk, es: seq<LogEntry>, first: nat)
    requires es != [] && Contiguous(es, first)
    ensures
      var d' := PutBatch(d, es);
      && LastIndex in d' && d'[LastIndex] == Number(first + |es| - 1)
      && (forall j :: 0 <= j < |es| ==> Index(first + j) in d' && d'[Index(first + j)] == Entry(es[j]))
      && forall k :: k != LastIndex && !(k.Index? && first <= k.i < first + |es|) ==>
           (k in d' <==> k in d) && (k in d ==> d'[k] == d[k])
  {
    RecordsKeyed(es);
    RecordsContiguous(es, first);
  }

  /** The log lies on the disk: the empty one if the disk is new or the last index is 0, otherwise the entries
      under all the keys from the first index to the last, which are there and are entries. */
  ghost predicate LiesOn(log: seq<LogEntry>, d: Disk) {
    if FirstIndex !in d && LastIndex !in d then log == []
    else
      && FirstIndex in d && LastIndex in d && d[FirstIndex].Number? && d[LastIndex].Number? && d[FirstIndex].n >= 1
      && if d[LastIndex].n == 0 then log == []
         else && d[FirstIndex].n <= d[LastIndex].n && |log| == d[LastIndex].n - d[FirstIndex].n + 1
              && forall i :: d[FirstIndex].n <= i <= d[LastIndex].n ==>
                   Index(i) in d && d[Index(i)] == Entry(log[i - d[FirstIndex].n])
  }

  lemma LiesOnce(x: seq<LogEntry>, y: seq<LogEntry>, d: Disk)
    requires LiesOn(x, d) && LiesOn(y, d)
    ensures x == y
  {
    if FirstIndex in d && d[LastIndex].n != 0 {
      var first := d[FirstIndex].n;
      forall j | 0 <= j < |x| ensures x[j] == y[j] {
        assert Index(first + j) in d && d[Index(first + j)] == Entry(x[first + j - first]);
      }
    }
  }

  lemma RecoveredLies(d: Disk)
    ensures Recovered(d).Ok? ==> LiesOn(Recovered(d).value, d)
  {}

  lemma LyingRecovers(d: Disk, log: seq<LogEntry>)
    requires LiesOn(log, d)
    ensures Recovered(d).Ok?
  {
    if FirstIndex in d && d[LastIndex].n != 0 {
      assert forall i :: d[FirstIndex].n <= i <= d[LastIndex].n ==> Index(i) in d && d[Index(i)].Entry?;
    }
  }

  /** A log is recovered if and only if it lies on the disk. */
  lemma RecoversIff(d: Disk, log: seq<LogEntry>)
    ensures Recovered(d) == Ok(log) <==> LiesOn(log, d)
  {
    RecoveredLies(d);
    if LiesOn(log, d) {
      LyingRecovers(d, log);
      LiesOnce(log, Recovered(d).value, d);
    }
  }

  /** Why recovery fails: one index key without the other or a bad range, an index that is no number, a missing
      entry before one that does not parse. */
  lemma RecoveryErrors(d: Disk)
    requires Recovered(d).Err?
    ensures
      var e := Recovered(d).error;
      && (e == LogIndexToUllFailed <==>
            FirstIndex in d && LastIndex in d && !(d[FirstIndex].Number? && d[LastIndex].Number?))
      && (e == LogEntriesRecoverFailed || e == LogEntryParseFailed ==>
            && FirstIndex in d && LastIndex in d && d[FirstIndex].Number? && d[LastIndex].Number?
            && 1 <= d[FirstIndex].n <= d[LastIndex].n)
      && (e == LogEntriesRecoverFailed ==> exists i :: d[FirstIndex].n <= i <= d[LastIndex].n && Index(i) !in d)
      && (e == LogEntryParseFailed ==>
            (forall i :: d[FirstIndex].n <= i <= d[LastIndex].n ==> Index(i) in d)
            && exists i :: d[FirstIndex].n <= i <= d[LastIndex].n && !d[Index(i)].Entry?)
      && e in {InvalidLogIndex, LogIndexToUllFailed, LogEntriesRecoverFailed, LogEntryParseFailed}
  {}

  /** Opening a store that recovers leaves the log and the state as they are, and opening it again changes
      nothing; a new store then has an empty log from index 1 on. */
  lemma OpenedAgain(d: Disk)
    requires Recovered(d).Ok?
    ensures Recovered(Opened(d)) == Recovered(d) && Opened(Opened(d)) == Opened(d)
    ensures forall k :: k != FirstIndex && k != LastIndex ==>
      (k in Opened(d) <==> k in d) && (k in d ==> Opened(d)[k] == d[k])
    ensures
      Recovered(d).value == [] ==>
        && FirstIndex in Opened(d) && Opened(d)[FirstIndex] == Number(1)
        && LastIndex in Opened(d) && Opened(d)[LastIndex] == Number(0)
  {
    RecoversIff(d, Recovered(d).value);
    RecoversIff(Opened(d), Recovered(d).value);
  }

  /** Whatever fails on the way, a log that is recovered is the one on the disk. */
  lemma RecoveredIsWhole(d: Disk, h: Health)
    requires RecoveredUnder(d, h).Ok?
    ensures Recovered(d) == RecoveredUnder(d, h)
  {
    var seen := Seen(d, h);
    assert forall i :: Index(i) in seen ==> Index(i) in d && seen[Index(i)] == d[Index(i)];
    assert forall k: Key :: !k.Index? ==> (k in seen <==> k in d);
    if !IsNew(d) && d[LastIndex].n != 0 {
      var first, last := d[FirstIndex].n, d[LastIndex].n;
      assert forall i :: first <= i <= last ==> Index(i) in seen && seen[Index(i)].Entry?;
      assert Recovered(d).value == Recovered(seen).value;
    }
  }

  /** Recovery under failures: it succeeds if and only if the index keys can be read, on a new disk also
      written, the log lies on the disk, and all its entries can be read; and what it reports otherwise. */
  lemma RecoversUnderIff(d: Disk, h: Health)
    requires Recovered(d).Ok?
    ensures
      RecoveredUnder(d, h).Ok?
      <==> && h.keysRead && (h.written || FirstIndex in d || LastIndex in d)
           && (FirstIndex in d ==> forall i :: d[FirstIndex].n <= i <= d[LastIndex].n ==> i !in h.unread)
    ensures !h.keysRead ==> RecoveredUnder(d, h) == Err(InvalidLogIndex)
    ensures h.keysRead && FirstIndex !in d && !h.written ==> RecoveredUnder(d, h) == Err(LogEntriesPersistFailed)
    ensures h.keysRead && FirstIndex in d && (exists i :: d[FirstIndex].n <= i <= d[LastIndex].n && i in h.unread) ==>
      RecoveredUnder(d, h) == Err(LogEntriesRecoverFailed)
  {
    var seen := Seen(d, h);
    if h.keysRead && FirstIndex in d {
      var first, last := d[FirstIndex].n, d[LastIndex].n;
      assert forall i :: first <= i <= last ==> Index(i) in d;
      assert forall i :: first <= i <= last ==> (Index(i) in seen <==> i !in h.unread);
      if last != 0 && forall i :: first <= i <= last ==> i !in h.unread {
        assert forall i :: first <= i <= last ==> Index(i) in seen && seen[Index(i)] == d[Index(i)];
      }
    }
  }

  /** A node starts on this store: its log and its state can be read back. */
  predicate Opens(d: Disk) {
    Recovered(d).Ok? && (StateKey in d ==> d[StateKey].State?)
  }

  /** What every store written by this module satisfies: each entry sits under its own index. */
  ghost predicate DiskOk(d: Disk) {
    && FirstIndex in d && d[FirstIndex] == Number(1)
    && LastIndex in d && d[LastIndex].Number?
    && (forall i :: Index(i) in d ==> d[Index(i)].Entry? && d[Index(i)].entry.index == i)
    && (StateKey in d ==> d[StateKey].State?)
  }

  lemma {:induction false} RecordsKeyed(es: seq<LogEntry>)
    ensures
      var records := EntryRecords(es);
      forall k :: k in records ==> k.Index? && records[k].Entry? && records[k].entry.index == k.i
  {
    if es == [] {
    } else {
      RecordsKeyed(es[..|es| - 1]);
    }
  }

  lemma {:induction false} RecordsContiguous(es: seq<LogEntry>, first: nat)
    requires Contiguous(es, first)
    ensures forall i: nat :: Index(i) in EntryRecords(es) <==> first <= i < first + |es|
    ensures forall j :: 0 <= j < |es| ==> EntryRecords(es)[Index(first + j)] == Entry(es[j])
  {
    if es == [] {
    } else {
      RecordsContiguous(es[..|es| - 1], first);
    }
  }

  lemma WritesKeepDiskOk(d: Disk, es: seq<LogEntry>, term: nat, vote: Option<nat>)
    requires DiskOk(d)
    ensures DiskOk(PutState(d, term, vote))
    ensures es != [] ==> DiskOk(PutBatch(d, es)) && DiskOk(PutEntry(d, es[0]))
  {
    RecordsKeyed(es);
  }

  /** One entry or a batch of one: the two write paths leave the same store. */
  lemma PutEntryIsBatch(d: Disk, e: LogEntry)
    ensures PutEntry(d, e) == PutBatch(d, [e])
  {
    assert [e][..0] == [];
    assert EntryRecords([e]) == map[Index(e.index) := Entry(e)];
    assert PutEntry(d, e) == PutBatch(d, [e]);
  }

  /** The entries under the keys 1..last, when a store holds them all. */
  lemma RecoversTo(d: Disk, log: seq<LogEntry>)
    requires DiskOk(d) && d[LastIndex] == Number(|log|)
    requires forall i: nat :: 1 <= i <= |log| ==> Index(i) in d && d[Index(i)] == Entry(log[i - 1])
    ensures Recovered(d) == Ok(log)
  {
    assert forall i :: 1 <= i <= |log| ==> Index(i) in d && d[Index(i)].Entry?;
    assert Recovered(d).Ok? && Recovered(d).value == log;
  }

  /** A store holding the log `logged`, of which memory still has the first `t` entries, after a
      contiguous batch that starts at index `b`: recovery returns exactly the in-memory log if and
      only if the batch continues memory without a gap or an overlap. */
  lemma BatchRecoversMemory(d: Disk, logged: seq<LogEntry>, t: nat, es: seq<LogEntry>, b: nat)
    requires DiskOk(d) && Recovered(d) == Ok(logged)
    requires t <= |logged| && es != [] && Contiguous(es, b)
    ensures Recovered(PutBatch(d, es)) == Ok(logged[..t] + es) <==> b == t + 1
  {
    var d', mem := PutBatch(d, es), logged[..t] + es;
    WritesKeepDiskOk(d, es, 0, None);
    RecordsContiguous(es, b);
    assert d'[LastIndex] == Number(b + |es| - 1);
    if b == t + 1 {
      forall i: nat | 1 <= i <= |mem| ensures Index(i) in d' && d'[Index(i)] == Entry(mem[i - 1]) {
        if i <= t {
          assert Index(i) in d && d[Index(i)].entry == logged[i - 1];
        } else {
          assert EntryRecords(es)[Index(b + (i - b))] == Entry(es[i - b]);
        }
      }
      RecoversTo(d', mem);
    } else if Recovered(d').Ok? {
      assert |Recovered(d').value| == b + |es| - 1;
    }
  }

  /** Every log a node recovers starts at index 1 and carries its positions as indices. */
  lemma RecoveredIsIndexed(d: Disk)
    requires DiskOk(d) && Recovered(d).Ok?
    ensures Contiguous(Recovered(d).value, 1)
  {
    forall j | 0 <= j < |Recovered(d).value| ensures Recovered(d).value[j].index == 1 + j {
      assert Recovered(d).value[j] == d[Index(1 + j)].entry;
    }
  }

  class Persister {
    var st: Disk

    constructor (st: Disk)
      ensures this.st == st
    {
      this.st := st;
    }

    /** `writeOk` is the status of the store's write. */
    method PersistState(term: nat, vote: Option<nat>, writeOk: bool) returns (r: Result<()>)
      modifies this
      ensures writeOk ==> r == Ok(()) && st == PutState(old(st), term, vote)
      ensures !writeOk ==> r == Err(PersistStatePutFailed) && st == old(st)
    {
      if !writeOk { return Err(PersistStatePutFailed); }
      st := st[StateKey := State(term, vote)];
      r := Ok(());
    }

    /** `writeOk` is the status of the store's batch write. */
    method PersistEntry(e: LogEntry, writeOk: bool) returns (r: Result<()>)
      modifies this
      ensures writeOk ==> r == Ok(()) && st == PutEntry(old(st), e)
      ensures !writeOk ==> r == Err(LogEntriesPersistFailed) && st == old(st)
    {
      var key := Index(e.index);
      var wb: map<Key, Value> := map[];
      wb := wb[key := Entry(e)];
      wb := wb[LastIndex := Number(e.index)];
      if !writeOk { return Err(LogEntriesPersistFailed); }
      st := st + wb;
      r := Ok(());
    }

    method PersistBatch(es: seq<LogEntry>, writeOk: bool) returns (r: Result<()>)
      modifies this
      ensures writeOk && es != [] ==> r == Ok(()) && st == PutBatch(old(st), es)
      ensures !writeOk || es == [] ==> r == Err(LogEntriesPersistFailed) && st == old(st)
    {
      if es == [] { return Err(LogEntriesPersistFailed); }
      var wb: map<Key, Value> := map[];
      for i := 0 to |es|
        invariant wb == EntryRecords(es[..i])
        invariant st == old(st)
      {
        assert es[..i + 1][..i] == es[..i];
        wb := wb[Index(es[i].index) := Entry(es[i])];
      }
      assert es[..|es|] == es;
      wb := wb[LastIndex := Number(es[|es| - 1].index)];
      if !writeOk { return Err(LogEntriesPersistFailed); }
      st := st + wb;
      r := Ok(());
    }

    /** The source looks up `keys[i]` by log index rather than by position in `keys`, so it stays inside
        the vector only when the range is empty or starts at 0.  Otherwise it reads past the end, which no
        model can predict; the store is left alone here. */
    method TruncateBatch(start: nat, end: int, writeOk: bool) returns (inside: bool, r: Result<()>)
      modifies this
      ensures inside <==> end < start || start == 0
      ensures r.Ok? <==> inside && writeOk
      ensures st == if r.Ok? then old(st) - (set i | start <= i <= end :: Index(i)) else old(st)
    {
      var keys: seq<Key> := [];
      var wb: set<Key> := {};
      var i := start;
      r := Err(LogEntriesTruncateFailed);
      while i <= end
        invariant start <= i && (i <= end + 1 || i == start)
        invariant i == start || start == 0
        invariant |keys| == i - start && forall j :: 0 <= j < |keys| ==> keys[j] == Index(start + j)
        invariant wb == set j | start <= j < i :: Index(j)
        invariant st == old(st) && r.Err?
      {
        keys := keys + [Index(i)];
        if i >= |keys| { return false, r; }
        wb := wb + {keys[i]};
        i := i + 1;
      }
      inside := true;
      if !writeOk { return inside, r; }
      st := st - wb;
      r := Ok(());
    }

    /** `readOk` says that the store answered, be it with a value or with its absence. */
    method RecoverState(readOk: bool) returns (r: Result<(nat, Option<nat>)>)
      ensures r.Ok? <==> readOk && (StateKey in st ==> st[StateKey].State?)
      ensures r.Ok? ==> r.value == (PersistedTerm(st), PersistedVote(st))
      ensures r.Err? ==> r.error == if readOk then PersistStateParseFailed else PersistStateGetFailed
    {
      if !readOk { return Err(PersistStateGetFailed); }
      if StateKey !in st { return Ok((0, None)); }
      if !st[StateKey].State? { return Err(PersistStateParseFailed); }
      r := Ok((st[StateKey].term, st[StateKey].vote));
    }

    /** A failed read of an index key is an error of its own, a failed read of an entry is as bad as a
        missing entry, and a failed write is the result on a new store but only logged on an empty log. */
    method RecoverEntries(h: Health) returns (r: Result<seq<LogEntry>>)
      modifies this
      ensures r == RecoveredUnder(old(st), h)
      ensures st == OpenedUnder(old(st), h)
    {
      if !h.keysRead { return Err(InvalidLogIndex); }
      if FirstIndex !in st && LastIndex !in st {
        if !h.written { return Err(LogEntriesPersistFailed); }
        var wb: map<Key, Value> := map[FirstIndex := Number(1), LastIndex := Number(0)];
        st := st + wb;
        return Ok([]);
      } else if FirstIndex !in st || LastIndex !in st {
        return Err(InvalidLogIndex);
      }
      if !st[FirstIndex].Number? || !st[LastIndex].Number? { return Err(LogIndexToUllFailed); }
      var first, last := st[FirstIndex].n, st[LastIndex].n;
      if first == 0 || (last != 0 && first > last) { return Err(InvalidLogIndex); }
      if last == 0 {
        if h.written { st := st[FirstIndex := Number(1)]; }
        return Ok([]);
      }
      var keys: seq<Key> := [];
      var i := first;
      while i <= last
        invariant first <= i <= last + 1
        invariant |keys| == i - first && forall j :: 0 <= j < |keys| ==> keys[j] == Index(first + j)
      {
        keys := keys + [Index(i)];
        i := i + 1;
      }
      for j := 0 to |keys|
        invariant forall k :: 0 <= k < j ==> keys[k] in Seen(st, h)
      {
        if keys[j] !in st || first + j in h.unread {
          assert Index(first + j) !in Seen(st, h);
          return Err(LogEntriesRecoverFailed);
        }
      }
      assert forall k :: first <= k <= last ==> Index(k) in Seen(st, h) by {
        forall k | first <= k <= last ensures Index(k) in Seen(st, h) { assert keys[k - first] in Seen(st, h); }
      }
      var entries: seq<LogEntry> := [];
      for j := 0 to |keys|
        invariant |entries| == j
        invariant forall k :: 0 <= k < j ==> st[keys[k]].Entry? && st[keys[k]].entry == entries[k]
      {
        if !st[keys[j]].Entry? {
          assert !Seen(st, h)[Index(first + j)].Entry?;
          return Err(LogEntryParseFailed);
        }
        entries := entries + [st[keys[j]].entry];
      }
      assert forall k :: first <= k <= last ==> st[Index(k)].Entry? by {
        forall k | first <= k <= last ensures st[Index(k)].Entry? { assert st[keys[k - first]].Entry?; }
      }
      r := Ok(entries);
      assert entries == Recovered(Seen(st, h)).value;
    }
  }
}
