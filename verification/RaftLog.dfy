/** The in-memory log and its index arithmetic (raft_log.cpp).  Nothing in the program compacts a log,
    so `first_index_` is 1 throughout: index i is position i - 1. */
module Logs {
  import opened Wrappers
  import opened Messages
  import opened Durable

  /** 2^64: the span length in `entries_view` is computed modulo this. */
  const WORD: nat := 0x1_0000_0000_0000_0000

  function LastTerm(log: seq<LogEntry>): nat {
    if log == [] then 0 else log[|log| - 1].term
  }

  function PrevIndex(log: seq<LogEntry>): nat {
    if log == [] then 0 else |log| - 1
  }

  function PrevTerm(log: seq<LogEntry>): nat {
    if |log| < 2 then 0 else log[|log| - 2].term
  }

  /** The term of entry `index`, and 0 outside the log; in particular at index 0. */
  function TermAt(log: seq<LogEntry>, index: nat): nat {
    if 1 <= index <= |log| then log[index - 1].term else 0
  }

  function Truncated(log: seq<LogEntry>, start: nat): seq<LogEntry> {
    if 1 <= start <= |log| then log[..start - 1] else log
  }

  /** `Overrun`: the span's length has wrapped and reaches past the end of the vector. */
  datatype View = OutOfRange | Span(entries: seq<LogEntry>) | Overrun

  function EntriesView(log: seq<LogEntry>, start: nat, end: nat): (v: View)
    ensures v.Overrun? <==> 1 <= start <= |log| && end + 1 < start
    ensures v.Span? ==> |v.entries| == end + 1 - start
  {
    if start < 1 || start > |log| || end > |log| then OutOfRange
    else if end + 1 >= start then Span(log[start - 1..end])
    else Overrun
  }

  /** The program computes the length as end - start + 1 in 64 bits. */
  lemma ViewLength(log: seq<LogEntry>, start: nat, end: nat)
    requires |log| < WORD && !EntriesView(log, start, end).OutOfRange?
    ensures
      var length := (end - start + 1) % WORD;
      match EntriesView(log, start, end)
      case Span(es) => |es| == length && es == log[start - 1..start - 1 + length]
      case Overrun => start - 1 + length > |log|
  {
    if end + 1 < start {
      assert (end - start + 1) % WORD == end - start + 1 + WORD;
    }
  }

  /** A request's entries fit the log's end: the guard under which an entry's index is its position. */
  predicate InSync(log: seq<LogEntry>, prevIndex: nat, prevTerm: nat) {
    prevIndex == |log| && (prevIndex == 0 || TermAt(log, prevIndex) == prevTerm)
  }

  /** What the accepting path of the append handler leaves in memory. */
  function Spliced(log: seq<LogEntry>, prevIndex: nat, prevTerm: nat, es: seq<LogEntry>): seq<LogEntry> {
    (if TermAt(log, prevIndex) != prevTerm then Truncated(log, prevIndex) else log) + es
  }

  lemma InSyncExtends(log: seq<LogEntry>, prevIndex: nat, prevTerm: nat, es: seq<LogEntry>)
    requires InSync(log, prevIndex, prevTerm)
    ensures Spliced(log, prevIndex, prevTerm, es) == log + es
  {}

  /** The accepting path truncates at `prevIndex`, not after it, and appends at the end whatever
      `prevIndex` is.  For a slice that carries its true indices, the resulting log still has every
      entry at the position its index names if and only if the request was in sync. */
  lemma IndexedIffInSync(log: seq<LogEntry>, prevIndex: nat, prevTerm: nat, es: seq<LogEntry>)
    requires Contiguous(log, 1) && prevIndex <= |log|
    requires es != [] && Contiguous(es, prevIndex + 1)
    ensures Contiguous(Spliced(log, prevIndex, prevTerm, es), 1) <==> InSync(log, prevIndex, prevTerm)
  {
    var out := Spliced(log, prevIndex, prevTerm, es);
    var kept := |out| - |es|;
    assert out[kept] == es[0];
    if InSync(log, prevIndex, prevTerm) {
      InSyncExtends(log, prevIndex, prevTerm, es);
    } else {
      assert out[kept].index != 1 + kept;
    }
  }

  class RaftLog {
    const persister: Persister
    var firstIndex: nat
    var entries: seq<LogEntry>

    ghost predicate Valid()
      reads this
    {
      firstIndex == 1
    }

    constructor (persister: Persister, firstIndex: nat, entries: seq<LogEntry>)
      ensures this.persister == persister && this.firstIndex == firstIndex && this.entries == entries
    {
      this.persister := persister;
      this.firstIndex := firstIndex;
      this.entries := entries;
    }

    /** Reads the log back.  From a store that is new or was written by a Persister, its entries carry
        their positions as indices. */
    static method Create(persister: Persister, h: Health) returns (r: Result<RaftLog>)
      modifies persister
      ensures persister.st == OpenedUnder(old(persister.st), h)
      ensures r.Ok? <==> RecoveredUnder(old(persister.st), h).Ok?
      ensures r.Ok? ==>
        && fresh(r.value) && r.value.persister == persister
        && Recovered(old(persister.st)) == Ok(r.value.entries)
        && r.value.firstIndex == if r.value.entries == [] then 1 else r.value.entries[0].index
      ensures (old(persister.st) == map[] || DiskOk(old(persister.st))) && r.Ok? ==>
        r.value.Valid() && Contiguous(r.value.entries, 1)
    {
      if RecoveredUnder(persister.st, h).Ok? {
        RecoveredIsWhole(persister.st, h);
        if DiskOk(persister.st) { RecoveredIsIndexed(persister.st); }
      }
      var recovered := persister.RecoverEntries(h);
      if recovered.Err? { return Err(recovered.error); }
      var first := if recovered.value == [] then 1 else recovered.value[0].index;
      var log := new RaftLog(persister, first, recovered.value);
      r := Ok(log);
    }

    function LastLogIndex(): (i: nat)
      requires Valid()
      reads this
      ensures i == |entries|
    {
      firstIndex + |entries| - 1
    }

    function LastLogTerm(): (t: nat)
      requires Valid()
      reads this
      ensures t == LastTerm(entries)
    {
      if |entries| == 0 && LastLogIndex() == 0 then 0 else entries[|entries| - 1].term
    }

    function PrevLogIndex(): (i: nat)
      requires Valid()
      reads this
      ensures i == PrevIndex(entries)
    {
      if |entries| == 0 then 0 else LastLogIndex() - 1
    }

    function PrevLogTerm(): (t: nat)
      requires Valid()
      reads this
      ensures t == PrevTerm(entries)
    {
      if |entries| == 0 || |entries| == 1 then 0 else entries[|entries| - 2].term
    }

    function EntryAt(index: nat): (r: Result<LogEntry>)
      requires Valid()
      reads this
      ensures r == if 1 <= index <= |entries| then Ok(entries[index - 1]) else Err(InvalidLogIndex)
    {
      if index < firstIndex || index > LastLogIndex() then Err(InvalidLogIndex)
      else Ok(entries[index - firstIndex])
    }

    function ViewOf(start: nat, end: nat): (v: View)
      requires Valid()
      reads this
      ensures v == EntriesView(entries, start, end)
    {
      if start < firstIndex || start > LastLogIndex() || end > LastLogIndex() then OutOfRange
      else
      if end + 1 >= start then Span(entries[start - firstIndex..end + 1 - firstIndex])
      else Overrun
    }

    function TermOf(index: nat): (t: nat)
      requires Valid()
      reads this
      ensures t == TermAt(entries, index)
    {
      if index < firstIndex || index > LastLogIndex() then 0 else entries[index - firstIndex].term
    }

    method AppendEntry(e: LogEntry, writeOk: bool) returns (r: Result<()>)
      requires Valid()
      modifies this, persister
      ensures Valid() && r.Ok? == writeOk
      ensures writeOk ==> entries == old(entries) + [e] && persister.st == PutEntry(old(persister.st), e)
      ensures !writeOk ==> entries == old(entries) && persister.st == old(persister.st)
    {
      var ret := persister.PersistEntry(e, writeOk);
      if ret.Err? { return Err(ret.error); }
      entries := entries + [e];
      r := Ok(());
    }

    method AppendEntries(es: seq<LogEntry>, writeOk: bool) returns (r: Result<()>)
      requires Valid()
      modifies this, persister
      ensures Valid() && r.Ok? == (writeOk && es != [])
      ensures r.Ok? ==> entries == old(entries) + es && persister.st == PutBatch(old(persister.st), es)
      ensures r.Err? ==> entries == old(entries) && persister.st == old(persister.st)
    {
      var ret := persister.PersistBatch(es, writeOk);
      if ret.Err? { return Err(ret.error); }
      entries := entries + es;
      r := Ok(());
    }

    /** The store keeps everything: by the time the deletion range is computed, the last index has
        already dropped below its start. */
    method TruncateEntries(start: nat)
      requires Valid()
      modifies this, persister
      ensures Valid() && entries == Truncated(old(entries), start) && persister.st == old(persister.st)
      ensures entries == if 1 <= start <= |old(entries)| then old(entries)[..start - 1] else old(entries)
    {
      if start < firstIndex || start > LastLogIndex() { return; }
      entries := entries[..start - firstIndex];
      var inside, truncated := persister.TruncateBatch(start, LastLogIndex(), true);
    }
  }
}
