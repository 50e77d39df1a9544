/**
 The two retained generations of a diagnostic log and the writer that appends
 records to them, rotating before the write that finds the file full.
 */
module LogWriter {
  import opened Options
  import opened MigrationCopy
  import opened MigrationHistory

  /** A file keeps its identity when it is renamed. */
  datatype File = File(id: nat, bytes: string)

  datatype Log = Log(previous: Option<File>, current: Option<File>, nextId: nat)

  const NewLog := Log(None, None, 0)

  /** openAppend: the current generation, created empty if it is missing. */
  function Opened(log: Log): Log {
    if log.current.Some? then log else log.(current := Some(File(log.nextId, "")), nextId := log.nextId + 1)
  }

  function Rotated(log: Log): Log { Opened(log.(previous := log.current, current := None)) }

  /** The state in which the next record is written. */
  function Ready(log: Log, limit: nat, rotate: bool): Log {
    var log := Opened(log);
    if rotate && |log.current.value.bytes| >= limit then Rotated(log) else log
  }

  function Appended(log: Log, record: string): Log
    requires log.current.Some?
  {
    log.(current := Some(log.current.value.(bytes := log.current.value.bytes + record)))
  }

  class Files {
    var log: Log

    constructor ()
      ensures log == NewLog
    {
      log := NewLog;
    }
  }

  class Writer {
    const limit: nat
    const rotate: bool
    var closed: bool
    var lastID: Option<nat>

    constructor (limit: nat, rotate: bool)
      ensures this.limit == limit && this.rotate == rotate && !closed && lastID == None
    {
      this.limit, this.rotate, closed, lastID := limit, rotate, false, None;
    }

    /** openWriterMode refuses a threshold that is not positive; a new writer has written nothing. */
    static method Open(limit: int, rotate: bool) returns (writer: Option<Writer>)
      ensures writer.Some? <==> limit > 0
      ensures writer.Some? ==> fresh(writer.value) && !writer.value.closed && writer.value.lastID == None
      ensures writer.Some? ==> writer.value.limit == limit && writer.value.rotate == rotate
    {
      if limit <= 0 {
        return None;
      }
      var w := new Writer(limit, rotate);
      writer := Some(w);
    }

    method Close()
      modifies this`closed
      ensures closed
    {
      closed := true;
    }

    /**
     Writes what `encode` makes of the generation: `head` for the first record of
     a generation, `rest` for any other; None if it fails. A rotating writer sees
     a new generation when the file is empty or was just rotated, an appender
     when the file is not the one it last wrote to.
     */
    method WriteRecord(files: Files, head: Option<string>, rest: Option<string>) returns (count: Option<nat>, ghost first: bool)
      modifies this, files
      ensures closed == old(closed)
      ensures closed ==> files.log == old(files.log) && lastID == old(lastID) && count == None
      ensures !closed ==>
                var ready := Ready(old(files.log), limit, rotate);
                && first == (if rotate then ready.current.value.bytes == "" || |old(files.log).current.value.bytes| >= limit
                             else old(lastID) != Some(ready.current.value.id))
                && lastID == (if rotate then old(lastID) else Some(ready.current.value.id))
                && var record := if first then head else rest;
                   && files.log == (if record.Some? then Appended(ready, record.value) else ready)
                   && count == (if record.Some? then Some(|record.value|) else None)
    {
      count, first := None, false;
      if closed {
        return;
      }
      files.log := Opened(files.log);
      var current := files.log.current.value;
      var isFirst := current.bytes == "";
      if !rotate {
        isFirst := lastID != Some(current.id);
        lastID := Some(current.id);
      }
      if rotate && |current.bytes| >= limit {
        isFirst := true;
        files.log := Rotated(files.log);
      }
      first := isFirst;
      var record := if isFirst then head else rest;
      if record.Some? {
        files.log := Appended(files.log, record.value);
        count := Some(|record.value|);
      }
    }
  }

  // ------------------------------------------------------- what a log retains

  predicate IsLine(record: string) {
    IsRecord(record) && record[|record| - 1] == '\n'
  }

  function WriteAll(log: Log, limit: nat, records: seq<string>): Log
    decreases |records|
  {
    if records == [] then log
    else WriteAll(Appended(Ready(log, limit, true), records[0]), limit, records[1..])
  }

  function Bytes(file: Option<File>): string { if file.Some? then file.value.bytes else "" }

  /** The two generations hold the records from the m-th on, the current one those from the n-th on. */
  predicate Suffix(log: Log, limit: nat, done: seq<string>, m: nat, n: nat) {
    && m <= n <= |done|
    && Bytes(log.previous) == Flatten(done[m..n])
    && Bytes(log.current) == Flatten(done[n..])
    && (n > 0 ==> log.previous.Some? && |Bytes(log.previous)| >= limit)
    && (n == 0 ==> m == 0)
  }

  predicate LineEnded(bytes: string) { bytes == "" || bytes[|bytes| - 1] == '\n' }

  predicate Tidy(log: Log, limit: nat) {
    && Settled(Bytes(log.previous), limit)
    && Settled(Bytes(log.current), limit)
    && LineEnded(Bytes(log.current))
  }

  lemma WriteStep(log: Log, limit: nat, record: string, done: seq<string>, m: nat, n: nat) returns (m': nat, n': nat)
    requires limit > 0 && IsLine(record) && Suffix(log, limit, done, m, n) && Tidy(log, limit)
    ensures var next := Appended(Ready(log, limit, true), record);
      Suffix(next, limit, done + [record], m', n') && Tidy(next, limit)
  {
    var ready := Ready(log, limit, true);
    if |Bytes(log.current)| >= limit {
      m', n' := n, |done|;
      assert (done + [record])[n..|done|] == done[n..];
      assert (done + [record])[|done|..] == [record];
      assert Flatten([record]) == record + Flatten([]) == record;
    } else {
      m', n' := m, n;
      assert (done + [record])[m..n] == done[m..n];
      assert (done + [record])[n..] == done[n..] + [record];
      FlattenSplit(done[n..], [record]);
      assert Flatten([record]) == record + Flatten([]) == record;
    }
    var before := Bytes(ready.current);
    assert |before| < limit;
  }

  /**
   A log written by WriteRecord in whole lines never asks for migration, keeps a
   suffix of what was written, cut between records, and at least the last
   min(total, limit) bytes of it.
   */
  lemma {:induction false} WritesStayTidy(log: Log, limit: nat, records: seq<string>, done: seq<string>, m: nat, n: nat)
    returns (m': nat, n': nat)
    requires limit > 0 && Suffix(log, limit, done, m, n) && Tidy(log, limit)
    requires forall r :: r in records ==> IsLine(r)
    ensures var next := WriteAll(log, limit, records);
      Suffix(next, limit, done + records, m', n') && Tidy(next, limit)
    decreases |records|
  {
    if records == [] {
      assert done + records == done;
      m', n' := m, n;
    } else {
      assert records[0] in records;
      m', n' := WriteStep(log, limit, records[0], done, m, n);
      assert done + [records[0]] + records[1..] == done + records;
      assert forall r :: r in records[1..] ==> r in records;
      hide Suffix, Tidy, IsLine;
      m', n' := WritesStayTidy(Appended(Ready(log, limit, true), records[0]), limit, records[1..],
                               done + [records[0]], m', n');
    }
  }

  lemma WritersRetain(limit: nat, records: seq<string>)
    requires limit > 0 && forall r :: r in records ==> IsLine(r)
    ensures var log := WriteAll(NewLog, limit, records); var kept := Bytes(log.previous) + Bytes(log.current);
      && Settled(Bytes(log.previous), limit) && Settled(Bytes(log.current), limit)
      && (|kept| >= limit || kept == Flatten(records))
      && exists m: nat :: EndsWith(kept, records, m)
  {
    var m, n := WritesStayTidy(NewLog, limit, records, [], 0, 0);
    assert [] + records == records;
    SuffixEnds(WriteAll(NewLog, limit, records), limit, records, m, n);
    hide WriteAll, Suffix, EndsWith, Flatten, Settled;
  }

  lemma SuffixEnds(log: Log, limit: nat, records: seq<string>, m: nat, n: nat)
    requires Suffix(log, limit, records, m, n)
    ensures var kept := Bytes(log.previous) + Bytes(log.current);
      EndsWith(kept, records, m) && (|kept| >= limit || kept == Flatten(records))
  {
    FlattenSplit(records[m..n], records[n..]);
    assert records[m..n] + records[n..] == records[m..];
    assert records[0..] == records;
    hide Flatten;
  }

  predicate EndsWith(kept: string, records: seq<string>, m: nat) {
    m <= |records| && kept == Flatten(records[m..])
  }
}
