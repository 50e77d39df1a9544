/**
 What the streamed generations hold: nothing lost or reordered, rotation only
 between records and only when full, every byte attributed to its source, and
 nothing left to migrate.
 */
module MigrationHistory {
  import opened Options
  import opened MigrationCopy

  // ------------------------------------------------------------ conservation

  function Join(generations: seq<seq<Cell>>): seq<Cell> {
    if generations == [] then [] else generations[0] + Join(generations[1..])
  }

  function AllRecords(streams: seq<Stream>): seq<string> {
    if streams == [] then [] else Records(streams[0].bytes) + AllRecords(streams[1..])
  }

  function AllBytes(streams: seq<Stream>): string {
    if streams == [] then "" else streams[0].bytes + AllBytes(streams[1..])
  }

  lemma {:induction false} FlattenSplit(a: seq<string>, b: seq<string>)
    ensures Flatten(a + b) == Flatten(a) + Flatten(b)
  {
    if a == [] {
      assert a + b == b;
    } else {
      FlattenSplit(a[1..], b);
      var whole := a + b;
      assert whole[0] == a[0] && whole[1..] == a[1..] + b;
      assert a[0] + (Flatten(a[1..]) + Flatten(b)) == a[0] + Flatten(a[1..]) + Flatten(b);
    }
  }

  lemma {:induction false} JoinSplit(a: seq<seq<Cell>>, b: seq<seq<Cell>>)
    ensures Join(a + b) == Join(a) + Join(b)
  {
    if a == [] {
      assert a + b == b;
    } else {
      JoinSplit(a[1..], b);
      var whole := a + b;
      assert whole[0] == a[0] && whole[1..] == a[1..] + b;
      assert a[0] + (Join(a[1..]) + Join(b)) == a[0] + Join(a[1..]) + Join(b);
    }
  }

  lemma {:induction false} DataSplit(a: seq<Cell>, b: seq<Cell>)
    ensures DataOf(a + b) == DataOf(a) + DataOf(b)
  {
    if a == [] {
      assert a + b == b;
    } else {
      DataSplit(a[1..], b);
      var whole := a + b;
      assert whole[0] == a[0] && whole[1..] == a[1..] + b;
      var first := if a[0].Data? then [a[0].byte] else "";
      assert first + (DataOf(a[1..]) + DataOf(b)) == first + DataOf(a[1..]) + DataOf(b);
    }
  }

  lemma {:induction false} DataOfCopied(bytes: string, source: nat)
    ensures DataOf(Copied(bytes, source)) == bytes
  {
    if bytes != "" {
      DataOfCopied(bytes[1..], source);
      assert Copied(bytes, source)[1..] == Copied(bytes[1..], source);
    }
  }

  lemma {:induction false} DataOfMarked(bytes: string, source: nat)
    ensures DataOf(Marked(bytes, source)) == ""
  {
    if bytes != "" {
      DataOfMarked(bytes[1..], source);
      assert Marked(bytes, source)[1..] == Marked(bytes[1..], source);
    }
  }

  lemma {:induction false} AllRecordsPartition(streams: seq<Stream>)
    ensures Flatten(AllRecords(streams)) == AllBytes(streams)
  {
    if streams != [] {
      AllRecordsPartition(streams[1..]);
      RecordsPartition(streams[0].bytes);
      FlattenSplit(Records(streams[0].bytes), AllRecords(streams[1..]));
    }
  }

  /** These generations hold exactly the first `m` of the records. */
  predicate Holds(generations: seq<seq<Cell>>, records: seq<string>, m: nat) {
    m <= |records| && DataOf(Join(generations)) == Flatten(records[..m])
  }

  /** These generations end between two records. */
  ghost predicate WholeRecords(generations: seq<seq<Cell>>, records: seq<string>) {
    exists m: nat :: Holds(generations, records, m)
  }

  /** Every rotation so far fell between two records. */
  ghost predicate Cuts(sealed: seq<seq<Cell>>, records: seq<string>) {
    forall k :: 0 <= k <= |sealed| ==> WholeRecords(sealed[..k], records)
  }

  /** What holds after copying `done`: nothing lost, whole records per rotation, full generations. */
  ghost predicate Faithful(sealed: seq<seq<Cell>>, current: seq<Cell>, limit: nat, done: seq<string>) {
    && Holds(sealed + [current], done, |done|)
    && Cuts(sealed, done)
    && (forall k :: 0 <= k < |sealed| ==> |sealed[k]| >= limit)
  }

  lemma DataSnoc(generations: seq<seq<Cell>>, g: seq<Cell>)
    ensures DataOf(Join(generations + [g])) == DataOf(Join(generations)) + DataOf(g)
  {
    JoinSplit(generations, [g]);
    assert Join([g]) == g + Join([]) == g;
    DataSplit(Join(generations), g);
  }

  lemma AppendData(cells: seq<Cell>, mark: seq<Cell>, record: string, source: nat)
    requires DataOf(mark) == ""
    ensures DataOf(cells + mark + Copied(record, source)) == DataOf(cells) + record
  {
    DataOfCopied(record, source);
    DataSplit(cells, mark);
    DataSplit(cells + mark, Copied(record, source));
  }

  /** A copied record adds exactly its bytes, in the current generation or in a new one. */
  lemma CopyRecordData(s: Copy, limit: nat, stream: Stream, need: bool, record: string)
    ensures DataOf(Join(All(CopyRecord(s, limit, stream, need, record)))) == DataOf(Join(All(s))) + record
  {
    if record != "" {
      var rotates := s.atStart && |s.current| >= limit;
      var base := if rotates then [] else s.current;
      var mark := if need || rotates then Marked(stream.header, stream.source) else [];
      DataOfMarked(stream.header, stream.source);
      AppendData(base, mark, record, stream.source);
      DataSnoc(if rotates then All(s) else s.sealed, base + mark + Copied(record, stream.source));
      DataSnoc(s.sealed, s.current);
    }
  }

  lemma CutsMore(sealed: seq<seq<Cell>>, done: seq<string>, record: string)
    requires Cuts(sealed, done)
    ensures Cuts(sealed, done + [record])
  {
    forall k | 0 <= k <= |sealed|
      ensures WholeRecords(sealed[..k], done + [record])
    {
      assert WholeRecords(sealed[..k], done);
      var m: nat :| Holds(sealed[..k], done, m);
      assert (done + [record])[..m] == done[..m];
      assert Holds(sealed[..k], done + [record], m);
    }
  }

  lemma CutsSeal(sealed: seq<seq<Cell>>, current: seq<Cell>, done: seq<string>)
    requires Cuts(sealed, done) && Holds(sealed + [current], done, |done|)
    ensures Cuts(sealed + [current], done)
  {
    var all := sealed + [current];
    forall k | 0 <= k <= |all|
      ensures WholeRecords(all[..k], done)
    {
      if k <= |sealed| {
        assert all[..k] == sealed[..k];
      } else {
        assert all[..k] == all;
      }
    }
  }

  lemma CopyRecordFaithful(s: Copy, limit: nat, stream: Stream, need: bool, record: string, done: seq<string>)
    requires Faithful(s.sealed, s.current, limit, done)
    ensures var t := CopyRecord(s, limit, stream, need, record); Faithful(t.sealed, t.current, limit, done + [record])
  {
    var t := CopyRecord(s, limit, stream, need, record);
    CopyRecordData(s, limit, stream, need, record);
    FlattenSplit(done, [record]);
    assert Flatten([record]) == record;
    assert done[..|done|] == done && (done + [record])[..|done| + 1] == done + [record];
    assert Holds(All(t), done + [record], |done| + 1);
    hide Flatten, Join, DataOf, Holds, Cuts;
    if t.sealed != s.sealed {
      CutsSeal(s.sealed, s.current, done);
    }
    CutsMore(t.sealed, done, record);
  }

  lemma {:induction false} CopyRecordsFaithful(s: Copy, limit: nat, stream: Stream, need: bool, records: seq<string>,
      done: seq<string>)
    requires Faithful(s.sealed, s.current, limit, done)
    ensures var t := CopyRecords(s, limit, stream, need, records); Faithful(t.sealed, t.current, limit, done + records)
    decreases |records|
  {
    if records == [] {
      assert done + records == done;
    } else {
      CopyRecordFaithful(s, limit, stream, need, records[0], done);
      CopyRecordsFaithful(CopyRecord(s, limit, stream, need, records[0]), limit, stream, false, records[1..],
                          done + [records[0]]);
      assert done + [records[0]] + records[1..] == done + records;
    }
  }

  lemma CopyStreamFaithful(s: Copy, limit: nat, stream: Stream, done: seq<string>)
    requires Faithful(s.sealed, s.current, limit, done)
    ensures var t := CopyStream(s, limit, stream); Faithful(t.sealed, t.current, limit, done + Records(stream.bytes))
  {
    var separated := Separated(s, stream);
    var started := if separated == stream then s else s.(atStart := true);
    assert Faithful(started.sealed, started.current, limit, done);
    hide Faithful, Records, CopyRecords;
    CopyRecordsFaithful(started, limit, separated, true, Records(stream.bytes), done);
  }

  lemma {:induction false} CopyStreamsFaithful(s: Copy, limit: nat, streams: seq<Stream>, done: seq<string>)
    requires Faithful(s.sealed, s.current, limit, done)
    ensures var t := CopyStreams(s, limit, streams); Faithful(t.sealed, t.current, limit, done + AllRecords(streams))
    decreases |streams|
  {
    hide Faithful, Records, CopyStream;
    if streams == [] {
      assert done + AllRecords(streams) == done;
    } else {
      CopyStreamFaithful(s, limit, streams[0], done);
      CopyStreamsFaithful(CopyStream(s, limit, streams[0]), limit, streams[1..], done + Records(streams[0].bytes));
      assert done + Records(streams[0].bytes) + AllRecords(streams[1..]) == done + AllRecords(streams);
    }
  }

  /**
   For every list of streams and every limit: the generations together hold the
   inputs and nothing else, every rotation falls between two records, and every
   generation rotated out is full.
   */
  lemma NothingLost(limit: nat, streams: seq<Stream>)
    ensures var s := CopyStreams(Empty, limit, streams);
      && DataOf(Join(All(s))) == AllBytes(streams)
      && Faithful(s.sealed, s.current, limit, AllRecords(streams))
  {
    assert Join(All(Empty)) == [] by { assert All(Empty) == [[]]; }
    assert Faithful([], [], limit, []) by {
      assert Holds(Empty.sealed[..0], [], 0);
    }
    CopyStreamsFaithful(Empty, limit, streams, []);
    assert [] + AllRecords(streams) == AllRecords(streams);
    AllRecordsPartition(streams);
    var s := CopyStreams(Empty, limit, streams);
    assert AllRecords(streams)[..|AllRecords(streams)|] == AllRecords(streams);
  }

  /** The generations still on disk: the current one and the last one rotated out. */
  function Retained(s: Copy): seq<seq<Cell>> {
    if s.sealed == [] then [s.current] else [s.sealed[|s.sealed| - 1], s.current]
  }

  /** These generations hold exactly the records from the m-th on, and at least `limit` bytes if that drops any. */
  predicate Keeps(generations: seq<seq<Cell>>, limit: nat, records: seq<string>, m: nat) {
    && m <= |records|
    && DataOf(Join(generations)) == Flatten(records[m..])
    && (m > 0 ==> |Join(generations)| >= limit)
  }

  /**
   What is kept is a suffix of the inputs, cut before a record, and everything
   that was dropped was followed by at least `limit` retained bytes.
   */
  lemma RetainedIsSuffix(limit: nat, streams: seq<Stream>) returns (m: nat)
    ensures Keeps(Retained(CopyStreams(Empty, limit, streams)), limit, AllRecords(streams), m)
  {
    var s, records := CopyStreams(Empty, limit, streams), AllRecords(streams);
    NothingLost(limit, streams);
    if s.sealed == [] {
      assert All(s) == Retained(s);
      assert records[..|records|] == records == records[0..];
      m := 0;
    } else {
      var k := |s.sealed| - 1;
      assert WholeRecords(s.sealed[..k], records);
      m :| Holds(s.sealed[..k], records, m);
      SuffixAfter(s, records, k, m);
      assert Retained(s)[1..] == [s.current];
      assert |Join(Retained(s))| >= |s.sealed[k]| >= limit;
    }
  }

  lemma SuffixAfter(s: Copy, records: seq<string>, k: nat, m: nat)
    requires k == |s.sealed| - 1 && Holds(s.sealed[..k], records, m) && Holds(All(s), records, |records|)
    ensures m <= |records| && DataOf(Join(Retained(s))) == Flatten(records[m..])
  {
    assert All(s) == s.sealed[..k] + Retained(s);
    JoinSplit(s.sealed[..k], Retained(s));
    DataSplit(Join(s.sealed[..k]), Join(Retained(s)));
    FlattenSplit(records[..m], records[m..]);
    assert records == records[..m] + records[m..] == records[..|records|];
    var prefix := Flatten(records[..m]);
    assert prefix + DataOf(Join(Retained(s))) == prefix + Flatten(records[m..]);
    assert DataOf(Join(Retained(s))) == (prefix + DataOf(Join(Retained(s))))[|prefix|..];
  }

  // -------------------------------------------------------------- attribution

  /** Every copied byte stands behind a byte of the same source: first its marker line, then its data. */
  predicate Attributed(g: seq<Cell>) {
    forall i :: 0 <= i < |g| && g[i].Data? ==> i > 0 && g[i - 1].source == g[i].source
  }

  predicate AllAttributed(s: Copy) {
    Attributed(s.current) && forall k :: 0 <= k < |s.sealed| ==> Attributed(s.sealed[k])
  }

  /** The current generation already carries the marker line of this stream. */
  predicate Introduced(s: Copy, source: nat) {
    s.current != [] && s.current[|s.current| - 1].source == source
  }

  lemma AttributedAppend(g: seq<Cell>, mark: seq<Cell>, record: string, source: nat)
    requires Attributed(g)
    requires forall k :: 0 <= k < |mark| ==> mark[k].Mark? && mark[k].source == source
    requires mark == [] ==> g != [] && g[|g| - 1].source == source
    ensures Attributed(g + mark + Copied(record, source))
  {
    var t := g + mark + Copied(record, source);
    forall i | 0 <= i < |t| && t[i].Data?
      ensures i > 0 && t[i - 1].source == t[i].source
    {
      if i < |g| {
        assert t[i] == g[i];
      }
    }
  }

  lemma CopyRecordAttributed(s: Copy, limit: nat, stream: Stream, need: bool, record: string)
    requires AllAttributed(s) && stream.header != "" && (!need ==> Introduced(s, stream.source))
    ensures var t := CopyRecord(s, limit, stream, need, record);
      AllAttributed(t) && (record != "" || !need ==> Introduced(t, stream.source))
  {
    if record != "" {
      var rotates := s.atStart && |s.current| >= limit;
      var mark := if need || rotates then Marked(stream.header, stream.source) else [];
      AttributedAppend(if rotates then [] else s.current, mark, record, stream.source);
    }
  }

  lemma {:induction false} CopyRecordsAttributed(s: Copy, limit: nat, stream: Stream, need: bool, records: seq<string>)
    requires AllAttributed(s) && stream.header != "" && (!need ==> Introduced(s, stream.source))
    requires forall r :: r in records ==> r != ""
    ensures AllAttributed(CopyRecords(s, limit, stream, need, records))
    decreases |records|
  {
    if records != [] {
      assert records[0] in records;
      CopyRecordAttributed(s, limit, stream, need, records[0]);
      assert forall r :: r in records[1..] ==> r in records;
      hide AllAttributed, CopyRecord, Introduced;
      CopyRecordsAttributed(CopyRecord(s, limit, stream, need, records[0]), limit, stream, false, records[1..]);
    }
  }

  /** With marker lines, each retained generation names the source of everything in it. */
  lemma {:induction false} MarkersAttribute(s: Copy, limit: nat, streams: seq<Stream>)
    requires AllAttributed(s) && forall x :: x in streams ==> x.header != ""
    ensures AllAttributed(CopyStreams(s, limit, streams))
    decreases |streams|
  {
    if streams != [] {
      var stream := streams[0];
      assert stream in streams;
      var separated := Separated(s, stream);
      RecordsPartition(stream.bytes);
      CopyRecordsAttributed(if separated == stream then s else s.(atStart := true), limit, separated, true,
                            Records(stream.bytes));
      MarkersAttribute(CopyStream(s, limit, stream), limit, streams[1..]);
    }
  }

  // ----------------------------------------------------------------- fixpoint

  /** No record starts at or after byte `limit`: the record that crossed the limit is the last one. */
  predicate Settled(file: string, limit: nat) {
    forall i :: 0 <= i < |file| - 1 && i + 1 >= limit ==> file[i] != '\n'
  }

  /** hasRecordAfterLimit: reads the bytes between the limit and the final one through a bounded buffer. */
  method HasRecordAfterLimit(file: string, limit: nat, buffer: nat) returns (found: bool)
    requires 0 < limit < |file| && buffer > 0
    ensures found <==> !Settled(file, limit)
  {
    var section := file[limit - 1..|file| - 1];
    var at := 0;
    while at < |section|
      invariant 0 <= at <= |section|
      invariant forall i :: 0 <= i < at ==> section[i] != '\n'
    {
      var n := Piece(section[at..], buffer);
      var last := at + n - 1;
      if section[last] == '\n' {
        assert file[last + limit - 1] == '\n';
        return true;
      }
      forall i | at <= i < last
        ensures section[i] != '\n'
      {
        assert section[i] == section[at..][i - at];
      }
      at := at + n;
    }
    forall i | 0 <= i < |file| - 1 && i + 1 >= limit
      ensures file[i] != '\n'
    {
      assert file[i] == section[i - (limit - 1)];
    }
    found := false;
  }

  /** historyNeedsMigration: some generation on disk is over the limit and not settled. */
  method HistoryNeedsMigration(previous: Option<string>, current: Option<string>, limit: nat, buffer: nat)
    returns (needed: bool)
    requires limit > 0 && buffer > 0
    ensures !needed <==> (previous.Some? ==> Settled(previous.value, limit)) && (current.Some? ==> Settled(current.value, limit))
  {
    needed := false;
    if previous.Some? && |previous.value| > limit {
      needed := HasRecordAfterLimit(previous.value, limit, buffer);
    }
    if current.Some? && |current.value| > limit {
      var more := HasRecordAfterLimit(current.value, limit, buffer);
      needed := needed || more;
    }
  }

  predicate AllSettled(s: Copy, limit: nat) {
    && Settled(Erase(s.current), limit)
    && (forall k :: 0 <= k < |s.sealed| ==> Settled(Erase(s.sealed[k]), limit))
    && (s.current != [] && s.current[|s.current| - 1].byte == '\n' ==> s.atStart)
  }

  lemma CopyRecordSettled(s: Copy, limit: nat, stream: Stream, need: bool, record: string)
    requires AllSettled(s, limit) && stream.header == "" && IsRecord(record)
    ensures AllSettled(CopyRecord(s, limit, stream, need, record), limit)
  {
    var t := CopyRecord(s, limit, stream, need, record);
    var base := if s.atStart && |s.current| >= limit then [] else s.current;
    assert t.current == base + Copied(record, stream.source);
    forall i | 0 <= i < |t.current| - 1 && i + 1 >= limit
      ensures Erase(t.current)[i] != '\n'
    {
      if i < |base| {
        assert Erase(t.current)[i] == Erase(base)[i];
        assert base[i] == s.current[i];
      } else {
        assert Erase(t.current)[i] == record[i - |base|];
      }
    }
  }

  lemma {:induction false} CopyRecordsSettled(s: Copy, limit: nat, stream: Stream, need: bool, records: seq<string>)
    requires AllSettled(s, limit) && stream.header == "" && forall r :: r in records ==> IsRecord(r)
    ensures AllSettled(CopyRecords(s, limit, stream, need, records), limit)
    decreases |records|
  {
    if records != [] {
      assert records[0] in records;
      CopyRecordSettled(s, limit, stream, need, records[0]);
      hide AllSettled, CopyRecord;
      CopyRecordsSettled(CopyRecord(s, limit, stream, need, records[0]), limit, stream, false, records[1..]);
    }
  }

  lemma {:induction false} CopyStreamsSettled(s: Copy, limit: nat, streams: seq<Stream>)
    requires AllSettled(s, limit) && forall x :: x in streams ==> x.header == ""
    ensures AllSettled(CopyStreams(s, limit, streams), limit)
    decreases |streams|
  {
    if streams != [] {
      assert streams[0] in streams;
      RecordsPartition(streams[0].bytes);
      CopyRecordsSettled(s, limit, streams[0], true, Records(streams[0].bytes));
      CopyStreamsSettled(CopyStream(s, limit, streams[0]), limit, streams[1..]);
    }
  }

  /** After a migration without marker lines, the check that triggers migrations reports nothing left to do. */
  lemma UnlabelledMigrationSettles(limit: nat, streams: seq<Stream>)
    requires forall x :: x in streams ==> x.header == ""
    ensures forall g :: g in Retained(CopyStreams(Empty, limit, streams)) ==> Settled(Erase(g), limit)
  {
    CopyStreamsSettled(Empty, limit, streams);
  }
}
