/**
 Marker lines in a labelled migration: when each of them starts a line, and when
 they leave a generation that the oversize check would migrate again.
 */
module MigrationMarkers {
  import opened Options
  import opened MigrationCopy
  import opened MigrationHistory
  import opened MigrationTransaction

  /** One line with something on it. */
  predicate IsMarkerLine(line: string) { |line| > 1 && IsRecord(line) && line[|line| - 1] == '\n' }

  /** What is written in front of a stream: nothing, a marker line, or one behind a separating newline. */
  predicate IsHeader(header: string) {
    header == "" || IsMarkerLine(header) || (header[0] == '\n' && IsMarkerLine(header[1..]))
  }

  lemma MarkerLineIsLine(origin: string, previous: bool)
    requires '\n' !in origin
    ensures IsMarkerLine(MarkerLine(origin, previous))
  {
    var line := MarkerLine(origin, previous);
    var body := line[..|line| - 1];
    var head, generation, middle, tail :=
      "{\"event\":\"diagnostics.legacy\",\"generation\":\"", if previous then ".previous" else "", "\",\"source\":\"", "\"}";
    assert '\n' !in head && '\n' !in ".previous" && '\n' !in middle && '\n' !in tail;
    assert line == head + generation + middle + origin + tail + "\n";
    assert body == head + generation + middle + origin + tail;
    assert '\n' !in body;
    assert forall i :: 0 <= i < |body| ==> line[i] == body[i] && body[i] in body;
  }

  // ------------------------------------------------------- starting a line

  /** A marker line begins at byte `i`, right behind an unterminated record and without a separating newline. */
  predicate Glued(g: seq<Cell>, i: nat) {
    0 < i < |g| && g[i].Mark? && g[i - 1].Data? && g[i - 1].byte != '\n' && g[i].byte != '\n'
  }

  predicate HasGlue(g: seq<Cell>) { exists i: nat :: i < |g| && Glued(g, i) }

  predicate AnyGlue(s: Copy) { HasGlue(s.current) || exists k :: 0 <= k < |s.sealed| && HasGlue(s.sealed[k]) }

  predicate EndsInData(g: seq<Cell>) { g != [] ==> g[|g| - 1].Data? }

  lemma AppendGlue(base: seq<Cell>, header: string, record: string, source: nat)
    requires EndsInData(base)
    ensures HasGlue(base + Marked(header, source) + Copied(record, source)) <==>
            HasGlue(base) || (header != "" && header[0] != '\n' && base != [] && base[|base| - 1].byte != '\n')
  {
    var t := base + Marked(header, source) + Copied(record, source);
    if HasGlue(base) {
      var i: nat :| i < |base| && Glued(base, i);
      assert Glued(t, i);
    }
    if header != "" && header[0] != '\n' && base != [] && base[|base| - 1].byte != '\n' {
      assert Glued(t, |base|);
    }
    if HasGlue(t) {
      var i: nat :| i < |t| && Glued(t, i);
      assert i <= |base| && (i < |base| ==> Glued(base, i));
    }
  }

  /** This header would continue what the current generation ends in. */
  predicate Joins(s: Copy, limit: nat, header: string) {
    && !(s.atStart && |s.current| >= limit) && header != "" && header[0] != '\n'
    && s.current != [] && s.current[|s.current| - 1].byte != '\n'
  }

  /** Only a marker line that is due in the middle of a generation can be glued to what is there. */
  lemma CopyRecordGlue(s: Copy, limit: nat, stream: Stream, need: bool, record: string)
    requires EndsInData(s.current) && record != ""
    ensures var t := CopyRecord(s, limit, stream, need, record);
      && t.current != [] && t.current[|t.current| - 1] == Data(record[|record| - 1], stream.source)
      && (AnyGlue(t) <==> AnyGlue(s) || (need && Joins(s, limit, stream.header)))
  {
    var t := CopyRecord(s, limit, stream, need, record);
    var rotates := s.atStart && |s.current| >= limit;
    var base := if rotates then [] else s.current;
    var header := if need || rotates then stream.header else "";
    assert t.current == base + Marked(header, stream.source) + Copied(record, stream.source);
    AppendGlue(base, header, record, stream.source);
    if rotates {
      assert !HasGlue([]);
      hide HasGlue;
      assert t.sealed[|s.sealed|] == s.current;
      if k :| 0 <= k < |s.sealed| && HasGlue(s.sealed[k]) {
        assert t.sealed[k] == s.sealed[k];
      }
    }
  }

  /** Copying records ends in the last byte of the last one, and a line starts behind it if that is a newline. */
  lemma {:induction false} CopyRecordsGlue(s: Copy, limit: nat, stream: Stream, need: bool, records: seq<string>)
    requires EndsInData(s.current) && records != [] && forall k :: 0 <= k < |records| ==> records[k] != ""
    ensures var t := CopyRecords(s, limit, stream, need, records); var last := records[|records| - 1];
      && t.current != [] && t.current[|t.current| - 1] == Data(last[|last| - 1], stream.source)
      && t.atStart == (last[|last| - 1] == '\n')
      && (AnyGlue(t) <==> AnyGlue(s) || (need && Joins(s, limit, stream.header)))
    decreases |records|
  {
    CopyRecordGlue(s, limit, stream, need, records[0]);
    if |records| > 1 {
      var next := CopyRecord(s, limit, stream, need, records[0]);
      hide CopyRecord, AnyGlue;
      CopyRecordsGlue(next, limit, stream, false, records[1..]);
      assert CopyRecords(s, limit, stream, need, records) == CopyRecords(next, limit, stream, false, records[1..]);
      hide CopyRecords;
    }
  }

  lemma {:induction false} LastOfRecords(input: string)
    requires input != ""
    ensures var records := Records(input);
      records != [] && records[|records| - 1] != "" && records[|records| - 1][|records[|records| - 1]| - 1] == input[|input| - 1]
    decreases |input|
  {
    var n := FirstRecord(input);
    var first, rest := input[..n], input[n..];
    assert Records(input) == [first] + Records(rest);
    if n < |input| {
      LastOfRecords(rest);
      hide Records, FirstRecord;
      assert rest[|rest| - 1] == input[|input| - 1];
    } else {
      assert first == input && Records(rest) == [];
    }
  }

  predicate EndsOpen(bytes: string) { bytes != "" && bytes[|bytes| - 1] != '\n' }

  /** What the copier knows after copying these bytes, the last stream of them empty or not, all with marker lines. */
  predicate BehindBytes(s: Copy, bytes: string, lastEmpty: bool) {
    && (s.current == [] <==> bytes == "")
    && (s.current != [] ==> s.current[|s.current| - 1].Data? && s.current[|s.current| - 1].byte == bytes[|bytes| - 1])
    && (s.atStart <==> !EndsOpen(bytes) || lastEmpty)
  }

  predicate LastEmpty(done: seq<Stream>) { done != [] && done[|done| - 1].bytes == "" }

  predicate Behind(s: Copy, done: seq<Stream>) { BehindBytes(s, AllBytes(done), LastEmpty(done)) }

  lemma {:induction false} AllBytesSnoc(done: seq<Stream>, stream: Stream)
    ensures AllBytes(done + [stream]) == AllBytes(done) + stream.bytes
  {
    if done == [] {
      assert done + [stream] == [stream] && AllBytes([stream]) == stream.bytes + AllBytes([stream][1..]);
    } else {
      AllBytesSnoc(done[1..], stream);
      assert (done + [stream])[1..] == done[1..] + [stream];
      assert AllBytes(done + [stream]) == done[0].bytes + (AllBytes(done[1..]) + stream.bytes);
    }
  }

  lemma {:induction false} CopyStreamsSnoc(s: Copy, limit: nat, done: seq<Stream>, stream: Stream)
    ensures CopyStreams(s, limit, done + [stream]) == CopyStream(CopyStreams(s, limit, done), limit, stream)
    decreases |done|
  {
    hide CopyStream;
    if done == [] {
      assert done + [stream] == [stream] && [stream][1..] == [];
    } else {
      assert (done + [stream])[1..] == done[1..] + [stream];
      CopyStreamsSnoc(CopyStream(s, limit, done[0]), limit, done[1..], stream);
    }
  }

  /** The next stream's marker line continues an unterminated record: the stream before it was empty, and the generation is not full. */
  predicate Interrupted(s: Copy, limit: nat, done: seq<Stream>, stream: Stream) {
    stream.bytes != "" && EndsOpen(AllBytes(done)) && LastEmpty(done) && |s.current| < limit
  }

  lemma CopyStreamGlue(s: Copy, limit: nat, done: seq<Stream>, stream: Stream)
    requires Behind(s, done) && IsMarkerLine(stream.header)
    ensures var t := CopyStream(s, limit, stream);
      && Behind(t, done + [stream])
      && (AnyGlue(t) <==> AnyGlue(s) || Interrupted(s, limit, done, stream))
  {
    AllBytesSnoc(done, stream);
    assert (done + [stream])[|done|] == stream;
    hide AllBytes, AnyGlue, CopyStream, IsMarkerLine, BehindBytes, EndsOpen;
    CopyStreamBehind(s, limit, AllBytes(done), LastEmpty(done), stream);
  }

  lemma CopyStreamBehind(s: Copy, limit: nat, bytes: string, lastEmpty: bool, stream: Stream)
    requires BehindBytes(s, bytes, lastEmpty) && IsMarkerLine(stream.header)
    ensures var t := CopyStream(s, limit, stream);
      && BehindBytes(t, bytes + stream.bytes, stream.bytes == "")
      && (AnyGlue(t) <==> AnyGlue(s) || (stream.bytes != "" && EndsOpen(bytes) && lastEmpty && |s.current| < limit))
  {
    assert stream.header != "";
    hide AnyGlue, CopyStream, IsMarkerLine;
    if stream.bytes == "" {
      assert bytes + stream.bytes == bytes;
      CopyEmpty(s, limit, stream);
      EmptyKeepsGlue(s);
    } else {
      CopyBytesGlue(s, limit, stream);
    }
  }

  lemma EmptyKeepsGlue(s: Copy)
    ensures AnyGlue(s.(atStart := true)) == AnyGlue(s)
  {
    hide HasGlue;
  }

  lemma CopyBytesGlue(s: Copy, limit: nat, stream: Stream)
    requires EndsInData(s.current) && IsMarkerLine(stream.header) && stream.bytes != ""
    ensures var t := CopyStream(s, limit, stream); var last := stream.bytes[|stream.bytes| - 1];
      && t.current != [] && t.current[|t.current| - 1] == Data(last, stream.source) && t.atStart == (last == '\n')
      && (AnyGlue(t) <==> AnyGlue(s) || (s.atStart && |s.current| < limit &&
                                        s.current != [] && s.current[|s.current| - 1].byte != '\n'))
  {
    var records := Records(stream.bytes);
    var separated := Separated(s, stream);
    var started := if separated == stream then s else s.(atStart := true);
    hide CopyRecords, Records, FirstRecord, IsRecord, IsMarkerLine, HasGlue, Joins, Separated, AnyGlue;
    SeparatedJoins(s, limit, stream);
    LastOfRecords(stream.bytes);
    RecordsNotEmpty(stream.bytes, Records(stream.bytes));
    CopyRecordsGlue(started, limit, separated, true, records);
  }

  lemma SeparatedJoins(s: Copy, limit: nat, stream: Stream)
    requires IsMarkerLine(stream.header)
    ensures var separated := Separated(s, stream); var started := if separated == stream then s else s.(atStart := true);
      && separated.source == stream.source && separated.bytes == stream.bytes && AnyGlue(started) == AnyGlue(s)
      && (Joins(started, limit, separated.header) <==>
            s.atStart && |s.current| < limit && s.current != [] && s.current[|s.current| - 1].byte != '\n')
  {
    var separated := Separated(s, stream);
    assert stream.header[0] != '\n';
    assert separated == stream <==> |separated.header| == |stream.header|;
    hide HasGlue;
  }

  /** Some stream meets what would glue its marker line. */
  predicate SomeInterrupted(limit: nat, streams: seq<Stream>) {
    exists k :: 0 <= k < |streams| && Interrupted(CopyStreams(Empty, limit, streams[..k]), limit, streams[..k], streams[k])
  }

  /**
   Every marker line starts a line, except exactly those of a stream that follows
   an unterminated record and at least one empty stream while the generation is
   not full: the empty stream gets no marker line, yet uses up the separator.
   */
  lemma {:induction false} MarkersStartLines(limit: nat, streams: seq<Stream>)
    requires forall x :: x in streams ==> IsMarkerLine(x.header)
    ensures var s := CopyStreams(Empty, limit, streams);
      && Behind(s, streams)
      && (AnyGlue(s) <==> SomeInterrupted(limit, streams))
    decreases |streams|
  {
    if streams == [] {
      assert CopyStreams(Empty, limit, streams) == Empty && AllBytes(streams) == "";
      hide CopyStreams, AllBytes, Interrupted;
    } else {
      var n := |streams| - 1;
      var done, last := streams[..n], streams[n];
      assert streams == done + [last] && last in streams;
      assert forall x :: x in done ==> x in streams;
      hide Behind, AnyGlue, CopyStream, CopyStreams, Interrupted, IsMarkerLine, SomeInterrupted;
      MarkersStartLines(limit, done);
      CopyStreamsSnoc(Empty, limit, done, last);
      CopyStreamGlue(CopyStreams(Empty, limit, done), limit, done, last);
      AnyInterrupted(limit, done, last);
    }
  }

  lemma AnyInterrupted(limit: nat, done: seq<Stream>, last: Stream)
    ensures SomeInterrupted(limit, done + [last]) <==>
            SomeInterrupted(limit, done) || Interrupted(CopyStreams(Empty, limit, done), limit, done, last)
  {
    hide Interrupted, CopyStreams;
    var all, n := done + [last], |done|;
    assert forall k :: 0 <= k <= n ==> all[..k] == done[..k];
    assert done[..n] == done && all[n] == last;
    if SomeInterrupted(limit, all) {
      var k :| 0 <= k < |all| && Interrupted(CopyStreams(Empty, limit, all[..k]), limit, all[..k], all[k]);
      assert k < n ==> all[k] == done[k];
    }
    if k :| 0 <= k < n && Interrupted(CopyStreams(Empty, limit, done[..k]), limit, done[..k], done[k]) {
      assert all[k] == done[k] && all[..k] == done[..k];
    }
    if Interrupted(CopyStreams(Empty, limit, done), limit, done, last) {
      assert all[..n] == done;
    }
  }

  lemma OneRecord(record: string)
    requires IsRecord(record)
    ensures Records(record) == [record]
  {
    var n := FirstRecord(record);
    assert n == |record| && record[..n] == record && record[n..] == "";
  }

  lemma CopySingle(s: Copy, limit: nat, stream: Stream, record: string)
    ensures CopyRecords(s, limit, stream, true, [record]) == CopyRecord(s, limit, stream, true, record)
  {
    hide CopyRecord;
    assert [record][1..] == [];
  }

  lemma CopyOneRecord(s: Copy, limit: nat, stream: Stream)
    requires IsRecord(stream.bytes)
    ensures var separated := Separated(s, stream);
      CopyStream(s, limit, stream)
        == CopyRecord(if separated == stream then s else s.(atStart := true), limit, separated, true, stream.bytes)
  {
    OneRecord(stream.bytes);
    var separated := Separated(s, stream);
    hide Records, CopyRecord, IsRecord;
    assert [stream.bytes][1..] == [] && [stream.bytes][0] == stream.bytes && separated.bytes == stream.bytes;
    var started := if separated == stream then s else s.(atStart := true);
    CopySingle(started, limit, separated, stream.bytes);
  }

  lemma CopyEmpty(s: Copy, limit: nat, stream: Stream)
    requires stream.bytes == "" && stream.header != ""
    ensures CopyStream(s, limit, stream) == s.(atStart := true)
  {
    var separated := Separated(s, stream);
    assert separated == stream <==> |separated.header| == |stream.header|;
  }

  lemma CopyThree(s: Copy, limit: nat, a: Stream, b: Stream, c: Stream)
    ensures CopyStreams(s, limit, [a, b, c]) == CopyStream(CopyStream(CopyStream(s, limit, a), limit, b), limit, c)
  {
    hide CopyStream;
    CopyStreamsSnoc(s, limit, [], a);
    CopyStreamsSnoc(s, limit, [a], b);
    CopyStreamsSnoc(s, limit, [a, b], c);
    assert [] + [a] == [a] && [a] + [b] == [a, b] && [a, b] + [c] == [a, b, c];
  }

  /** Two unterminated pieces with an empty stream between them: the second marker line is glued to the first piece. */
  lemma SeparatorIsUsedUp(limit: nat, first: Stream, empty: Stream, last: Stream)
    requires first.header != "" && empty.header != "" && empty.bytes == "" && |first.header| + |first.bytes| < limit
    requires IsRecord(first.bytes) && first.bytes[|first.bytes| - 1] != '\n' && IsRecord(last.bytes)
    ensures Erase(CopyStreams(Empty, limit, [first, empty, last]).current)
         == first.header + first.bytes + last.header + last.bytes
  {
    var s := CopyRecord(Empty, limit, first, true, first.bytes);
    var t := CopyRecord(s.(atStart := true), limit, last, true, last.bytes);
    assert s.current == [] + Marked(first.header, first.source) + Copied(first.bytes, first.source);
    assert t.current == s.current + Marked(last.header, last.source) + Copied(last.bytes, last.source);
    hide CopyStream, IsRecord;
    CopyOneRecord(Empty, limit, first);
    CopyEmpty(s, limit, empty);
    CopyOneRecord(s.(atStart := true), limit, last);
    hide CopyRecord, Separated;
    CopyThree(Empty, limit, first, empty, last);
    hide CopyStreams;
    ErasePieces([], first.header, first.bytes, first.source);
    ErasePieces(s.current, last.header, last.bytes, last.source);
    hide Erase, Marked, Copied;
  }

  /** Such a history, as the transaction stages it: the marker line of the third stream continues the record `a`. */
  lemma SeparatorCanBeMissing(limit: nat, a: string, b: string, origin: string)
    requires IsRecord(a) && a[|a| - 1] != '\n' && IsRecord(b)
    requires |MarkerLine("existing", true)| + |a| < limit
    ensures var logs := map[Previous := a, Current := "", SourceFile("log", false) := b];
      Erase(StagedCopy(logs, Some([Source("log", origin)]), limit, false).current)
        == MarkerLine("existing", true) + a + MarkerLine(origin, false) + b
  {
    var logs := map[Previous := a, Current := "", SourceFile("log", false) := b];
    var sources := [Source("log", origin)];
    SeparatorIsUsedUp(limit, Stream(0, MarkerLine("existing", true), a), Stream(1, MarkerLine("existing", false), ""),
                      Stream(3, MarkerLine(origin, false), b));
    hide MarkerLine, CopyStreams, Erase, IsRecord;
    assert SourceStreams(logs, sources[1..], 2) == [];
    assert Streams(logs, sources, true) == [Stream(0, MarkerLine("existing", true), a),
        Stream(1, MarkerLine("existing", false), ""), Stream(3, MarkerLine(origin, false), b)];
  }

  // --------------------------------------------------- settling the history

  /**
   A copier that only counts: the length of the current generation, whether a
   record starts next, and whether a marker line ended at or beyond the limit in
   the current generation and in the one rotated out last.
   */
  datatype Tally = Tally(size: nat, atStart: bool, crossed: bool, before: bool)

  /** A record of `length` bytes, terminated or not, behind a header of `header` bytes if one is due. */
  function Count(t: Tally, limit: nat, header: nat, need: bool, length: nat, terminated: bool): Tally {
    var rotates := t.atStart && t.size >= limit;
    var base := if rotates then 0 else t.size;
    var mark := if need || rotates then header else 0;
    Tally(base + mark + length, terminated,
          (!rotates && t.crossed) || (mark > 0 && base + mark >= limit),
          if rotates then t.crossed else t.before)
  }

  function CountRecords(t: Tally, limit: nat, header: nat, need: bool, records: seq<string>): Tally
    decreases |records|
  {
    if records == [] then t
    else
      var r := records[0];
      CountRecords(if r == "" then t else Count(t, limit, header, need, |r|, r[|r| - 1] == '\n'), limit, header, false, records[1..])
  }

  /** A header gets a separating newline behind an unterminated record. */
  function CountStreams(t: Tally, limit: nat, streams: seq<Stream>): Tally
    decreases |streams|
  {
    if streams == [] then t
    else
      var header, records := |streams[0].header|, Records(streams[0].bytes);
      var next := if t.atStart || header == 0 then CountRecords(t, limit, header, true, records)
                  else CountRecords(t.(atStart := true), limit, header + 1, true, records);
      CountStreams(next, limit, streams[1..])
  }

  const Nothing := Tally(0, true, false, false)

  /** The generations are settled exactly as the tally says. */
  predicate Tallies(s: Copy, t: Tally, limit: nat) {
    && t.size == |s.current| && t.atStart == s.atStart
    && (Settled(Erase(s.current), limit) <==> !t.crossed)
    && (if s.sealed == [] then !t.before else Settled(Erase(s.sealed[|s.sealed| - 1]), limit) <==> !t.before)
    && (s.current != [] && s.current[|s.current| - 1].byte == '\n' ==> s.atStart)
  }

  /** A newline at or beyond the limit with something behind it: only a header can put one there. */
  lemma AppendSettles(base: string, header: string, record: string, limit: nat)
    requires base != "" && base[|base| - 1] == '\n' ==> |base| < limit
    requires IsHeader(header) && IsRecord(record)
    ensures Settled(base + header + record, limit) <==>
            Settled(base, limit) && !(header != "" && |base| + |header| >= limit)
  {
    var file := base + header + record;
    var k := |base| + |header|;
    if header != "" && k >= limit {
      assert file[k - 1] == header[|header| - 1] == '\n';
    } else {
      if Settled(base, limit) {
        forall i | 0 <= i < |file| - 1 && i + 1 >= limit
          ensures file[i] != '\n'
        {
          assert i < |base| || i >= k;
          assert file[i] == if i < |base| then base[i] else record[i - k];
        }
      }
      if Settled(file, limit) {
        forall i | 0 <= i < |base| - 1 && i + 1 >= limit
          ensures base[i] != '\n'
        {
          assert file[i] == base[i];
        }
      }
    }
  }

  lemma ErasePieces(base: seq<Cell>, header: string, record: string, source: nat)
    ensures Erase(base + Marked(header, source) + Copied(record, source)) == Erase(base) + header + record
    ensures base != [] ==> Erase(base)[|base| - 1] == base[|base| - 1].byte
  {
  }

  lemma CopyRecordTallies(s: Copy, t: Tally, limit: nat, stream: Stream, need: bool, record: string)
    requires Tallies(s, t, limit) && IsHeader(stream.header) && IsRecord(record)
    ensures Tallies(CopyRecord(s, limit, stream, need, record),
                    Count(t, limit, |stream.header|, need, |record|, record[|record| - 1] == '\n'), limit)
  {
    var rotates := s.atStart && |s.current| >= limit;
    var base := if rotates then [] else s.current;
    var header := if need || rotates then stream.header else "";
    var v := CopyRecord(s, limit, stream, need, record);
    assert v.current == base + Marked(header, stream.source) + Copied(record, stream.source);
    assert v.current[|v.current| - 1].byte == record[|record| - 1];
    assert Settled("", limit) && Erase([]) == "";
    ErasePieces(base, header, record, stream.source);
    hide Settled, Copied, Marked, Erase, IsHeader, IsRecord;
    AppendSettles(Erase(base), header, record, limit);
  }

  lemma {:induction false} CopyRecordsTallies(s: Copy, t: Tally, limit: nat, stream: Stream, need: bool, records: seq<string>)
    requires Tallies(s, t, limit) && IsHeader(stream.header) && forall r :: r in records ==> IsRecord(r)
    ensures Tallies(CopyRecords(s, limit, stream, need, records), CountRecords(t, limit, |stream.header|, need, records), limit)
    decreases |records|
  {
    if records != [] {
      var r := records[0];
      assert r in records && r != "";
      CopyRecordTallies(s, t, limit, stream, need, r);
      assert forall x :: x in records[1..] ==> x in records;
      var v, u := CopyRecord(s, limit, stream, need, r), Count(t, limit, |stream.header|, need, |r|, r[|r| - 1] == '\n');
      hide Tallies, CopyRecord, Count, IsHeader, IsRecord;
      CopyRecordsTallies(v, u, limit, stream, false, records[1..]);
    }
  }

  lemma {:induction false} CopyStreamsTallies(s: Copy, t: Tally, limit: nat, streams: seq<Stream>)
    requires Tallies(s, t, limit) && forall x :: x in streams ==> x.header == "" || IsMarkerLine(x.header)
    ensures Tallies(CopyStreams(s, limit, streams), CountStreams(t, limit, streams), limit)
    decreases |streams|
  {
    if streams != [] {
      var stream := streams[0];
      assert stream in streams;
      var separated := Separated(s, stream);
      var records := Records(stream.bytes);
      RecordsPartition(stream.bytes);
      assert IsHeader(separated.header) by {
        assert separated == stream || separated.header[1..] == stream.header;
      }
      var v := if separated == stream then s else s.(atStart := true);
      var u := if separated == stream then t else t.(atStart := true);
      assert Tallies(v, u, limit);
      assert |separated.header| == if separated == stream then |stream.header| else |stream.header| + 1;
      hide Tallies, CopyRecords, CountRecords, Records, IsMarkerLine, IsHeader, IsRecord;
      CopyRecordsTallies(v, u, limit, separated, true, records);
      assert forall x :: x in streams[1..] ==> x in streams;
      CopyStreamsTallies(CopyStream(s, limit, stream), CountRecords(u, limit, |separated.header|, true, records), limit, streams[1..]);
    }
  }

  /**
   The check that triggers migrations reports nothing left to do after a migration
   exactly if no marker line that was copied into a retained generation ends at or
   beyond the limit, which the lengths of headers and records decide.
   */
  lemma LabelledMigrationSettles(limit: nat, streams: seq<Stream>)
    requires forall x :: x in streams ==> x.header == "" || IsMarkerLine(x.header)
    ensures var t := CountStreams(Nothing, limit, streams);
      (forall g :: g in Retained(CopyStreams(Empty, limit, streams)) ==> Settled(Erase(g), limit)) <==> !t.crossed && !t.before
  {
    CopyStreamsTallies(Empty, Nothing, limit, streams);
    var s := CopyStreams(Empty, limit, streams);
    hide CopyStreams, CountStreams, Settled, Erase;
    assert s.current in Retained(s);
    if s.sealed != [] {
      assert s.sealed[|s.sealed| - 1] in Retained(s);
    }
  }

  /**
   Whatever the limit, a history whose first stream leaves too little room for the
   next marker line is staged into a generation that would be migrated again.
   */
  lemma LabelledMigrationMayNotSettle(limit: nat, a: string, b: string, origin: string)
    requires IsRecord(a) && a[|a| - 1] == '\n' && IsRecord(b) && '\n' !in origin
    requires |MarkerLine("existing", false)| + |a| < limit <= |MarkerLine("existing", false)| + |a| + |MarkerLine(origin, false)|
    ensures var logs := map[Current := a, SourceFile("log", false) := b];
      var s := StagedCopy(logs, Some([Source("log", origin)]), limit, false);
      exists g :: g in Retained(s) && !Settled(Erase(g), limit)
  {
    var logs := map[Current := a, SourceFile("log", false) := b];
    var first, second := Stream(1, MarkerLine("existing", false), a), Stream(3, MarkerLine(origin, false), b);
    var sources := [Source("log", origin)];
    assert SourceStreams(logs, sources[1..], 2) == [];
    assert Streams(logs, sources, true) == [first, second];
    OneRecord(a);
    OneRecord(b);
    MarkerLineIsLine("existing", false);
    MarkerLineIsLine(origin, false);
    LabelledMigrationSettles(limit, [first, second]);
    hide MarkerLine, StagedCopy, IsMarkerLine, Retained, CopyStreams, Settled, Records, Streams, SourceStreams, Erase;
    var t := Count(Nothing, limit, |first.header|, true, |a|, true);
    CountSingle(Nothing, limit, |first.header|, a);
    CountSingle(t, limit, |second.header|, b);
    assert [first, second][1..] == [second] && [second][1..] == [];
    assert CountStreams(Nothing, limit, [first, second]) == CountStreams(t, limit, [second]);
    assert CountStreams(t, limit, [second]) == Count(t, limit, |second.header|, true, |b|, b[|b| - 1] == '\n');
  }

  lemma CountSingle(t: Tally, limit: nat, header: nat, record: string)
    requires record != ""
    ensures CountRecords(t, limit, header, true, [record]) == Count(t, limit, header, true, |record|, record[|record| - 1] == '\n')
  {
    hide Count;
    assert [record][1..] == [];
  }
}
