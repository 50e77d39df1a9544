/**
 What a migration reads: every generation of the history and of every former
 stream, each once, in order, and each behind its own marker line.
 */
module MigrationInputs {
  import opened Options
  import opened MigrationCopy
  import opened MigrationHistory
  import opened MigrationTransaction

  // ------------------------------------------------------------- the bytes

  /** The bytes of these former streams, in their order, the previous generation of each before the current one. */
  function FormerBytes(logs: map<LogPath, string>, sources: seq<Source>): string {
    if sources == [] then ""
    else BytesAt(logs, SourceFile(sources[0].name, true)) + BytesAt(logs, SourceFile(sources[0].name, false)) +
         FormerBytes(logs, sources[1..])
  }

  lemma {:induction false} SourceStreamsBytes(logs: map<LogPath, string>, sources: seq<Source>, k: nat)
    ensures AllBytes(SourceStreams(logs, sources, k)) == FormerBytes(logs, sources)
    decreases |sources|
  {
    if sources != [] {
      var name, origin := sources[0].name, sources[0].origin;
      var a := StreamAt(logs, SourceFile(name, true), 2 * k, MarkerLine(origin, true));
      var b := StreamAt(logs, SourceFile(name, false), 2 * k + 1, MarkerLine(origin, false));
      var c := SourceStreams(logs, sources[1..], k + 1);
      StreamAtBytes(logs, SourceFile(name, true), 2 * k, MarkerLine(origin, true));
      StreamAtBytes(logs, SourceFile(name, false), 2 * k + 1, MarkerLine(origin, false));
      AllBytesSplit(a + b, c);
      AllBytesSplit(a, b);
      SourceStreamsBytes(logs, sources[1..], k + 1);
      hide StreamAt, BytesAt, AllBytes, MarkerLine;
    }
  }

  lemma StreamsBytes(logs: map<LogPath, string>, sources: seq<Source>, labelled: bool)
    ensures AllBytes(Streams(logs, sources, labelled)) == BytesAt(logs, Previous) + BytesAt(logs, Current) + FormerBytes(logs, sources)
  {
    var first, second := if labelled then MarkerLine("existing", true) else "", if labelled then MarkerLine("existing", false) else "";
    var a, b, c := StreamAt(logs, Previous, 0, first), StreamAt(logs, Current, 1, second), SourceStreams(logs, sources, 1);
    StreamAtBytes(logs, Previous, 0, first);
    StreamAtBytes(logs, Current, 1, second);
    SourceStreamsBytes(logs, sources, 1);
    AllBytesSplit(a + b, c);
    AllBytesSplit(a, b);
    hide StreamAt, BytesAt, AllBytes, MarkerLine, SourceStreams;
  }

  /**
   All that is staged, marker lines aside, is the existing history and then every
   former stream, both generations of each, in the order they are listed.
   */
  lemma EverythingIsStaged(logs: map<LogPath, string>, sources: Option<seq<Source>>, limit: nat, force: bool)
    ensures DataOf(Join(All(StagedCopy(logs, sources, limit, force))))
         == BytesAt(logs, Previous) + BytesAt(logs, Current) + FormerBytes(logs, Listed(sources))
  {
    var labelled := !force || Listed(sources) != [];
    NothingLost(limit, Streams(logs, Listed(sources), labelled));
    StreamsBytes(logs, Listed(sources), labelled);
    hide CopyStreams, Streams, Faithful;
  }

  // ------------------------------------------------------- where they stand

  /** The generations at their places among the inputs, numbered as their cells are. */
  function PathOf(sources: seq<Source>, n: nat): Option<LogPath> {
    if n == 0 then Some(Previous)
    else if n == 1 then Some(Current)
    else if n / 2 - 1 < |sources| then Some(SourceFile(sources[n / 2 - 1].name, n % 2 == 0))
    else None
  }

  /** The marker line that is due for it: what it came from, and which generation. */
  function MarkerOf(sources: seq<Source>, n: nat): string {
    if n < 2 then MarkerLine("existing", n == 0)
    else if n / 2 - 1 < |sources| then MarkerLine(sources[n / 2 - 1].origin, n % 2 == 0)
    else ""
  }

  /** The bytes copied from one input, wherever they went. */
  function DataFrom(cells: seq<Cell>, n: nat): string {
    if cells == [] then ""
    else (if cells[0].Data? && cells[0].source == n then [cells[0].byte] else "") + DataFrom(cells[1..], n)
  }

  lemma {:induction false} DataFromSplit(a: seq<Cell>, b: seq<Cell>, n: nat)
    ensures DataFrom(a + b, n) == DataFrom(a, n) + DataFrom(b, n)
  {
    if a == [] {
      assert a + b == b;
    } else {
      DataFromSplit(a[1..], b, n);
      var whole := a + b;
      assert whole[0] == a[0] && whole[1..] == a[1..] + b;
      var first := if a[0].Data? && a[0].source == n then [a[0].byte] else "";
      assert first + (DataFrom(a[1..], n) + DataFrom(b, n)) == first + DataFrom(a[1..], n) + DataFrom(b, n);
    }
  }

  lemma {:induction false} DataFromCopied(bytes: string, source: nat, n: nat)
    ensures DataFrom(Copied(bytes, source), n) == if source == n then bytes else ""
  {
    if bytes != "" {
      DataFromCopied(bytes[1..], source, n);
      assert Copied(bytes, source)[1..] == Copied(bytes[1..], source);
    }
  }

  lemma {:induction false} DataFromMarked(bytes: string, source: nat, n: nat)
    ensures DataFrom(Marked(bytes, source), n) == ""
  {
    if bytes != "" {
      DataFromMarked(bytes[1..], source, n);
      assert Marked(bytes, source)[1..] == Marked(bytes[1..], source);
    }
  }

  lemma DataFromSnoc(generations: seq<seq<Cell>>, g: seq<Cell>, n: nat)
    ensures DataFrom(Join(generations + [g]), n) == DataFrom(Join(generations), n) + DataFrom(g, n)
  {
    JoinSplit(generations, [g]);
    assert Join([g]) == g + Join([]) == g;
    DataFromSplit(Join(generations), g, n);
  }

  lemma AppendFrom(cells: seq<Cell>, header: string, record: string, source: nat, n: nat)
    ensures DataFrom(cells + Marked(header, source) + Copied(record, source), n)
         == DataFrom(cells, n) + if source == n then record else ""
  {
    hide DataFrom;
    DataFromMarked(header, source, n);
    DataFromCopied(record, source, n);
    DataFromSplit(cells, Marked(header, source), n);
    DataFromSplit(cells + Marked(header, source), Copied(record, source), n);
  }

  lemma CopyRecordFrom(s: Copy, limit: nat, stream: Stream, need: bool, record: string, n: nat)
    ensures DataFrom(Join(All(CopyRecord(s, limit, stream, need, record))), n)
         == DataFrom(Join(All(s)), n) + if stream.source == n then record else ""
  {
    if record != "" {
      var rotates := s.atStart && |s.current| >= limit;
      var base := if rotates then [] else s.current;
      var header := if need || rotates then stream.header else "";
      var current := base + Marked(header, stream.source) + Copied(record, stream.source);
      var t := CopyRecord(s, limit, stream, need, record);
      assert t.current == current && t.sealed == if rotates then All(s) else s.sealed;
      assert DataFrom([], n) == "";
      hide CopyRecord, DataFrom, Join, Marked, Copied;
      AppendFrom(base, header, record, stream.source, n);
      DataFromSnoc(t.sealed, current, n);
      DataFromSnoc(s.sealed, s.current, n);
    }
  }

  lemma {:induction false} CopyRecordsFrom(s: Copy, limit: nat, stream: Stream, need: bool, records: seq<string>, n: nat)
    ensures DataFrom(Join(All(CopyRecords(s, limit, stream, need, records))), n)
         == DataFrom(Join(All(s)), n) + if stream.source == n then Flatten(records) else ""
    decreases |records|
  {
    if records != [] {
      CopyRecordFrom(s, limit, stream, need, records[0], n);
      CopyRecordsFrom(CopyRecord(s, limit, stream, need, records[0]), limit, stream, false, records[1..], n);
      var before := DataFrom(Join(All(s)), n);
      assert before + records[0] + Flatten(records[1..]) == before + (records[0] + Flatten(records[1..]));
      hide CopyRecord, Join, DataFrom;
    }
  }

  function BytesOf(stream: Stream, n: nat): string { if stream.source == n then stream.bytes else "" }

  function BytesFrom(streams: seq<Stream>, n: nat): string {
    if streams == [] then "" else BytesOf(streams[0], n) + BytesFrom(streams[1..], n)
  }

  lemma {:induction false} CopyStreamsFrom(s: Copy, limit: nat, streams: seq<Stream>, n: nat)
    ensures DataFrom(Join(All(CopyStreams(s, limit, streams))), n) == DataFrom(Join(All(s)), n) + BytesFrom(streams, n)
    decreases |streams|
  {
    if streams != [] {
      var stream := streams[0];
      var separated := Separated(s, stream);
      var started := if separated == stream then s else s.(atStart := true);
      assert All(started) == All(s);
      RecordsPartition(stream.bytes);
      CopyRecordsFrom(started, limit, separated, true, Records(stream.bytes), n);
      hide CopyRecords, Records, Join, DataFrom;
      CopyStreamsFrom(CopyStream(s, limit, stream), limit, streams[1..], n);
    }
  }

  lemma {:induction false} BytesFromSplit(a: seq<Stream>, b: seq<Stream>, n: nat)
    ensures BytesFrom(a + b, n) == BytesFrom(a, n) + BytesFrom(b, n)
  {
    hide BytesOf;
    if a == [] {
      assert a + b == b;
    } else {
      BytesFromSplit(a[1..], b, n);
      var whole := a + b;
      assert whole[0] == a[0] && whole[1..] == a[1..] + b;
      var first := BytesOf(a[0], n);
      assert first + (BytesFrom(a[1..], n) + BytesFrom(b, n)) == first + BytesFrom(a[1..], n) + BytesFrom(b, n);
    }
  }

  lemma StreamAtFrom(logs: map<LogPath, string>, path: LogPath, source: nat, header: string, n: nat)
    ensures BytesFrom(StreamAt(logs, path, source, header), n) == if source == n then BytesAt(logs, path) else ""
  {
    var one := StreamAt(logs, path, source, header);
    if one != [] {
      assert one[1..] == [];
    }
  }

  /** The number of the j-th input's cells; the history itself is input 0. */
  function Number(j: nat, previous: bool): nat { 2 * j + if previous then 0 else 1 }

  lemma {:induction false} SourceStreamsFrom(logs: map<LogPath, string>, sources: seq<Source>, k: nat, j: nat, previous: bool)
    ensures BytesFrom(SourceStreams(logs, sources, k), Number(j, previous)) ==
            if k <= j < k + |sources| then BytesAt(logs, SourceFile(sources[j - k].name, previous)) else ""
    decreases |sources|
  {
    if sources != [] {
      hide StreamAt, BytesAt, MarkerLine;
      var n := Number(j, previous);
      var name, origin := sources[0].name, sources[0].origin;
      var older, newer := SourceFile(name, true), SourceFile(name, false);
      var a, b := StreamAt(logs, older, 2 * k, MarkerLine(origin, true)), StreamAt(logs, newer, 2 * k + 1, MarkerLine(origin, false));
      var c := SourceStreams(logs, sources[1..], k + 1);
      assert SourceStreams(logs, sources, k) == a + b + c;
      StreamAtFrom(logs, older, 2 * k, MarkerLine(origin, true), n);
      StreamAtFrom(logs, newer, 2 * k + 1, MarkerLine(origin, false), n);
      ThreeFrom(a, b, c, n);
      hide SourceStreams, BytesFrom;
      SourceStreamsFrom(logs, sources[1..], k + 1, j, previous);
      assert k < j < k + |sources| ==> sources[1..][j - (k + 1)] == sources[j - k];
    }
  }

  lemma ThreeFrom(a: seq<Stream>, b: seq<Stream>, c: seq<Stream>, n: nat)
    ensures BytesFrom(a + b + c, n) == BytesFrom(a, n) + BytesFrom(b, n) + BytesFrom(c, n)
  {
    hide BytesFrom;
    BytesFromSplit(a + b, c, n);
    BytesFromSplit(a, b, n);
  }

  lemma StreamsFrom(logs: map<LogPath, string>, sources: seq<Source>, labelled: bool, n: nat)
    ensures BytesFrom(Streams(logs, sources, labelled), n) ==
            if PathOf(sources, n).Some? then BytesAt(logs, PathOf(sources, n).value) else ""
  {
    hide StreamAt, BytesAt, BytesFrom, MarkerLine, SourceStreams;
    var first, second := if labelled then MarkerLine("existing", true) else "", if labelled then MarkerLine("existing", false) else "";
    StreamAtFrom(logs, Previous, 0, first, n);
    StreamAtFrom(logs, Current, 1, second, n);
    assert n == Number(n / 2, n % 2 == 0);
    SourceStreamsFrom(logs, sources, 1, n / 2, n % 2 == 0);
    ThreeFrom(StreamAt(logs, Previous, 0, first), StreamAt(logs, Current, 1, second), SourceStreams(logs, sources, 1), n);
  }

  // ------------------------------------------------------ behind its marker

  /**
   The copied byte at `i` stands behind the marker line of its input, with nothing
   between them but other bytes of that input.
   */
  ghost predicate BehindMarker(g: seq<Cell>, i: nat, marker: string)
    requires i < |g|
  {
    var n := g[i].source;
    exists j: nat :: j + |marker| <= i && MarkedAt(g, j, marker, n) &&
                     forall k :: j + |marker| <= k <= i ==> g[k].Data? && g[k].source == n
  }

  predicate MarkedAt(g: seq<Cell>, j: nat, marker: string, n: nat) {
    j + |marker| <= |g| && g[j..j + |marker|] == Marked(marker, n)
  }

  /** Every copied byte of the generation is introduced by the marker line of its input. */
  ghost predicate AllIntroduced(g: seq<Cell>, sources: seq<Source>) {
    forall i: nat :: i < |g| && g[i].Data? ==> PathOf(sources, g[i].source).Some? && BehindMarker(g, i, MarkerOf(sources, g[i].source))
  }

  ghost predicate EveryIntroduced(s: Copy, sources: seq<Source>) {
    AllIntroduced(s.current, sources) && forall k :: 0 <= k < |s.sealed| ==> AllIntroduced(s.sealed[k], sources)
  }

  /** The generation ends in the marker line of this input and perhaps bytes of it. */
  ghost predicate EndsIn(g: seq<Cell>, n: nat, marker: string) {
    exists j: nat :: MarkedAt(g, j, marker, n) && forall k :: j + |marker| <= k < |g| ==> g[k].Data? && g[k].source == n
  }

  lemma BehindLonger(g: seq<Cell>, more: seq<Cell>, i: nat, marker: string)
    requires i < |g| && BehindMarker(g, i, marker)
    ensures BehindMarker(g + more, i, marker)
  {
    var n := g[i].source;
    var j: nat :| j + |marker| <= i && MarkedAt(g, j, marker, n) &&
                  forall k :: j + |marker| <= k <= i ==> g[k].Data? && g[k].source == n;
    assert (g + more)[j..j + |marker|] == g[j..j + |marker|];
    assert MarkedAt(g + more, j, marker, n);
  }

  lemma AppendRecord(g: seq<Cell>, record: string, n: nat, sources: seq<Source>)
    requires EndsIn(g, n, MarkerOf(sources, n)) && PathOf(sources, n).Some?
    requires forall i: nat :: i < |g| && g[i].Data? ==> PathOf(sources, g[i].source).Some? && BehindMarker(g, i, MarkerOf(sources, g[i].source))
    ensures AllIntroduced(g + Copied(record, n), sources) && EndsIn(g + Copied(record, n), n, MarkerOf(sources, n))
  {
    var t, marker := g + Copied(record, n), MarkerOf(sources, n);
    var j: nat :| MarkedAt(g, j, marker, n) && forall k :: j + |marker| <= k < |g| ==> g[k].Data? && g[k].source == n;
    assert t[j..j + |marker|] == g[j..j + |marker|];
    assert MarkedAt(t, j, marker, n);
    forall i: nat | i < |t| && t[i].Data?
      ensures PathOf(sources, t[i].source).Some? && BehindMarker(t, i, MarkerOf(sources, t[i].source))
    {
      if i < |g| {
        BehindLonger(g, Copied(record, n), i, MarkerOf(sources, g[i].source));
      } else {
        assert j + |marker| <= i && t[i].source == n;
      }
    }
  }

  /** A header that introduces an input: its marker line, perhaps behind a separating newline. */
  predicate Heads(header: string, marker: string) {
    header == marker || header == "\n" + marker
  }

  lemma AppendHeader(g: seq<Cell>, header: string, n: nat, sources: seq<Source>)
    requires AllIntroduced(g, sources) && Heads(header, MarkerOf(sources, n))
    ensures AllIntroduced(g + Marked(header, n), sources) && EndsIn(g + Marked(header, n), n, MarkerOf(sources, n))
  {
    var t, marker := g + Marked(header, n), MarkerOf(sources, n);
    forall i: nat | i < |t| && t[i].Data?
      ensures PathOf(sources, t[i].source).Some? && BehindMarker(t, i, MarkerOf(sources, t[i].source))
    {
      assert i < |g|;
      BehindLonger(g, Marked(header, n), i, MarkerOf(sources, g[i].source));
    }
    var j := |g| + |header| - |marker|;
    assert t[j..j + |marker|] == Marked(marker, n);
    assert MarkedAt(t, j, marker, n);
  }

  lemma CopyRecordIntroduced(s: Copy, limit: nat, stream: Stream, need: bool, record: string, sources: seq<Source>)
    requires EveryIntroduced(s, sources) && Heads(stream.header, MarkerOf(sources, stream.source)) && PathOf(sources, stream.source).Some?
    requires !need ==> EndsIn(s.current, stream.source, MarkerOf(sources, stream.source))
    ensures var t := CopyRecord(s, limit, stream, need, record);
      EveryIntroduced(t, sources) && (record != "" || !need ==> EndsIn(t.current, stream.source, MarkerOf(sources, stream.source)))
  {
    if record != "" {
      var n := stream.source;
      var t := CopyRecord(s, limit, stream, need, record);
      var rotates := s.atStart && |s.current| >= limit;
      var base := if rotates then [] else s.current;
      assert AllIntroduced([], sources);
      hide BehindMarker, EndsIn, Heads, MarkerOf, PathOf;
      if need || rotates {
        AppendHeader(base, stream.header, n, sources);
        AppendRecord(base + Marked(stream.header, n), record, n, sources);
      } else {
        AppendRecord(base, record, n, sources);
        assert t.current == base + [] + Copied(record, n) == base + Copied(record, n);
      }
    }
  }

  lemma {:induction false} CopyRecordsIntroduced(s: Copy, limit: nat, stream: Stream, need: bool, records: seq<string>, sources: seq<Source>)
    requires EveryIntroduced(s, sources) && Heads(stream.header, MarkerOf(sources, stream.source)) && PathOf(sources, stream.source).Some?
    requires !need ==> EndsIn(s.current, stream.source, MarkerOf(sources, stream.source))
    requires forall k :: 0 <= k < |records| ==> records[k] != ""
    ensures EveryIntroduced(CopyRecords(s, limit, stream, need, records), sources)
    decreases |records|
  {
    if records != [] {
      CopyRecordIntroduced(s, limit, stream, need, records[0], sources);
      hide EveryIntroduced, CopyRecord, EndsIn, Heads, MarkerOf, PathOf;
      CopyRecordsIntroduced(CopyRecord(s, limit, stream, need, records[0]), limit, stream, false, records[1..], sources);
    }
  }

  /** Every stream carries the marker line of the input it is numbered for. */
  predicate RightMarkers(streams: seq<Stream>, sources: seq<Source>) {
    forall k :: 0 <= k < |streams| ==>
      PathOf(sources, streams[k].source).Some? && streams[k].header == MarkerOf(sources, streams[k].source)
  }

  lemma {:induction false} CopyStreamsIntroduced(s: Copy, limit: nat, streams: seq<Stream>, sources: seq<Source>)
    requires EveryIntroduced(s, sources) && RightMarkers(streams, sources)
    ensures EveryIntroduced(CopyStreams(s, limit, streams), sources)
    decreases |streams|
  {
    if streams != [] {
      var stream := streams[0];
      var separated := Separated(s, stream);
      var started := if separated == stream then s else s.(atStart := true);
      assert Heads(separated.header, MarkerOf(sources, separated.source)) && EveryIntroduced(started, sources);
      assert PathOf(sources, separated.source).Some? && separated.bytes == stream.bytes;
      var records := Records(stream.bytes);
      RecordsNotEmpty(stream.bytes, records);
      hide CopyRecords, EveryIntroduced, Heads, MarkerOf, PathOf;
      CopyRecordsIntroduced(started, limit, separated, true, records, sources);
      CopyStreamsIntroduced(CopyStream(s, limit, stream), limit, streams[1..], sources);
    }
  }

  lemma {:induction false} SourceMarkers(logs: map<LogPath, string>, sources: seq<Source>, rest: seq<Source>, k: nat)
    requires 0 < k && k - 1 + |rest| == |sources| && rest == sources[k - 1..]
    ensures RightMarkers(SourceStreams(logs, rest, k), sources)
    decreases |rest|
  {
    if rest != [] {
      assert rest[1..] == sources[k..] && rest[0] == sources[k - 1];
      SourceMarkers(logs, sources, rest[1..], k + 1);
      hide MarkerLine;
    }
  }

  lemma StreamsMarkers(logs: map<LogPath, string>, sources: seq<Source>)
    ensures RightMarkers(Streams(logs, sources, true), sources)
  {
    assert sources[0..] == sources;
    SourceMarkers(logs, sources, sources, 1);
    hide MarkerLine, SourceStreams;
  }

  /**
   Each generation of each input is staged byte for byte in its own cells, and in
   a labelled migration every one of those bytes stands behind the marker line that
   names its origin and its generation.
   */
  lemma EachInputIsStaged(logs: map<LogPath, string>, sources: Option<seq<Source>>, limit: nat, force: bool, n: nat)
    ensures var s := StagedCopy(logs, sources, limit, force); var path := PathOf(Listed(sources), n);
      DataFrom(Join(All(s)), n) == if path.Some? then BytesAt(logs, path.value) else ""
    ensures !force || Listed(sources) != [] ==> EveryIntroduced(StagedCopy(logs, sources, limit, force), Listed(sources))
  {
    var list := Listed(sources);
    var labelled := !force || list != [];
    assert Join(All(Empty)) == [] by { assert All(Empty) == [[]]; }
    CopyStreamsFrom(Empty, limit, Streams(logs, list, labelled), n);
    StreamsFrom(logs, list, labelled, n);
    if labelled {
      StreamsMarkers(logs, list);
      assert EveryIntroduced(Empty, list);
      hide EveryIntroduced, CopyStreams;
      CopyStreamsIntroduced(Empty, limit, Streams(logs, list, true), list);
    }
    hide CopyStreams, Streams, PathOf;
  }

  /**
   No byte of a former stream disappears unstaged: whatever file a completed
   migration has removed, its bytes were all staged at its own place.
   */
  lemma RemovedWasStaged(d: Disk, sources: Option<seq<Source>>, limit: nat, force: bool, path: LogPath) returns (n: nat)
    requires d.marker == Missing && path.SourceFile? && path in d.logs && path !in Final(d, sources, limit, force).logs
    ensures DataFrom(Join(All(StagedCopy(d.logs, sources, limit, force))), n) == d.logs[path]
    ensures PathOf(Listed(sources), n) == Some(path)
  {
    hide Final, StagedCopy, Join, All, DataFrom, PathOf, SourcePaths, Listed, EveryIntroduced;
    OnlySourcesGo(d, sources, limit, force, path);
    n := PlaceOf(Listed(sources), path);
    EachInputIsStaged(d.logs, sources, limit, force, n);
  }

  /** A source file is one of the inputs. */
  lemma PlaceOf(list: seq<Source>, path: LogPath) returns (n: nat)
    requires path in SourcePaths(list)
    ensures PathOf(list, n) == Some(path)
  {
    hide PathOf;
    var s, previous :| s in list && previous in {true, false} && path == SourceFile(s.name, previous);
    var k :| 0 <= k < |list| && list[k] == s;
    n := 2 * (k + 1) + if previous then 0 else 1;
    PathAt(list, k, previous);
  }

  lemma PathAt(list: seq<Source>, k: nat, previous: bool)
    requires k < |list|
    ensures PathOf(list, 2 * (k + 1) + if previous then 0 else 1) == Some(SourceFile(list[k].name, previous))
  {
    var n: nat := 2 * (k + 1) + if previous then 0 else 1;
    assert n / 2 - 1 == k && (n % 2 == 0) == previous;
  }

  lemma OnlySourcesGo(d: Disk, sources: Option<seq<Source>>, limit: nat, force: bool, path: LogPath)
    requires d.marker == Missing && path.SourceFile? && path in d.logs && path !in Final(d, sources, limit, force).logs
    ensures path in SourcePaths(Listed(sources))
  {
    hide StagedCopy, Streams, SourcePaths, Found, StagedCurrent, LastSealed;
  }

  // --------------------------------------------------------- what is left

  /** What a migration leaves of this disk when it staged this copy of it and removes these files. */
  ghost predicate Replaces(d: Disk, v: Disk, s: Copy, removed: set<LogPath>) {
    && v.marker == Missing
    && Get(v.logs, Current) == Some(Erase(s.current))
    && Get(v.logs, Previous) == (if s.sealed == [] then None else Some(Erase(s.sealed[|s.sealed| - 1])))
    && Staged !in v.logs && StagedPrevious !in v.logs
    && (forall p :: p in removed ==> p !in v.logs)
    && (forall p: LogPath :: p.SourceFile? && p !in removed ==> Get(v.logs, p) == Get(d.logs, p))
  }

  /**
   If any generation of any former stream exists, a completed migration replaces the
   history with the last two staged generations and removes all former streams and
   nothing else; if none does, it leaves the history and every other file alone.
   */
  lemma LegacyIsMigrated(d: Disk, sources: seq<Source>, limit: nat)
    requires d.marker == Missing
    ensures var v := Final(d, Some(sources), limit, false);
      if exists s, previous :: s in sources && SourceFile(s.name, previous) in d.logs then
        Replaces(d, v, StagedCopy(d.logs, Some(sources), limit, false), set s, previous | s in sources && previous in {true, false} :: SourceFile(s.name, previous))
      else v.marker == Missing && SameInputs(d.logs, v.logs)
  {
    var any := exists s, previous :: s in sources && SourceFile(s.name, previous) in d.logs;
    if any {
      var s, previous :| s in sources && SourceFile(s.name, previous) in d.logs;
      assert SourceFile(s.name, previous) in SourcePaths(sources);
      assert Found(d.logs, Some(sources), false);
      SomethingToStage(d, Some(sources), false);
      MigrationReplaces(d, Some(sources), limit, false);
    } else {
      assert !Found(d.logs, Some(sources), false);
      hide StagedCopy, Streams;
    }
  }

  lemma MigrationReplaces(d: Disk, sources: Option<seq<Source>>, limit: nat, force: bool)
    requires d.marker == Missing && Found(d.logs, sources, force) && Streams(d.logs, Listed(sources), true) != []
    ensures Replaces(d, Fresh(d, sources, limit, force), StagedCopy(d.logs, sources, limit, force), SourcePaths(Listed(sources)))
  {
    hide StagedCopy, Streams, SourcePaths, Found, Finished, WithStages, Replaces, Erase;
    StagesReplace(d, sources, StagedCopy(d.logs, sources, limit, force));
  }

  /** Finishing a commit with a staged current generation puts the staged files in place and removes the sources. */
  lemma StagesReplace(d: Disk, sources: Option<seq<Source>>, s: Copy)
    ensures Replaces(d, Finished(Disk(WithStages(d.logs, Some(Erase(s.current)), LastSealed(s)), Valid(Commit(sources, s.sealed != [])), Missing),
                                 Commit(sources, s.sealed != [])), s, SourcePaths(Listed(sources)))
  {
    assert Current !in SourcePaths(Listed(sources)) && Previous !in SourcePaths(Listed(sources));
    assert Staged !in SourcePaths(Listed(sources)) && StagedPrevious !in SourcePaths(Listed(sources));
    hide SourcePaths, Erase;
  }

  /** A generation in which a record starts at or beyond the limit makes the history be rewritten; otherwise it is left as it is. */
  lemma HistoryIsMigrated(d: Disk, limit: nat)
    requires d.marker == Missing
    ensures var v := HistoryFinal(d, limit);
      if (Previous in d.logs && !Settled(d.logs[Previous], limit)) || (Current in d.logs && !Settled(d.logs[Current], limit)) then
        Replaces(d, v, StagedCopy(d.logs, None, limit, true), {})
      else v == d
  {
    if (Previous in d.logs && !Settled(d.logs[Previous], limit)) || (Current in d.logs && !Settled(d.logs[Current], limit)) {
      assert Streams(d.logs, [], true) != [];
      MigrationReplaces(d, None, limit, true);
      assert SourcePaths([]) == {};
      hide StagedCopy, Streams, Settled;
    }
  }
}
