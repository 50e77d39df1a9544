/**
 Streaming a log history into fresh generations of bounded size. A byte is a
 `char`; only the newline has a meaning. The specification copies one whole
 record at a time; the method copies whatever pieces a bounded buffer yields and
 is proved to produce the same generations.
 */
module MigrationCopy {
  import opened Options

  // -------------------------------------------------------------- records

  /** The first record of a stream: up to and including its first newline. */
  function FirstRecord(input: string): (n: nat)
    requires input != ""
    ensures 0 < n <= |input|
    ensures forall i :: 0 <= i < n - 1 ==> input[i] != '\n'
    ensures n < |input| ==> input[n - 1] == '\n'
  {
    if input[0] == '\n' || |input| == 1 then 1 else 1 + FirstRecord(input[1..])
  }

  function Records(input: string): seq<string> {
    if input == "" then [] else [input[..FirstRecord(input)]] + Records(input[FirstRecord(input)..])
  }

  function Flatten(parts: seq<string>): string {
    if parts == [] then "" else parts[0] + Flatten(parts[1..])
  }

  /** A record ends in a newline or is the unterminated rest of its stream; no newline is inside it. */
  predicate IsRecord(record: string) {
    record != "" && forall i :: 0 <= i < |record| - 1 ==> record[i] != '\n'
  }

  lemma {:induction false} RecordsPartition(input: string)
    ensures Flatten(Records(input)) == input
    ensures forall r :: r in Records(input) ==> IsRecord(r)
  {
    if input != "" {
      var n := FirstRecord(input);
      RecordsPartition(input[n..]);
      assert input == input[..n] + input[n..];
    }
  }

  lemma RecordsNotEmpty(input: string, records: seq<string>)
    requires records == Records(input)
    ensures forall k :: 0 <= k < |records| ==> records[k] != ""
  {
    RecordsPartition(input);
    hide Records;
    assert forall k :: 0 <= k < |records| ==> records[k] in records;
  }

  // ----------------------------------------------------------- specification

  /**
   A stored byte and where it came from: copied from stream `source`, or part of
   the marker line written for it. The provenance is for specification; no
   decision depends on it.
   */
  datatype Cell = Data(byte: char, source: nat) | Mark(byte: char, source: nat)

  function Copied(bytes: string, source: nat): (cells: seq<Cell>)
    ensures |cells| == |bytes|
  {
    seq(|bytes|, i requires 0 <= i < |bytes| => Data(bytes[i], source))
  }

  function Marked(bytes: string, source: nat): (cells: seq<Cell>)
    ensures |cells| == |bytes|
  {
    seq(|bytes|, i requires 0 <= i < |bytes| => Mark(bytes[i], source))
  }

  function Erase(cells: seq<Cell>): (bytes: string)
    ensures |bytes| == |cells|
  {
    seq(|cells|, i requires 0 <= i < |cells| => cells[i].byte)
  }

  /** The bytes that came from the inputs, without the marker lines. */
  function DataOf(cells: seq<Cell>): string {
    if cells == [] then ""
    else (if cells[0].Data? then [cells[0].byte] else "") + DataOf(cells[1..])
  }

  /** Every generation rotated out so far, oldest first, and the one being written. */
  datatype Copy = Copy(sealed: seq<seq<Cell>>, current: seq<Cell>, atStart: bool)

  const Empty := Copy([], [], true)

  function All(s: Copy): seq<seq<Cell>> { s.sealed + [s.current] }

  /** One stream of the history: its bytes and the marker line that names it, if any. */
  datatype Stream = Stream(source: nat, header: string, bytes: string)

  /** A record goes to a new generation when the current one is full, behind a marker line if one is due. */
  function CopyRecord(s: Copy, limit: nat, stream: Stream, need: bool, record: string): Copy {
    if record == "" then s
    else
      var rotates := s.atStart && |s.current| >= limit;
      var base := if rotates then [] else s.current;
      var mark := if need || rotates then Marked(stream.header, stream.source) else [];
      Copy(if rotates then s.sealed + [s.current] else s.sealed,
           base + mark + Copied(record, stream.source),
           record[|record| - 1] == '\n')
  }

  function CopyRecords(s: Copy, limit: nat, stream: Stream, need: bool, records: seq<string>): Copy
    decreases |records|
  {
    if records == [] then s
    else CopyRecords(CopyRecord(s, limit, stream, need, records[0]), limit, stream, false, records[1..])
  }

  /** A marker line gets a newline of its own in front if the stream just before it ended in the middle of a record. */
  function Separated(s: Copy, stream: Stream): Stream {
    if !s.atStart && stream.header != "" then stream.(header := "\n" + stream.header) else stream
  }

  function CopyStream(s: Copy, limit: nat, stream: Stream): Copy {
    var separated := Separated(s, stream);
    CopyRecords(if separated == stream then s else s.(atStart := true), limit, separated, true, Records(stream.bytes))
  }

  function CopyStreams(s: Copy, limit: nat, streams: seq<Stream>): Copy
    decreases |streams|
  {
    if streams == [] then s else CopyStreams(CopyStream(s, limit, streams[0]), limit, streams[1..])
  }

  // ------------------------------------------------- pieces refine records

  /** What one read of a buffer of `buffer` bytes yields: a record, or as much of it as fits. */
  function Piece(input: string, buffer: nat): (n: nat)
    requires input != "" && buffer > 0
    ensures 0 < n <= FirstRecord(input) && n <= buffer
  {
    var n := FirstRecord(input);
    if n <= buffer then n else buffer
  }

  lemma SplitRecord(s: Copy, limit: nat, stream: Stream, need: bool, a: string, b: string)
    requires a != "" && a[|a| - 1] != '\n'
    ensures CopyRecord(s, limit, stream, need, a + b)
         == CopyRecord(CopyRecord(s, limit, stream, need, a), limit, stream, false, b)
  {
    if b == "" {
      assert a + b == a;
    } else {
      assert Copied(a + b, stream.source) == Copied(a, stream.source) + Copied(b, stream.source);
      var one := CopyRecord(s, limit, stream, need, a);
      assert !one.atStart;
      assert one.current + [] + Copied(b, stream.source) == CopyRecord(s, limit, stream, need, a + b).current;
    }
  }

  lemma {:induction false} FirstRecordAfter(input: string, n: nat)
    requires input != "" && 0 < n < FirstRecord(input)
    ensures FirstRecord(input) == n + FirstRecord(input[n..])
    decreases n
  {
    if n > 1 {
      FirstRecordAfter(input[1..], n - 1);
      assert input[1..][n - 1..] == input[n..];
    }
  }

  /** Copying one piece and then the records of what is left copies the records. */
  lemma PieceStep(s: Copy, limit: nat, stream: Stream, need: bool, input: string, n: nat)
    requires input != "" && 0 < n <= FirstRecord(input)
    ensures CopyRecords(s, limit, stream, need, Records(input))
         == CopyRecords(CopyRecord(s, limit, stream, need, input[..n]), limit, stream, false, Records(input[n..]))
  {
    var whole := FirstRecord(input);
    hide CopyRecord, CopyRecords, Records, FirstRecord;
    FirstIsCopied(s, limit, stream, need, input);
    if n < whole {
      PieceSlices(input, n);
      var a, rest := input[..n], input[n..];
      SplitRecord(s, limit, stream, need, a, rest[..whole - n]);
      FirstIsCopied(CopyRecord(s, limit, stream, need, a), limit, stream, false, rest);
    }
  }

  lemma PieceSlices(input: string, n: nat)
    requires input != "" && 0 < n < FirstRecord(input)
    ensures var whole := FirstRecord(input); var rest := input[n..];
      && FirstRecord(rest) == whole - n && input[n - 1] != '\n'
      && input[..whole] == input[..n] + rest[..whole - n] && rest[whole - n..] == input[whole..]
  {
    FirstRecordAfter(input, n);
    hide FirstRecord;
  }

  lemma FirstIsCopied(s: Copy, limit: nat, stream: Stream, need: bool, input: string)
    requires input != ""
    ensures var n := FirstRecord(input);
      CopyRecords(s, limit, stream, need, Records(input))
      == CopyRecords(CopyRecord(s, limit, stream, need, input[..n]), limit, stream, false, Records(input[n..]))
  {
    hide CopyRecord, FirstRecord;
  }

  lemma CopyNothing(s: Copy, limit: nat, stream: Stream, need: bool)
    ensures CopyRecords(s, limit, stream, need, Records("")) == s
  {
  }

  // ---------------------------------------------------------- the copier

  /**
   The staged files of one migration. `sealed` and `cells` are the history kept
   for specification: every generation rotated out, and the provenance of the
   bytes of the current one. On disk only the last two generations exist.
   */
  class Stage {
    var previous: Option<string>
    var current: Option<string>
    ghost var sealed: seq<seq<Cell>>
    ghost var cells: seq<Cell>

    ghost predicate Valid()
      reads this
    {
      && (current.Some? ==> current.value == Erase(cells))
      && (current == None ==> cells == [] && sealed == [])
      && previous == (if sealed == [] then None else Some(Erase(sealed[|sealed| - 1])))
    }

    ghost function View(atStart: bool): Copy
      reads this
    {
      Copy(sealed, cells, atStart)
    }

    constructor ()
      ensures Valid() && View(true) == Empty && current == None
    {
      previous, current, sealed, cells := None, None, [], [];
    }

    method OpenAppend()
      requires Valid()
      modifies this`current
      ensures Valid() && current.Some?
    {
      if current == None {
        current := Some("");
      }
    }

    /** rotateFiles and reopening: the current generation replaces the previous one, an empty one follows. */
    method Rotate()
      requires Valid() && current.Some?
      modifies this
      ensures current == Some("") && Valid() && sealed == old(sealed) + [old(cells)] && cells == []
    {
      previous := current;
      sealed := sealed + [cells];
      current, cells := Some(""), [];
    }

    method Write(bytes: string, ghost provenance: seq<Cell>)
      requires Valid() && current.Some? && Erase(provenance) == bytes
      modifies this`current, this`cells
      ensures Valid() && current.Some? && cells == old(cells) + provenance
    {
      current := Some(current.value + bytes);
      cells := cells + provenance;
    }

    /** The body of the copying loop: rotate if due, mark if due, append. */
    method CopyPiece(record: string, header: string, ghost source: nat, limit: nat, size: nat, start: bool, needHeader: bool)
      returns (newSize: nat)
      requires Valid() && current.Some? && record != "" && size == |cells|
      requires needHeader ==> header != ""
      modifies this
      ensures Valid() && current.Some? && newSize == |cells|
      ensures forall need, input :: (needHeader <==> need && header != "") ==>
                View(record[|record| - 1] == '\n') == CopyRecord(old(View(start)), limit, Stream(source, header, input), need, record)
    {
      newSize := size;
      var marks := needHeader;
      if start && size >= limit {
        Rotate();
        newSize, marks := 0, header != "";
      }
      ghost var base := cells;
      if marks {
        assert Erase(Marked(header, source)) == header;
        Write(header, Marked(header, source));
        newSize := newSize + |header|;
      }
      assert Erase(Copied(record, source)) == record;
      assert cells == base + if marks then Marked(header, source) else [];
      Write(record, Copied(record, source));
      newSize := newSize + |record|;
    }

    /**
     Copies one stream in pieces of at most `buffer` bytes, threading the size of
     the current generation and whether it ends at a record boundary.
     */
    method StreamMigration(input: string, header: string, ghost source: nat, limit: nat, buffer: nat, size: nat, start: bool)
      returns (newSize: nat, atStart: bool)
      requires Valid() && buffer > 0 && size == |cells|
      modifies this
      ensures Valid() && current.Some? && newSize == |cells|
      ensures View(atStart) == CopyRecords(old(View(start)), limit, Stream(source, header, input), true, Records(input))
    {
      hide CopyRecord, CopyRecords, Records, FirstRecord;
      newSize, atStart := size, start;
      ghost var stream := Stream(source, header, input);
      var needHeader, rest := header != "", input;
      OpenAppend();
      ghost var need := true;
      while rest != ""
        invariant Valid() && current.Some? && newSize == |cells|
        invariant needHeader == (need && header != "")
        invariant CopyRecords(View(atStart), limit, stream, need, Records(rest))
               == CopyRecords(old(View(start)), limit, stream, true, Records(input))
        decreases |rest|
      {
        var n := Piece(rest, buffer);
        PieceStep(View(atStart), limit, stream, need, rest, n);
        newSize := CopyPiece(rest[..n], header, source, limit, newSize, atStart, needHeader);
        atStart, needHeader := rest[n - 1] == '\n', false;
        rest, need := rest[n..], false;
      }
      CopyNothing(View(atStart), limit, stream, need);
    }

    /** All streams, oldest first; a stream whose file does not exist is skipped by the caller. */
    method StageStreams(streams: seq<Stream>, limit: nat, buffer: nat) returns (size: nat, atStart: bool)
      requires Valid() && buffer > 0 && View(true) == Empty
      modifies this
      ensures Valid() && View(atStart) == CopyStreams(Empty, limit, streams)
      ensures streams != [] || old(current) != None <==> current != None
    {
      size, atStart := 0, true;
      var i := 0;
      while i < |streams|
        invariant 0 <= i <= |streams|
        invariant Valid() && size == |cells|
        invariant i > 0 || old(current) != None <==> current != None
        invariant CopyStreams(View(atStart), limit, streams[i..]) == CopyStreams(Empty, limit, streams)
      {
        var header := streams[i].header;
        if !atStart && header != "" {
          header, atStart := "\n" + header, true;
        }
        hide CopyRecords, Records;
        assert streams[i..][1..] == streams[i + 1..];
        size, atStart := StreamMigration(streams[i].bytes, header, streams[i].source, limit, buffer, size, atStart);
        i := i + 1;
      }
    }
  }
}
