/**
 Migrations of different kinds on one destination, each cut short or not, with
 output of failed startups in between: whatever the interleaving, the files are
 those of whole migrations, run one after the other.
 */
module MigrationSchedule {
  import opened Options
  import opened MigrationCopy
  import opened MigrationHistory
  import opened MigrationTransaction

  /** A migration of former streams, or a forced one of the history alone. */
  datatype Kind = Kind(sources: Option<seq<Source>>, force: bool)

  /** A migration that stopped and left the files so, one that ran to its end, or the output of a failed startup. */
  datatype Move = Cut(kind: Kind, after: Disk) | Whole(kind: Kind) | Output(text: string)

  function After(d: Disk, move: Move, limit: nat): Disk {
    match move
    case Cut(_, after) => after
    case Whole(kind) => Final(d, kind.sources, limit, kind.force)
    case Output(text) => StartupAppend(d, text)
  }

  /** A forced migration starts only on a history that exists; one that is refused does not run to its end. */
  predicate Allowed(d: Disk, move: Move, limit: nat) {
    match move
    case Cut(k, after) => Migratable(d, k.sources, k.force) && Interrupted(d, after, k.sources, limit, k.force)
    case Whole(k) => Migratable(d, k.sources, k.force) && !Refused(d, k.sources)
    case Output(text) => text != ""
  }

  predicate AllAllowed(d: Disk, moves: seq<Move>, limit: nat)
    decreases |moves|
  {
    moves == [] || (Allowed(d, moves[0], limit) && AllAllowed(After(d, moves[0], limit), moves[1..], limit))
  }

  function AfterAll(d: Disk, moves: seq<Move>, limit: nat): Disk
    decreases |moves|
  {
    if moves == [] then d else AfterAll(After(d, moves[0], limit), moves[1..], limit)
  }

  function Outputs(moves: seq<Move>): string
    decreases |moves|
  {
    if moves == [] then "" else (if moves[0].Output? then moves[0].text else "") + Outputs(moves[1..])
  }

  // ------------------------------------------------------ the serial history

  /** One whole migration of an uncommitted destination, or text at the end of its current generation. */
  datatype Serial = Migrate(kind: Kind) | Text(text: string)

  function ApplyOne(d: Disk, s: Serial, limit: nat): Disk {
    match s
    case Migrate(k) => Fresh(d, k.sources, limit, k.force)
    case Text(text) => WithText(d, text)
  }

  function Apply(d: Disk, serial: seq<Serial>, limit: nat): Disk
    decreases |serial|
  {
    if serial == [] then d else Apply(ApplyOne(d, serial[0], limit), serial[1..], limit)
  }

  function Texts(serial: seq<Serial>): string
    decreases |serial|
  {
    if serial == [] then "" else (if serial[0].Text? then serial[0].text else "") + Texts(serial[1..])
  }

  /** The files as they are once what has been committed is in place. */
  function Published(d: Disk): Disk { if d.marker.Valid? then Finished(d, d.marker.commit) else d }

  /** The destination stands where the serial history does, up to staged files. */
  predicate Stands(a: Disk, d: Disk) {
    a.marker == Missing && !d.marker.Corrupt? && Sound(d) && SameInputs(a.logs, Published(d).logs)
  }

  lemma FreshSame(a: Disk, b: Disk, k: Kind, limit: nat)
    requires a.marker == b.marker == Missing && SameInputs(a.logs, b.logs)
    ensures var x, y := Fresh(a, k.sources, limit, k.force), Fresh(b, k.sources, limit, k.force);
      x.marker == y.marker == Missing && SameInputs(x.logs, y.logs)
  {
    var c := b.(temp := a.temp);
    FreshIgnoresStages(a, c, k.sources, limit, k.force);
    hide StagedCopy, Streams, StagedCurrent, LastSealed, Put, SourcePaths, Found;
  }

  lemma TextSame(a: Disk, b: Disk, text: string)
    requires SameInputs(a.logs, b.logs)
    ensures SameInputs(WithText(a, text).logs, WithText(b, text).logs)
  {
    SameAt(a.logs, b.logs, Current);
    if text != "" {
      assert Extend(a.logs, Current, text) - {Staged, StagedPrevious} == Extend(a.logs - {Staged, StagedPrevious}, Current, text);
      assert Extend(b.logs, Current, text) - {Staged, StagedPrevious} == Extend(b.logs - {Staged, StagedPrevious}, Current, text);
    }
  }

  /** A cut migration either changed nothing that counts, or it has committed and stands for a whole one. */
  lemma CutStands(a: Disk, d: Disk, k: Kind, v: Disk, limit: nat) returns (committed: bool)
    requires Stands(a, d) && Allowed(d, Cut(k, v), limit)
    ensures Stands(if committed then Fresh(a, k.sources, limit, k.force) else a, v)
  {
    FinishedIsMissing(d);
    hide Fresh, Finished;
    committed := v.marker.Valid? && v.marker.commit.sources == k.sources && !(d.marker.Valid? && d.marker.commit.sources == k.sources);
    FreshSame(a, Published(d), k, limit);
    hide Migratable, Found, SameInputs;
    if Refused(d, k.sources) {
      assert v == d;
    } else if d.marker == Missing {
      if v.marker == Missing {
        SameTwice(a.logs, d.logs, v.logs);
      }
    } else if d.marker.commit.sources != k.sources && v.marker == Missing {
      SameTwice(a.logs, Published(d).logs, v.logs);
    }
  }

  lemma SameTwice(a: map<LogPath, string>, b: map<LogPath, string>, c: map<LogPath, string>)
    requires SameInputs(a, b) && SameInputs(b, c)
    ensures SameInputs(a, c)
  {
  }

  lemma WholeStands(a: Disk, d: Disk, k: Kind, limit: nat) returns (migrated: bool)
    requires Stands(a, d) && Allowed(d, Whole(k), limit)
    ensures Stands(if migrated then Fresh(a, k.sources, limit, k.force) else a, After(d, Whole(k), limit))
  {
    FinishedIsMissing(d);
    hide Fresh, Finished;
    migrated := !(d.marker.Valid? && d.marker.commit.sources == k.sources);
    FreshSame(a, Published(d), k, limit);
    hide Migratable, Found, SameInputs;
  }

  lemma FinishedIsMissing(d: Disk)
    requires !d.marker.Corrupt?
    ensures Published(d).marker == Missing
  {
  }

  lemma OutputStands(a: Disk, d: Disk, text: string)
    requires Stands(a, d) && text != ""
    ensures Stands(WithText(a, text), StartupAppend(d, text))
  {
    TextSame(a, Published(d), text);
    if d.marker.Valid? {
      CommittedAppend(d, text, d.marker.commit);
    }
    hide Finished, SameInputs, Extend;
  }

  lemma MoveStands(a: Disk, d: Disk, move: Move, limit: nat) returns (serial: seq<Serial>)
    requires Stands(a, d) && Allowed(d, move, limit)
    ensures Stands(Apply(a, serial, limit), After(d, move, limit))
    ensures Texts(serial) == if move.Output? then move.text else ""
    ensures forall k :: Migrate(k) in serial ==> !move.Output? && move.kind == k
  {
    hide Stands, Fresh, Interrupted;
    var done;
    match move
    case Cut(k, after) =>
      done := CutStands(a, d, k, after, limit);
      serial := if done then [Migrate(k)] else [];
    case Whole(k) =>
      done := WholeStands(a, d, k, limit);
      serial := if done then [Migrate(k)] else [];
    case Output(text) =>
      OutputStands(a, d, text);
      serial := [Text(text)];
      assert text + "" == text;
  }

  lemma {:induction false} ApplySplit(d: Disk, s: seq<Serial>, t: seq<Serial>, limit: nat)
    ensures Apply(d, s + t, limit) == Apply(Apply(d, s, limit), t, limit)
    decreases |s|
  {
    hide ApplyOne;
    if s == [] {
      assert s + t == t;
    } else {
      assert (s + t)[0] == s[0] && (s + t)[1..] == s[1..] + t;
      ApplySplit(ApplyOne(d, s[0], limit), s[1..], t, limit);
    }
  }

  lemma {:induction false} TextsSplit(s: seq<Serial>, t: seq<Serial>)
    ensures Texts(s + t) == Texts(s) + Texts(t)
    decreases |s|
  {
    if s == [] {
      assert s + t == t;
    } else {
      var whole := s + t;
      assert whole[0] == s[0] && whole[1..] == s[1..] + t;
      TextsSplit(s[1..], t);
      var text := if s[0].Text? then s[0].text else "";
      assert text + (Texts(s[1..]) + Texts(t)) == text + Texts(s[1..]) + Texts(t);
    }
  }

  /**
   Any number of migrations of any kinds, each cut anywhere or run to its end, and
   output of failed startups in between, leave the files as whole migrations and
   that output do, one after the other: every text once, in its order, and every
   whole migration one of those that were started.
   */
  lemma {:induction false} CrashesSerialize(a: Disk, d: Disk, moves: seq<Move>, limit: nat) returns (serial: seq<Serial>)
    requires Stands(a, d) && AllAllowed(d, moves, limit)
    ensures Stands(Apply(a, serial, limit), AfterAll(d, moves, limit))
    ensures Texts(serial) == Outputs(moves)
    ensures forall k :: Migrate(k) in serial ==> exists m :: m in moves && !m.Output? && m.kind == k
    decreases |moves|
  {
    if moves == [] {
      serial := [];
    } else {
      var first := MoveStands(a, d, moves[0], limit);
      hide Stands, Allowed, After;
      var rest := CrashesSerialize(Apply(a, first, limit), After(d, moves[0], limit), moves[1..], limit);
      serial := first + rest;
      ApplySplit(a, first, rest, limit);
      TextsSplit(first, rest);
      assert moves[0] in moves && forall m :: m in moves[1..] ==> m in moves;
    }
  }
}
