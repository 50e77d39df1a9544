/**
 The staged, marker-committed migration of a log history. The file system can
 fail, or the process can die, at any operation; whatever point a run reached,
 running the transaction again ends with the files an uninterrupted run leaves.
 */
module MigrationTransaction {
  import opened Options
  import opened MigrationCopy
  import opened MigrationHistory

  /** A former log stream; both its generations are incorporated. */
  datatype Source = Source(name: string, origin: string)

  datatype LogPath = Current | Previous | Staged | StagedPrevious | SourceFile(name: string, previous: bool)

  datatype Commit = Commit(sources: Option<seq<Source>>, previous: bool)

  datatype MarkerFile = Missing | Corrupt | Valid(commit: Commit)

  /** The files of one destination: log generations, the commit marker and its temporary. */
  datatype Disk = Disk(logs: map<LogPath, string>, marker: MarkerFile, temp: MarkerFile)

  function Get(logs: map<LogPath, string>, path: LogPath): Option<string> {
    if path in logs then Some(logs[path]) else None
  }

  function Put(logs: map<LogPath, string>, path: LogPath, bytes: Option<string>): map<LogPath, string> {
    if bytes.Some? then logs[path := bytes.value] else logs - {path}
  }

  function SourcePaths(sources: seq<Source>): set<LogPath> {
    set s, previous | s in sources && previous in {true, false} :: SourceFile(s.name, previous)
  }

  function Listed(sources: Option<seq<Source>>): seq<Source> { if sources.Some? then sources.value else [] }

  // ------------------------------------------------------------ specification

  /** The line that introduces a stream; `origin` is already escaped. */
  function MarkerLine(origin: string, previous: bool): string {
    "{\"event\":\"diagnostics.legacy\",\"generation\":\"" + (if previous then ".previous" else "") +
    "\",\"source\":\"" + origin + "\"}\n"
  }

  function StreamAt(logs: map<LogPath, string>, path: LogPath, source: nat, header: string): seq<Stream> {
    if path in logs then [Stream(source, header, logs[path])] else []
  }

  function SourceStreams(logs: map<LogPath, string>, sources: seq<Source>, k: nat): seq<Stream>
    decreases |sources|
  {
    if sources == [] then []
    else StreamAt(logs, SourceFile(sources[0].name, true), 2 * k, MarkerLine(sources[0].origin, true)) +
         StreamAt(logs, SourceFile(sources[0].name, false), 2 * k + 1, MarkerLine(sources[0].origin, false)) +
         SourceStreams(logs, sources[1..], k + 1)
  }

  /** The existing history, oldest first, then every source; the previous generation before the current one. */
  function Streams(logs: map<LogPath, string>, sources: seq<Source>, labelled: bool): seq<Stream> {
    StreamAt(logs, Previous, 0, if labelled then MarkerLine("existing", true) else "") +
    StreamAt(logs, Current, 1, if labelled then MarkerLine("existing", false) else "") +
    SourceStreams(logs, sources, 1)
  }

  function StagedCopy(logs: map<LogPath, string>, sources: Option<seq<Source>>, limit: nat, force: bool): Copy {
    CopyStreams(Empty, limit, Streams(logs, Listed(sources), !force || Listed(sources) != []))
  }

  predicate Found(logs: map<LogPath, string>, sources: Option<seq<Source>>, force: bool) {
    force || exists p :: p in SourcePaths(Listed(sources)) && p in logs
  }

  /** Staged files of an earlier run that never committed are discarded. */
  function Cleared(d: Disk): Disk { d.(logs := d.logs - {Staged, StagedPrevious}) }

  function LastSealed(s: Copy): Option<string> {
    if s.sealed == [] then None else Some(Erase(s.sealed[|s.sealed| - 1]))
  }

  /** A staged file exists as soon as there is anything to stage, even if that is empty. */
  function StagedCurrent(logs: map<LogPath, string>, sources: Option<seq<Source>>, s: Copy): Option<string> {
    if Streams(logs, Listed(sources), true) == [] then None else Some(Erase(s.current))
  }

  function WithStages(logs: map<LogPath, string>, current: Option<string>, previous: Option<string>): map<LogPath, string> {
    Put(Put(logs, Staged, current), StagedPrevious, previous)
  }

  /** The state right after the marker has been published: everything staged, nothing moved. */
  function Committed(d: Disk, sources: Option<seq<Source>>, limit: nat, force: bool): Disk {
    var s := StagedCopy(d.logs, sources, limit, force);
    Disk(WithStages(d.logs, StagedCurrent(d.logs, sources, s), LastSealed(s)), Valid(Commit(sources, s.sealed != [])), Missing)
  }

  /** A committed migration carried to its end: stages in place, sources and marker gone. */
  function Finished(d: Disk, c: Commit): Disk {
    var logs := d.logs - (if c.previous then {Staged, StagedPrevious} else {Staged}) - SourcePaths(Listed(c.sources));
    var previous := if !c.previous then None else if StagedPrevious in d.logs then Get(d.logs, StagedPrevious) else Get(d.logs, Previous);
    var current := if Staged in d.logs then Get(d.logs, Staged) else Get(d.logs, Current);
    d.(logs := Put(Put(logs, Previous, previous), Current, current), marker := Missing)
  }

  /** A migration begun without a marker, carried to its end. */
  function Fresh(d: Disk, sources: Option<seq<Source>>, limit: nat, force: bool): Disk {
    if !Found(d.logs, sources, force) then Cleared(d)
    else
      var c := Committed(d, sources, limit, force);
      Finished(c, c.marker.commit)
  }

  /** What an uninterrupted run of the transaction leaves. */
  function Final(d: Disk, sources: Option<seq<Source>>, limit: nat, force: bool): Disk {
    match d.marker
    case Missing => Fresh(d, sources, limit, force)
    case Corrupt => d
    case Valid(c) =>
      if c.sources == None && sources.Some? then Fresh(Finished(d, c), sources, limit, force)
      else if c.sources != sources then d
      else Finished(d, c)
  }

  /** Every committed generation still exists, staged or in place. */
  predicate Sound(d: Disk) {
    d.marker.Valid? ==>
      && (Staged in d.logs || Current in d.logs)
      && (d.marker.commit.previous ==> StagedPrevious in d.logs || Previous in d.logs)
  }

  /** A forced migration that begins finds something to migrate; without, its marker would commit to nothing. */
  predicate Migratable(d: Disk, sources: Option<seq<Source>>, force: bool) {
    force && d.marker == Missing ==> Streams(d.logs, Listed(sources), true) != []
  }

  /** The run may stop with this error whatever the file system does. */
  predicate Refused(d: Disk, sources: Option<seq<Source>>) {
    d.marker.Corrupt? ||
    (d.marker.Valid? && d.marker.commit.sources != sources && !(d.marker.commit.sources == None && sources.Some?))
  }

  // -------------------------------------------------- the effect of each move

  lemma PublishPreviousKeeps(d: Disk, c: Commit)
    requires d.marker == Valid(c) && c.previous && StagedPrevious in d.logs
    ensures var v := d.(logs := (d.logs - {StagedPrevious})[Previous := d.logs[StagedPrevious]]);
      (Sound(d) <==> Sound(v)) && Finished(v, c) == Finished(d, c)
  {
    var v := d.(logs := (d.logs - {StagedPrevious})[Previous := d.logs[StagedPrevious]]);
    assert Finished(v, c).logs == Finished(d, c).logs;
  }

  lemma RemovePreviousKeeps(d: Disk, c: Commit)
    requires d.marker == Valid(c) && !c.previous
    ensures var v := d.(logs := d.logs - {Previous});
      (Sound(d) <==> Sound(v)) && Finished(v, c) == Finished(d, c)
  {
    var v := d.(logs := d.logs - {Previous});
    assert Finished(v, c).logs == Finished(d, c).logs;
  }

  lemma PublishCurrentKeeps(d: Disk, c: Commit)
    requires d.marker == Valid(c) && Staged in d.logs
    ensures var v := d.(logs := (d.logs - {Staged})[Current := d.logs[Staged]]);
      (Sound(d) <==> Sound(v)) && Finished(v, c) == Finished(d, c)
  {
    var v := d.(logs := (d.logs - {Staged})[Current := d.logs[Staged]]);
    assert Finished(v, c).logs == Finished(d, c).logs;
  }

  lemma RemoveSourceKeeps(d: Disk, c: Commit, path: LogPath)
    requires d.marker == Valid(c) && path in SourcePaths(Listed(c.sources))
    ensures var v := d.(logs := d.logs - {path});
      (Sound(d) <==> Sound(v)) && Finished(v, c) == Finished(d, c)
  {
    var v := d.(logs := d.logs - {path});
    assert path.SourceFile?;
    assert Finished(v, c).logs == Finished(d, c).logs;
  }

  /** The same files apart from stages that never committed. */
  predicate SameInputs(a: map<LogPath, string>, b: map<LogPath, string>) {
    a - {Staged, StagedPrevious} == b - {Staged, StagedPrevious}
  }

  lemma SameAt(a: map<LogPath, string>, b: map<LogPath, string>, path: LogPath)
    requires SameInputs(a, b) && path != Staged && path != StagedPrevious
    ensures Get(a, path) == Get(b, path)
  {
    assert path in a <==> path in a - {Staged, StagedPrevious};
    assert path in b <==> path in b - {Staged, StagedPrevious};
    if path in a {
      assert a[path] == (a - {Staged, StagedPrevious})[path];
    }
  }

  lemma {:induction false} SourceStreamsSame(a: map<LogPath, string>, b: map<LogPath, string>, sources: seq<Source>, k: nat)
    requires SameInputs(a, b)
    ensures SourceStreams(a, sources, k) == SourceStreams(b, sources, k)
    decreases |sources|
  {
    if sources != [] {
      SameAt(a, b, SourceFile(sources[0].name, true));
      SameAt(a, b, SourceFile(sources[0].name, false));
      SourceStreamsSame(a, b, sources[1..], k + 1);
    }
  }

  lemma StreamsSame(a: map<LogPath, string>, b: map<LogPath, string>, sources: seq<Source>, labelled: bool)
    requires SameInputs(a, b)
    ensures Streams(a, sources, labelled) == Streams(b, sources, labelled)
  {
    SameAt(a, b, Previous);
    SameAt(a, b, Current);
    SourceStreamsSame(a, b, sources, 1);
  }

  lemma FoundSame(a: map<LogPath, string>, b: map<LogPath, string>, sources: Option<seq<Source>>, force: bool)
    requires SameInputs(a, b)
    ensures Found(a, sources, force) == Found(b, sources, force)
  {
    forall p | p in SourcePaths(Listed(sources))
      ensures p in a <==> p in b
    {
      SameAt(a, b, p);
    }
  }

  lemma StagesReplace(a: map<LogPath, string>, b: map<LogPath, string>, current: Option<string>, previous: Option<string>)
    requires SameInputs(a, b)
    ensures WithStages(a, current, previous) == WithStages(b, current, previous)
  {
    var base := {Staged, StagedPrevious};
    assert WithStages(a, current, previous) - base == a - base == b - base == WithStages(b, current, previous) - base;
    forall p
      ensures Get(WithStages(a, current, previous), p) == Get(WithStages(b, current, previous), p)
    {
      if p !in base {
        SameAt(WithStages(a, current, previous), WithStages(b, current, previous), p);
      }
    }
    SameEverywhere(WithStages(a, current, previous), WithStages(b, current, previous));
  }

  lemma StagesAreNotInputs(a: map<LogPath, string>, current: Option<string>, previous: Option<string>)
    ensures SameInputs(a, WithStages(a, current, previous))
  {
  }

  lemma SameEverywhere(a: map<LogPath, string>, b: map<LogPath, string>)
    requires forall p :: Get(a, p) == Get(b, p)
    ensures a == b
  {
    assert forall p :: p in a ==> Get(a, p) == Get(b, p);
    assert forall p :: p in b ==> Get(a, p) == Get(b, p);
  }

  lemma CommittedSame(d: Disk, v: Disk, sources: Option<seq<Source>>, limit: nat, force: bool)
    requires SameInputs(d.logs, v.logs)
    ensures Committed(v, sources, limit, force) == Committed(d, sources, limit, force)
  {
    StreamsSame(d.logs, v.logs, Listed(sources), !force || Listed(sources) != []);
    StreamsSame(d.logs, v.logs, Listed(sources), true);
    hide Streams, SourceStreams, CopyStreams, SourcePaths, SameInputs, WithStages, LastSealed;
    var s := StagedCopy(d.logs, sources, limit, force);
    assert StagedCopy(v.logs, sources, limit, force) == s;
    StagesReplace(v.logs, d.logs, StagedCurrent(d.logs, sources, s), LastSealed(s));
  }

  /** What an uncommitted run left behind does not change what a new run does. */
  lemma FreshIgnoresStages(d: Disk, v: Disk, sources: Option<seq<Source>>, limit: nat, force: bool)
    requires SameInputs(d.logs, v.logs) && d.marker == v.marker == Missing
    requires Found(d.logs, sources, force) || d.temp == v.temp
    ensures Fresh(v, sources, limit, force) == Fresh(d, sources, limit, force)
  {
    FoundSame(d.logs, v.logs, sources, force);
    CommittedSame(d, v, sources, limit, force);
    hide Found, Committed, Finished;
  }

  lemma {:induction false} SourceFound(logs: map<LogPath, string>, sources: seq<Source>, k: nat, p: LogPath)
    requires p in SourcePaths(sources) && p in logs
    ensures SourceStreams(logs, sources, k) != []
    decreases |sources|
  {
    var s, previous :| s in sources && previous in {true, false} && p == SourceFile(s.name, previous);
    if s != sources[0] {
      assert s in sources[1..];
      assert p in SourcePaths(sources[1..]);
      SourceFound(logs, sources[1..], k + 1, p);
    }
  }

  /** A migration that is not forced begins only when a source exists, so there is something to stage. */
  lemma SomethingToStage(d: Disk, sources: Option<seq<Source>>, force: bool)
    requires d.marker == Missing && Found(d.logs, sources, force) && Migratable(d, sources, force)
    ensures Streams(d.logs, Listed(sources), true) != []
  {
    if !force {
      var p :| p in SourcePaths(Listed(sources)) && p in d.logs;
      SourceFound(d.logs, Listed(sources), 1, p);
    }
  }

  lemma CurrentIsInput(logs: map<LogPath, string>, sources: seq<Source>)
    requires Current in logs
    ensures Streams(logs, sources, true) != []
  {
  }

  lemma LabelsDoNotMatter(logs: map<LogPath, string>, sources: seq<Source>, labelled: bool)
    ensures Streams(logs, sources, labelled) == [] <==> Streams(logs, sources, true) == []
  {
  }

  lemma CommittedFinishes(d: Disk, sources: Option<seq<Source>>, limit: nat, force: bool)
    requires d.marker == Missing && Found(d.logs, sources, force)
    ensures var c := Committed(d, sources, limit, force);
      && (Migratable(d, sources, force) <==> Sound(c)) && (StagedPrevious in c.logs <==> c.marker.commit.previous)
      && Final(c, sources, limit, force) == Fresh(d, sources, limit, force)
  {
    if Migratable(d, sources, force) {
      SomethingToStage(d, sources, force);
    }
  }

  lemma UncommittedKeepsSources(a: map<LogPath, string>, d: Disk)
    requires SameInputs(a, d.logs)
    ensures forall p: LogPath :: p.SourceFile? && p in a ==> p in d.logs
  {
    forall p: LogPath | p.SourceFile? && p in a
      ensures p in d.logs
    {
      SameAt(a, d.logs, p);
    }
  }

  lemma InPlaceIsFinished(d: Disk, c: Commit)
    requires InPlace(d.logs, c) && (!c.previous ==> Previous !in d.logs)
    requires forall p :: p in SourcePaths(Listed(c.sources)) ==> p !in d.logs
    ensures Finished(d, c) == d.(marker := Missing)
  {
    assert Finished(d, c).logs == d.logs;
  }

  // ------------------------------------------------------------- the program

  /** Every committed generation is at its final name. */
  predicate InPlace(logs: map<LogPath, string>, c: Commit) {
    && Staged !in logs && Current in logs
    && (c.previous ==> StagedPrevious !in logs && Previous in logs)
  }

  /** A legacy source is gone only once everything committed is in place. */
  predicate SourcesSafe(before: map<LogPath, string>, after: map<LogPath, string>, c: Commit) {
    forall p: LogPath :: p.SourceFile? && p in before && p !in after ==> InPlace(after, c)
  }

  /** The same for a whole run, wherever it stopped. */
  predicate SourcesKept(before: map<LogPath, string>, d: Disk) {
    forall p: LogPath :: p.SourceFile? && p in before && p !in d.logs ==>
      && Staged !in d.logs && Current in d.logs
      && (d.marker.Valid? && d.marker.commit.previous ==> StagedPrevious !in d.logs && Previous in d.logs)
  }

  /** How an interrupted run from `d` may leave the files. */
  predicate Interrupted(d: Disk, v: Disk, sources: Option<seq<Source>>, limit: nat, force: bool) {
    && (Sound(d) && Migratable(d, sources, force) ==> Sound(v))
    && Final(v, sources, limit, force) == Final(d, sources, limit, force)
    && (d.marker == Missing ==>
          if v.marker == Missing then SameInputs(d.logs, v.logs) && (Found(d.logs, sources, force) || v.temp == d.temp)
          else v.marker.Valid? && v.marker.commit.sources == sources)
    && (d.marker.Valid? && d.marker.commit.sources == sources ==> v.marker == d.marker)
    && (d.marker.Valid? && d.marker.commit.sources == None && sources.Some? ==>
          var c := d.marker.commit;
          if v.marker == d.marker then Finished(v, c) == Finished(d, c)
          else if v.marker == Missing then SameInputs(Finished(d, c).logs, v.logs)
          else v.marker.Valid? && v.marker.commit.sources == sources)
    && (Refused(d, sources) ==> v == d)
  }

  lemma KeptThrough(before: map<LogPath, string>, committed: map<LogPath, string>, d: Disk, c: Commit)
    requires forall p: LogPath :: p.SourceFile? && p in before ==> p in committed
    requires SourcesSafe(committed, d.logs, c) && (d.marker.Valid? ==> d.marker.commit == c)
    ensures SourcesKept(before, d)
  {
  }

  class FileSystem {
    var disk: Disk
    /** How many operations succeed before one fails or the process dies. */
    var budget: nat
    /** What interrupted staging leaves in the staged files. */
    const torn: Option<string>
    const tornPrevious: Option<string>

    constructor (disk: Disk, budget: nat, torn: Option<string>, tornPrevious: Option<string>)
      ensures this.disk == disk && this.budget == budget
    {
      this.disk, this.budget, this.torn, this.tornPrevious := disk, budget, torn, tornPrevious;
    }

    method Spend() returns (ok: bool)
      modifies this`budget
      ensures ok <==> old(budget) > 0
      ensures budget <= old(budget) && (!ok ==> budget == 0)
    {
      ok := budget > 0;
      if ok {
        budget := budget - 1;
      }
    }

    method RemoveIfPresent(path: LogPath) returns (ok: bool)
      modifies this
      ensures disk == if ok then old(disk).(logs := old(disk).logs - {path}) else old(disk)
      ensures !ok ==> budget == 0
    {
      ok := Spend();
      if ok {
        disk := disk.(logs := disk.logs - {path});
      }
    }

    /** An atomic rename over whatever the destination held. */
    method PublishFile(from: LogPath, to: LogPath) returns (ok: bool)
      requires from in disk.logs && from != to
      modifies this
      ensures disk == if ok then old(disk).(logs := (old(disk).logs - {from})[to := old(disk).logs[from]]) else old(disk)
      ensures !ok ==> budget == 0
    {
      ok := Spend();
      if ok {
        disk := disk.(logs := (disk.logs - {from})[to := disk.logs[from]]);
      }
    }

    /** stageLegacyStreams; cut short, it leaves anything at all in the staged files. */
    method StageLegacyStreams(sources: Option<seq<Source>>, limit: nat, force: bool, buffer: nat) returns (ok: bool)
      requires buffer > 0 && Staged !in disk.logs && StagedPrevious !in disk.logs
      modifies this
      ensures disk.marker == old(disk).marker && disk.temp == old(disk).temp && SameInputs(old(disk).logs, disk.logs)
      ensures ok ==> disk.logs == Committed(old(disk), sources, limit, force).logs
      ensures !ok ==> budget == 0
    {
      hide CopyStreams, Streams, SourceStreams, Erase;
      ok := Spend();
      if !ok {
        disk := disk.(logs := WithStages(disk.logs, torn, tornPrevious));
        StagesAreNotInputs(old(disk).logs, torn, tornPrevious);
        return;
      }
      var current, previous := CopyLegacyStreams(disk.logs, sources, limit, force, buffer);
      disk := disk.(logs := WithStages(disk.logs, current, previous));
      StagesAreNotInputs(old(disk).logs, current, previous);
    }

    static method CopyLegacyStreams(logs: map<LogPath, string>, sources: Option<seq<Source>>, limit: nat, force: bool, buffer: nat)
      returns (current: Option<string>, previous: Option<string>)
      requires buffer > 0
      ensures var s := StagedCopy(logs, sources, limit, force);
        current == StagedCurrent(logs, sources, s) && previous == LastSealed(s)
    {
      hide CopyStreams, SourceStreams;
      var stage := new Stage();
      var size, atStart := stage.StageStreams(Streams(logs, Listed(sources), !force || Listed(sources) != []), limit, buffer);
      assert stage.View(atStart) == StagedCopy(logs, sources, limit, force);
      LabelsDoNotMatter(logs, Listed(sources), !force || Listed(sources) != []);
      current, previous := stage.current, stage.previous;
    }

    /** The marker appears whole or not at all: it is written aside and renamed. */
    method PublishLegacyMarker(c: Commit) returns (ok: bool)
      modifies this
      ensures disk.logs == old(disk).logs
      ensures ok ==> disk.marker == Valid(c) && disk.temp == Missing
      ensures !ok ==> disk.marker == old(disk).marker && budget == 0
    {
      ok := Spend();
      if !ok {
        return;
      }
      disk := disk.(temp := Missing);
      ok := Spend();
      if !ok {
        return;
      }
      disk := disk.(temp := Corrupt);
      ok := Spend();
      if !ok {
        return;
      }
      disk := disk.(temp := Valid(c));
      ok := Spend();
      if ok {
        disk := disk.(marker := disk.temp, temp := Missing);
      }
    }

    method PublishGenerations(c: Commit) returns (ok: bool)
      requires disk.marker == Valid(c)
      modifies this
      ensures (Sound(disk) <==> Sound(old(disk))) && disk.marker == Valid(c) && Finished(disk, c) == Finished(old(disk), c)
      ensures forall p: LogPath :: p.SourceFile? ==> Get(disk.logs, p) == Get(old(disk).logs, p)
      ensures ok ==> Staged !in disk.logs && if c.previous then StagedPrevious !in disk.logs else Previous !in disk.logs
      ensures !ok ==> budget == 0
    {
      if !c.previous {
        RemovePreviousKeeps(disk, c);
        ok := RemoveIfPresent(Previous);
      } else if StagedPrevious in disk.logs {
        PublishPreviousKeeps(disk, c);
        ok := PublishFile(StagedPrevious, Previous);
      } else {
        ok := true;
      }
      if ok && Staged in disk.logs {
        PublishCurrentKeeps(disk, c);
        hide Finished;
        ok := PublishFile(Staged, Current);
      }
    }

    method RemoveSources(c: Commit) returns (ok: bool)
      requires (!c.previous ==> Previous !in disk.logs) && disk.marker == Valid(c) && InPlace(disk.logs, c)
      modifies this
      ensures disk.marker == Valid(c) && Finished(disk, c) == Finished(old(disk), c)
      ensures InPlace(disk.logs, c) && (!c.previous ==> Previous !in disk.logs)
      ensures ok ==> forall p :: p in SourcePaths(Listed(c.sources)) ==> p !in disk.logs
      ensures !ok ==> budget == 0
    {
      var sources, i := Listed(c.sources), 0;
      ok := true;
      while ok && i < |sources|
        invariant 0 <= i <= |sources|
        invariant disk.marker == Valid(c) && Finished(disk, c) == Finished(old(disk), c)
        invariant InPlace(disk.logs, c) && (!c.previous ==> Previous !in disk.logs)
        invariant forall k, previous :: 0 <= k < i ==> SourceFile(sources[k].name, previous) !in disk.logs
        invariant !ok ==> budget == 0
        decreases |sources| - i, ok
      {
        assert sources[i] in sources;
        RemoveSourceKeeps(disk, c, SourceFile(sources[i].name, true));
        ok := RemoveIfPresent(SourceFile(sources[i].name, true));
        if ok {
          RemoveSourceKeeps(disk, c, SourceFile(sources[i].name, false));
          ok := RemoveIfPresent(SourceFile(sources[i].name, false));
          if ok {
            i := i + 1;
          }
        }
      }
    }

    method FinishLegacyCommit(c: Commit) returns (ok: bool)
      requires disk.marker == Valid(c)
      modifies this
      ensures SourcesSafe(old(disk).logs, disk.logs, c)
      ensures ok ==> Sound(old(disk)) && disk == Finished(old(disk), c) && disk.marker == Missing && Current in disk.logs
      ensures !ok ==> disk.marker == Valid(c) && Finished(disk, c) == Finished(old(disk), c)
      ensures !ok ==> (Sound(disk) <==> Sound(old(disk))) && (budget == 0 || !Sound(disk))
    {
      ok := PublishGenerations(c);
      if !ok {
        return;
      }
      // validatePublishedLegacy: a missing generation keeps every source and the marker.
      if Current !in disk.logs || (c.previous && Previous !in disk.logs) {
        return false;
      }
      ok := RemoveSources(c);
      if !ok {
        return;
      }
      ok := Spend();
      if ok {
        InPlaceIsFinished(disk, c);
        disk := disk.(marker := Missing);
      }
    }

    /**
     However far this run gets, running it again ends where it would have ended;
     a completed run leaves exactly that; only the file system, a marker of another
     migration or a committed generation that has vanished can stop it.
     */
    method MigrateLegacyTransaction(sources: Option<seq<Source>>, limit: nat, force: bool, buffer: nat) returns (ok: bool)
      requires buffer > 0
      modifies this
      ensures ok ==> !Refused(old(disk), sources) && disk == Final(old(disk), sources, limit, force)
      ensures !ok ==> Interrupted(old(disk), disk, sources, limit, force)
      ensures !ok ==> budget == 0 || (Refused(old(disk), sources) && disk == old(disk)) || !Sound(disk)
      ensures SourcesKept(old(disk).logs, disk)
      decreases disk.marker.Valid?, 1
    {
      hide Fresh, Found, Streams, Finished;
      match disk.marker
      case Corrupt =>
        ok := false;
      case Valid(c) =>
        ok := RecoverLegacyCommit(c, sources, limit, force, buffer);
      case Missing =>
        ok := MigrateFresh(sources, limit, force, buffer);
    }

    /** A committed migration is finished first; only one without sources lets another begin after it. */
    method RecoverLegacyCommit(c: Commit, sources: Option<seq<Source>>, limit: nat, force: bool, buffer: nat) returns (ok: bool)
      requires buffer > 0 && disk.marker == Valid(c)
      modifies this
      ensures ok ==> !Refused(old(disk), sources) && disk == Final(old(disk), sources, limit, force)
      ensures !ok ==> Interrupted(old(disk), disk, sources, limit, force)
      ensures !ok ==> budget == 0 || (Refused(old(disk), sources) && disk == old(disk)) || !Sound(disk)
      ensures SourcesKept(old(disk).logs, disk)
      decreases disk.marker.Valid?, 0
    {
      hide Fresh, Found, Streams;
      if c.sources == None && sources.Some? {
        ok := FinishLegacyCommit(c);
        if ok {
          CurrentIsInput(disk.logs, Listed(sources));
          ok := MigrateLegacyTransaction(sources, limit, force, buffer);
        }
      } else if c.sources != sources {
        ok := false;
      } else {
        ok := FinishLegacyCommit(c);
      }
    }

    method MigrateFresh(sources: Option<seq<Source>>, limit: nat, force: bool, buffer: nat) returns (ok: bool)
      requires buffer > 0 && disk.marker == Missing
      modifies this
      ensures ok ==> disk == Fresh(old(disk), sources, limit, force)
      ensures !ok ==> Interrupted(old(disk), disk, sources, limit, force) && (budget == 0 || !Sound(disk))
      ensures SourcesKept(old(disk).logs, disk)
    {
      hide Streams, SourceStreams, CopyStreams, Finished, SourcePaths, Put;
      ghost var d := disk;
      ok := RemoveIfPresent(Staged);
      if ok {
        ok := RemoveIfPresent(StagedPrevious);
      }
      FreshIgnoresStages(d, disk, sources, limit, force);
      UncommittedKeepsSources(d.logs, disk);
      FoundSame(d.logs, disk.logs, sources, force);
      StreamsSame(d.logs, disk.logs, Listed(sources), true);
      if !ok || !Found(disk.logs, sources, force) {
        return;
      }
      ghost var cleared := disk;
      ok := StageLegacyStreams(sources, limit, force, buffer);
      FreshIgnoresStages(cleared, disk, sources, limit, force);
      UncommittedKeepsSources(d.logs, disk);
      if !ok {
        return;
      }
      CommittedFinishes(cleared, sources, limit, force);
      var c := Commit(sources, StagedPrevious in disk.logs);
      ok := PublishLegacyMarker(c);
      if !ok {
        FreshIgnoresStages(cleared, disk, sources, limit, force);
        return;
      }
      assert disk == Committed(cleared, sources, limit, force);
      ghost var committed := disk;
      ok := FinishLegacyCommit(c);
      KeptThrough(d.logs, committed.logs, disk, c);
      hide Sound, InPlace, Committed;
    }

    /**
     openFailedStartupGeneration and the text written to it: the destination while
     nothing is committed; after that the staged current generation, or the
     published one once it has moved. It never creates a file of a committed migration.
     */
    method CaptureFailedStartup(text: string) returns (ok: bool)
      requires text != ""
      modifies this`disk
      ensures ok <==> StartupPath(old(disk)).Some?
      ensures disk == if ok then StartupAppend(old(disk), text) else old(disk)
    {
      match disk.marker
      case Missing =>
        ok, disk := true, disk.(logs := Extend(disk.logs, Current, text));
      case Corrupt =>
        ok := false;
      case Valid(_) =>
        ok := true;
        if Staged in disk.logs {
          disk := disk.(logs := Extend(disk.logs, Staged, text));
        } else if Current in disk.logs {
          disk := disk.(logs := Extend(disk.logs, Current, text));
        } else {
          ok := false;
        }
    }

    /** MigrateLegacy: former streams, with marker lines. */
    method MigrateLegacy(sources: seq<Source>, limit: nat, buffer: nat) returns (ok: bool)
      requires buffer > 0
      modifies this
      ensures ok ==> disk == Final(old(disk), Some(sources), limit, false)
      ensures !ok ==> Interrupted(old(disk), disk, Some(sources), limit, false)
    {
      ok := MigrateLegacyTransaction(Some(sources), limit, false, buffer);
    }

    /** migrateHistory: an interrupted publication is resumed; otherwise only an oversized history is rewritten. */
    method MigrateHistory(limit: nat, buffer: nat) returns (ok: bool)
      requires limit > 0 && buffer > 0
      modifies this
      ensures Sound(old(disk)) ==> Sound(disk)
      ensures ok ==> disk == HistoryFinal(old(disk), limit)
      ensures !ok ==> Interrupted(old(disk), disk, None, limit, true) && Migratable(old(disk), None, true)
      ensures !ok ==> HistoryFinal(disk, limit) == HistoryFinal(old(disk), limit)
    {
      if disk.marker == Missing {
        var needed := HistoryNeedsMigration(Get(disk.logs, Previous), Get(disk.logs, Current), limit, buffer);
        if !needed {
          return true;
        }
      }
      ghost var d := disk;
      ok := MigrateLegacyTransaction(None, limit, true, buffer);
      if !ok && d.marker == Missing && disk.marker == Missing {
        SameAt(d.logs, disk.logs, Previous);
        SameAt(d.logs, disk.logs, Current);
      }
    }
  }

  // ------------------------------------------- failed startups between runs

  function Extend(logs: map<LogPath, string>, path: LogPath, text: string): map<LogPath, string> {
    logs[path := (if path in logs then logs[path] else "") + text]
  }

  function StartupPath(d: Disk): Option<LogPath> {
    match d.marker
    case Missing => Some(Current)
    case Corrupt => None
    case Valid(_) => if Staged in d.logs then Some(Staged) else if Current in d.logs then Some(Current) else None
  }

  function StartupAppend(d: Disk, text: string): Disk {
    if StartupPath(d) == None then d else d.(logs := Extend(d.logs, StartupPath(d).value, text))
  }

  /** The destination's current generation with more text at its end. */
  function WithText(d: Disk, text: string): Disk {
    if text == "" then d else d.(logs := Extend(d.logs, Current, text))
  }

  lemma WithTextTwice(d: Disk, a: string, b: string)
    ensures WithText(WithText(d, a), b) == WithText(d, a + b)
  {
    if a == "" {
      assert a + b == b;
    } else if b == "" {
      assert a + b == a;
    } else {
      var old' := if Current in d.logs then d.logs[Current] else "";
      assert old' + a + b == old' + (a + b);
      assert WithText(WithText(d, a), b).logs == WithText(d, a + b).logs;
    }
  }

  /** Text appended to a committed migration ends the published current generation. */
  lemma CommittedAppend(d: Disk, text: string, c: Commit)
    requires Sound(d) && d.marker == Valid(c) && text != ""
    ensures StartupPath(d).Some? && Sound(StartupAppend(d, text))
    ensures Finished(StartupAppend(d, text), c) == WithText(Finished(d, c), text)
  {
    assert Finished(StartupAppend(d, text), c).logs == WithText(Finished(d, c), text).logs;
  }

  /** Text appended before the commit is input: what an interrupted run left makes no difference to it. */
  lemma UncommittedAppend(d: Disk, v: Disk, text: string, sources: Option<seq<Source>>, limit: nat, force: bool)
    requires d.marker == v.marker == Missing && SameInputs(d.logs, v.logs)
    requires Found(d.logs, sources, force) || v.temp == d.temp
    ensures SameInputs(WithText(d, text).logs, WithText(v, text).logs)
    ensures Found(WithText(d, text).logs, sources, force) == Found(d.logs, sources, force)
    ensures Fresh(WithText(v, text), sources, limit, force) == Fresh(WithText(d, text), sources, limit, force)
  {
    var dt, vt := WithText(d, text), WithText(v, text);
    SameAt(d.logs, v.logs, Current);
    assert dt.logs - {Staged, StagedPrevious} == vt.logs - {Staged, StagedPrevious} by {
      if text != "" {
        assert dt.logs - {Staged, StagedPrevious} == Extend(d.logs - {Staged, StagedPrevious}, Current, text);
        assert vt.logs - {Staged, StagedPrevious} == Extend(v.logs - {Staged, StagedPrevious}, Current, text);
      }
    }
    assert Current !in SourcePaths(Listed(sources));
    FreshIgnoresStages(dt, vt, sources, limit, force);
  }

  datatype Step = Crashed(after: Disk) | FailedStartup(text: string)

  /** A run of attempts that all stop somewhere, with output of failed startups in between. */
  predicate Possible(d: Disk, steps: seq<Step>, sources: Option<seq<Source>>, limit: nat, force: bool)
    decreases |steps|
  {
    steps == [] ||
    match steps[0]
    case Crashed(v) => Interrupted(d, v, sources, limit, force) && Possible(v, steps[1..], sources, limit, force)
    case FailedStartup(text) => text != "" && Possible(StartupAppend(d, text), steps[1..], sources, limit, force)
  }

  function Last(d: Disk, steps: seq<Step>): Disk
    decreases |steps|
  {
    if steps == [] then d
    else Last(if steps[0].Crashed? then steps[0].after else StartupAppend(d, steps[0].text), steps[1..])
  }

  function Texts(steps: seq<Step>): string
    decreases |steps|
  {
    if steps == [] then "" else (if steps[0].Crashed? then "" else steps[0].text) + Texts(steps[1..])
  }

  /** Once committed, crashed runs change nothing and appended text accumulates at the end. */
  lemma {:induction false} CommittedSurvives(d: Disk, steps: seq<Step>, sources: Option<seq<Source>>, limit: nat, force: bool)
    requires Sound(d) && d.marker.Valid? && d.marker.commit.sources == sources
    requires Possible(d, steps, sources, limit, force)
    ensures Final(Last(d, steps), sources, limit, force) == WithText(Final(d, sources, limit, force), Texts(steps))
    decreases |steps|
  {
    if steps != [] {
      var next := if steps[0].Crashed? then steps[0].after else StartupAppend(d, steps[0].text);
      if steps[0].FailedStartup? {
        CommittedAppend(d, steps[0].text, d.marker.commit);
        WithTextTwice(Final(d, sources, limit, force), steps[0].text, Texts(steps[1..]));
      } else {
        assert Texts(steps) == Texts(steps[1..]);
      }
      hide Finished, Fresh, Sound, Interrupted, WithText, Extend;
      CommittedSurvives(next, steps[1..], sources, limit, force);
    }
  }

  /**
   However often the migration is cut short, wherever, and whatever failed
   startups write in between: the next complete run publishes what one
   uninterrupted run would have published of the history with the text written
   before the commit at its end, followed by the text written after the commit.
   */
  lemma {:induction false} CrashesLoseNothing(d: Disk, v: Disk, steps: seq<Step>, sources: Option<seq<Source>>, limit: nat, force: bool)
    returns (before: string, after: string)
    requires d.marker == v.marker == Missing && SameInputs(d.logs, v.logs)
    requires Found(d.logs, sources, force) || v.temp == d.temp
    requires Possible(v, steps, sources, limit, force) && Migratable(v, sources, force)
    ensures before + after == Texts(steps)
    ensures Final(Last(v, steps), sources, limit, force)
         == WithText(Final(WithText(d, before), sources, limit, force), after)
    decreases |steps|
  {
    hide Fresh, Found, SameInputs, Migratable, Sound, WithText, Interrupted;
    if steps == [] {
      before, after := "", "";
      FreshIgnoresStages(d, v, sources, limit, force);
      WithNoText(d);
      WithNoText(Final(d, sources, limit, force));
    } else if steps[0].FailedStartup? {
      var text := steps[0].text;
      AppendedIsInput(v, text, sources, force);
      WithTextKeeps(d, text);
      WithTextKeeps(v, text);
      UncommittedAppend(d, v, text, sources, limit, force);
      var rest, tail := CrashesLoseNothing(WithText(d, text), WithText(v, text), steps[1..], sources, limit, force);
      before, after := text + rest, tail;
      assert before + after == text + (rest + tail);
      WithTextTwice(d, text, rest);
    } else {
      var u := steps[0].after;
      FreshIgnoresStages(d, v, sources, limit, force);
      CutIsInput(d, v, u, sources, limit, force);
      if u.marker == Missing {
        before, after := CrashesLoseNothing(d, u, steps[1..], sources, limit, force);
      } else {
        CommittedSurvives(u, steps[1..], sources, limit, force);
        before, after := "", Texts(steps[1..]);
        WithNoText(d);
      }
    }
  }

  lemma WithNoText(d: Disk)
    ensures WithText(d, "") == d
  {
  }

  /** Text written while nothing is committed is something to migrate. */
  lemma AppendedIsInput(v: Disk, text: string, sources: Option<seq<Source>>, force: bool)
    requires v.marker == Missing && text != ""
    ensures StartupAppend(v, text) == WithText(v, text) && WithText(v, text).marker == Missing
    ensures Migratable(WithText(v, text), sources, force)
  {
  }

  lemma WithTextKeeps(d: Disk, text: string)
    ensures WithText(d, text).marker == d.marker && WithText(d, text).temp == d.temp
  {
  }

  /** A cut run either left the inputs alone, or committed to what the next run will finish. */
  lemma CutIsInput(d: Disk, v: Disk, u: Disk, sources: Option<seq<Source>>, limit: nat, force: bool)
    requires d.marker == v.marker == Missing && SameInputs(d.logs, v.logs) && Migratable(v, sources, force)
    requires Found(d.logs, sources, force) || v.temp == d.temp
    requires Interrupted(v, u, sources, limit, force)
    ensures Final(u, sources, limit, force) == Fresh(v, sources, limit, force)
    ensures if u.marker == Missing then
              SameInputs(d.logs, u.logs) && (Found(d.logs, sources, force) || u.temp == d.temp) && Migratable(u, sources, force)
            else Sound(u) && u.marker.Valid? && u.marker.commit.sources == sources
  {
    FoundSame(d.logs, v.logs, sources, force);
    hide Found, Fresh, Final;
    if u.marker == Missing {
      StreamsSame(v.logs, u.logs, Listed(sources), true);
      hide Streams;
    }
    assert Final(v, sources, limit, force) == Fresh(v, sources, limit, force) by { FinalMissing(v, sources, limit, force); }
  }

  lemma FinalMissing(v: Disk, sources: Option<seq<Source>>, limit: nat, force: bool)
    requires v.marker == Missing
    ensures Final(v, sources, limit, force) == Fresh(v, sources, limit, force)
  {
  }

  function BytesAt(logs: map<LogPath, string>, path: LogPath): string { if path in logs then logs[path] else "" }

  lemma {:induction false} AllBytesSplit(a: seq<Stream>, b: seq<Stream>)
    ensures AllBytes(a + b) == AllBytes(a) + AllBytes(b)
  {
    if a == [] {
      assert a + b == b;
    } else {
      AllBytesSplit(a[1..], b);
      var whole := a + b;
      assert whole[0] == a[0] && whole[1..] == a[1..] + b;
      assert AllBytes(whole) == a[0].bytes + AllBytes(whole[1..]);
      assert a[0].bytes + (AllBytes(a[1..]) + AllBytes(b)) == a[0].bytes + AllBytes(a[1..]) + AllBytes(b);
    }
  }

  lemma StreamAtBytes(logs: map<LogPath, string>, path: LogPath, source: nat, header: string)
    ensures AllBytes(StreamAt(logs, path, source, header)) == BytesAt(logs, path)
  {
    var one := StreamAt(logs, path, source, header);
    if one != [] {
      assert AllBytes(one) == one[0].bytes + AllBytes(one[1..]);
    }
  }

  lemma {:induction false} SourcesUntouched(d: Disk, text: string, sources: seq<Source>, k: nat)
    ensures SourceStreams(WithText(d, text).logs, sources, k) == SourceStreams(d.logs, sources, k)
    decreases |sources|
  {
    if sources != [] {
      SourcesUntouched(d, text, sources[1..], k + 1);
    }
  }

  /** Text written before the commit is copied between the existing history and the former streams, byte for byte. */
  lemma StartupTextIsCopied(d: Disk, text: string, sources: Option<seq<Source>>, limit: nat, force: bool)
    ensures DataOf(Join(All(StagedCopy(WithText(d, text).logs, sources, limit, force))))
         == BytesAt(d.logs, Previous) + BytesAt(d.logs, Current) + text + AllBytes(SourceStreams(d.logs, Listed(sources), 1))
  {
    hide CopyStreams, Join, DataOf, Streams, SourceStreams, AllBytes, Faithful, AllRecords;
    var logs, labelled := WithText(d, text).logs, !force || Listed(sources) != [];
    NothingLost(limit, Streams(logs, Listed(sources), labelled));
    SourcesUntouched(d, text, Listed(sources), 1);
    StreamsBytes(logs, Listed(sources), labelled);
    assert BytesAt(logs, Current) == BytesAt(d.logs, Current) + text && BytesAt(logs, Previous) == BytesAt(d.logs, Previous);
    Reassociate(BytesAt(d.logs, Previous), BytesAt(d.logs, Current), text, AllBytes(SourceStreams(d.logs, Listed(sources), 1)));
  }

  lemma Reassociate(a: string, b: string, c: string, rest: string)
    ensures a + (b + c) + rest == a + b + c + rest
  {
    assert a + (b + c) == a + b + c;
  }

  lemma StreamsBytes(logs: map<LogPath, string>, sources: seq<Source>, labelled: bool)
    ensures AllBytes(Streams(logs, sources, labelled))
         == BytesAt(logs, Previous) + BytesAt(logs, Current) + AllBytes(SourceStreams(logs, sources, 1))
  {
    var first, second := if labelled then MarkerLine("existing", true) else "", if labelled then MarkerLine("existing", false) else "";
    var a, b := StreamAt(logs, Previous, 0, first), StreamAt(logs, Current, 1, second);
    StreamAtBytes(logs, Previous, 0, first);
    StreamAtBytes(logs, Current, 1, second);
    AllBytesSplit(a, b);
    AllBytesSplit(a + b, SourceStreams(logs, sources, 1));
    hide AllBytes, SourceStreams, StreamAt;
  }

  // ------------------------------------------------------------- running twice

  /** Nothing is left to do after a completed migration of former streams. */
  lemma LegacyRunsOnce(d: Disk, sources: Option<seq<Source>>, limit: nat)
    requires d.marker == Missing
    ensures var f := Final(d, sources, limit, false);
      Final(f, sources, limit, false) == f
  {
    var f := Final(d, sources, limit, false);
    forall p | p in SourcePaths(Listed(sources))
      ensures p !in f.logs
    {
      assert p.SourceFile?;
    }
    assert !Found(f.logs, sources, false);
    assert Cleared(f).logs == f.logs;
  }

  predicate HistorySettled(d: Disk, limit: nat) {
    && (Previous in d.logs ==> Settled(d.logs[Previous], limit))
    && (Current in d.logs ==> Settled(d.logs[Current], limit))
  }

  /** What opening a writer leaves of the history. */
  function HistoryFinal(d: Disk, limit: nat): Disk {
    if d.marker == Missing && HistorySettled(d, limit) then d else Final(d, None, limit, true)
  }

  /** A rewritten history is never rewritten again. */
  lemma HistoryRunsOnce(d: Disk, limit: nat)
    requires d.marker == Missing
    ensures var f := HistoryFinal(d, limit);
      f.marker == Missing && HistorySettled(f, limit) && HistoryFinal(f, limit) == f
  {
    if !HistorySettled(d, limit) {
      var streams := Streams(d.logs, [], false);
      var s := CopyStreams(Empty, limit, streams);
      assert forall x :: x in streams ==> x.header == "";
      UnlabelledMigrationSettles(limit, streams);
      assert StagedCopy(d.logs, None, limit, true) == s;
      assert s.current in Retained(s);
      assert s.sealed != [] ==> s.sealed[|s.sealed| - 1] in Retained(s);
      assert Streams(d.logs, [], true) != [];
      FreshHistory(d, limit);
    }
  }

  lemma FreshHistory(d: Disk, limit: nat)
    requires d.marker == Missing && Streams(d.logs, [], true) != []
    ensures var f := Fresh(d, None, limit, true); var s := StagedCopy(d.logs, None, limit, true);
      && f.marker == Missing
      && Get(f.logs, Current) == Some(Erase(s.current)) && Get(f.logs, Previous) == LastSealed(s)
  {
    hide CopyStreams, Streams;
  }
}
