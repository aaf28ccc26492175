/**
 What a restarted engine finds again from its files (bt/engine.go:131-155, 170-176, 455-481).
 */
module EngineRecovery {
  import opened Wrappers
  import opened Hex
  import opened Strings
  import opened EngineModel
  import opened EngineLinks
  import opened EngineCounts
  import opened EngineRestarts

  predicate DotFree(s: string) {
    '.' !in s
  }

  /** filepath.Ext, looking back from position `i`. */
  function ExtAt(s: string, i: nat): (e: string)
    requires i <= |s|
    ensures e == "" || (|e| <= |s| && s[|s| - |e|..] == e && e[0] == '.')
  {
    if i == 0 || s[i - 1] == '/' then ""
    else if s[i - 1] == '.' then s[i - 1..]
    else ExtAt(s, i - 1)
  }

  function Ext(name: string): string {
    ExtAt(name, |name|)
  }

  /** The id that the scan reads off a file name, if it takes it for a layer file. */
  function ScanId(name: string): Option<string> {
    if Ext(name) != ".layer" then None
    else if |Split(name, '.')| != 2 then None
    else Some(Split(name, '.')[0])
  }

  lemma {:induction false} ExtAfterDot(s: string, k: nat, i: nat)
    requires k < i <= |s| && s[k] == '.'
    requires forall j :: k < j < i ==> s[j] != '.' && s[j] != '/'
    ensures ExtAt(s, i) == s[k..]
    decreases i
  {
    if i - 1 == k {
    } else {
      ExtAfterDot(s, k, i - 1);
    }
  }

  lemma OnlyDot(p: string, q: string, i: nat)
    requires DotFree(p) && DotFree(q) && i < |p + "." + q| && (p + "." + q)[i] == '.'
    ensures i == |p|
  {
  }

  lemma ScanIdOfFile(id: string)
    requires DotFree(id)
    ensures ScanId(GetFilePath(id)) == Some(id)
  {
    hide ExtAt, Split;
    var s := GetFilePath(id);
    assert s == id + "." + "layer";
    assert s[|id|..] == ".layer";
    assert forall j :: |id| <= j < |s| ==> s[j] == s[|id|..][j - |id|];
    ExtAfterDot(s, |id|, |s|);
    SplitAt(id, "layer", '.');
  }

  lemma LayerSuffix(name: string)
    requires Ext(name) == ".layer"
    ensures |name| >= 6 && name[|name| - 6..] == ".layer" && name[|name| - 6] == '.'
  {
    hide ExtAt;
    assert name[|name| - 6] == name[|name| - 6..][0];
  }

  lemma FileOfScanId(name: string, id: string)
    requires ScanId(name) == Some(id)
    ensures DotFree(id) && name == GetFilePath(id)
  {
    hide Ext, Split;
    LayerSuffix(name);
    SplitTwo(name, '.');
    OnlyDot(id, Split(name, '.')[1], |name| - 6);
    assert name == name[..|name| - 6] + name[|name| - 6..];
    assert name[..|name| - 6] == id;
  }

  /** Reading a name off the directory exactly undoes GetFilePath, on ids without a dot. */
  lemma ScanIdIff(name: string, id: string)
    ensures ScanId(name) == Some(id) <==> DotFree(id) && name == GetFilePath(id)
  {
    hide ScanId, GetFilePath;
    if ScanId(name) == Some(id) {
      FileOfScanId(name, id);
    } else if DotFree(id) && name == GetFilePath(id) {
      ScanIdOfFile(id);
    }
  }

  /** One round of the loop of `Run` over the data directory. */
  function ScanOne(s: Engine, name: string, env: string -> SeedEnv): Engine {
    match ScanId(name)
    case None => s
    case Some(id) => if GetTorrentFilePath(id) !in s.torrentDir then s else StartSeed(s, id, env(id)).0
  }

  function Scan(s: Engine, names: seq<string>, env: string -> SeedEnv): Engine
    decreases |names|
  {
    if names == [] then s else Scan(ScanOne(s, names[0], env), names[1..], env)
  }

  /** What Run meets before it gets to the files. */
  datatype RunEnv = RunEnv(dirs: bool, port: int, client: bool, list: bool)

  datatype RunError = BadPort | ClientFailed | ListFailed

  /** Run; when a directory cannot be made it gives up and reports success all the same. */
  function RunEngine(s: Engine, env: RunEnv, names: seq<string>, seedEnv: string -> SeedEnv): (Engine, Outcome<RunError>) {
    if !env.dirs then (s, Nil)
    else if env.port <= 0 then (s, Err(BadPort))
    else if !env.client then (s, Err(ClientFailed))
    else
      var s1 := s.(client := Client(map[], s.client.next), running := true);
      if !env.list then (s1, Err(ListFailed)) else (Scan(s1, names, seedEnv), Nil)
  }

  /** The torrent file of `id` is there and StartSeed of it succeeds. */
  predicate Seedable(torrentDir: map<string, TorrentFile>, id: string, env: string -> SeedEnv) {
    var tf := GetTorrentFilePath(id);
    tf in torrentDir && torrentDir[tf].Whole? && env(id).load && env(id).add
  }

  predicate Recovered(names: seq<string>, torrentDir: map<string, TorrentFile>, id: string, env: string -> SeedEnv) {
    DotFree(id) && GetFilePath(id) in names && Seedable(torrentDir, id, env)
  }

  lemma ScanOneEffect(s: Engine, name: string, env: string -> SeedEnv)
    requires WellFormed(s) && s.running
    requires forall id :: id in s.idInfos ==> GetFilePath(id) != name
    ensures var s' := ScanOne(s, name, env);
            && WellFormed(s') && s'.running && s'.dataDir == s.dataDir && s'.torrentDir == s.torrentDir
            && s'.idInfos ==
                 if ScanId(name).Some? && Seedable(s.torrentDir, ScanId(name).value, env) then
                   var id := ScanId(name).value;
                   s.idInfos[id := Info(HexString(s.torrentDir[GetTorrentFilePath(id)].hash), true, 0)]
                 else s.idInfos
  {
    hide Canonical, HexString, Str2ih, ScanId, WellFormed;
    if ScanId(name).Some? {
      var id := ScanId(name).value;
      ScanIdIff(name, id);
      var e := Seed(id, env(id));
      StepWellFormed(s, e);
      if GetTorrentFilePath(id) in s.torrentDir {
        if Launches(s, e).Some? {
          LaunchEffect(s, e);
        }
      }
    }
  }

  predicate Distinct(names: seq<string>) {
    forall i, j :: 0 <= i < j < |names| ==> names[i] != names[j]
  }

  lemma {:induction false} ScanAdds(s: Engine, names: seq<string>, env: string -> SeedEnv)
    requires WellFormed(s) && s.running && Distinct(names)
    requires forall id :: id in s.idInfos ==> GetFilePath(id) !in names
    ensures var s' := Scan(s, names, env);
            && s'.running && s'.dataDir == s.dataDir && s'.torrentDir == s.torrentDir
            && (forall id :: id in s'.idInfos <==> id in s.idInfos || Recovered(names, s.torrentDir, id, env))
            && (forall id :: id in s'.idInfos && id !in s.idInfos ==>
                  s'.idInfos[id] == Info(HexString(s.torrentDir[GetTorrentFilePath(id)].hash), true, 0))
            && (forall id :: id in s.idInfos ==> s'.idInfos[id] == s.idInfos[id])
    decreases |names|
  {
    hide Canonical, HexString, Str2ih, ScanId, WellFormed, ScanOne, GetFilePath, GetTorrentFilePath;
    if names == [] {
    } else {
      var name, rest := names[0], names[1..];
      assert names == [name] + rest;
      ScanOneEffect(s, name, env);
      var s1 := ScanOne(s, name, env);
      forall id
        ensures ScanId(name) == Some(id) <==> DotFree(id) && name == GetFilePath(id)
      {
        ScanIdIff(name, id);
      }
      assert name !in rest;
      assert Distinct(rest);
      ScanAdds(s1, rest, env);
    }
  }

  /**
   After the scan of a fresh engine its ids are exactly the dot-free ones with a layer file and a
   torrent file whose StartSeed succeeded, each started with `Count` 0.
   */
  lemma ScanRecoversExactly(dataDir: map<string, Content>, torrentDir: map<string, TorrentFile>,
                            names: seq<string>, env: string -> SeedEnv)
    requires Distinct(names) && forall name :: name in names <==> name in dataDir
    ensures var s := Scan(Fresh(dataDir, torrentDir), names, env);
            && (forall id :: id in s.idInfos <==>
                  DotFree(id) && GetFilePath(id) in dataDir && Seedable(torrentDir, id, env))
            && (forall id :: id in s.idInfos ==> s.idInfos[id].started && s.idInfos[id].count == 0)
  {
    hide HexString, Scan;
    FreshWellFormed(dataDir, torrentDir);
    ScanAdds(Fresh(dataDir, torrentDir), names, env);
  }

  lemma PathsInjective(i: string, j: string)
    ensures GetFilePath(i) == GetFilePath(j) ==> i == j
    ensures GetTorrentFilePath(i) == GetTorrentFilePath(j) ==> i == j
  {
    assert GetFilePath(i)[..|GetFilePath(i)| - 6] == i && GetFilePath(j)[..|GetFilePath(j)| - 6] == j;
    assert GetTorrentFilePath(i)[..|GetTorrentFilePath(i)| - 8] == i;
    assert GetTorrentFilePath(j)[..|GetTorrentFilePath(j)| - 8] == j;
  }

  predicate HasData(s: Engine, id: string) {
    GetFilePath(id) in s.dataDir
  }

  predicate HasTorrent(s: Engine, id: string) {
    var tf := GetTorrentFilePath(id);
    tf in s.torrentDir && s.torrentDir[tf].Whole?
  }

  predicate HasPartial(s: Engine, id: string) {
    var tf := GetTorrentFilePath(id);
    tf in s.torrentDir && s.torrentDir[tf].Partial?
  }

  /** The start writes a whole torrent file: a launch by StartSeed of an id that has none. */
  predicate Writes(s: Engine, e: Event, id: string) {
    && e.Seed? && e.id == id && s.running && !IsStarted(s, id)
    && GetTorrentFilePath(id) !in s.torrentDir && HasData(s, id)
    && e.seedEnv.build.Some? && e.seedEnv.create && e.seedEnv.write
  }

  /** The start cuts the torrent file short. */
  predicate Breaks(s: Engine, e: Event, id: string) {
    && e.Seed? && e.id == id && s.running && !IsStarted(s, id)
    && GetTorrentFilePath(id) !in s.torrentDir && HasData(s, id)
    && e.seedEnv.build.Some? && e.seedEnv.create && !e.seedEnv.write
  }

  /** The delete gets as far as the files: the id is known and stopped, and its torrent is there. */
  predicate Deletes(s: Engine, e: Event, id: string) {
    && e.Delete? && e.id == id && s.running
    && id in s.idInfos && !s.idInfos[id].started && s.idInfos[id].infoHash in s.ts
  }

  /** The delete gets rid of the data file, if there is one, and comes to the torrent file. */
  predicate RemovesData(s: Engine, e: Event, id: string) {
    Deletes(s, e, id) && (HasData(s, id) ==> e.deleteEnv.removeData)
  }

  predicate RemovesTorrent(s: Engine, e: Event, id: string) {
    RemovesData(s, e, id) && e.deleteEnv.removeTorrent
  }

  /** The torrent file that a start by StartSeed leaves. */
  lemma EnsureFiles(s: Engine, i: string, env: SeedEnv)
    ensures var s1 := EnsureTorrentFile(s, i, env).0;
            && s1.dataDir == s.dataDir
            && s1.torrentDir ==
                 if GetTorrentFilePath(i) in s.torrentDir || !HasData(s, i) || env.build.None? || !env.create then s.torrentDir
                 else s.torrentDir[GetTorrentFilePath(i) := if env.write then Whole(env.build.value) else Partial]
  {
    hide GetFilePath, GetTorrentFilePath;
  }

  lemma SeedKeepsRest(s: Engine, i: string, env: SeedEnv)
    ensures var s', s1 := Do(s, Seed(i, env)), EnsureTorrentFile(s, i, env).0;
            if !s.running || IsStarted(s, i) then s'.dataDir == s.dataDir && s'.torrentDir == s.torrentDir
            else s'.dataDir == s1.dataDir && s'.torrentDir == s1.torrentDir
  {
    hide GetFilePath, GetTorrentFilePath, HexString, EnsureTorrentFile, AddToClient;
  }

  /** What each kind of step does to the two files of an id. */
  lemma SeedFiles(s: Engine, i: string, env: SeedEnv, id: string)
    ensures var s', e := Do(s, Seed(i, env)), Seed(i, env);
            && s'.dataDir == s.dataDir
            && (HasTorrent(s', id) <==> HasTorrent(s, id) || Writes(s, e, id))
            && (HasPartial(s', id) <==> HasPartial(s, id) || Breaks(s, e, id))
  {
    hide GetFilePath, GetTorrentFilePath, Do, EnsureTorrentFile, HasData;
    PathsInjective(i, id);
    EnsureFiles(s, i, env);
    SeedKeepsRest(s, i, env);
  }

  lemma DeleteFilesOf(s: Engine, i: string, env: DeleteEnv, id: string)
    requires WellFormed(s)
    ensures var s', e := Do(s, Delete(i, env)), Delete(i, env);
            && (HasData(s', id) <==> HasData(s, id) && !RemovesData(s, e, id))
            && (HasTorrent(s', id) <==> HasTorrent(s, id) && !RemovesTorrent(s, e, id))
            && (HasPartial(s', id) <==> HasPartial(s, id) && !RemovesTorrent(s, e, id))
  {
    hide GetFilePath, GetTorrentFilePath, Do, WellFormed;
    PathsInjective(i, id);
    DeleteEffect(s, i, env);
    if Deletes(s, Delete(i, env), i) {
      DeleteFiles(s, i, env);
    }
  }

  /** The two files of `id` after any step, in terms of what the step is. */
  lemma StepFiles(s: Engine, e: Event, id: string)
    requires WellFormed(s)
    ensures var s' := Do(s, e);
            && (HasData(s', id) <==> (HasData(s, id) && !RemovesData(s, e, id)) || (e.WriteData? && e.id == id))
            && (HasTorrent(s', id) <==> (HasTorrent(s, id) && !RemovesTorrent(s, e, id)) || Writes(s, e, id))
            && (HasPartial(s', id) <==> (HasPartial(s, id) && !RemovesTorrent(s, e, id)) || Breaks(s, e, id))
  {
    hide Do, WellFormed, GetFilePath, GetTorrentFilePath, Writes, Breaks, Deletes;
    NotADelete(s, e, id);
    match e {
      case Seed(i, env) => SeedFiles(s, i, env, id);
      case Leech(i, env) => LeechKeepsFiles(s, i, env);
      case Stop(i) => StopEffect(s, i);
      case Delete(i, env) => DeleteFilesOf(s, i, env, id);
      case Fire(ih) => FireEffect(s, ih);
      case WriteData(i, content) =>
        WriteDataEffect(s, i, content);
        PathsInjective(i, id);
    }
  }

  lemma NotADelete(s: Engine, e: Event, id: string)
    ensures !e.Delete? ==> !Deletes(s, e, id)
    ensures !e.Seed? ==> !Writes(s, e, id) && !Breaks(s, e, id)
  {
  }

  /** What a scan can bring back. */
  predicate OnDisk(s: Engine, id: string) {
    HasData(s, id) && HasTorrent(s, id)
  }

  /**
   Whether the id can be brought back after the step: it could before, and was not deleted; or
   this start seeded it anew; or its torrent file was waiting for the data now written.
   */
  predicate SavedStep(s: Engine, e: Event, id: string, saved: bool) {
    || (saved && !RemovesData(s, e, id))
    || Writes(s, e, id)
    || (e.WriteData? && e.id == id && HasTorrent(s, id))
  }

  predicate Saved(s: Engine, es: seq<Event>, id: string, saved: bool)
    decreases |es|
  {
    if es == [] then saved else Saved(Do(s, es[0]), es[1..], id, SavedStep(s, es[0], id, saved))
  }

  lemma StepSaved(s: Engine, e: Event, id: string)
    requires WellFormed(s)
    ensures OnDisk(Do(s, e), id) <==> SavedStep(s, e, id, OnDisk(s, id))
  {
    hide Do, WellFormed, HasTorrent, HasPartial, HasData;
    StepFiles(s, e, id);
    WritesNeedsData(s, e, id);
  }

  lemma WritesNeedsData(s: Engine, e: Event, id: string)
    ensures Writes(s, e, id) ==> HasData(s, id) && !RemovesData(s, e, id)
    ensures e.WriteData? ==> !RemovesTorrent(s, e, id)
    ensures RemovesTorrent(s, e, id) ==> RemovesData(s, e, id)
  {
  }

  lemma {:induction false} RunSaved(s: Engine, es: seq<Event>, id: string)
    requires WellFormed(s)
    ensures OnDisk(Run(s, es), id) <==> Saved(s, es, id, OnDisk(s, id))
    decreases |es|
  {
    hide Do, WellFormed, OnDisk, SavedStep;
    if es == [] {
    } else {
      StepWellFormed(s, es[0]);
      StepSaved(s, es[0], id);
      RunSaved(Do(s, es[0]), es[1..], id);
    }
  }

  /**
   An engine that dies at any point of any run, over any disk, with seeders and leechers and
   failures of every kind, and starts again, comes back with exactly the dot-free ids that a start
   of StartSeed put on the disk, or that were there already, and that no delete has taken off since.
   */
  lemma RestartRecovers(dataDir: map<string, Content>, torrentDir: map<string, TorrentFile>, es: seq<Event>,
                        names: seq<string>, env: string -> SeedEnv)
    requires Distinct(names)
    requires forall name :: name in names <==> name in Run(Fresh(dataDir, torrentDir), es).dataDir
    ensures var s0 := Fresh(dataDir, torrentDir);
            var s := Run(s0, es);
            forall id :: id in Scan(Fresh(s.dataDir, s.torrentDir), names, env).idInfos <==>
              DotFree(id) && env(id).load && env(id).add && Saved(s0, es, id, OnDisk(s0, id))
  {
    hide Run, Scan, WellFormed, Saved;
    var s0 := Fresh(dataDir, torrentDir);
    FreshWellFormed(dataDir, torrentDir);
    var s := Run(s0, es);
    ScanRecoversExactly(s.dataDir, s.torrentDir, names, env);
    forall id
      ensures OnDisk(s, id) <==> Saved(s0, es, id, OnDisk(s0, id))
    {
      RunSaved(s0, es, id);
    }
  }

  /** No step of the run seeds the id anew. */
  predicate NeverWrites(s: Engine, es: seq<Event>, id: string)
    decreases |es|
  {
    es != [] ==> !Writes(s, es[0], id) && NeverWrites(Do(s, es[0]), es[1..], id)
  }

  /**
   An id without a torrent file on the disk is forgotten by a restart after every run in which it
   is only leeched, or seeded by joining what runs already: only a start of StartSeed writes one.
   */
  lemma {:induction false} LeechedIsForgotten(s: Engine, es: seq<Event>, id: string)
    requires WellFormed(s) && !HasTorrent(s, id) && NeverWrites(s, es, id)
    ensures !HasTorrent(Run(s, es), id) && !OnDisk(Run(s, es), id)
    decreases |es|
  {
    hide Do, WellFormed, HasTorrent, HasData, Writes;
    if es == [] {
    } else {
      StepWellFormed(s, es[0]);
      StepFiles(s, es[0], id);
      LeechedIsForgotten(Do(s, es[0]), es[1..], id);
    }
  }

  /** An id leeched first and then seeded is held twice, and all the same has no torrent file. */
  lemma LeechedThenSeeded(s: Engine, id: string, h: Hash, env: SeedEnv)
    requires WellFormed(s) && s.running && !IsStarted(s, id) && !HasTorrent(s, id)
    ensures var es := [Leech(id, LeechEnv(Some(h), true)), Seed(id, env)];
            NeverWrites(s, es, id) && Held(Run(s, es), id) == 2 && !OnDisk(Run(s, es), id)
  {
    hide Canonical, HexString, Str2ih, Do, WellFormed, HasTorrent, HasData;
    var leech := Leech(id, LeechEnv(Some(h), true));
    LeechEffect(s, id, h);
    var s1 := Do(s, leech);
    SeedJoins(s1, id, env);
    var es := [leech, Seed(id, env)];
    RunTwo(s, leech, Seed(id, env));
    assert es[1..] == [Seed(id, env)];
    assert es[1..][1..] == [];
    assert NeverWrites(Do(s1, Seed(id, env)), [], id);
    assert NeverWrites(s1, [Seed(id, env)], id);
    LeechedIsForgotten(s, es, id);
  }

  lemma SeedJoins(s: Engine, id: string, env: SeedEnv)
    requires s.running && IsStarted(s, id)
    ensures Do(s, Seed(id, env)) == Join(s, id)
  {
  }

  /** A failed write of the torrent file leaves it behind, cut short. */
  lemma WriteFailureBreaks(s: Engine, id: string, env: SeedEnv)
    requires Breaks(s, Seed(id, env), id)
    ensures StartSeed(s, id, env).1 == Err(WriteFailed) && HasPartial(StartSeed(s, id, env).0, id)
  {
  }

  ghost predicate AlwaysPartial(s: Engine, es: seq<Event>, id: string)
    decreases |es|
  {
    HasPartial(s, id) && (es != [] ==> AlwaysPartial(Do(s, es[0]), es[1..], id))
  }

  predicate NeverRemoves(s: Engine, es: seq<Event>, id: string)
    decreases |es|
  {
    es != [] ==> !RemovesTorrent(s, es[0], id) && NeverRemoves(Do(s, es[0]), es[1..], id)
  }

  /** A torrent file cut short stays as it is throughout a run exactly when no delete reaches its removal. */
  lemma {:induction false} PartialStaysIff(s: Engine, es: seq<Event>, id: string)
    requires WellFormed(s) && HasPartial(s, id)
    ensures AlwaysPartial(s, es, id) <==> NeverRemoves(s, es, id)
    decreases |es|
  {
    hide Do, WellFormed, HasPartial, HasTorrent, HasData, RemovesTorrent, RemovesData;
    if es == [] {
    } else {
      StepWellFormed(s, es[0]);
      StepFiles(s, es[0], id);
      BreaksNeedsNone(s, es[0], id);
      if !RemovesTorrent(s, es[0], id) {
        PartialStaysIff(Do(s, es[0]), es[1..], id);
      }
    }
  }

  lemma BreaksNeedsNone(s: Engine, e: Event, id: string)
    ensures Breaks(s, e, id) ==> !HasPartial(s, id)
  {
  }

  /** Nothing fails, and the data file is there. */
  predicate GoodSeed(s: Engine, id: string, env: SeedEnv) {
    s.running && HasData(s, id) && env.build.Some? && env.create && env.write && env.load && env.add
  }

  /**
   A seeding in which nothing fails succeeds exactly if the id is started already or has no
   torrent file cut short; and a restart does not bring back an id that has one.
   */
  lemma GoodSeedIff(s: Engine, id: string, env: SeedEnv)
    requires GoodSeed(s, id, env)
    ensures StartSeed(s, id, env).1.Nil? <==> IsStarted(s, id) || !HasPartial(s, id)
    ensures HasPartial(s, id) ==> !OnDisk(s, id)
  {
    hide HexString, AddTorrent, AddToClient;
  }

  /** When StartSeed returns nil, and which error it returns otherwise, by what is on disk and what is answered. */
  lemma SeedOutcome(s: Engine, id: string, env: SeedEnv)
    ensures var (err, e) := (StartSeed(s, id, env).1, Seed(id, env));
            var begins := s.running && !IsStarted(s, id);
            var none := begins && GetTorrentFilePath(id) !in s.torrentDir;
            && (err.Nil? <==>
                 s.running && (IsStarted(s, id) || ((HasTorrent(s, id) || Writes(s, e, id)) && env.load && env.add)))
            && (err == Err(NotRunning) <==> !s.running)
            && (err == Err(BuildFailed) <==> none && (!HasData(s, id) || env.build.None?))
            && (err == Err(CreateFailed) <==> none && HasData(s, id) && env.build.Some? && !env.create)
            && (err == Err(WriteFailed) <==> Breaks(s, e, id))
            && (err == Err(LoadFailed) <==>
                 begins && (HasPartial(s, id) || ((HasTorrent(s, id) || Writes(s, e, id)) && !env.load)))
            && (err == Err(AddFailed) <==>
                 begins && (HasTorrent(s, id) || Writes(s, e, id)) && env.load && !env.add)
  {
    hide HexString, AddTorrent, AddToClient, GetFilePath, GetTorrentFilePath;
  }

  /** The same of StartLeecher. */
  lemma LeechOutcome(s: Engine, id: string, env: LeechEnv)
    ensures var err := StartLeecher(s, id, env).1;
            var begins := s.running && !IsStarted(s, id);
            && (err.Nil? <==> s.running && (IsStarted(s, id) || (env.torrent.Some? && env.add)))
            && (err == Err(NotRunning) <==> !s.running)
            && (err == Err(LoadFailed) <==> begins && env.torrent.None?)
            && (err == Err(AddFailed) <==> begins && env.torrent.Some? && !env.add)
  {
    hide HexString, AddTorrent, AddToClient;
  }

  /**
   The way out of it: a leecher's start needs no torrent file, so leeching the id, stopping it and
   deleting it removes the file, after which the id can be seeded again.
   */
  lemma LeechingRepairs(s: Engine, id: string, h: Hash, content: Content, env: SeedEnv)
    requires WellFormed(s) && s.running && !IsStarted(s, id) && HasPartial(s, id)
    requires env.build.Some? && env.create && env.write && env.load && env.add
    ensures var es := [Leech(id, LeechEnv(Some(h), true)), Fire(HexString(h)), Stop(id),
                       Delete(id, DeleteEnv(true, true)), WriteData(id, content)];
            StartSeed(Run(s, es), id, env).1.Nil?
  {
    hide Canonical, HexString, Str2ih, Do, WellFormed, HasTorrent, HasData, HasPartial, StartSeed;
    var (leech, fire) := (Leech(id, LeechEnv(Some(h), true)), Fire(HexString(h)));
    var (delete, write) := (Delete(id, DeleteEnv(true, true)), WriteData(id, content));
    LeechEffect(s, id, h);
    var s1 := Do(s, leech);
    FireEffect(s1, HexString(h));
    StepWellFormed(s1, fire);
    var s2 := Do(s1, fire);
    StopEffect(s2, id);
    StepWellFormed(s2, Stop(id));
    var s3 := Do(s2, Stop(id));
    DeleteEffect(s3, id, DeleteEnv(true, true));
    StepWellFormed(s3, delete);
    StepFiles(s3, delete, id);
    var s4 := Do(s3, delete);
    StepFiles(s4, write, id);
    WriteDataEffect(s4, id, content);
    RunFive(s, leech, fire, Stop(id), delete, write);
    GoodSeedIff(Do(s4, write), id, env);
  }

  /** An engine that has not run, over what is on disk. */
  function NewEngine(dataDir: map<string, Content>, torrentDir: map<string, TorrentFile>): Engine {
    Fresh(dataDir, torrentDir).(running := false)
  }

  /**
   What Run does to a new engine. When nothing stands in its way it returns nil, runs, and knows
   exactly the dot-free ids with both files whose StartSeed succeeds, started and with `Count` 0.
   Without its directories it returns nil too, and does not run; the other failures are errors,
   after which it runs only if it was the data directory that could not be listed. It then knows
   nothing, and no file is touched in any case.
   */
  lemma RunOutcome(dataDir: map<string, Content>, torrentDir: map<string, TorrentFile>, env: RunEnv,
                   names: seq<string>, seedEnv: string -> SeedEnv)
    requires Distinct(names) && forall name :: name in names <==> name in dataDir
    ensures var (s, err) := RunEngine(NewEngine(dataDir, torrentDir), env, names, seedEnv);
            && (err.Nil? <==> !env.dirs || (env.port > 0 && env.client && env.list))
            && (err == Err(BadPort) <==> env.dirs && env.port <= 0)
            && (err == Err(ClientFailed) <==> env.dirs && env.port > 0 && !env.client)
            && (err == Err(ListFailed) <==> env.dirs && env.port > 0 && env.client && !env.list)
            && (s.running <==> env.dirs && env.port > 0 && env.client)
            && s.dataDir == dataDir && s.torrentDir == torrentDir
            && (forall id :: id in s.idInfos <==>
                  && env.dirs && env.port > 0 && env.client && env.list
                  && DotFree(id) && GetFilePath(id) in dataDir && Seedable(torrentDir, id, seedEnv))
            && (forall id :: id in s.idInfos ==> s.idInfos[id].started && s.idInfos[id].count == 0)
  {
    hide Scan, WellFormed;
    ScanRecoversExactly(dataDir, torrentDir, names, seedEnv);
    FreshWellFormed(dataDir, torrentDir);
    ScanAdds(Fresh(dataDir, torrentDir), names, seedEnv);
  }

  /** A restart by Run itself, over the disk that any run of the engine before it left. */
  lemma RunRecovers(dataDir: map<string, Content>, torrentDir: map<string, TorrentFile>, es: seq<Event>,
                    env: RunEnv, names: seq<string>, seedEnv: string -> SeedEnv)
    requires Distinct(names) && env.dirs && env.port > 0 && env.client && env.list
    requires forall name :: name in names <==> name in Run(Fresh(dataDir, torrentDir), es).dataDir
    ensures var s0 := Fresh(dataDir, torrentDir);
            var died := Run(s0, es);
            var (s, err) := RunEngine(NewEngine(died.dataDir, died.torrentDir), env, names, seedEnv);
            && err.Nil? && s.running
            && forall id :: (id in s.idInfos <==>
                 DotFree(id) && seedEnv(id).load && seedEnv(id).add && Saved(s0, es, id, OnDisk(s0, id)))
                 && (id in s.idInfos ==> s.idInfos[id].started && s.idInfos[id].count == 0)
  {
    hide Run, WellFormed, Saved, Scan, RunEngine;
    var s0 := Fresh(dataDir, torrentDir);
    var died := Run(s0, es);
    FreshWellFormed(dataDir, torrentDir);
    RunOutcome(died.dataDir, died.torrentDir, env, names, seedEnv);
    forall id
      ensures OnDisk(died, id) <==> Saved(s0, es, id, OnDisk(s0, id))
    {
      RunSaved(s0, es, id);
    }
  }
}
