/**
 What the engine's `Count` counts, when a torrent is really stopped, and when it can be.
 */
module EngineCounts {
  import opened Wrappers
  import opened Hex
  import opened EngineModel
  import opened EngineLinks

  /**
   The reference count a caller would keep for `id`: one at a launch, one more at each start that
   joins it, one less at each stop of a started id, failed stops included.
   */
  function HoldStep(s: Engine, e: Event, id: string, holds: int): int {
    if Launches(s, e).Some? then
      if Accepted(e) && e.id == id then 1 else holds
    else if !s.running || !IsStarted(s, id) then holds
    else if (e.Seed? || e.Leech?) && e.id == id then holds + 1
    else if e == Stop(id) then holds - 1
    else holds
  }

  function RunHolds(s: Engine, es: seq<Event>, id: string, holds: int): int
    decreases |es|
  {
    if es == [] then holds else RunHolds(Do(s, es[0]), es[1..], id, HoldStep(s, es[0], id, holds))
  }

  /** `Count` is one less than the holds, while the id is started. */
  predicate Counts(s: Engine, id: string, holds: int) {
    IsStarted(s, id) ==> s.idInfos[id].count == holds - 1
  }

  lemma StepCounts(s: Engine, e: Event, id: string, holds: int)
    requires WellFormed(s) && Counts(s, id, holds)
    ensures Counts(Do(s, e), id, HoldStep(s, e, id, holds))
  {
    hide Canonical, HexString, Str2ih, Do, Launches, WellFormed;
    if Launches(s, e).Some? {
      LaunchOnlyWhenRunning(s, e);
      LaunchEffect(s, e);
    } else {
      match e
      case Seed(_, env) => StartEffect(s, e);
      case Leech(_, env) => StartEffect(s, e);
      case Stop(i) => StopEffect(s, i);
      case Delete(i, env) => DeleteEffect(s, i, env);
      case Fire(ih) => FireEffect(s, ih);
      case WriteData(i, content) => WriteDataEffect(s, i, content);
    }
  }

  /** In every run, shared hashes and failed stops included, `Count` is the holds minus one. */
  lemma {:induction false} RunCounts(s: Engine, es: seq<Event>, id: string, holds: int)
    requires WellFormed(s) && Counts(s, id, holds)
    ensures Counts(Run(s, es), id, RunHolds(s, es, id, holds))
    decreases |es|
  {
    hide Do, WellFormed, Counts, HoldStep;
    if es == [] {
    } else {
      StepWellFormed(s, es[0]);
      StepCounts(s, es[0], id, holds);
      RunCounts(Do(s, es[0]), es[1..], id, HoldStep(s, es[0], id, holds));
    }
  }

  /**
   After any run, a stop of a started id drops its torrent exactly when at most one hold is left
   over and the torrent can be stopped. A plain reference count drops it when none is left, so the
   two agree on this stop in all cases but two: a second hold is lost, or a stop of the last
   one fails.
   */
  lemma StopVerdict(dataDir: map<string, Content>, torrentDir: map<string, TorrentFile>, es: seq<Event>, id: string)
    requires IsStarted(Run(Fresh(dataDir, torrentDir), es), id)
    ensures var s0 := Fresh(dataDir, torrentDir);
            var s, holds := Run(s0, es), RunHolds(s0, es, id, 0);
            var dropped := !IsStarted(Do(s, Stop(id)), id);
            && (dropped <==> holds - 1 <= 1 && Stoppable(s, id))
            && ((dropped <==> holds - 1 <= 0) <==> (if holds == 2 then !Stoppable(s, id) else holds > 2 || Stoppable(s, id)))
  {
    hide Canonical, HexString, Str2ih, Do;
    var s0 := Fresh(dataDir, torrentDir);
    RunWellFormed(s0, es);
    RunCounts(s0, es, id, 0);
    RunRunning(s0, es);
    StopEffect(Run(s0, es), id);
  }

  lemma StepRunning(s: Engine, e: Event)
    requires WellFormed(s)
    ensures Do(s, e).running == s.running
  {
    hide Canonical, HexString, Str2ih, Do, Launches, WellFormed;
    if Launches(s, e).Some? {
      LaunchEffect(s, e);
    } else {
      match e
      case Seed(_, env) => StartEffect(s, e);
      case Leech(_, env) => StartEffect(s, e);
      case Stop(i) => StopEffect(s, i);
      case Delete(i, env) => DeleteEffect(s, i, env);
      case Fire(ih) => FireEffect(s, ih);
      case WriteData(i, content) => WriteDataEffect(s, i, content);
    }
  }

  lemma {:induction false} RunRunning(s: Engine, es: seq<Event>)
    requires WellFormed(s)
    ensures Run(s, es).running == s.running
    decreases |es|
  {
    hide Do, WellFormed;
    if es == [] {
    } else {
      StepWellFormed(s, es[0]);
      StepRunning(s, es[0]);
      RunRunning(Do(s, es[0]), es[1..]);
    }
  }

  function Max(a: int, b: int): int {
    if a < b then b else a
  }

  /** `k` calls of StopTorrent in a row. */
  function StopTimes(s: Engine, id: string, k: nat): Engine
    decreases k
  {
    if k == 0 then s else StopTimes(Do(s, Stop(id)), id, k - 1)
  }

  lemma StopWhenStopped(s: Engine, id: string, k: nat)
    requires !s.running || !IsStarted(s, id)
    ensures StopTimes(s, id, k) == s
  {
  }

  /** The state in which the stop that drops the torrent leaves the engine. */
  function Dropping(s: Engine, id: string, count: int): Engine
    requires Stoppable(s, id)
  {
    var k := s.idInfos[id].infoHash;
    s.(idInfos := s.idInfos[id := Info(k, false, count)],
       ts := s.ts[k := s.ts[k].(state := Dropped)],
       client := DropFromClient(s.client, s.ts[k].tt.hash))
  }

  /**
   A started id with `Count` c whose torrent can be stopped is stopped by exactly max(1, c)
   calls: the calls before only count down, the calls after do nothing. With n starts behind it
   c is n - 1, so the torrent goes at stop number max(1, n - 1), one stop early from n = 2 on.
   */
  lemma {:induction false} StopTimesExactly(s: Engine, id: string, k: nat)
    requires WellFormed(s) && s.running && IsStarted(s, id) && Stoppable(s, id)
    ensures var c, ih := s.idInfos[id].count, s.idInfos[id].infoHash;
            StopTimes(s, id, k) ==
              if k < Max(1, c) then s.(idInfos := s.idInfos[id := Info(ih, true, c - k)])
              else Dropping(s, id, c - Max(1, c))
    decreases k
  {
    hide Canonical, HexString, Str2ih, Do, WellFormed;
    var c, ih := s.idInfos[id].count, s.idInfos[id].infoHash;
    if k == 0 {
      assert s.idInfos == s.idInfos[id := Info(ih, true, c)];
    } else {
      StopEffect(s, id);
      StepWellFormed(s, Stop(id));
      var s1 := Do(s, Stop(id));
      if c - 1 > 0 {
        StopTimesExactly(s1, id, k - 1);
        assert s1.idInfos[id := Info(ih, true, c - k)] == s.idInfos[id := Info(ih, true, c - k)];
        assert Dropping(s1, id, c - 1 - Max(1, c - 1)).idInfos == Dropping(s, id, c - Max(1, c)).idInfos;
      } else {
        StopWhenStopped(s1, id, k - 1);
      }
    }
  }

  /** A torrent that cannot be stopped is not stopped by repeating the call. */
  lemma {:induction false} StopTimesStuck(s: Engine, id: string, k: nat)
    requires WellFormed(s) && s.running && IsStarted(s, id) && !Stoppable(s, id)
    ensures IsStarted(StopTimes(s, id, k), id)
    decreases k
  {
    hide Canonical, HexString, Str2ih, Do, WellFormed;
    if k == 0 {
    } else {
      StopEffect(s, id);
      StepWellFormed(s, Stop(id));
      StopTimesStuck(Do(s, Stop(id)), id, k - 1);
    }
  }

  /** Some number of stops drains a started id exactly when its torrent can be stopped now. */
  lemma DrainableIff(s: Engine, id: string)
    requires WellFormed(s) && s.running && IsStarted(s, id)
    ensures (exists k: nat :: !IsStarted(StopTimes(s, id, k), id)) <==> Stoppable(s, id)
  {
    hide Canonical, HexString, Str2ih, Do, WellFormed;
    if Stoppable(s, id) {
      var k := Max(1, s.idInfos[id].count);
      StopTimesExactly(s, id, k);
      assert !IsStarted(StopTimes(s, id, k), id);
    } else {
      forall k: nat
        ensures IsStarted(StopTimes(s, id, k), id)
      {
        StopTimesStuck(s, id, k);
      }
    }
  }

  /**
   Draining an id: from a linked state with no starter to come for it, max(1, Count) stops and a
   delete take a started id out of both maps and out of the client, and its files from disk unless
   a removal fails; the torrent file stays behind a data file that cannot be removed. Every other
   id, torrent and file is left alone.
   */
  lemma DrainAndDelete(s: Engine, id: string, env: DeleteEnv)
    requires WellFormed(s) && Linked(s) && Live(s) && s.running && IsStarted(s, id)
    requires s.idInfos[id].infoHash !in s.starters
    ensures var k, m := s.idInfos[id].infoHash, Max(1, s.idInfos[id].count);
            var s1 := StopTimes(s, id, m);
            var s2 := Do(s1, Delete(id, env));
            && (forall j: nat :: j < m ==> IsStarted(StopTimes(s, id, j), id))
            && !IsStarted(s1, id)
            && s2.idInfos == s.idInfos - {id} && s2.ts == s.ts - {k}
            && s2.client.live == s.client.live - {s.ts[k].tt.hash}
            && (s2.dataDir, s2.torrentDir) == FilesAfter(s, id, env)
  {
    hide Canonical, HexString, Str2ih, Do, WellFormed, Linked, Live, StopTimes, Dropping, Stoppable;
    var m := Max(1, s.idInfos[id].count);
    LiveIsStoppable(s, id);
    StopsDrain(s, id);
    StopTimesWellFormed(s, id, m);
    DeleteDropped(s, id, s.idInfos[id].count - m, env);
  }

  lemma LiveIsStoppable(s: Engine, id: string)
    requires Linked(s) && Live(s) && IsStarted(s, id) && s.idInfos[id].infoHash !in s.starters
    ensures Stoppable(s, id)
  {
  }

  lemma StopsDrain(s: Engine, id: string)
    requires WellFormed(s) && s.running && IsStarted(s, id) && Stoppable(s, id)
    ensures var m := Max(1, s.idInfos[id].count);
            && (forall j: nat :: j < m ==> IsStarted(StopTimes(s, id, j), id))
            && StopTimes(s, id, m) == Dropping(s, id, s.idInfos[id].count - m)
            && !IsStarted(StopTimes(s, id, m), id)
  {
    hide Canonical, HexString, Str2ih, Do, WellFormed, StopTimes, Stoppable;
    var m := Max(1, s.idInfos[id].count);
    forall j: nat | j < m
      ensures IsStarted(StopTimes(s, id, j), id)
    {
      StopTimesExactly(s, id, j);
    }
    StopTimesExactly(s, id, m);
  }

  lemma DeleteDropped(s: Engine, id: string, count: int, env: DeleteEnv)
    requires s.running && Stoppable(s, id) && WellFormed(Dropping(s, id, count))
    ensures var k, s2 := s.idInfos[id].infoHash, Do(Dropping(s, id, count), Delete(id, env));
            && s2.idInfos == s.idInfos - {id} && s2.ts == s.ts - {k}
            && s2.client.live == s.client.live - {s.ts[k].tt.hash}
            && (s2.dataDir, s2.torrentDir) == FilesAfter(s, id, env)
  {
    hide Canonical, HexString, Str2ih, Do, WellFormed;
    var k, s1 := s.idInfos[id].infoHash, Dropping(s, id, count);
    DeleteEffect(s1, id, env);
    assert s1.idInfos - {id} == s.idInfos - {id};
    assert s1.ts - {k} == s.ts - {k};
    DeleteFiles(s1, id, env);
  }

  lemma StopTimesWellFormed(s: Engine, id: string, k: nat)
    requires WellFormed(s)
    ensures WellFormed(StopTimes(s, id, k))
    decreases k
  {
    hide Do, WellFormed;
    if k > 0 {
      StepWellFormed(s, Stop(id));
      StopTimesWellFormed(Do(s, Stop(id)), id, k - 1);
    }
  }

  /** The files after a delete that takes the id out of the maps. */
  function FilesAfter(s: Engine, id: string, env: DeleteEnv): (map<string, Content>, map<string, TorrentFile>) {
    var (dfn, tfn) := (GetFilePath(id), GetTorrentFilePath(id));
    if dfn in s.dataDir && !env.removeData then (s.dataDir, s.torrentDir)
    else (s.dataDir - {dfn}, if env.removeTorrent then s.torrentDir - {tfn} else s.torrentDir)
  }

  lemma DeleteFiles(s: Engine, id: string, env: DeleteEnv)
    requires WellFormed(s) && s.running && id in s.idInfos && !s.idInfos[id].started && s.idInfos[id].infoHash in s.ts
    ensures var s' := Do(s, Delete(id, env)); (s'.dataDir, s'.torrentDir) == FilesAfter(s, id, env)
  {
    hide HexString, Str2ih, GetTorrent, GetFilePath, GetTorrentFilePath;
    GetTorrentFinds(s, s.idInfos[id].infoHash);
    assert GetTorrentFilePath(id) !in s.torrentDir ==> s.torrentDir - {GetTorrentFilePath(id)} == s.torrentDir;
  }

  /**
   After any run that leaves `id` started, with its torrent not dropped and n holds counted by
   `RunHolds`, the torrent goes at stop number max(1, n - 1), where a plain reference count would
   wait for stop number n.
   */
  lemma StartsThenStops(dataDir: map<string, Content>, torrentDir: map<string, TorrentFile>, es: seq<Event>, id: string, k: nat)
    requires Stoppable(Run(Fresh(dataDir, torrentDir), es), id) && IsStarted(Run(Fresh(dataDir, torrentDir), es), id)
    ensures var s0 := Fresh(dataDir, torrentDir);
            IsStarted(StopTimes(Run(s0, es), id, k), id) <==> k < Max(1, RunHolds(s0, es, id, 0) - 1)
  {
    hide Do, Run, Fresh, WellFormed, Stoppable, RunHolds, StopTimes, Dropping;
    var s0 := Fresh(dataDir, torrentDir);
    FreshCounts(dataDir, torrentDir, id);
    RunWellFormed(s0, es);
    RunCounts(s0, es, id, 0);
    RunRunning(s0, es);
    StopTimesExactly(Run(s0, es), id, k);
    DroppingStops(Run(s0, es), id, Run(s0, es).idInfos[id].count - Max(1, Run(s0, es).idInfos[id].count));
  }

  lemma FreshCounts(dataDir: map<string, Content>, torrentDir: map<string, TorrentFile>, id: string)
    ensures var s0 := Fresh(dataDir, torrentDir); WellFormed(s0) && s0.running && Counts(s0, id, 0)
  {
  }

  lemma DroppingStops(s: Engine, id: string, count: int)
    requires Stoppable(s, id)
    ensures !IsStarted(Dropping(s, id, count), id)
  {
  }

  /** The holds that the engine's record of `id` stands for. */
  function Held(s: Engine, id: string): int {
    if IsStarted(s, id) then s.idInfos[id].count + 1 else 0
  }

  /** What the step means to a caller who counts starts that succeed and stops that find `id` started. */
  function NetStep(s: Engine, e: Event, id: string): int {
    if Launches(s, e).Some? then
      if Accepted(e) && e.id == id then 1 else 0
    else if !s.running || !IsStarted(s, id) then 0
    else if (e.Seed? || e.Leech?) && e.id == id then 1
    else if e == Stop(id) then -1
    else 0
  }

  /** Starts minus stops of a whole run. */
  function Net(s: Engine, es: seq<Event>, id: string): int
    decreases |es|
  {
    if es == [] then 0 else NetStep(s, es[0], id) + Net(Do(s, es[0]), es[1..], id)
  }

  /**
   A stop that drops the torrent while it gives up one of two holds, or, after failed stops, one
   more than there were.
   */
  predicate DropsUneven(s: Engine, e: Event, id: string) {
    && e == Stop(id) && s.running && IsStarted(s, id) && Stoppable(s, id)
    && (Held(s, id) == 2 || Held(s, id) <= 0)
  }

  lemma StepNetIff(s: Engine, e: Event, id: string)
    requires WellFormed(s)
    ensures Held(Do(s, e), id) == Held(s, id) + NetStep(s, e, id) <==> !DropsUneven(s, e, id)
  {
    hide Canonical, HexString, Str2ih, Do, Launches, WellFormed;
    if Launches(s, e).Some? {
      LaunchOnlyWhenRunning(s, e);
      LaunchEffect(s, e);
    } else {
      match e {
        case Seed(_, env) => StartEffect(s, e);
        case Leech(_, env) => StartEffect(s, e);
        case Stop(i) => StopEffect(s, i);
        case Delete(i, env) => DeleteEffect(s, i, env);
        case Fire(ih) => FireEffect(s, ih);
        case WriteData(i, content) => WriteDataEffect(s, i, content);
      }
    }
  }

  ghost predicate AlwaysHeld(s: Engine, es: seq<Event>, id: string, holds: int)
    decreases |es|
  {
    Held(s, id) == holds && (es != [] ==> AlwaysHeld(Do(s, es[0]), es[1..], id, holds + NetStep(s, es[0], id)))
  }

  predicate NeverUneven(s: Engine, es: seq<Event>, id: string)
    decreases |es|
  {
    es != [] ==> !DropsUneven(s, es[0], id) && NeverUneven(Do(s, es[0]), es[1..], id)
  }

  /**
   `Count` refines a plain reference count exactly in the runs that never drop a torrent unevenly:
   throughout a run the engine's holds are starts minus stops if and only if no stop that can drop
   the torrent meets a second hold, or a count that failed stops took below zero. Shared hashes,
   deletions and restarts do not matter otherwise.
   */
  lemma {:induction false} RefinesCountIff(s: Engine, es: seq<Event>, id: string)
    requires WellFormed(s)
    ensures AlwaysHeld(s, es, id, Held(s, id)) <==> NeverUneven(s, es, id)
    ensures NeverUneven(s, es, id) ==> Held(Run(s, es), id) == Held(s, id) + Net(s, es, id)
    decreases |es|
  {
    hide Do, WellFormed, Held, NetStep, DropsUneven;
    if es == [] {
    } else {
      StepWellFormed(s, es[0]);
      StepNetIff(s, es[0], id);
      if !DropsUneven(s, es[0], id) {
        RefinesCountIff(Do(s, es[0]), es[1..], id);
      }
    }
  }

  lemma {:induction false} RunAppend(s: Engine, es: seq<Event>, fs: seq<Event>)
    ensures Run(s, es + fs) == Run(Run(s, es), fs)
    decreases |es|
  {
    hide Do;
    if es == [] {
      assert es + fs == fs;
    } else {
      assert (es + fs)[1..] == es[1..] + fs;
      RunAppend(Do(s, es[0]), es[1..], fs);
    }
  }

  lemma {:induction false} NetAppend(s: Engine, es: seq<Event>, fs: seq<Event>, id: string)
    ensures Net(s, es + fs, id) == Net(s, es, id) + Net(Run(s, es), fs, id)
    decreases |es|
  {
    hide Do, NetStep;
    if es == [] {
      assert es + fs == fs;
    } else {
      assert (es + fs)[1..] == es[1..] + fs;
      NetAppend(Do(s, es[0]), es[1..], fs, id);
    }
  }

  /** When a stop fails, and with what error. */
  lemma StopOutcome(s: Engine, id: string)
    requires WellFormed(s)
    ensures var err := StopTorrent(s, id).1;
            && (err == Err(NotRunning) <==> !s.running)
            && (err.Nil? <==> s.running && (!IsStarted(s, id) || s.idInfos[id].count > 1 || Stoppable(s, id)))
            && (err == Err(Missing) <==>
                 s.running && IsStarted(s, id) && s.idInfos[id].count <= 1 && s.idInfos[id].infoHash !in s.ts)
            && (err == Err(AlreadyStopped) <==>
                 && s.running && IsStarted(s, id) && s.idInfos[id].count <= 1 && s.idInfos[id].infoHash in s.ts
                 && s.ts[s.idInfos[id].infoHash].state == Dropped)
  {
    hide Canonical, HexString, Str2ih, GetTorrent;
    if IsStarted(s, id) {
      var info := s.idInfos[id].(count := s.idInfos[id].count - 1);
      GetTorrentFinds(s.(idInfos := s.idInfos[id := info]), s.idInfos[id].infoHash);
    }
  }

  /**
   What DeleteTorrent means: nil exactly if afterwards the engine does not know the id, and the
   files of an id that it knew are gone; and which of its errors it is otherwise.
   */
  lemma DeleteOutcome(s: Engine, id: string, env: DeleteEnv)
    requires WellFormed(s) && s.running
    ensures var (s', err) := DeleteTorrent(s, id, env);
            var (dfn, tfn) := (GetFilePath(id), GetTorrentFilePath(id));
            && (err.Nil? <==> id !in s'.idInfos && (id in s.idInfos ==> dfn !in s'.dataDir && tfn !in s'.torrentDir))
            && (err == Err(StillStarted) <==> IsStarted(s, id))
            && (err == Err(Missing) <==> id in s.idInfos && !s.idInfos[id].started && s.idInfos[id].infoHash !in s.ts)
            && (err == Err(RemoveDataFailed) <==> id in s.idInfos && id !in s'.idInfos && dfn in s'.dataDir)
            && (err == Err(RemoveTorrentFailed) <==>
                 id in s.idInfos && id !in s'.idInfos && dfn !in s'.dataDir && tfn in s'.torrentDir)
  {
    hide Canonical, HexString, Str2ih, GetTorrent, GetFilePath, GetTorrentFilePath;
    if id in s.idInfos {
      GetTorrentFinds(s, s.idInfos[id].infoHash);
    }
  }
}
