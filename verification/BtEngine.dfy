/**
 The engine as it is written: records updated in place behind two maps (bt/engine.go). Every method
 is tied to the step of EngineModel that the other modules reason about.
 */
module BtEngine {
  import opened Wrappers
  import opened Hex
  import M = EngineModel
  import R = EngineRecovery

  class IdInfo {
    const id: string
    const infoHash: string
    var started: bool
    var count: int

    constructor (id: string, infoHash: string)
      ensures this.id == id && this.infoHash == infoHash && started && count == 0
    {
      this.id, this.infoHash := id, infoHash;
      started, count := true, 0;
    }

    function Value(): M.Info
      reads this
    {
      M.Info(infoHash, started, count)
    }
  }

  class Torrent {
    const infoHash: string
    const tt: M.Handle
    var state: M.State

    constructor (infoHash: string, tt: M.Handle)
      ensures this.infoHash == infoHash && this.tt == tt && state == M.Unknown
    {
      this.infoHash, this.tt := infoHash, tt;
      state := M.Unknown;
    }

    function Value(): M.Record
      reads this
    {
      M.Record(infoHash, tt, state)
    }
  }

  class BtEngine {
    var running: bool
    var idInfos: map<string, IdInfo>
    var ts: map<string, Torrent>
    var client: M.Client
    var starters: multiset<string>
    var dataDir: map<string, Content>
    var torrentDir: map<string, M.TorrentFile>

    /** Every object sits under its own name, so no two entries share one. */
    ghost predicate Valid()
      reads this`idInfos, this`ts
    {
      && (forall id :: id in idInfos ==> idInfos[id].id == id)
      && (forall k :: k in ts ==> ts[k].infoHash == k)
    }

    ghost function Infos(): map<string, M.Info>
      reads this`idInfos, idInfos.Values
    {
      map id | id in idInfos :: idInfos[id].Value()
    }

    ghost function Records(): map<string, M.Record>
      reads this`ts, ts.Values
    {
      map k | k in ts :: ts[k].Value()
    }

    ghost function Abs(): M.Engine
      reads this, idInfos.Values, ts.Values
    {
      M.Engine(running, Infos(), Records(), client, starters, dataDir, torrentDir)
    }

    /** NewBtEngine, over the files that are on disk. */
    constructor (dataDir: map<string, Content>, torrentDir: map<string, M.TorrentFile>)
      ensures Valid() && Abs() == M.Fresh(dataDir, torrentDir).(running := false)
      ensures idInfos == map[] && ts == map[]
    {
      running := false;
      idInfos, ts := map[], map[];
      client := M.Client(map[], 0);
      starters := multiset{};
      this.dataDir, this.torrentDir := dataDir, torrentDir;
    }

    method AddTorrent(tt: M.Handle) returns (t: Torrent)
      requires Valid()
      modifies this`ts
      ensures Valid() && Abs() == M.AddTorrent(old(Abs()), tt)
      ensures t.infoHash == HexString(tt.hash) && t.infoHash in ts && ts[t.infoHash] == t
      ensures forall k :: k in ts ==> (k in old(ts) && ts[k] == old(ts[k])) || fresh(ts[k])
    {
      hide HexString;
      var ih := HexString(tt.hash);
      if ih in ts {
        t := ts[ih];
      } else {
        t := new Torrent(ih, tt);
        ts := ts[ih := t];
        assert Records() == old(Records())[ih := M.Record(ih, tt, M.Unknown)];
      }
    }

    method GetTorrent(infoHash: string) returns (r: Result<Torrent, M.Error>)
      requires Valid()
      ensures M.GetTorrent(Abs(), infoHash) == if r.Ok? then Ok(r.value.infoHash) else Fail(r.error)
      ensures r.Ok? ==> r.value.infoHash in ts && ts[r.value.infoHash] == r.value
    {
      match Str2ih(infoHash)
      case IsHash(ih) =>
        if HexString(ih) in ts {
          r := Ok(ts[HexString(ih)]);
        } else {
          r := Fail(M.Missing);
        }
      case _ =>
        r := Fail(M.BadHash);
    }

    /** The assignment of a torrent's state. */
    method SetState(t: Torrent, state: M.State)
      requires Valid() && t.infoHash in ts && ts[t.infoHash] == t
      modifies ts.Values
      ensures Valid()
      ensures Abs() == old(Abs()).(ts := old(Records())[t.infoHash := old(Records())[t.infoHash].(state := state)])
    {
      if t.state != state {
        t.state := state;
      }
      var k := t.infoHash;
      assert Records() == old(Records())[k := old(Records())[k].(state := state)];
    }

    /** A starter goroutine, once the torrent's info is there. */
    method RunStarter(infoHash: string)
      requires Valid() && infoHash in starters
      modifies this`starters, ts.Values
      ensures Valid() && Abs() == M.Do(old(Abs()), M.Fire(infoHash))
    {
      hide HexString, Str2ih, M.GetTorrent;
      starters := starters - multiset{infoHash};
      var r := GetTorrent(infoHash);
      if r.Ok? {
        SetState(r.value, M.Started);
      }
    }

    method DropTorrent(infoHash: string) returns (err: Outcome<M.Error>)
      requires Valid()
      modifies this`client, ts.Values
      ensures Valid() && (Abs(), err) == M.DropTorrent(old(Abs()), infoHash)
    {
      hide HexString, Str2ih, M.GetTorrent;
      var r := GetTorrent(infoHash);
      if r.Fail? {
        return Err(r.error);
      }
      var t := r.value;
      assert Abs().ts[t.infoHash] == t.Value();
      hide Infos, Records, Valid, M.DropFromClient;
      if t.state == M.Dropped {
        return Err(M.AlreadyStopped);
      }
      StopRecord(t);
      err := Nil;
    }

    method StopRecord(t: Torrent)
      requires Valid() && t.infoHash in ts && ts[t.infoHash] == t
      modifies this`client, ts.Values
      ensures Valid()
      ensures Abs() == old(Abs()).(client := M.DropFromClient(old(client), t.tt.hash),
                                   ts := old(Records())[t.infoHash := old(Records())[t.infoHash].(state := M.Dropped)])
    {
      client := M.DropFromClient(client, t.tt.hash);
      SetState(t, M.Dropped);
    }

    method ForgetTorrent(infoHash: string) returns (err: Outcome<M.Error>)
      requires Valid()
      modifies this`client, this`ts
      ensures Valid() && (Abs(), err) == M.ForgetTorrent(old(Abs()), infoHash)
      ensures ts.Values <= old(ts.Values)
    {
      hide HexString, Str2ih, M.GetTorrent;
      var r := GetTorrent(infoHash);
      if r.Fail? {
        return Err(r.error);
      }
      var k := r.value.infoHash;
      assert old(Abs()).ts[k].infoHash == k;
      RemoveRecord(k);
      match Str2ih(infoHash) {
        case IsHash(ih) => DropHandle(ih);
        case _ =>
      }
      err := Nil;
    }

    method RemoveRecord(k: string)
      requires Valid()
      modifies this`ts
      ensures Valid() && Abs() == old(Abs()).(ts := old(Records()) - {k})
      ensures ts.Values <= old(ts.Values)
    {
      ts := ts - {k};
      assert Records() == old(Records()) - {k};
    }

    /** Only a handle that the client has is dropped. */
    method DropHandle(h: Hash)
      requires Valid()
      modifies this`client
      ensures Valid() && Abs() == old(Abs()).(client := M.DropFromClient(old(client), h))
    {
      if h in client.live {
        client := M.DropFromClient(client, h);
      } else {
        assert M.DropFromClient(client, h).live == client.live;
      }
    }

    method CreateTorrent(id: string, env: M.SeedEnv) returns (err: Outcome<M.Error>)
      requires Valid()
      modifies this`torrentDir
      ensures Valid() && (Abs(), err) == M.CreateTorrent(old(Abs()), id, env)
      ensures err.Nil? ==> M.GetTorrentFilePath(id) in torrentDir
    {
      if M.GetFilePath(id) !in dataDir || env.build.None? {
        return Err(M.BuildFailed);
      }
      if !env.create {
        return Err(M.CreateFailed);
      }
      var tfn := M.GetTorrentFilePath(id);
      torrentDir := torrentDir[tfn := M.Partial];
      if !env.write {
        return Err(M.WriteFailed);
      }
      torrentDir := torrentDir[tfn := M.Whole(env.build.value)];
      assert torrentDir == old(torrentDir)[tfn := M.Whole(env.build.value)];
      err := Nil;
    }

    /** The tail that StartSeed and StartLeecher share. */
    method Launch(id: string, h: Hash, add: bool) returns (err: Outcome<M.Error>)
      requires Valid()
      modifies this`client, this`ts, this`starters, this`idInfos
      ensures Valid() && (Abs(), err) == M.Launch(old(Abs()), id, h, add)
      ensures forall i :: i in idInfos ==> (i in old(idInfos) && idInfos[i] == old(idInfos[i])) || fresh(idInfos[i])
    {
      hide HexString, M.AddTorrent, M.AddToClient;
      client := M.AddToClient(client, h);
      if !add {
        return Err(M.AddFailed);
      }
      var t := AddTorrent(client.live[h]);
      Register(id, t.infoHash);
      err := Nil;
    }

    /** The spawned starter and the id's new record. */
    method Register(id: string, infoHash: string)
      requires Valid()
      modifies this`starters, this`idInfos
      ensures Valid()
      ensures Abs() == old(Abs()).(starters := old(starters) + multiset{infoHash},
                                   idInfos := old(Infos())[id := M.Info(infoHash, true, 0)])
      ensures forall i :: i in idInfos ==> (i in old(idInfos) && idInfos[i] == old(idInfos[i])) || fresh(idInfos[i])
    {
      starters := starters + multiset{infoHash};
      var info := new IdInfo(id, infoHash);
      idInfos := idInfos[id := info];
      assert Infos() == old(Infos())[id := M.Info(infoHash, true, 0)];
    }

    method Join(id: string)
      requires Valid() && id in idInfos
      modifies idInfos.Values
      ensures Valid() && Abs() == M.Join(old(Abs()), id)
    {
      var info := idInfos[id];
      info.count := info.count + 1;
      assert Infos() == old(Infos())[id := info.Value()];
    }

    method StartSeed(id: string, env: M.SeedEnv) returns (err: Outcome<M.Error>)
      requires Valid()
      modifies this, idInfos.Values
      ensures Valid() && (Abs(), err) == M.StartSeed(old(Abs()), id, env)
      ensures forall i :: i in idInfos ==> (i in old(idInfos) && idInfos[i] == old(idInfos[i])) || fresh(idInfos[i])
    {
      hide M.Launch, M.CreateTorrent, M.Join, M.GetTorrentFilePath;
      if !running {
        return Err(M.NotRunning);
      }
      if id in idInfos && idInfos[id].started {
        Join(id);
        return Nil;
      }
      var tf := M.GetTorrentFilePath(id);
      if tf !in torrentDir {
        err := CreateTorrent(id, env);
        if err.Err? {
          return;
        }
      }
      if !env.load || torrentDir[tf].Partial? {
        return Err(M.LoadFailed);
      }
      err := Launch(id, torrentDir[tf].hash, env.add);
    }

    /**
     StartLeecher. With a progress to report to, the call that launches the torrent goes on to wait
     for its data; one that joins a started id, or reports to nobody, returns at once.
     */
    method StartLeecher(id: string, env: M.LeechEnv, progress: bool) returns (err: Outcome<M.Error>, waits: bool)
      requires Valid()
      modifies this, idInfos.Values
      ensures Valid() && (Abs(), err) == M.StartLeecher(old(Abs()), id, env)
      ensures waits <==> progress && err.Nil? && !M.IsStarted(old(Abs()), id)
    {
      hide M.Launch, M.Join;
      if !running {
        return Err(M.NotRunning), false;
      }
      if id in idInfos && idInfos[id].started {
        Join(id);
        return Nil, false;
      }
      if env.torrent.None? {
        return Err(M.LoadFailed), false;
      }
      err := Launch(id, env.torrent.value, env.add);
      waits := progress && err.Nil?;
    }

    /** The assignments that StopTorrent makes to the id's record. */
    method SetInfo(id: string, started: bool, count: int)
      requires Valid() && id in idInfos
      modifies idInfos.Values
      ensures idInfos[id].started == started
      ensures Valid() && Abs() == old(Abs()).(idInfos := old(Infos())[id := M.Info(idInfos[id].infoHash, started, count)])
      ensures idInfos[id].count == count
    {
      var info := idInfos[id];
      info.started, info.count := started, count;
      assert Infos() == old(Infos())[id := info.Value()];
    }

    method StopTorrent(id: string) returns (err: Outcome<M.Error>)
      requires Valid()
      modifies this`client, idInfos.Values, ts.Values
      ensures Valid() && (Abs(), err) == M.StopTorrent(old(Abs()), id)
    {
      hide M.DropTorrent;
      if !running {
        return Err(M.NotRunning);
      }
      if id !in idInfos || !idInfos[id].started {
        return Nil;
      }
      var info := idInfos[id];
      assert Abs().idInfos[id] == info.Value();
      hide Infos, Records;
      SetInfo(id, info.started, info.count - 1);
      if info.count > 0 {
        return Nil;
      }
      hide Valid;
      err := DropTorrent(info.infoHash);
      if err.Err? {
        return;
      }
      SetInfo(id, false, info.count);
    }

    method DeleteTorrent(id: string, env: M.DeleteEnv) returns (err: Outcome<M.Error>)
      requires Valid()
      modifies this
      ensures Valid() && (Abs(), err) == M.DeleteTorrent(old(Abs()), id, env)
    {
      hide M.ForgetTorrent, M.RemoveFiles;
      if !running {
        return Err(M.NotRunning);
      }
      if id !in idInfos {
        return Nil;
      }
      var info := idInfos[id];
      assert Abs().idInfos[id] == info.Value();
      hide Infos, Records;
      if info.started {
        return Err(M.StillStarted);
      }
      err := ForgetTorrent(info.infoHash);
      if err.Err? {
        return;
      }
      RemoveInfo(id);
      err := RemoveFiles(id, env);
    }

    method RemoveInfo(id: string)
      requires Valid()
      modifies this`idInfos
      ensures Valid() && Abs() == old(Abs()).(idInfos := old(Infos()) - {id})
    {
      idInfos := idInfos - {id};
      assert Infos() == old(Infos()) - {id};
    }

    method RemoveFiles(id: string, env: M.DeleteEnv) returns (err: Outcome<M.Error>)
      requires Valid()
      modifies this`dataDir, this`torrentDir
      ensures Valid() && (Abs(), err) == M.RemoveFiles(old(Abs()), id, env)
    {
      var dfn := M.GetFilePath(id);
      if dfn in dataDir && !env.removeData {
        return Err(M.RemoveDataFailed);
      }
      dataDir := dataDir - {dfn};
      var tfn := M.GetTorrentFilePath(id);
      if tfn in torrentDir && !env.removeTorrent {
        return Err(M.RemoveTorrentFailed);
      }
      torrentDir := torrentDir - {tfn};
      err := Nil;
    }

    /** One round of the loop of Run. */
    method ScanFile(name: string, seedEnv: string -> M.SeedEnv)
      requires Valid()
      modifies this, idInfos.Values
      ensures Valid() && Abs() == R.ScanOne(old(Abs()), name, seedEnv)
      ensures forall id :: id in idInfos ==> (id in old(idInfos) && idInfos[id] == old(idInfos[id])) || fresh(idInfos[id])
    {
      hide R.ScanId, M.StartSeed, M.GetTorrentFilePath;
      match R.ScanId(name) {
        case None =>
        case Some(id) =>
          if M.GetTorrentFilePath(id) in torrentDir {
            var _ := StartSeed(id, seedEnv(id));
          }
      }
    }

    /** Run on an engine that has not run before, with the names that the data directory lists. */
    method Run(env: R.RunEnv, files: seq<string>, seedEnv: string -> M.SeedEnv) returns (err: Outcome<R.RunError>)
      requires Valid()
      modifies this, idInfos.Values
      ensures Valid() && (Abs(), err) == R.RunEngine(old(Abs()), env, files, seedEnv)
    {
      hide R.ScanOne;
      if !env.dirs {
        return Nil;
      }
      if env.port <= 0 {
        return Err(R.BadPort);
      }
      if !env.client {
        return Err(R.ClientFailed);
      }
      client := M.Client(map[], client.next);
      running := true;
      if !env.list {
        return Err(R.ListFailed);
      }
      ghost var s1 := Abs();
      for i := 0 to |files|
        invariant Valid()
        invariant forall id :: id in idInfos ==> idInfos[id] in old(idInfos.Values) || fresh(idInfos[id])
        invariant R.Scan(Abs(), files[i..], seedEnv) == R.Scan(s1, files, seedEnv)
      {
        ScanFile(files[i], seedEnv);
        assert files[i..][1..] == files[i + 1..];
      }
      assert files[|files|..] == [];
      err := Nil;
    }
  }
}
