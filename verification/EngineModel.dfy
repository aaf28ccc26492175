/**
 The BitTorrent engine as a state machine (bt/engine.go, bt/torrent.go): one step per locked
 operation, and one per starter goroutine, which runs without the lock.
 Outcomes of file and library calls are arguments of the steps.
 */
module EngineModel {
  import opened Wrappers
  import opened Hex

  datatype State = Unknown | Started | Dropped

  /** A torrent object of the client library; every object it makes has its own `uid`. */
  datatype Handle = Handle(uid: nat, hash: Hash)

  /** The client library: at most one live object per info hash. */
  datatype Client = Client(live: map<Hash, Handle>, next: nat)

  /** The engine's record of a torrent. */
  datatype Record = Record(infoHash: string, tt: Handle, state: State)

  /** The engine's record of a layer id. */
  datatype Info = Info(infoHash: string, started: bool, count: int)

  /** A torrent file is whole, or was cut short while it was written. */
  datatype TorrentFile = Whole(hash: Hash) | Partial

  datatype Engine = Engine(
    running: bool,
    idInfos: map<string, Info>,
    ts: map<string, Record>,
    client: Client,
    starters: multiset<string>,            // info hashes of the goroutines that have not run yet
    dataDir: map<string, Content>,         // file name -> content
    torrentDir: map<string, TorrentFile>)  // file name -> content

  datatype Error =
    | NotRunning | BuildFailed | CreateFailed | WriteFailed | LoadFailed | AddFailed
    | BadHash | Missing | AlreadyStopped | StillStarted | RemoveDataFailed | RemoveTorrentFailed

  /** What the file system and the library answer during StartSeed. */
  datatype SeedEnv = SeedEnv(
    build: Option<Hash>,  // info hash of the data file, or a failure to read it
    create: bool,         // the torrent file could be created
    write: bool,          // and was written to its end
    load: bool,           // the torrent file could be read
    add: bool)            // the library accepted the torrent

  /** What they answer during StartLeecher: the parsed torrent data, if it parses. */
  datatype LeechEnv = LeechEnv(torrent: Option<Hash>, add: bool)

  datatype DeleteEnv = DeleteEnv(removeData: bool, removeTorrent: bool)

  function GetFilePath(id: string): string {
    id + ".layer"
  }

  function GetTorrentFilePath(id: string): string {
    id + ".torrent"
  }

  /** The library returns the object it has, or makes one, before anything can go wrong. */
  function AddToClient(c: Client, h: Hash): (c': Client)
    ensures h in c'.live
  {
    if h in c.live then c else Client(c.live[h := Handle(c.next, h)], c.next + 1)
  }

  /** Dropping is by info hash, whichever object it is asked of. */
  function DropFromClient(c: Client, h: Hash): Client {
    c.(live := c.live - {h})
  }

  /** getTorrent: the key under which the record is found. */
  function GetTorrent(s: Engine, infoHash: string): (r: Result<string, Error>)
    ensures r.Ok? ==> r.value in s.ts
  {
    match Str2ih(infoHash)
    case IsHash(h) => if HexString(h) in s.ts then Ok(HexString(h)) else Fail(Missing)
    case _ => Fail(BadHash)
  }

  function AddTorrent(s: Engine, tt: Handle): Engine {
    var ih := HexString(tt.hash);
    if ih in s.ts then s else s.(ts := s.ts[ih := Record(ih, tt, Unknown)])
  }

  /** What StartSeed and StartLeecher share once they know the info hash. */
  function Launch(s: Engine, id: string, h: Hash, add: bool): (Engine, Outcome<Error>) {
    var client := AddToClient(s.client, h);
    var s1 := s.(client := client);
    if !add then (s1, Err(AddFailed))
    else
      var s2 := AddTorrent(s1, client.live[h]);
      var ih := HexString(client.live[h].hash);
      (s2.(starters := s2.starters + multiset{ih}, idInfos := s2.idInfos[id := Info(ih, true, 0)]), Nil)
  }

  function IsStarted(s: Engine, id: string): bool {
    id in s.idInfos && s.idInfos[id].started
  }

  function Join(s: Engine, id: string): Engine
    requires id in s.idInfos
  {
    s.(idInfos := s.idInfos[id := s.idInfos[id].(count := s.idInfos[id].count + 1)])
  }

  function CreateTorrent(s: Engine, id: string, env: SeedEnv): (Engine, Outcome<Error>) {
    var tfn := GetTorrentFilePath(id);
    if GetFilePath(id) !in s.dataDir || env.build.None? then (s, Err(BuildFailed))
    else if !env.create then (s, Err(CreateFailed))
    else if !env.write then (s.(torrentDir := s.torrentDir[tfn := Partial]), Err(WriteFailed))
    else (s.(torrentDir := s.torrentDir[tfn := Whole(env.build.value)]), Nil)
  }

  /** The torrent file StartSeed is left with: the one it found, or the one it could make. */
  function EnsureTorrentFile(s: Engine, id: string, env: SeedEnv): (Engine, Outcome<Error>) {
    if GetTorrentFilePath(id) in s.torrentDir then (s, Nil) else CreateTorrent(s, id, env)
  }

  function StartSeed(s: Engine, id: string, env: SeedEnv): (Engine, Outcome<Error>) {
    if !s.running then (s, Err(NotRunning))
    else if IsStarted(s, id) then (Join(s, id), Nil)
    else
      var (s1, made) := EnsureTorrentFile(s, id, env);
      if made.Err? then (s1, made)
      else
        var tf := GetTorrentFilePath(id);
        if !env.load || s1.torrentDir[tf].Partial? then (s1, Err(LoadFailed))
        else Launch(s1, id, s1.torrentDir[tf].hash, env.add)
  }

  /** StartLeecher up to the wait for the data, which changes nothing. */
  function StartLeecher(s: Engine, id: string, env: LeechEnv): (Engine, Outcome<Error>) {
    if !s.running then (s, Err(NotRunning))
    else if IsStarted(s, id) then (Join(s, id), Nil)
    else if env.torrent.None? then (s, Err(LoadFailed))
    else Launch(s, id, env.torrent.value, env.add)
  }

  function DropTorrent(s: Engine, infoHash: string): (Engine, Outcome<Error>) {
    match GetTorrent(s, infoHash)
    case Fail(e) => (s, Err(e))
    case Ok(k) =>
      if s.ts[k].state == Dropped then (s, Err(AlreadyStopped))
      else (s.(client := DropFromClient(s.client, s.ts[k].tt.hash),
               ts := s.ts[k := s.ts[k].(state := Dropped)]), Nil)
  }

  /** The count goes down first, and stays down when the torrent then cannot be stopped. */
  function StopTorrent(s: Engine, id: string): (Engine, Outcome<Error>) {
    if !s.running then (s, Err(NotRunning))
    else if !IsStarted(s, id) then (s, Nil)
    else
      var info := s.idInfos[id].(count := s.idInfos[id].count - 1);
      var s1 := s.(idInfos := s.idInfos[id := info]);
      if info.count > 0 then (s1, Nil)
      else
        var (s2, stopped) := DropTorrent(s1, info.infoHash);
        if stopped.Err? then (s2, stopped)
        else (s2.(idInfos := s2.idInfos[id := info.(started := false)]), Nil)
  }

  function ForgetTorrent(s: Engine, infoHash: string): (Engine, Outcome<Error>) {
    match GetTorrent(s, infoHash)
    case Fail(e) => (s, Err(e))
    case Ok(k) =>
      var s1 := s.(ts := s.ts - {s.ts[k].infoHash});
      (match Str2ih(infoHash)
       case IsHash(h) => (s1.(client := DropFromClient(s1.client, h)), Nil)
       case _ => (s1, Nil))
  }

  function RemoveFiles(s: Engine, id: string, env: DeleteEnv): (Engine, Outcome<Error>) {
    var dfn, tfn := GetFilePath(id), GetTorrentFilePath(id);
    if dfn in s.dataDir && !env.removeData then (s, Err(RemoveDataFailed))
    else
      var s1 := s.(dataDir := s.dataDir - {dfn});
      if tfn in s1.torrentDir && !env.removeTorrent then (s1, Err(RemoveTorrentFailed))
      else (s1.(torrentDir := s1.torrentDir - {tfn}), Nil)
  }

  function DeleteTorrent(s: Engine, id: string, env: DeleteEnv): (Engine, Outcome<Error>) {
    if !s.running then (s, Err(NotRunning))
    else if id !in s.idInfos then (s, Nil)
    else if s.idInfos[id].started then (s, Err(StillStarted))
    else
      var (s1, forgot) := ForgetTorrent(s, s.idInfos[id].infoHash);
      if forgot.Err? then (s1, forgot)
      else RemoveFiles(s1.(idInfos := s1.idInfos - {id}), id, env)
  }

  /** startTorrent, as a starter goroutine calls it. */
  function StartTorrent(s: Engine, infoHash: string): Engine {
    match GetTorrent(s, infoHash)
    case Fail(_) => s
    case Ok(k) => s.(ts := s.ts[k := s.ts[k].(state := Started)])
  }

  datatype Event =
    | Seed(id: string, seedEnv: SeedEnv)
    | Leech(id: string, leechEnv: LeechEnv)
    | Stop(id: string)
    | Delete(id: string, deleteEnv: DeleteEnv)
    | Fire(infoHash: string)                     // one pending starter runs
    | WriteData(id: string, content: Content)    // the daemon or the library writes a data file

  /** One atomic step; an event that cannot happen in `s` changes nothing. */
  function Do(s: Engine, e: Event): Engine {
    match e
    case Seed(id, env) => StartSeed(s, id, env).0
    case Leech(id, env) => StartLeecher(s, id, env).0
    case Stop(id) => StopTorrent(s, id).0
    case Delete(id, env) => DeleteTorrent(s, id, env).0
    case Fire(ih) =>
      if ih in s.starters then StartTorrent(s.(starters := s.starters - multiset{ih}), ih) else s
    case WriteData(id, content) => s.(dataDir := s.dataDir[GetFilePath(id) := content])
  }

  /** Any interleaving of steps. */
  function Run(s: Engine, es: seq<Event>): Engine
    decreases |es|
  {
    if es == [] then s else Run(Do(s, es[0]), es[1..])
  }

  /** A started engine with empty maps over whatever files are on disk. */
  function Fresh(dataDir: map<string, Content>, torrentDir: map<string, TorrentFile>): Engine {
    Engine(true, map[], map[], Client(map[], 0), multiset{}, dataDir, torrentDir)
  }

  /** The id and info hash for which `e` asks the library for a torrent object in `s`, if it does. */
  function Launches(s: Engine, e: Event): Option<(string, Hash)> {
    if !s.running then None
    else
      match e
      case Seed(id, env) =>
        if IsStarted(s, id) then None
        else
          var (s1, made) := EnsureTorrentFile(s, id, env);
          var tf := GetTorrentFilePath(id);
          if made.Nil? && env.load && s1.torrentDir[tf].Whole? then Some((id, s1.torrentDir[tf].hash)) else None
      case Leech(id, env) =>
        if IsStarted(s, id) || env.torrent.None? then None else Some((id, env.torrent.value))
      case _ => None
  }

  /** The library's answer to the launch of `e`. */
  function Accepted(e: Event): bool {
    (e.Seed? && e.seedEnv.add) || (e.Leech? && e.leechEnv.add)
  }

  /** A start or a launch in one view: launching is `Launch` after at most the torrent file was made. */
  lemma LaunchStep(s: Engine, e: Event)
    requires Launches(s, e).Some?
    ensures exists torrentDir ::
              Do(s, e) == Launch(s.(torrentDir := torrentDir), Launches(s, e).value.0, Launches(s, e).value.1, Accepted(e)).0
  {
    match e
    case Seed(id, env) =>
      var s1 := EnsureTorrentFile(s, id, env).0;
      assert s1 == s.(torrentDir := s1.torrentDir);
    case Leech(id, env) =>
      assert s == s.(torrentDir := s.torrentDir);
  }

  /** Keys that are printed info hashes: what the engine itself ever stores. */
  predicate Canonical(k: string) {
    Str2ih(k).IsHash? && HexString(Str2ih(k).h) == k
  }

  /** What holds in every run whatsoever. */
  ghost predicate WellFormed(s: Engine) {
    && (forall k :: k in s.ts ==>
         && Canonical(k) && s.ts[k].infoHash == k
         && HexString(s.ts[k].tt.hash) == k && s.ts[k].tt.uid < s.client.next)
    && (forall h :: h in s.client.live ==> s.client.live[h].hash == h && s.client.live[h].uid < s.client.next)
    && (forall id :: id in s.idInfos ==> Canonical(s.idInfos[id].infoHash))
    && (forall k :: k in s.starters ==> Canonical(k))
  }

  lemma CanonicalHex(h: Hash)
    ensures Canonical(HexString(h)) && Str2ih(HexString(h)) == IsHash(h)
  {
    HashRoundTrip(h);
  }

  /** For a canonical key, getTorrent is a lookup of that very key. */
  lemma GetTorrentFinds(s: Engine, k: string)
    requires Canonical(k)
    ensures GetTorrent(s, k) == if k in s.ts then Ok(k) else Fail(Missing)
  {
  }

  lemma LaunchWellFormed(s: Engine, id: string, h: Hash, add: bool)
    requires WellFormed(s)
    ensures WellFormed(Launch(s, id, h, add).0)
  {
    hide Canonical, Str2ih, HexString;
    CanonicalHex(h);
  }

  lemma DropWellFormed(s: Engine, k: string)
    requires WellFormed(s)
    ensures WellFormed(DropTorrent(s, k).0)
  {
    hide Canonical, GetTorrent, HexString, Str2ih;
  }

  lemma ForgetWellFormed(s: Engine, k: string)
    requires WellFormed(s)
    ensures WellFormed(ForgetTorrent(s, k).0)
  {
    hide Canonical, GetTorrent, HexString, Str2ih;
  }

  lemma StartWellFormed(s: Engine, k: string)
    requires WellFormed(s)
    ensures WellFormed(StartTorrent(s, k))
  {
    hide Canonical, GetTorrent, HexString, Str2ih;
  }

  lemma StopWellFormed(s: Engine, id: string)
    requires WellFormed(s)
    ensures WellFormed(StopTorrent(s, id).0)
  {
    hide Canonical, GetTorrent, HexString, Str2ih, DropTorrent;
    if IsStarted(s, id) {
      var info := s.idInfos[id].(count := s.idInfos[id].count - 1);
      DropWellFormed(s.(idInfos := s.idInfos[id := info]), info.infoHash);
    }
  }

  lemma DeleteWellFormed(s: Engine, id: string, env: DeleteEnv)
    requires WellFormed(s)
    ensures WellFormed(DeleteTorrent(s, id, env).0)
  {
    hide Canonical, GetTorrent, HexString, Str2ih, ForgetTorrent;
    if id in s.idInfos {
      ForgetWellFormed(s, s.idInfos[id].infoHash);
    }
  }

  lemma LaunchStepWellFormed(s: Engine, e: Event)
    requires WellFormed(s) && Launches(s, e).Some?
    ensures WellFormed(Do(s, e))
  {
    hide WellFormed, Launch, Do, Launches;
    var (id, h) := Launches(s, e).value;
    LaunchStep(s, e);
    var torrentDir :| Do(s, e) == Launch(s.(torrentDir := torrentDir), id, h, Accepted(e)).0;
    FilesWellFormed(s, s.dataDir, torrentDir);
    LaunchWellFormed(s.(torrentDir := torrentDir), id, h, Accepted(e));
  }

  lemma FilesWellFormed(s: Engine, dataDir: map<string, Content>, torrentDir: map<string, TorrentFile>)
    requires WellFormed(s)
    ensures WellFormed(s.(dataDir := dataDir, torrentDir := torrentDir))
  {
    hide Canonical, HexString;
  }

  lemma OtherStartWellFormed(s: Engine, e: Event)
    requires WellFormed(s) && Launches(s, e).None? && (e.Seed? || e.Leech?)
    ensures WellFormed(Do(s, e))
  {
    hide Canonical, HexString, Str2ih, Launch;
  }

  lemma StepWellFormed(s: Engine, e: Event)
    requires WellFormed(s)
    ensures WellFormed(Do(s, e))
  {
    hide WellFormed, StopTorrent, DeleteTorrent, StartTorrent, StartSeed, StartLeecher, Launches;
    if Launches(s, e).Some? {
      LaunchStepWellFormed(s, e);
    } else {
      match e {
        case Seed(id, env) => OtherStartWellFormed(s, e);
        case Leech(id, env) => OtherStartWellFormed(s, e);
        case Stop(id) => StopWellFormed(s, id);
        case Delete(id, env) => DeleteWellFormed(s, id, env);
        case Fire(ih) => FireWellFormed(s, ih);
        case WriteData(id, content) => FilesWellFormed(s, s.dataDir[GetFilePath(id) := content], s.torrentDir);
      }
    }
  }

  lemma FireWellFormed(s: Engine, ih: string)
    requires WellFormed(s)
    ensures WellFormed(Do(s, Fire(ih)))
  {
    hide Canonical, HexString, Str2ih, StartTorrent;
    StartWellFormed(s.(starters := s.starters - multiset{ih}), ih);
  }

  lemma {:induction false} RunWellFormed(s: Engine, es: seq<Event>)
    requires WellFormed(s)
    ensures WellFormed(Run(s, es))
    decreases |es|
  {
    hide Do, WellFormed;
    if es == [] {
    } else {
      StepWellFormed(s, es[0]);
      RunWellFormed(Do(s, es[0]), es[1..]);
    }
  }
}
