/**
 A seeder's download that nothing stands in the way of (daemon/daemon.go:137-237): every layer is
 stored, copied to the data directory and seeded; and what a copy that fails leaves behind.
 */
module Seeding {
  import opened Wrappers
  import opened Hex
  import opened Layouts
  import opened Manifests
  import opened Downloads
  import opened Resuming
  import Paths
  import E = EngineModel
  import Recovery = EngineRecovery

  /** The source has every layer, of the digest that it says. */
  ghost predicate Pullable(t: Tools, data: LayerData, img: Image) {
    forall i :: 0 <= i < |img.layers| ==>
      Paths.IsDigest(img.layers[i].digest) && t.codec.sha(data(LayerId(img.layers[i].digest))) == LayerId(img.layers[i].digest)
  }

  /** Nothing goes wrong but, perhaps, the seeding itself, and the source sends all of the layer. */
  predicate Good(img: Image, data: LayerData, pc: PC, env: Env) {
    && env.stat && env.create && env.io
    && (pc.AtLayer? && pc.i < |img.layers| ==> env.read == Some(data(LayerId(img.layers[pc.i].digest))))
  }

  ghost predicate GoodDrive(t: Tools, data: LayerData, w: World, p: Proc, env: nat -> Env, k: nat, n: nat)
    decreases n
  {
    n > 0 ==>
      && Good(p.img, data, p.pc, env(k))
      && var (w1, p1) := StepProc(t, w, p, env(k)); GoodDrive(t, data, w1, p1, env, k + 1, n - 1)
  }

  /** A seeder's download on its way. */
  ghost predicate Underway(t: Tools, data: LayerData, w: World, p: Proc) {
    && Pullable(t, data, p.img) && p.role.Seeder?
    && match p.pc
       case AtLayer(i) => LayersPresent(p.img, i, w.blobs)
       case Copied(i) => i < |p.img.layers| && LayersPresent(p.img, i + 1, w.blobs)
       case Done => LayersPresent(p.img, |p.img.layers|, w.blobs)
       case _ => false
  }

  function StepsLeft(img: Image, pc: PC): nat {
    match pc
    case AtLayer(i) => if i <= |img.layers| then 2 * (|img.layers| - i) + 1 else 1
    case Copied(i) => if i < |img.layers| then 2 * (|img.layers| - i) else 1
    case _ => 0
  }

  /** The blobs with which it ends. */
  ghost function EndBlobs(data: LayerData, img: Image, pc: PC, blobs: map<Path, Content>): map<Path, Content> {
    match pc
    case AtLayer(i) => if i <= |img.layers| then WithLayers(data, img, i, blobs) else blobs
    case Copied(i) => if i < |img.layers| then WithLayers(data, img, i + 1, blobs) else blobs
    case _ => blobs
  }

  lemma StepUnderway(t: Tools, data: LayerData, w: World, p: Proc, env: Env)
    requires Underway(t, data, w, p) && Good(p.img, data, p.pc, env)
    ensures var (w', p') := StepProc(t, w, p, env);
            && Underway(t, data, w', p') && p'.img == p.img && w'.refs == w.refs
            && EndBlobs(data, p.img, p'.pc, w'.blobs) == EndBlobs(data, p.img, p.pc, w.blobs)
            && (p.pc == Done || StepsLeft(p.img, p'.pc) < StepsLeft(p.img, p.pc))
  {
    hide Paths.IsDigest, LayerId, Exists, E.Do, E.StartLeecher;
    if p.pc.AtLayer? && p.pc.i < |p.img.layers| {
      var digest := p.img.layers[p.pc.i].digest;
      ExistsOnDigest(w, p.img.repo, digest, env);
      DigestMatches(t, digest, env.read.value);
    }
  }

  /** The data file of the id holds the content. */
  predicate Serves(w: World, id: string, content: Content) {
    E.GetFilePath(id) in w.engine.dataDir && w.engine.dataDir[E.GetFilePath(id)] == content
  }

  predicate GoodSeeds(env: E.SeedEnv) {
    env.build.Some? && env.create && env.write && env.load && env.add
  }

  /** A layer stored by this download is served, or is about to be; and if seeding works, it is started. */
  ghost predicate Tended(data: LayerData, w: World, p: Proc, id: string, works: bool) {
    var turn := p.pc.Copied? && p.pc.i < |p.img.layers| && LayerId(p.img.layers[p.pc.i].digest) == id;
    Blob(p.img, id) in w.blobs ==>
      && w.blobs[Blob(p.img, id)] == data(id)
      && (turn || Serves(w, id, data(id)))
      && (works && !turn ==> E.IsStarted(w.engine, id))
  }

  /** The engine in which a seeding works: it runs, and no torrent file of the id was cut short. */
  predicate CanSeed(s: E.Engine, id: string) {
    s.running && !Recovery.HasPartial(s, id)
  }

  lemma CopiedStep(w: World, p: Proc, i: nat, env: Env)
    requires p.pc == Copied(i) && i < |p.img.layers| && env.create && env.io
    requires Blob(p.img, LayerId(p.img.layers[i].digest)) in w.blobs
    ensures var id := LayerId(p.img.layers[i].digest);
            var content := w.blobs[Blob(p.img, id)];
            StepCopied(w, p, i, env) == (Tell(Tell(w, E.WriteData(id, content)), E.Seed(id, env.seed)), p.(pc := AtLayer(i + 1)))
  {
    hide LayerId, E.Do;
  }

  /** What writing a layer and seeding it does to the engine's files and ids. */
  lemma SeedingEffect(w: World, id: string, content: Content, env: E.SeedEnv, x: string)
    ensures var w' := Tell(Tell(w, E.WriteData(id, content)), E.Seed(id, env));
            && w'.blobs == w.blobs && w'.refs == w.refs
            && Serves(w', id, content)
            && (x != id ==> (forall c :: Serves(w', x, c) <==> Serves(w, x, c)) && (E.IsStarted(w.engine, x) ==> E.IsStarted(w'.engine, x)))
            && (GoodSeeds(env) && CanSeed(w.engine, x) ==> CanSeed(w'.engine, x))
            && (GoodSeeds(env) && CanSeed(w.engine, id) ==> E.IsStarted(w'.engine, id))
  {
    hide E.StartSeed, E.GetFilePath, E.GetTorrentFilePath;
    var s1 := E.Do(w.engine, E.WriteData(id, content));
    Recovery.PathsInjective(id, x);
    SeedStarts(s1, id, env, x);
    Recovery.SeedFiles(s1, id, env, x);
    Recovery.SeedFiles(s1, id, env, id);
  }

  lemma SeedStarts(s: E.Engine, id: string, env: E.SeedEnv, x: string)
    ensures var s' := E.Do(s, E.Seed(id, env));
            && s'.running == s.running && (E.IsStarted(s, x) ==> E.IsStarted(s', x))
            && (GoodSeeds(env) && s.running && Recovery.HasData(s, id) && !Recovery.HasPartial(s, id) ==> E.IsStarted(s', id))
  {
    hide E.StartSeed, E.GetFilePath, E.GetTorrentFilePath, E.IsStarted, Recovery.HasData, Recovery.HasPartial;
    SeedKeepsStarted(s, id, env, x);
    if GoodSeeds(env) && s.running && Recovery.HasData(s, id) {
      Recovery.GoodSeedIff(s, id, env);
    }
  }

  lemma EnsureKeepsMaps(s: E.Engine, id: string, env: E.SeedEnv)
    ensures var s1 := E.EnsureTorrentFile(s, id, env).0; s1.idInfos == s.idInfos && s1.running == s.running
  {
    hide E.GetFilePath, E.GetTorrentFilePath;
  }

  lemma SeedKeepsStarted(s: E.Engine, id: string, env: E.SeedEnv, x: string)
    ensures var (s', err) := E.StartSeed(s, id, env);
            && s'.running == s.running && (E.IsStarted(s, x) ==> E.IsStarted(s', x)) && (err.Nil? ==> E.IsStarted(s', id))
  {
    hide E.EnsureTorrentFile, E.GetFilePath, E.GetTorrentFilePath, HexString, E.AddToClient;
    EnsureKeepsMaps(s, id, env);
  }

  lemma StepTended(t: Tools, data: LayerData, w: World, p: Proc, env: Env, id: string, works: bool)
    requires Underway(t, data, w, p) && Good(p.img, data, p.pc, env) && Tended(data, w, p, id, works)
    requires works ==> CanSeed(w.engine, id) && GoodSeeds(env.seed)
    ensures var (w', p') := StepProc(t, w, p, env);
            Tended(data, w', p', id, works) && (works ==> CanSeed(w'.engine, id))
  {
    hide Paths.IsDigest, LayerId, Exists, E.Do, E.StartLeecher, E.GetFilePath, CanSeed, GoodSeeds, E.IsStarted;
    match p.pc {
      case AtLayer(i) => LayerTended(t, data, w, p, i, env, id, works);
      case Copied(i) =>
        var x := LayerId(p.img.layers[i].digest);
        CopiedStep(w, p, i, env);
        SeedingEffect(w, x, w.blobs[Blob(p.img, x)], env.seed, id);
      case _ =>
    }
  }

  lemma LayerTended(t: Tools, data: LayerData, w: World, p: Proc, i: nat, env: Env, id: string, works: bool)
    requires p.pc == AtLayer(i) && Underway(t, data, w, p) && Good(p.img, data, p.pc, env) && Tended(data, w, p, id, works)
    ensures var (w', p') := StepProc(t, w, p, env); Tended(data, w', p', id, works) && w'.engine == w.engine
  {
    hide Paths.IsDigest, LayerId, Exists, E.Do, E.StartLeecher, E.GetFilePath, E.IsStarted;
    if i < |p.img.layers| {
      var digest := p.img.layers[i].digest;
      ExistsOnDigest(w, p.img.repo, digest, env);
      DigestMatches(t, digest, env.read.value);
    }
  }

  ghost predicate AllGoodSeeds(env: nat -> Env) {
    forall k :: GoodSeeds(env(k).seed)
  }

  lemma {:induction false} DriveUnderway(t: Tools, data: LayerData, w: World, p: Proc, env: nat -> Env, k: nat, n: nat)
    requires Underway(t, data, w, p) && GoodDrive(t, data, w, p, env, k, n)
    ensures var (w', p') := Drive(t, w, p, env, k, n);
            && Underway(t, data, w', p') && p'.img == p.img && w'.refs == w.refs
            && EndBlobs(data, p.img, p'.pc, w'.blobs) == EndBlobs(data, p.img, p.pc, w.blobs)
            && (n >= StepsLeft(p.img, p.pc) ==> p'.pc == Done)
    decreases n
  {
    hide StepProc, Good, EndBlobs, LayersPresent, Pullable;
    if n > 0 {
      var (w1, p1) := StepProc(t, w, p, env(k));
      StepUnderway(t, data, w, p, env(k));
      DoneStays(t, w, p, env(k));
      DriveUnderway(t, data, w1, p1, env, k + 1, n - 1);
    }
  }

  lemma {:induction false} DriveTended(t: Tools, data: LayerData, w: World, p: Proc, env: nat -> Env, k: nat, n: nat, id: string, works: bool)
    requires Underway(t, data, w, p) && GoodDrive(t, data, w, p, env, k, n) && Tended(data, w, p, id, works)
    requires works ==> CanSeed(w.engine, id) && AllGoodSeeds(env)
    ensures var (w', p') := Drive(t, w, p, env, k, n); Tended(data, w', p', id, works) && p'.img == p.img
    decreases n
  {
    hide StepProc, Good, Tended, Underway, CanSeed, GoodSeeds;
    if n > 0 {
      var (w1, p1) := StepProc(t, w, p, env(k));
      StepUnderway(t, data, w, p, env(k));
      StepTended(t, data, w, p, env(k), id, works);
      DriveTended(t, data, w1, p1, env, k + 1, n - 1, id, works);
    }
  }

  /**
   A seeder's download in which nothing fails but perhaps the seeding succeeds: every layer is then
   stored, what was missing with the source's content, and no reference is written. Every layer that
   was missing has its data file holding the blob, and is started if the answers to the seeding
   were good, unless a torrent file of it had been cut short. A seeding that fails fails nothing else.
   */
  lemma SeederSucceeds(t: Tools, data: LayerData, w: World, img: Image, env: nat -> Env)
    requires Pullable(t, data, img) && GoodDrive(t, data, w, Proc(Seeder, img, AtLayer(0)), env, 0, Bound(img))
    ensures var (w', p') := Drive(t, w, Proc(Seeder, img, AtLayer(0)), env, 0, Bound(img));
            && p'.pc == Done && w'.refs == w.refs && w'.blobs == WithLayers(data, img, 0, w.blobs)
            && forall i :: 0 <= i < |img.layers| ==>
                 var id := LayerId(img.layers[i].digest);
                 && Blob(img, id) in w'.blobs
                 && (Blob(img, id) !in w.blobs ==>
                      && w'.blobs[Blob(img, id)] == data(id) && Serves(w', id, data(id))
                      && (CanSeed(w.engine, id) && AllGoodSeeds(env) ==> E.IsStarted(w'.engine, id)))
  {
    hide Drive, GoodDrive, Pullable, LayerId, WithLayers, Serves, CanSeed, AllGoodSeeds, E.IsStarted;
    var p := Proc(Seeder, img, AtLayer(0));
    DriveUnderway(t, data, w, p, env, 0, Bound(img));
    var (w', p') := Drive(t, w, p, env, 0, Bound(img));
    forall i | 0 <= i < |img.layers| && Blob(img, LayerId(img.layers[i].digest)) !in w.blobs
      ensures var id := LayerId(img.layers[i].digest);
              && Blob(img, id) in w'.blobs && w'.blobs[Blob(img, id)] == data(id) && Serves(w', id, data(id))
              && (CanSeed(w.engine, id) && AllGoodSeeds(env) ==> E.IsStarted(w'.engine, id))
    {
      var id := LayerId(img.layers[i].digest);
      DriveTended(t, data, w, p, env, 0, Bound(img), id, CanSeed(w.engine, id) && AllGoodSeeds(env));
    }
  }

  /**
   A copy to the data directory that fails, after the file was made: it holds what got through, or
   nothing if the blob could not even be opened; no id and no torrent changes, and nothing is seeded.
   */
  lemma FailedCopyLeaves(t: Tools, w: World, p: Proc, i: nat, env: Env)
    requires p.pc == Copied(i) && i < |p.img.layers| && StepProc(t, w, p, env).1.pc.Failed?
    ensures var (w', id) := (StepProc(t, w, p, env).0, LayerId(p.img.layers[i].digest));
            && w'.blobs == w.blobs && w'.refs == w.refs
            && (!env.create ==> w' == w)
            && (env.create && (Blob(p.img, id) !in w.blobs || env.read.None?) ==> Serves(w', id, []))
            && (env.create && Blob(p.img, id) in w.blobs && env.read.Some? ==> Serves(w', id, env.read.value))
            && w'.engine.idInfos == w.engine.idInfos && w'.engine.ts == w.engine.ts && w'.engine.torrentDir == w.engine.torrentDir
    ensures !env.create || !env.io || Blob(p.img, LayerId(p.img.layers[i].digest)) !in w.blobs
  {
    hide LayerId, E.StartSeed, E.GetFilePath;
  }
}
