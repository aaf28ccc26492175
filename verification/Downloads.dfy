/**
 Downloads as processes (daemon/daemon.go:104-374, daemon/oci.go:128-195), copy mode, at the
 granularity of what others can see: a check, an engine call, a published blob, a published reference.
 StoreProofs.StepVisible is why one published blob is one step.
 */
module Downloads {
  import opened Wrappers
  import opened Hex
  import opened Layouts
  import opened Manifests
  import Strings
  import Paths
  import References
  import E = EngineModel

  datatype Tools = Tools(codec: Codec, json: Json)

  ghost predicate Proper(t: Tools) {
    Inverse(t.json) && forall content :: Paths.IsHexName(t.codec.sha(content))
  }

  /** The hash tells these contents apart. */
  ghost predicate CollisionFree(c: Codec, contents: set<Content>) {
    forall x, y :: x in contents && y in contents && c.sha(x) == c.sha(y) ==> x == y
  }

  /** An image as its source describes it, and where it goes. */
  datatype Image = Image(
    repo: string, tag: string,
    layers: seq<BlobInfo>, config: BlobInfo, configBlob: Option<Content>, manifest: Option<Content>)

  /** What readers see of the layouts, the engine, and all the steps that the engine has made. */
  datatype World = World(blobs: map<Path, Content>, refs: References.RefMap, engine: E.Engine, log: seq<E.Event>)

  /** A step of the engine. */
  function Tell(w: World, e: E.Event): World {
    w.(engine := E.Do(w.engine, e), log := w.log + [e])
  }

  datatype Role = Leecher | Seeder

  datatype DownloadError =
    | StatFailed | NoTorrent | EngineFailed(cause: E.Error) | ReadFailed | BlobFailed | DigestMismatch
    | ConfigFailed | ManifestFailed | BadManifest(reason: ManifestError) | RefFailed(because: References.RefError)

  datatype PC =
    | AtLayer(i: nat)
    | Fetched(i: nat)   // leecher: StartLeecher returned, the layer is to be copied
    | Copied(i: nat)    // seeder: the layer is stored, and is to be seeded
    | AtConfig
    | AtManifest
    | CheckRef(desc: Descriptor)
    | WriteRef(desc: Descriptor)
    | Done
    | Failed(error: DownloadError)

  datatype Proc = Proc(role: Role, img: Image, pc: PC)

  /** What the outside answers to one step. */
  datatype Env = Env(
    stat: bool, elsewhere: bool,       // Exist and GetReference: the call works; what a malformed digest leads to
    torrent: Option<E.LeechEnv>,       // the torrent data that the seeder sent, if it did
    create: bool,                      // the data file can be made or truncated
    read: Option<Content>,             // what is read of a data file, of the source's layer, or of a blob cut short
    io: bool,                          // writing and renaming works
    seed: E.SeedEnv)

  /** Digest.Hex() of a digest that has a colon. */
  function LayerId(digest: string): string {
    match Strings.Cut(digest, ':')
    case None => ""
    case Some((_, hash)) => hash
  }

  function Blob(img: Image, id: string): Path {
    BlobFile(img.repo, id)
  }

  function Ref(img: Image): Path {
    RefFile(img.repo, img.tag)
  }

  /** Exist as DirLayout has it; None is an error. */
  function Exists(w: World, repo: string, digest: string, env: Env): Option<bool> {
    match Paths.BlobPath(digest)
    case Fail(_) => None
    case Ok(path) =>
      if !env.stat then None
      else if |path| == 3 && path == [Paths.BLOBS, Paths.SHA256, path[2]] then Some(BlobFile(repo, path[2]) in w.blobs)
      else Some(env.elsewhere)
  }

  /** A PutBlob that succeeds. */
  function Publish(t: Tools, w: World, repo: string, content: Content): World {
    w.(blobs := w.blobs[BlobFile(repo, t.codec.sha(content)) := content])
  }

  /** PutBlob, and the comparison of its digest with the one expected. */
  function PutChecked(t: Tools, w: World, p: Proc, content: Content, digest: string, env: Env, next: PC): (World, Proc) {
    if !env.io then (w, p.(pc := Failed(BlobFailed)))
    else
      var w1 := Publish(t, w, p.img.repo, content);
      (w1, p.(pc := if DigestOf(t.codec, content) == digest then next else Failed(DigestMismatch)))
  }

  function StepLayer(t: Tools, w: World, p: Proc, i: nat, env: Env): (World, Proc) {
    if i >= |p.img.layers| then (w, p.(pc := if p.role.Leecher? then AtConfig else Done))
    else
      var digest := p.img.layers[i].digest;
      match Exists(w, p.img.repo, digest, env)
      case None => (w, p.(pc := Failed(StatFailed)))
      case Some(true) => (w, p.(pc := AtLayer(i + 1)))
      case Some(false) =>
        if p.role.Leecher? then
          if env.torrent.None? then (w, p.(pc := Failed(NoTorrent)))
          else
            var id := LayerId(digest);
            var err := E.StartLeecher(w.engine, id, env.torrent.value).1;
            (Tell(w, E.Leech(id, env.torrent.value)),
             p.(pc := if err.Err? then Failed(EngineFailed(err.error)) else Fetched(i)))
        else if env.read.None? then (w, p.(pc := Failed(ReadFailed)))
        else PutChecked(t, w, p, env.read.value, digest, env, Copied(i))
  }

  /** The leecher copies whatever the data file holds when it is read; nothing makes it wait for all of it. */
  function StepFetched(t: Tools, w: World, p: Proc, i: nat, env: Env): (World, Proc) {
    if i >= |p.img.layers| || env.read.None? then (w, p.(pc := Failed(ReadFailed)))
    else PutChecked(t, w, p, env.read.value, p.img.layers[i].digest, env, AtLayer(i + 1))
  }

  /**
   The seeder copies the stored layer to the data directory, making or truncating the file first,
   and seeds it; a failed StartSeed is only logged.
   */
  function StepCopied(w: World, p: Proc, i: nat, env: Env): (World, Proc) {
    if i >= |p.img.layers| || !env.create then (w, p.(pc := Failed(ReadFailed)))
    else
      var id := LayerId(p.img.layers[i].digest);
      if Blob(p.img, id) !in w.blobs then (Tell(w, E.WriteData(id, [])), p.(pc := Failed(ReadFailed)))
      else if !env.io then
        (Tell(w, E.WriteData(id, if env.read.Some? then env.read.value else [])), p.(pc := Failed(ReadFailed)))
      else
        (Tell(Tell(w, E.WriteData(id, w.blobs[Blob(p.img, id)])), E.Seed(id, env.seed)), p.(pc := AtLayer(i + 1)))
  }

  function StepConfig(t: Tools, w: World, p: Proc, env: Env): (World, Proc) {
    if p.img.config.digest == "" then (w, p.(pc := AtManifest))
    else if p.img.configBlob.None? then (w, p.(pc := Failed(ConfigFailed)))
    else PutChecked(t, w, p, p.img.configBlob.value, p.img.config.digest, env, AtManifest)
  }

  function StepManifest(t: Tools, w: World, p: Proc, env: Env): (World, Proc) {
    if p.img.manifest.None? then (w, p.(pc := Failed(ManifestFailed)))
    else
      match CreateOciManifest(t.json, p.img.manifest.value)
      case Fail(e) => (w, p.(pc := Failed(BadManifest(e))))
      case Ok((oci, mt)) =>
        PutChecked(t, w, p, oci, DigestOf(t.codec, oci), env, CheckRef(Descriptor(mt, DigestOf(t.codec, oci), |oci|)))
  }

  /** What an image's manifest is stored as, and the descriptor that its reference holds. */
  function OciOf(t: Tools, img: Image): Content
    requires Converts(t, img)
  {
    CreateOciManifest(t.json, img.manifest.value).value.0
  }

  function DescriptorOf(t: Tools, img: Image): Descriptor
    requires Converts(t, img)
  {
    var (oci, mt) := CreateOciManifest(t.json, img.manifest.value).value;
    Descriptor(mt, DigestOf(t.codec, oci), |oci|)
  }

  predicate Converts(t: Tools, img: Image) {
    img.manifest.Some? && CreateOciManifest(t.json, img.manifest.value).Ok?
  }

  function StepCheckRef(w: World, p: Proc, desc: Descriptor, env: Env): (World, Proc) {
    if !env.stat then (w, p.(pc := Failed(RefFailed(References.IoFailed))))
    else
      match References.Get(w.refs, Ref(p.img))
      case Some(Some(found)) => (w, p.(pc := if found != desc then Failed(RefFailed(References.Clobber)) else Done))
      case Some(None) => (w, p.(pc := Failed(RefFailed(References.Corrupt))))
      case None => (w, p.(pc := WriteRef(desc)))
  }

  function StepWriteRef(w: World, p: Proc, desc: Descriptor, env: Env): (World, Proc) {
    if !env.io then (w, p.(pc := Failed(RefFailed(References.IoFailed))))
    else (w.(refs := w.refs[Ref(p.img) := Some(desc)]), p.(pc := Done))
  }

  /** One step of a download; a finished one stays as it is. */
  function StepProc(t: Tools, w: World, p: Proc, env: Env): (World, Proc) {
    match p.pc
    case AtLayer(i) => StepLayer(t, w, p, i, env)
    case Fetched(i) => StepFetched(t, w, p, i, env)
    case Copied(i) => StepCopied(w, p, i, env)
    case AtConfig => StepConfig(t, w, p, env)
    case AtManifest => StepManifest(t, w, p, env)
    case CheckRef(desc) => StepCheckRef(w, p, desc, env)
    case WriteRef(desc) => StepWriteRef(w, p, desc, env)
    case Done => (w, p)
    case Failed(_) => (w, p)
  }

  /** What the step may publish as a blob. */
  function Offered(t: Tools, p: Proc, env: Env): set<Content> {
    match p.pc
    case AtLayer(_) => if p.role.Seeder? && env.read.Some? then {env.read.value} else {}
    case Fetched(_) => if env.read.Some? then {env.read.value} else {}
    case AtConfig => if p.img.config.digest != "" && p.img.configBlob.Some? then {p.img.configBlob.value} else {}
    case AtManifest =>
      if Converts(t, p.img) then {OciOf(t, p.img)} else {}
    case _ => {}
  }

  /** `n` steps of one download with nothing in between, the environment's answers numbered from `k`. */
  function Drive(t: Tools, w: World, p: Proc, env: nat -> Env, k: nat, n: nat): (World, Proc)
    decreases n
  {
    if n == 0 then (w, p)
    else
      var (w1, p1) := StepProc(t, w, p, env(k));
      Drive(t, w1, p1, env, k + 1, n - 1)
  }

  /** Enough steps for any download of the image to end. */
  function Bound(img: Image): nat {
    2 * |img.layers| + 5
  }

  /** Any number of downloads and everything else that goes on. */
  datatype System = System(world: World, procs: map<nat, Proc>)

  datatype Event =
    | Spawn(i: nat, role: Role, img: Image)
    | Advance(i: nat, env: Env)
    | Kill(i: nat)
    | Engine(e: E.Event)
    | ForgetRef(repo: string, tag: string)

  function Empty(engine: E.Engine): System {
    System(World(map[], map[], engine, []), map[])
  }

  function Do(t: Tools, s: System, e: Event): System {
    match e
    case Spawn(i, role, img) =>
      if i in s.procs then s else s.(procs := s.procs[i := Proc(role, img, AtLayer(0))])
    case Advance(i, env) =>
      if i !in s.procs then s
      else
        var (w, p) := StepProc(t, s.world, s.procs[i], env);
        System(w, s.procs[i := p])
    case Kill(i) => s.(procs := s.procs - {i})
    case Engine(ee) => s.(world := Tell(s.world, ee))
    case ForgetRef(repo, tag) => s.(world := s.world.(refs := s.world.refs - {RefFile(repo, tag)}))
  }

  function Run(t: Tools, s: System, es: seq<Event>): System
    decreases |es|
  {
    if es == [] then s else Run(t, Do(t, s, es[0]), es[1..])
  }

  /** All that the run's downloads may publish. */
  function Contents(t: Tools, s: System, es: seq<Event>): set<Content>
    decreases |es|
  {
    if es == [] then {} else StepContents(t, s, es[0]) + Contents(t, Do(t, s, es[0]), es[1..])
  }

  function StepContents(t: Tools, s: System, e: Event): set<Content> {
    if e.Advance? && e.i in s.procs then Offered(t, s.procs[e.i], e.env) else {}
  }

  /** getOciImageLayers: the layers that the stored manifest of a reference names. */
  datatype LayersError = NoReference | NoBlob | NotAManifest | Unreadable

  function GetImageLayers(t: Tools, w: World, repo: string, tag: string): Result<seq<BlobInfo>, LayersError> {
    match References.Get(w.refs, RefFile(repo, tag))
    case None => Fail(NoReference)
    case Some(None) => Fail(NoReference)
    case Some(Some(desc)) =>
      var p := BlobFile(repo, LayerId(desc.digest));
      if Paths.BlobPath(desc.digest) != Ok([Paths.BLOBS, Paths.SHA256, LayerId(desc.digest)]) || p !in w.blobs then Fail(NoBlob)
      else
        match t.json.decode(w.blobs[p])
        case None => Fail(NotAManifest)
        case Some(m) => Ok(Infos(m.layers))
  }
}
