/**
 A leecher download that died can be run again: it ends with the store of an uninterrupted run.
 The steps of one download run here with nothing in between, over complete layer data.
 */
module Resuming {
  import opened Wrappers
  import opened Hex
  import opened Layouts
  import opened Manifests
  import opened Downloads
  import Paths
  import References
  import Closure
  import E = EngineModel

  /** The content of every layer's data file once the torrent is complete. */
  type LayerData = string -> Content

  /** The image can be downloaded: complete data of the right digest, its config and a manifest that converts. */
  ghost predicate Downloadable(t: Tools, data: LayerData, img: Image) {
    && (forall i :: 0 <= i < |img.layers| ==>
         Paths.IsDigest(img.layers[i].digest) && t.codec.sha(data(LayerId(img.layers[i].digest))) == LayerId(img.layers[i].digest))
    && (img.config.digest != "" ==> img.configBlob.Some? && DigestOf(t.codec, img.configBlob.value) == img.config.digest)
    && Converts(t, img)
  }

  /** Nothing goes wrong around the download, and what is read of a data file is all of it. */
  predicate Smooth(img: Image, data: LayerData, pc: PC, env: Env) {
    && env.stat && env.io && env.torrent.Some? && env.torrent.value.torrent.Some? && env.torrent.value.add
    && (pc.Fetched? && pc.i < |img.layers| ==> env.read == Some(data(LayerId(img.layers[pc.i].digest))))
  }

  /** Smooth answers at every step that the download takes. */
  ghost predicate SmoothDrive(t: Tools, data: LayerData, w: World, p: Proc, env: nat -> Env, k: nat, n: nat)
    decreases n
  {
    n > 0 ==>
      && Smooth(p.img, data, p.pc, env(k))
      && var (w1, p1) := StepProc(t, w, p, env(k)); SmoothDrive(t, data, w1, p1, env, k + 1, n - 1)
  }

  /** The blobs once the layers from `i` on are there: those present stay, the others come from `data`. */
  function WithLayers(data: LayerData, img: Image, i: nat, blobs: map<Path, Content>): map<Path, Content>
    requires i <= |img.layers|
    decreases |img.layers| - i
  {
    if i == |img.layers| then blobs
    else
      var id := LayerId(img.layers[i].digest);
      WithLayers(data, img, i + 1, if Blob(img, id) in blobs then blobs else blobs[Blob(img, id) := data(id)])
  }

  function WithManifest(t: Tools, img: Image, blobs: map<Path, Content>): map<Path, Content>
    requires Converts(t, img)
  {
    blobs[Blob(img, t.codec.sha(OciOf(t, img))) := OciOf(t, img)]
  }

  function WithConfig(t: Tools, img: Image, blobs: map<Path, Content>): map<Path, Content> {
    if img.config.digest == "" || img.configBlob.None? then blobs
    else blobs[Blob(img, t.codec.sha(img.configBlob.value)) := img.configBlob.value]
  }

  /** The blobs with which a download at `pc` ends. */
  ghost function FinalBlobs(t: Tools, data: LayerData, img: Image, pc: PC, blobs: map<Path, Content>): map<Path, Content>
    requires Downloadable(t, data, img) && OnTrack(t, img, pc, blobs)
  {
    match pc
    case AtLayer(i) => WithManifest(t, img, WithConfig(t, img, WithLayers(data, img, i, blobs)))
    case Fetched(i) => WithManifest(t, img, WithConfig(t, img, WithLayers(data, img, i, blobs)))
    case AtConfig => WithManifest(t, img, WithConfig(t, img, blobs))
    case AtManifest => WithManifest(t, img, blobs)
    case _ => blobs
  }

  predicate LayersPresent(img: Image, n: nat, blobs: map<Path, Content>) {
    n <= |img.layers| && forall i :: 0 <= i < n ==> Blob(img, LayerId(img.layers[i].digest)) in blobs
  }

  predicate ConfigPresent(t: Tools, img: Image, blobs: map<Path, Content>) {
    WithConfig(t, img, blobs) == blobs
  }

  /** What a download that is at `pc` has left behind. */
  ghost predicate OnTrack(t: Tools, img: Image, pc: PC, blobs: map<Path, Content>) {
    match pc
    case AtLayer(i) => LayersPresent(img, i, blobs)
    case Fetched(i) => LayersPresent(img, i, blobs) && i < |img.layers| && Blob(img, LayerId(img.layers[i].digest)) !in blobs
    case AtConfig => LayersPresent(img, |img.layers|, blobs)
    case AtManifest => LayersPresent(img, |img.layers|, blobs) && ConfigPresent(t, img, blobs)
    case Copied(_) => false
    case Failed(_) => false
    case _ =>
      && LayersPresent(img, |img.layers|, blobs)
      && Converts(t, img)
      && WithManifest(t, img, WithConfig(t, img, blobs)) == blobs
  }

  /** The reference is free, or already what the image's reference will be. */
  ghost predicate RefFits(t: Tools, img: Image, w: World)
    requires Converts(t, img)
  {
    References.Get(w.refs, Ref(img)) in {None, Some(Some(DescriptorOf(t, img)))}
  }

  /** A download on its way, in a world where it can only succeed. */
  ghost predicate Going(t: Tools, data: LayerData, w: World, p: Proc) {
    && Downloadable(t, data, p.img) && p.role.Leecher? && w.engine.running
    && OnTrack(t, p.img, p.pc, w.blobs) && RefFits(t, p.img, w)
    && (p.pc.CheckRef? ==> p.pc.desc == DescriptorOf(t, p.img))
    && (p.pc.WriteRef? ==> p.pc.desc == DescriptorOf(t, p.img) && Ref(p.img) !in w.refs)
    && (p.pc.Done? ==> References.Get(w.refs, Ref(p.img)) == Some(Some(DescriptorOf(t, p.img))))
  }

  /** How many steps are left. */
  function Left(img: Image, pc: PC): nat {
    match pc
    case AtLayer(i) => if i <= |img.layers| then 2 * (|img.layers| - i) + 5 else 5
    case Fetched(i) => if i <= |img.layers| then 2 * (|img.layers| - i) + 4 else 4
    case AtConfig => 4
    case AtManifest => 3
    case CheckRef(_) => 2
    case WriteRef(_) => 1
    case _ => 0
  }

  /** What a smooth step keeps: where the download is heading, and everything it does not write. */
  ghost predicate Heads(t: Tools, data: LayerData, w: World, p: Proc, w': World, p': Proc)
    requires Going(t, data, w, p)
  {
    && Going(t, data, w', p') && p'.img == p.img
    && FinalBlobs(t, data, p.img, p'.pc, w'.blobs) == FinalBlobs(t, data, p.img, p.pc, w.blobs)
    && (p.pc == Done || Left(p.img, p'.pc) < Left(p.img, p.pc))
    && w'.refs[Ref(p.img) := Some(DescriptorOf(t, p.img))] == w.refs[Ref(p.img) := Some(DescriptorOf(t, p.img))]
  }

  lemma ExistsOnDigest(w: World, repo: string, digest: string, env: Env)
    requires Paths.IsDigest(digest) && env.stat
    ensures Exists(w, repo, digest, env) == Some(BlobFile(repo, LayerId(digest)) in w.blobs)
  {
    Paths.BlobPathOfDigest(digest);
    Closure.IdOfDigest(digest[7..]);
  }

  lemma LeecherStarts(s: E.Engine, id: string, env: E.LeechEnv)
    requires s.running && env.torrent.Some? && env.add
    ensures E.StartLeecher(s, id, env).1 == Nil && E.StartLeecher(s, id, env).0.running
  {
    hide HexString;
  }

  lemma LayerHeads(t: Tools, data: LayerData, w: World, p: Proc, i: nat, env: Env)
    requires Going(t, data, w, p) && p.pc == AtLayer(i) && Smooth(p.img, data, p.pc, env)
    ensures var (w', p') := StepLayer(t, w, p, i, env); Heads(t, data, w, p, w', p')
  {
    hide Paths.IsDigest, LayerId, E.StartLeecher, Exists, CreateOciManifest, WithConfig, WithManifest;
    if i < |p.img.layers| {
      var digest := p.img.layers[i].digest;
      ExistsOnDigest(w, p.img.repo, digest, env);
      LeecherStarts(w.engine, LayerId(digest), env.torrent.value);
    }
  }

  lemma DigestMatches(t: Tools, digest: string, content: Content)
    requires Paths.IsDigest(digest) && t.codec.sha(content) == LayerId(digest)
    ensures DigestOf(t.codec, content) == digest
  {
    Paths.DigestParts(digest);
    Closure.IdOfDigest(digest[7..]);
  }

  lemma FetchedHeads(t: Tools, data: LayerData, w: World, p: Proc, i: nat, env: Env)
    requires Going(t, data, w, p) && p.pc == Fetched(i) && Smooth(p.img, data, p.pc, env)
    ensures var (w', p') := StepFetched(t, w, p, i, env); Heads(t, data, w, p, w', p')
  {
    hide Paths.IsDigest, LayerId, CreateOciManifest, WithConfig, WithManifest;
    var digest := p.img.layers[i].digest;
    DigestMatches(t, digest, env.read.value);
  }

  lemma ConfigHeads(t: Tools, data: LayerData, w: World, p: Proc, env: Env)
    requires Going(t, data, w, p) && p.pc == AtConfig && Smooth(p.img, data, p.pc, env)
    ensures var (w', p') := StepConfig(t, w, p, env); Heads(t, data, w, p, w', p')
  {
    hide Paths.IsDigest, LayerId, CreateOciManifest, WithManifest;
  }

  lemma ManifestHeads(t: Tools, data: LayerData, w: World, p: Proc, env: Env)
    requires Going(t, data, w, p) && p.pc == AtManifest && Smooth(p.img, data, p.pc, env)
    ensures var (w', p') := StepManifest(t, w, p, env); Heads(t, data, w, p, w', p')
  {
    hide Paths.IsDigest, LayerId, CreateOciManifest, WithLayers;
  }

  lemma RefHeads(t: Tools, data: LayerData, w: World, p: Proc, env: Env)
    requires Going(t, data, w, p) && (p.pc.CheckRef? || p.pc.WriteRef? || p.pc.Done?) && Smooth(p.img, data, p.pc, env)
    ensures var (w', p') := StepProc(t, w, p, env); Heads(t, data, w, p, w', p')
  {
    hide Paths.IsDigest, LayerId, CreateOciManifest, WithLayers, WithManifest, WithConfig;
  }

  lemma StepHeads(t: Tools, data: LayerData, w: World, p: Proc, env: Env)
    requires Going(t, data, w, p) && Smooth(p.img, data, p.pc, env)
    ensures var (w', p') := StepProc(t, w, p, env); Heads(t, data, w, p, w', p')
  {
    hide Heads, Smooth, Downloadable, RefFits, StepLayer, StepFetched, StepConfig, StepManifest, FinalBlobs;
    match p.pc
    case AtLayer(i) => LayerHeads(t, data, w, p, i, env);
    case Fetched(i) => FetchedHeads(t, data, w, p, i, env);
    case AtConfig => ConfigHeads(t, data, w, p, env);
    case AtManifest => ManifestHeads(t, data, w, p, env);
    case _ => RefHeads(t, data, w, p, env);
  }

  /** Every smooth drive keeps heading for the same store, and one that is long enough gets there. */
  lemma {:induction false} DriveHeads(t: Tools, data: LayerData, w: World, p: Proc, env: nat -> Env, k: nat, n: nat)
    requires Going(t, data, w, p) && SmoothDrive(t, data, w, p, env, k, n)
    ensures var (w', p') := Drive(t, w, p, env, k, n);
            && Going(t, data, w', p') && p'.img == p.img
            && FinalBlobs(t, data, p.img, p'.pc, w'.blobs) == FinalBlobs(t, data, p.img, p.pc, w.blobs)
            && w'.refs[Ref(p.img) := Some(DescriptorOf(t, p.img))] == w.refs[Ref(p.img) := Some(DescriptorOf(t, p.img))]
            && (n >= Left(p.img, p.pc) ==> p'.pc == Done)
    decreases n
  {
    hide Smooth, Downloadable, OnTrack, RefFits, StepProc, FinalBlobs, DescriptorOf, Ref, Left;
    if n == 0 {
      NothingLeft(t, data, w, p);
    } else {
      var (w1, p1) := StepProc(t, w, p, env(k));
      StepHeads(t, data, w, p, env(k));
      DriveHeads(t, data, w1, p1, env, k + 1, n - 1);
      DoneStays(t, w, p, env(k));
      NothingLeft(t, data, w, p);
    }
  }

  lemma NothingLeft(t: Tools, data: LayerData, w: World, p: Proc)
    requires Going(t, data, w, p)
    ensures Left(p.img, p.pc) == 0 <==> p.pc == Done
  {
    hide Downloadable, RefFits, DescriptorOf;
  }

  lemma DoneStays(t: Tools, w: World, p: Proc, env: Env)
    ensures p.pc == Done ==> StepProc(t, w, p, env) == (w, p)
  {
  }

  lemma {:induction false} SkipPresent(data: LayerData, img: Image, i: nat, n: nat, blobs: map<Path, Content>)
    requires i <= n && LayersPresent(img, n, blobs)
    ensures WithLayers(data, img, i, blobs) == WithLayers(data, img, n, blobs)
    decreases n - i
  {
    if i < n {
      SkipPresent(data, img, i + 1, n, blobs);
    }
  }

  /** Starting over from what a download left behind heads for the same store. */
  lemma StartingOver(t: Tools, data: LayerData, img: Image, pc: PC, blobs: map<Path, Content>)
    requires Downloadable(t, data, img) && OnTrack(t, img, pc, blobs)
    ensures FinalBlobs(t, data, img, AtLayer(0), blobs) == FinalBlobs(t, data, img, pc, blobs)
  {
    hide Downloadable, WithManifest, WithConfig, LayerId;
    var n := if pc.AtLayer? || pc.Fetched? then pc.i else |img.layers|;
    SkipPresent(data, img, 0, n, blobs);
  }

  function Start(img: Image): Proc {
    Proc(Leecher, img, AtLayer(0))
  }

  /**
   A download in which nothing failed until it died, after any number of steps, and that is run
   again by a daemon whose engine has started afresh, ends with the very blobs and references of an
   uninterrupted one, and no others.
   */
  lemma SmoothRerun(t: Tools, data: LayerData, w: World, img: Image,
                      env0: nat -> Env, env1: nat -> Env, k: nat, engine: E.Engine, env2: nat -> Env)
    requires Downloadable(t, data, img) && w.engine.running && RefFits(t, img, w) && engine.running
    requires SmoothDrive(t, data, w, Start(img), env0, 0, Bound(img))
    requires SmoothDrive(t, data, w, Start(img), env1, 0, k)
    requires SmoothDrive(t, data, Drive(t, w, Start(img), env1, 0, k).0.(engine := engine), Start(img), env2, 0, Bound(img))
    ensures var (through, p0) := Drive(t, w, Start(img), env0, 0, Bound(img));
            var crashed := Drive(t, w, Start(img), env1, 0, k).0;
            var (rerun, p2) := Drive(t, crashed.(engine := engine), Start(img), env2, 0, Bound(img));
            && p0.pc == Done && p2.pc == Done
            && rerun.blobs == through.blobs && rerun.refs == through.refs
            && References.Get(rerun.refs, Ref(img)) == Some(Some(DescriptorOf(t, img)))
  {
    hide Downloadable, SmoothDrive, Drive, DescriptorOf, WithManifest, WithConfig, WithLayers;
    var p := Start(img);
    DriveHeads(t, data, w, p, env0, 0, Bound(img));
    DriveHeads(t, data, w, p, env1, 0, k);
    var (crashed, pk) := Drive(t, w, p, env1, 0, k);
    StartingOver(t, data, img, pk.pc, crashed.blobs);
    var w2 := crashed.(engine := engine);
    DriveHeads(t, data, w2, p, env2, 0, Bound(img));
    SettingAgain(Drive(t, w, p, env0, 0, Bound(img)).0.refs, Ref(img), DescriptorOf(t, img));
    SettingAgain(Drive(t, w2, p, env2, 0, Bound(img)).0.refs, Ref(img), DescriptorOf(t, img));
  }

  lemma SettingAgain(refs: References.RefMap, p: Path, desc: Descriptor)
    requires References.Get(refs, p) == Some(Some(desc))
    ensures refs[p := Some(desc)] == refs
  {
  }

  /** A successful download leaves its manifest and its reference, and keeps every layer findable. */
  lemma SuccessStores(t: Tools, data: LayerData, w: World, img: Image, env: nat -> Env)
    requires Downloadable(t, data, img) && w.engine.running && RefFits(t, img, w)
    requires SmoothDrive(t, data, w, Start(img), env, 0, Bound(img))
    ensures var (w', p') := Drive(t, w, Start(img), env, 0, Bound(img));
            && p'.pc == Done && HasImage(t, img, w')
            && w'.blobs == FinalBlobs(t, data, img, AtLayer(0), w.blobs)
            && w'.refs == w.refs[Ref(img) := Some(DescriptorOf(t, img))]
  {
    hide Downloadable, SmoothDrive, Drive;
    DriveHeads(t, data, w, Start(img), env, 0, Bound(img));
    var w' := Drive(t, w, Start(img), env, 0, Bound(img)).0;
    assert Blob(img, t.codec.sha(OciOf(t, img))) in w'.blobs;
  }

  /** The reference and the manifest of the image are stored. */
  ghost predicate HasImage(t: Tools, img: Image, w: World) {
    && Converts(t, img)
    && References.Get(w.refs, Ref(img)) == Some(Some(DescriptorOf(t, img)))
    && var p := Blob(img, t.codec.sha(OciOf(t, img))); p in w.blobs && w.blobs[p] == OciOf(t, img)
  }

  /** Reading the layers back gives those of the source's manifest, in order, whenever that decodes. */
  lemma LayersReadBack(t: Tools, img: Image, w: World)
    requires Proper(t) && HasImage(t, img, w)
    ensures var raw := img.manifest.value;
            GetImageLayers(t, w, img.repo, img.tag) ==
              if t.json.decode(raw).Some? then Ok(Infos(t.json.decode(raw).value.layers)) else Fail(NotAManifest)
    ensures var (raw, r) := (img.manifest.value, GetImageLayers(t, w, img.repo, img.tag));
            t.json.decode(raw).Some? ==>
              var layers := t.json.decode(raw).value.layers;
              && r.Ok? && |r.value| == |layers|
              && forall i :: 0 <= i < |layers| ==> r.value[i].digest == layers[i].digest && r.value[i].size == layers[i].size
  {
    hide CreateOciManifest, Paths.BlobPath, LayerId, Paths.IsHexName;
    var raw := img.manifest.value;
    ConversionKeepsContent(t.json, raw);
    var name := t.codec.sha(OciOf(t, img));
    assert DescriptorOf(t, img).digest == Paths.DigestOfName(name);
    Closure.IdOfDigest(name);
    HexNameIsPlain(name);
    Paths.BlobPathIff(name);
  }

  lemma HexNameIsPlain(name: string)
    requires Paths.IsHexName(name)
    ensures Paths.Plain(name)
  {
    assert forall i :: 0 <= i < |name| ==> name[i] != '/' && name[i] != '.';
  }

  /** When the layers cannot be read back, and why. */
  lemma LayersOutcome(t: Tools, w: World, repo: string, tag: string)
    ensures var (r, ref) := (GetImageLayers(t, w, repo, tag), References.Get(w.refs, RefFile(repo, tag)));
            && (r == Fail(NoReference) <==> !(ref.Some? && ref.value.Some?))
            && (ref.Some? && ref.value.Some? && Paths.IsDigest(ref.value.value.digest) ==>
                 var p := BlobFile(repo, ref.value.value.digest[7..]);
                 && (r == Fail(NoBlob) <==> p !in w.blobs)
                 && (r == Fail(NotAManifest) <==> p in w.blobs && t.json.decode(w.blobs[p]).None?)
                 && (r.Ok? <==> p in w.blobs && t.json.decode(w.blobs[p]).Some?))
  {
    hide Paths.BlobPath, LayerId, Paths.IsDigest;
    var ref := References.Get(w.refs, RefFile(repo, tag));
    if ref.Some? && ref.value.Some? && Paths.IsDigest(ref.value.value.digest) {
      var digest := ref.value.value.digest;
      Paths.BlobPathOfDigest(digest);
      Closure.IdOfDigest(digest[7..]);
    }
  }
}
