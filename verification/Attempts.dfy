/**
 What a download leaves behind however it fares, and running it again (daemon/daemon.go:267-317).
 */
module Attempts {
  import opened Wrappers
  import opened Layouts
  import opened Hex
  import opened Manifests
  import opened Downloads
  import opened Closure
  import opened Resuming
  import Paths
  import References
  import E = EngineModel

  /** All that a download may publish. */
  function DriveContents(t: Tools, w: World, p: Proc, env: nat -> Env, k: nat, n: nat): set<Content>
    decreases n
  {
    if n == 0 then {}
    else
      var (w1, p1) := StepProc(t, w, p, env(k));
      Offered(t, p, env(k)) + DriveContents(t, w1, p1, env, k + 1, n - 1)
  }

  /** The store only grows along a download, by what it offers. */
  lemma StepExtends(t: Tools, w: World, p: Proc, env: Env)
    requires Addressed(t, w) && CollisionFree(t.codec, w.blobs.Values + Offered(t, p, env))
    ensures var w' := StepProc(t, w, p, env).0;
            && Addressed(t, w') && Extends(w, w') && w'.blobs.Values <= w.blobs.Values + Offered(t, p, env)
  {
    hide StepProc, Publish, CollisionFree, Offered, Addressed;
    StepBlobs(t, w, p, env);
    var w' := StepProc(t, w, p, env).0;
    if w'.blobs == w.blobs {
      SameBlobs(t, w, w');
    } else {
      var content :| content in Offered(t, p, env) && w'.blobs == Publish(t, w, p.img.repo, content).blobs;
      FewerCollisions(t.codec, w.blobs.Values + {content}, w.blobs.Values + Offered(t, p, env));
      PublishExtends(t, w, p.img.repo, content);
      SameBlobs(t, Publish(t, w, p.img.repo, content), w');
    }
  }

  lemma SameBlobs(t: Tools, w: World, w': World)
    requires w'.blobs == w.blobs
    ensures Addressed(t, w) ==> Addressed(t, w')
    ensures Extends(w, w')
  {
  }

  lemma StepBlobs(t: Tools, w: World, p: Proc, env: Env)
    ensures var w' := StepProc(t, w, p, env).0;
            || w'.blobs == w.blobs
            || exists content :: content in Offered(t, p, env) && w'.blobs == Publish(t, w, p.img.repo, content).blobs
  {
    hide LayerId, E.StartLeecher, E.Do, Exists, CreateOciManifest, Publish;
  }

  /** The manifest is stored, and the reference too once a leecher is done. */
  ghost predicate OnItsWay(t: Tools, w: World, p: Proc) {
    match p.pc
    case CheckRef(desc) => ManifestStored(t, p.img, w) && desc == DescriptorOf(t, p.img)
    case WriteRef(desc) => ManifestStored(t, p.img, w) && desc == DescriptorOf(t, p.img)
    case Done => p.role.Leecher? ==> HasImage(t, p.img, w)
    case _ => true
  }

  ghost predicate ManifestStored(t: Tools, img: Image, w: World) {
    && Converts(t, img)
    && var b := Blob(img, t.codec.sha(OciOf(t, img))); b in w.blobs && w.blobs[b] == OciOf(t, img)
  }

  lemma StepOnItsWay(t: Tools, w: World, p: Proc, env: Env)
    requires OnItsWay(t, w, p)
    ensures var (w', p') := StepProc(t, w, p, env); OnItsWay(t, w', p') && p'.img == p.img && p'.role == p.role
  {
    hide LayerId, E.StartLeecher, E.Do, Exists, CreateOciManifest;
  }

  /** The reference of another download, or of an earlier one of the same image, stays. */
  lemma StepKeepsImage(t: Tools, w: World, p: Proc, env: Env, img: Image)
    requires HasImage(t, img, w) && Extends(w, StepProc(t, w, p, env).0)
    requires p.pc.WriteRef? ==> Ref(p.img) !in w.refs
    ensures var (w', p') := StepProc(t, w, p, env); HasImage(t, img, w') && (p'.pc.WriteRef? ==> Ref(p'.img) !in w'.refs)
  {
    hide LayerId, E.StartLeecher, E.Do, Exists, CreateOciManifest, StepLayer, StepCopied, StepFetched, StepConfig, StepManifest;
    EarlyRefs(t, w, p, env);
    RefOfImage(t, img, w);
  }

  /** Only the last two steps look at references or write them. */
  lemma EarlyRefs(t: Tools, w: World, p: Proc, env: Env)
    ensures var (w', p') := StepProc(t, w, p, env);
            p'.img == p.img && (!p.pc.CheckRef? && !p.pc.WriteRef? ==> w'.refs == w.refs && !p'.pc.WriteRef?)
  {
    hide LayerId, E.Do, E.StartLeecher, Exists, CreateOciManifest;
  }

  lemma RefOfImage(t: Tools, img: Image, w: World)
    requires HasImage(t, img, w)
    ensures Ref(img) in w.refs
  {
    hide CreateOciManifest;
  }

  /** What a download leaves of the store: more blobs, the active images, and its own when it completes. */
  lemma {:induction false} DriveStores(t: Tools, w: World, p: Proc, env: nat -> Env, k: nat, n: nat, active: seq<Image>)
    requires Addressed(t, w) && CollisionFree(t.codec, w.blobs.Values + DriveContents(t, w, p, env, k, n))
    requires forall i :: 0 <= i < |active| ==> HasImage(t, active[i], w)
    requires OnItsWay(t, w, p) && (p.pc.WriteRef? ==> Ref(p.img) !in w.refs)
    ensures var (w', p') := Drive(t, w, p, env, k, n);
            && Addressed(t, w') && w'.blobs.Values <= w.blobs.Values + DriveContents(t, w, p, env, k, n)
            && (forall i :: 0 <= i < |active| ==> HasImage(t, active[i], w'))
            && OnItsWay(t, w', p') && p'.img == p.img && p'.role == p.role
    decreases n
  {
    hide StepProc, CollisionFree, Addressed, HasImage, OnItsWay, Offered, Extends;
    if n > 0 {
      var all := w.blobs.Values + DriveContents(t, w, p, env, k, n);
      var (w1, p1) := StepProc(t, w, p, env(k));
      FewerCollisions(t.codec, w.blobs.Values + Offered(t, p, env(k)), all);
      StepExtends(t, w, p, env(k));
      StepOnItsWay(t, w, p, env(k));
      forall i | 0 <= i < |active|
        ensures HasImage(t, active[i], w1)
      {
        StepKeepsImage(t, w, p, env(k), active[i]);
      }
      StepFreeRef(t, w, p, env(k));
      FewerCollisions(t.codec, w1.blobs.Values + DriveContents(t, w1, p1, env, k + 1, n - 1), all);
      DriveStores(t, w1, p1, env, k + 1, n - 1, active);
    }
  }

  lemma StepFreeRef(t: Tools, w: World, p: Proc, env: Env)
    requires p.pc.WriteRef? ==> Ref(p.img) !in w.refs
    ensures var (w', p') := StepProc(t, w, p, env); p'.pc.WriteRef? ==> Ref(p'.img) !in w'.refs
  {
    hide StepLayer, StepCopied, StepFetched, StepConfig, StepManifest;
    EarlyRefs(t, w, p, env);
  }

  /** Where and why a download fails, by the error that it fails with. */
  ghost predicate Reason(t: Tools, w: World, p: Proc, env: Env, e: DownloadError) {
    var img := p.img;
    match e
    case StatFailed =>
      p.pc.AtLayer? && p.pc.i < |img.layers| && (!env.stat || Paths.BlobPath(img.layers[p.pc.i].digest).Fail?)
    case NoTorrent => p.pc.AtLayer? && p.role.Leecher? && env.torrent.None?
    case EngineFailed(cause) =>
      p.pc.AtLayer? && p.pc.i < |img.layers| && p.role.Leecher? && env.torrent.Some?
      && E.StartLeecher(w.engine, LayerId(img.layers[p.pc.i].digest), env.torrent.value).1 == Err(cause)
    case ReadFailed =>
      || (p.pc.AtLayer? && p.role.Seeder? && env.read.None?)
      || (p.pc.Fetched? && (p.pc.i >= |img.layers| || env.read.None?))
      || p.pc.Copied?
    case BlobFailed => (p.pc.AtLayer? || p.pc.Fetched? || p.pc.AtConfig? || p.pc.AtManifest?) && !env.io
    case DigestMismatch =>
      && env.io
      && (((p.pc.AtLayer? || p.pc.Fetched?) && p.pc.i < |img.layers| && env.read.Some?
            && DigestOf(t.codec, env.read.value) != img.layers[p.pc.i].digest)
          || (p.pc.AtConfig? && img.configBlob.Some? && DigestOf(t.codec, img.configBlob.value) != img.config.digest))
    case ConfigFailed => p.pc.AtConfig? && img.config.digest != "" && img.configBlob.None?
    case ManifestFailed => p.pc.AtManifest? && img.manifest.None?
    case BadManifest(reason) => p.pc.AtManifest? && img.manifest.Some? && CreateOciManifest(t.json, img.manifest.value) == Fail(reason)
    case RefFailed(Clobber) =>
      p.pc.CheckRef? && env.stat && exists found :: found != p.pc.desc && References.Get(w.refs, Ref(img)) == Some(Some(found))
    case RefFailed(Corrupt) => p.pc.CheckRef? && env.stat && References.Get(w.refs, Ref(img)) == Some(None)
    case RefFailed(IoFailed) => (p.pc.CheckRef? && !env.stat) || (p.pc.WriteRef? && !env.io)
  }

  /** Every failure of a step has the reason that its error names. */
  lemma FailureHasReason(t: Tools, w: World, p: Proc, env: Env)
    requires !p.pc.Failed? && StepProc(t, w, p, env).1.pc.Failed?
    ensures Reason(t, w, p, env, StepProc(t, w, p, env).1.pc.error)
  {
    hide LayerId, E.StartLeecher, E.Do, CreateOciManifest, Paths.BlobPath;
  }

  /** A leecher's download that went `steps` steps and died; the daemon then starts with another engine. */
  datatype Attempt = Attempt(env: nat -> Env, steps: nat, engine: E.Engine)

  function AfterAttempt(t: Tools, w: World, img: Image, a: Attempt): World {
    Drive(t, w, Start(img), a.env, 0, a.steps).0.(engine := a.engine, log := [])
  }

  function AfterAttempts(t: Tools, w: World, img: Image, tries: seq<Attempt>): World
    decreases |tries|
  {
    if tries == [] then w else AfterAttempts(t, AfterAttempt(t, w, img, tries[0]), img, tries[1..])
  }

  function AttemptContents(t: Tools, w: World, img: Image, tries: seq<Attempt>): set<Content>
    decreases |tries|
  {
    if tries == [] then {}
    else DriveContents(t, w, Start(img), tries[0].env, 0, tries[0].steps)
         + AttemptContents(t, AfterAttempt(t, w, img, tries[0]), img, tries[1..])
  }

  function LayerContents(data: LayerData, img: Image): set<Content> {
    set i | 0 <= i < |img.layers| :: data(LayerId(img.layers[i].digest))
  }

  /** Nothing stored is lost, and of the references only the image's own may be new. */
  ghost predicate Further(t: Tools, img: Image, w: World, w': World)
    requires Converts(t, img)
  {
    && Addressed(t, w') && Extends(w, w') && RefFits(t, img, w')
    && (w'.refs == w.refs || w'.refs == w.refs[Ref(img) := Some(DescriptorOf(t, img))])
  }

  lemma StepFurther(t: Tools, w: World, p: Proc, env: Env)
    requires Addressed(t, w) && CollisionFree(t.codec, w.blobs.Values + Offered(t, p, env))
    requires Converts(t, p.img) && RefFits(t, p.img, w) && OnItsWay(t, w, p)
    ensures Further(t, p.img, w, StepProc(t, w, p, env).0)
  {
    hide Addressed, Extends, CollisionFree, Offered, StepLayer, StepFetched, StepCopied, StepConfig, StepManifest, CreateOciManifest;
    StepExtends(t, w, p, env);
    EarlyRefs(t, w, p, env);
  }

  lemma {:induction false} DriveFurther(t: Tools, w: World, p: Proc, env: nat -> Env, k: nat, n: nat)
    requires Addressed(t, w) && CollisionFree(t.codec, w.blobs.Values + DriveContents(t, w, p, env, k, n))
    requires Converts(t, p.img) && RefFits(t, p.img, w) && OnItsWay(t, w, p)
    ensures var w' := Drive(t, w, p, env, k, n).0;
            && Further(t, p.img, w, w')
            && w'.blobs.Values <= w.blobs.Values + DriveContents(t, w, p, env, k, n)
    decreases n
  {
    hide StepProc, CollisionFree, Addressed, OnItsWay, Offered, DescriptorOf, CreateOciManifest;
    if n > 0 {
      var all := w.blobs.Values + DriveContents(t, w, p, env, k, n);
      var (w1, p1) := StepProc(t, w, p, env(k));
      FewerCollisions(t.codec, w.blobs.Values + Offered(t, p, env(k)), all);
      StepExtends(t, w, p, env(k));
      StepFurther(t, w, p, env(k));
      StepOnItsWay(t, w, p, env(k));
      FewerCollisions(t.codec, w1.blobs.Values + DriveContents(t, w1, p1, env, k + 1, n - 1), all);
      DriveFurther(t, w1, p1, env, k + 1, n - 1);
      SetTwice(w.refs, w1.refs, Drive(t, w1, p1, env, k + 1, n - 1).0.refs, Ref(p.img), DescriptorOf(t, p.img));
    }
  }

  lemma SetTwice(a: References.RefMap, b: References.RefMap, c: References.RefMap, p: Path, d: Descriptor)
    requires b == a || b == a[p := Some(d)]
    requires c == b || c == b[p := Some(d)]
    ensures c == a || c == a[p := Some(d)]
  {
  }

  /** However many attempts died, and of whatever. */
  lemma {:induction false} AttemptsFurther(t: Tools, w: World, img: Image, tries: seq<Attempt>)
    requires Addressed(t, w) && CollisionFree(t.codec, w.blobs.Values + AttemptContents(t, w, img, tries))
    requires Converts(t, img) && RefFits(t, img, w)
    ensures var w' := AfterAttempts(t, w, img, tries);
            Further(t, img, w, w') && w'.blobs.Values <= w.blobs.Values + AttemptContents(t, w, img, tries)
    decreases |tries|
  {
    hide Drive, DriveContents, CollisionFree, Addressed, DescriptorOf, CreateOciManifest, AfterAttempt;
    if tries != [] {
      var all := w.blobs.Values + AttemptContents(t, w, img, tries);
      var a, w1 := tries[0], AfterAttempt(t, w, img, tries[0]);
      FewerCollisions(t.codec, w.blobs.Values + DriveContents(t, w, Start(img), a.env, 0, a.steps), all);
      DriveFurther(t, w, Start(img), a.env, 0, a.steps);
      EngineAside(t, w, img, Drive(t, w, Start(img), a.env, 0, a.steps).0, a);
      FewerCollisions(t.codec, w1.blobs.Values + AttemptContents(t, w1, img, tries[1..]), all);
      AttemptsFurther(t, w1, img, tries[1..]);
      SetTwice(w.refs, w1.refs, AfterAttempts(t, w1, img, tries[1..]).refs, Ref(img), DescriptorOf(t, img));
    }
  }

  lemma EngineAside(t: Tools, w: World, img: Image, died: World, a: Attempt)
    requires Converts(t, img) && Further(t, img, w, died) && died == Drive(t, w, Start(img), a.env, 0, a.steps).0
    ensures Further(t, img, w, AfterAttempt(t, w, img, a)) && AfterAttempt(t, w, img, a).blobs == died.blobs
  {
    hide Drive, DescriptorOf, CreateOciManifest;
  }

  /** A layer that is stored is stored with the content that the torrent brings. */
  predicate HoldsData(data: LayerData, img: Image, blobs: map<Path, Content>) {
    forall i :: 0 <= i < |img.layers| ==>
      var id := LayerId(img.layers[i].digest); Blob(img, id) in blobs ==> blobs[Blob(img, id)] == data(id)
  }

  lemma StoredData(t: Tools, data: LayerData, img: Image, w: World)
    requires Downloadable(t, data, img) && Addressed(t, w) && CollisionFree(t.codec, w.blobs.Values + LayerContents(data, img))
    ensures HoldsData(data, img, w.blobs)
  {
    hide LayerId, CreateOciManifest, Paths.IsDigest;
    forall i | 0 <= i < |img.layers| && Blob(img, LayerId(img.layers[i].digest)) in w.blobs
      ensures w.blobs[Blob(img, LayerId(img.layers[i].digest))] == data(LayerId(img.layers[i].digest))
    {
      var id := LayerId(img.layers[i].digest);
      assert data(id) in LayerContents(data, img);
      assert w.blobs[Blob(img, id)] in w.blobs.Values;
    }
  }

  predicate Within(some: map<Path, Content>, all: map<Path, Content>) {
    forall p :: p in some ==> p in all && all[p] == some[p]
  }

  /** Downloading on top of more blobs ends with more blobs. */
  lemma {:induction false} MoreLayers(data: LayerData, img: Image, i: nat, some: map<Path, Content>, all: map<Path, Content>)
    requires i <= |img.layers| && Within(some, all) && HoldsData(data, img, all)
    ensures Within(WithLayers(data, img, i, some), WithLayers(data, img, i, all))
    decreases |img.layers| - i
  {
    hide LayerId;
    if i < |img.layers| {
      var id := LayerId(img.layers[i].digest);
      var b := Blob(img, id);
      MoreLayers(data, img, i + 1, if b in some then some else some[b := data(id)], if b in all then all else all[b := data(id)]);
    }
  }

  lemma MoreFinally(t: Tools, data: LayerData, img: Image, some: map<Path, Content>, all: map<Path, Content>)
    requires Downloadable(t, data, img) && Within(some, all) && HoldsData(data, img, all)
    ensures Within(FinalBlobs(t, data, img, AtLayer(0), some), FinalBlobs(t, data, img, AtLayer(0), all))
  {
    hide Downloadable, HoldsData, WithLayers, LayerId, CreateOciManifest;
    MoreLayers(data, img, 0, some, all);
  }

  /**
   Any number of attempts that died at any step and of anything, a failed write or layer data that
   was not complete included, followed by one over complete data in which nothing fails: it ends
   with the reference of a download that was never interrupted, and with every blob of it, content
   and all. What the dead attempts published besides is named by its own content.
   */
  lemma CrashAndRerun(t: Tools, data: LayerData, w: World, img: Image, env: nat -> Env, tries: seq<Attempt>, rerunEnv: nat -> Env)
    requires Downloadable(t, data, img) && w.engine.running && RefFits(t, img, w) && Addressed(t, w)
    requires CollisionFree(t.codec, w.blobs.Values + AttemptContents(t, w, img, tries) + LayerContents(data, img))
    requires SmoothDrive(t, data, w, Start(img), env, 0, Bound(img))
    requires AfterAttempts(t, w, img, tries).engine.running
    requires SmoothDrive(t, data, AfterAttempts(t, w, img, tries), Start(img), rerunEnv, 0, Bound(img))
    ensures var (through, p0) := Drive(t, w, Start(img), env, 0, Bound(img));
            var (rerun, p2) := Drive(t, AfterAttempts(t, w, img, tries), Start(img), rerunEnv, 0, Bound(img));
            && p0.pc == Done && p2.pc == Done
            && rerun.refs == through.refs && HasImage(t, img, rerun) && HasImage(t, img, through)
            && (forall p :: p in through.blobs ==> p in rerun.blobs && rerun.blobs[p] == through.blobs[p])
  {
    hide SmoothDrive, Drive, DescriptorOf, FinalBlobs, HoldsData, CollisionFree, Addressed, HasImage, Paths.IsDigest,
      AttemptContents, AfterAttempts, LayerContents, CreateOciManifest;
    var all := w.blobs.Values + AttemptContents(t, w, img, tries) + LayerContents(data, img);
    FewerCollisions(t.codec, w.blobs.Values + AttemptContents(t, w, img, tries), all);
    AttemptsFurther(t, w, img, tries);
    var died := AfterAttempts(t, w, img, tries);
    FewerCollisions(t.codec, died.blobs.Values + LayerContents(data, img), all);
    StoredData(t, data, img, died);
    SuccessStores(t, data, w, img, env);
    SuccessStores(t, data, died, img, rerunEnv);
    MoreFinally(t, data, img, w.blobs, died.blobs);
    SetTwice(w.refs, died.refs, died.refs[Ref(img) := Some(DescriptorOf(t, img))], Ref(img), DescriptorOf(t, img));
  }
}
