/**
 Closure of references: at every step and crash point of any number of downloads, whatever a
 reference leads to is there, down to the layers and the config (daemon/daemon.go:239-317).
 */
module Closure {
  import opened Wrappers
  import opened Hex
  import opened Layouts
  import opened Manifests
  import opened Downloads
  import Strings
  import Paths
  import References
  import E = EngineModel

  /** A blob is stored under `digest`, and its content has that digest. */
  predicate Stored(t: Tools, w: World, repo: string, digest: string) {
    var name := LayerId(digest);
    digest == Paths.DigestOfName(name) && BlobFile(repo, name) in w.blobs && t.codec.sha(w.blobs[BlobFile(repo, name)]) == name
  }

  /** The descriptor's manifest is stored, has the size it says, and all that it names is stored. */
  predicate Resolves(t: Tools, w: World, repo: string, desc: Descriptor) {
    && Stored(t, w, repo, desc.digest)
    && var man := w.blobs[BlobFile(repo, LayerId(desc.digest))];
       && desc.size == |man| && t.json.decode(man).Some?
       && var m := t.json.decode(man).value;
          && (forall i :: 0 <= i < |m.layers| ==> Stored(t, w, repo, m.layers[i].digest))
          && (m.config.digest != "" ==> Stored(t, w, repo, m.config.digest))
  }

  ghost predicate ClosedRefs(t: Tools, w: World) {
    forall p :: p in w.refs && p.RefFile? && w.refs[p].Some? ==> Resolves(t, w, p.repo, w.refs[p].value)
  }

  ghost predicate Addressed(t: Tools, w: World) {
    forall p :: p in w.blobs ==> p.BlobFile? && t.codec.sha(w.blobs[p]) == p.name
  }

  /** The source's layer and config infos are those of its manifest, with digests of the usual form. */
  ghost predicate Agrees(t: Tools, img: Image) {
    && (forall i :: 0 <= i < |img.layers| ==> Paths.IsDigest(img.layers[i].digest))
    && (img.manifest.Some? ==>
         && t.json.decode(img.manifest.value).Some?
         && var m := t.json.decode(img.manifest.value).value;
            && |m.layers| == |img.layers| && m.config.digest == img.config.digest
            && forall i :: 0 <= i < |m.layers| ==> m.layers[i].digest == img.layers[i].digest)
  }

  predicate LayersStored(t: Tools, w: World, img: Image, n: nat) {
    n <= |img.layers| && forall i :: 0 <= i < n ==> Stored(t, w, img.repo, img.layers[i].digest)
  }

  /** What a download has published when it is at `pc`. */
  ghost predicate ProcOk(t: Tools, w: World, p: Proc) {
    && Agrees(t, p.img)
    && match p.pc
       case AtLayer(i) => LayersStored(t, w, p.img, i)
       case Fetched(i) => LayersStored(t, w, p.img, i)
       case Copied(i) => LayersStored(t, w, p.img, i) && i < |p.img.layers| && Stored(t, w, p.img.repo, p.img.layers[i].digest)
       case AtConfig => LayersStored(t, w, p.img, |p.img.layers|)
       case AtManifest =>
         && LayersStored(t, w, p.img, |p.img.layers|)
         && (p.img.config.digest != "" ==> Stored(t, w, p.img.repo, p.img.config.digest))
       case CheckRef(desc) => Resolves(t, w, p.img.repo, desc)
       case WriteRef(desc) => Resolves(t, w, p.img.repo, desc)
       case _ => true
  }

  /** Nothing that was stored is lost or changed. */
  ghost predicate Extends(w: World, w': World) {
    forall p :: p in w.blobs ==> p in w'.blobs && w'.blobs[p] == w.blobs[p]
  }

  lemma IdOfDigest(name: string)
    ensures LayerId(Paths.DigestOfName(name)) == name
  {
    assert Paths.DigestOfName(name) == Paths.SHA256 + [':'] + name;
    Strings.CutAt(Paths.SHA256, name, ':');
  }

  lemma ResolvesStays(t: Tools, w: World, w': World, repo: string, desc: Descriptor)
    requires Extends(w, w') && Resolves(t, w, repo, desc)
    ensures Resolves(t, w', repo, desc)
  {
    hide LayerId, Paths.DigestOfName;
  }

  lemma ProcOkStays(t: Tools, w: World, w': World, p: Proc)
    requires Extends(w, w') && ProcOk(t, w, p)
    ensures ProcOk(t, w', p)
  {
    hide LayerId, Paths.DigestOfName, Resolves, Agrees;
    if p.pc.CheckRef? || p.pc.WriteRef? {
      ResolvesStays(t, w, w', p.img.repo, p.pc.desc);
    }
  }

  /** Publishing adds one blob, and replaces none by another as long as the hash tells them apart. */
  lemma PublishExtends(t: Tools, w: World, repo: string, content: Content)
    requires Addressed(t, w) && CollisionFree(t.codec, w.blobs.Values + {content})
    ensures var w' := Publish(t, w, repo, content);
            && Addressed(t, w') && Extends(w, w') && Stored(t, w', repo, DigestOf(t.codec, content))
            && w'.blobs.Values <= w.blobs.Values + {content}
  {
    IdOfDigest(t.codec.sha(content));
    assert DigestOf(t.codec, content) == Paths.DigestOfName(t.codec.sha(content));
    var p := BlobFile(repo, t.codec.sha(content));
    if p in w.blobs {
      assert w.blobs[p] in w.blobs.Values;
    }
  }

  lemma FewerCollisions(c: Codec, some: set<Content>, all: set<Content>)
    requires some <= all && CollisionFree(c, all)
    ensures CollisionFree(c, some)
  {
  }

  ghost predicate Inv(t: Tools, s: System) {
    && Addressed(t, s.world) && ClosedRefs(t, s.world)
    && forall i :: i in s.procs ==> ProcOk(t, s.world, s.procs[i])
  }

  /** What one step of a download keeps, and what it may write into the references. */
  ghost predicate GoodStep(t: Tools, w: World, p: Proc, env: Env, w': World, p': Proc) {
    && Addressed(t, w') && Extends(w, w') && ProcOk(t, w', p') && p'.img == p.img
    && w'.blobs.Values <= w.blobs.Values + Offered(t, p, env)
    && (w'.refs == w.refs ||
        (p.pc.WriteRef? && w'.refs == w.refs[Ref(p.img) := Some(p.pc.desc)]))
  }

  lemma PutCheckedGood(t: Tools, w: World, p: Proc, content: Content, digest: string, env: Env, next: PC)
    requires Addressed(t, w) && CollisionFree(t.codec, w.blobs.Values + {content}) && ProcOk(t, w, p)
    ensures var (w', p') := PutChecked(t, w, p, content, digest, env, next);
            && w'.blobs.Values <= w.blobs.Values + {content} && Addressed(t, w') && Extends(w, w') && w'.refs == w.refs && p'.img == p.img && ProcOk(t, w', p)
            && (p'.pc == next || p'.pc.Failed?)
            && (p'.pc == next && !next.Failed? ==>
                  Stored(t, w', p.img.repo, digest) && digest == DigestOf(t.codec, content)
                  && w' == Publish(t, w, p.img.repo, content))
  {
    hide ProcOk, Stored, Agrees;
    if env.io {
      PublishExtends(t, w, p.img.repo, content);
      ProcOkStays(t, w, Publish(t, w, p.img.repo, content), p);
    }
  }

  lemma ExistsMeansStored(t: Tools, w: World, repo: string, digest: string, env: Env)
    requires Addressed(t, w) && Paths.IsDigest(digest) && Exists(w, repo, digest, env) == Some(true)
    ensures Stored(t, w, repo, digest)
  {
    Paths.BlobPathOfDigest(digest);
    IdOfDigest(digest[7..]);
  }

  lemma LayerGood(t: Tools, w: World, p: Proc, i: nat, env: Env)
    requires Addressed(t, w) && CollisionFree(t.codec, w.blobs.Values + Offered(t, p, env)) && ProcOk(t, w, p) && p.pc == AtLayer(i)
    ensures var (w', p') := StepLayer(t, w, p, i, env); GoodStep(t, w, p, env, w', p')
  {
    hide Stored, Paths.IsDigest, Exists, E.StartLeecher, LayerId, E.Do;
    if i < |p.img.layers| {
      var digest := p.img.layers[i].digest;
      if Exists(w, p.img.repo, digest, env) == Some(true) {
        ExistsMeansStored(t, w, p.img.repo, digest, env);
      } else if p.role.Seeder? && env.read.Some? {
        PutCheckedGood(t, w, p, env.read.value, digest, env, Copied(i));
      } else if p.role.Leecher? && env.torrent.Some? && Exists(w, p.img.repo, digest, env) == Some(false) {
        EngineOnly(t, w, StepLayer(t, w, p, i, env).0, p);
      }
    }
  }

  /** Steps of the engine leave the store alone. */
  lemma EngineOnly(t: Tools, w: World, w': World, p: Proc)
    requires w'.blobs == w.blobs
    ensures Extends(w, w') && (Addressed(t, w) ==> Addressed(t, w'))
    ensures ProcOk(t, w, p) ==> ProcOk(t, w', p)
  {
    hide ProcOk;
    if ProcOk(t, w, p) {
      ProcOkStays(t, w, w', p);
    }
  }

  lemma FetchedGood(t: Tools, w: World, p: Proc, i: nat, env: Env)
    requires Addressed(t, w) && CollisionFree(t.codec, w.blobs.Values + Offered(t, p, env)) && ProcOk(t, w, p) && p.pc == Fetched(i)
    ensures var (w', p') := StepFetched(t, w, p, i, env); GoodStep(t, w, p, env, w', p')
  {
    hide Stored, Agrees;
    if i < |p.img.layers| && env.read.Some? {
      PutCheckedGood(t, w, p, env.read.value, p.img.layers[i].digest, env, AtLayer(i + 1));
    }
  }

  lemma CopiedGood(t: Tools, w: World, p: Proc, i: nat, env: Env)
    requires Addressed(t, w) && ProcOk(t, w, p) && p.pc == Copied(i)
    ensures var (w', p') := StepCopied(w, p, i, env); GoodStep(t, w, p, env, w', p')
  {
    hide Stored, Agrees, LayerId, E.Do;
    EngineOnly(t, w, StepCopied(w, p, i, env).0, p);
  }

  lemma ConfigGood(t: Tools, w: World, p: Proc, env: Env)
    requires Addressed(t, w) && CollisionFree(t.codec, w.blobs.Values + Offered(t, p, env)) && ProcOk(t, w, p) && p.pc == AtConfig
    ensures var (w', p') := StepConfig(t, w, p, env); GoodStep(t, w, p, env, w', p')
  {
    hide Stored, Agrees;
    if p.img.config.digest != "" && p.img.configBlob.Some? {
      PutCheckedGood(t, w, p, p.img.configBlob.value, p.img.config.digest, env, AtManifest);
    }
  }

  /** A stored manifest whose layers and config are stored is one that a reference may lead to. */
  lemma ManifestResolves(t: Tools, w: World, img: Image, oci: Content, mt: string)
    requires Inverse(t.json) && Agrees(t, img) && img.manifest.Some?
    requires CreateOciManifest(t.json, img.manifest.value) == Ok((oci, mt))
    requires LayersStored(t, w, img, |img.layers|)
    requires img.config.digest != "" ==> Stored(t, w, img.repo, img.config.digest)
    requires Stored(t, w, img.repo, DigestOf(t.codec, oci)) && BlobFile(img.repo, t.codec.sha(oci)) in w.blobs
    requires w.blobs[BlobFile(img.repo, t.codec.sha(oci))] == oci
    ensures Resolves(t, w, img.repo, Descriptor(mt, DigestOf(t.codec, oci), |oci|))
  {
    hide Stored, Paths.IsDigest;
    ConversionKeepsContent(t.json, img.manifest.value);
    assert DigestOf(t.codec, oci) == Paths.DigestOfName(t.codec.sha(oci));
    IdOfDigest(t.codec.sha(oci));
    var m, m' := t.json.decode(img.manifest.value).value, t.json.decode(oci).value;
    assert InfoOf(m'.config).digest == InfoOf(m.config).digest;
    assert |Infos(m'.layers)| == |Infos(m.layers)|;
    forall i | 0 <= i < |m'.layers|
      ensures m'.layers[i].digest == img.layers[i].digest
    {
      assert Infos(m'.layers)[i] == Infos(m.layers)[i];
    }
  }

  lemma ManifestGood(t: Tools, w: World, p: Proc, env: Env)
    requires Addressed(t, w) && CollisionFree(t.codec, w.blobs.Values + Offered(t, p, env)) && Inverse(t.json) && ProcOk(t, w, p) && p.pc == AtManifest
    ensures var (w', p') := StepManifest(t, w, p, env); GoodStep(t, w, p, env, w', p')
  {
    hide Stored, Agrees, CreateOciManifest, Resolves;
    if p.img.manifest.Some? {
      match CreateOciManifest(t.json, p.img.manifest.value)
      case Fail(_) =>
      case Ok((oci, mt)) =>
        var digest := DigestOf(t.codec, oci);
        var next := CheckRef(Descriptor(mt, digest, |oci|));
        PutCheckedGood(t, w, p, oci, digest, env, next);
        var (w', p') := PutChecked(t, w, p, oci, digest, env, next);
        if p'.pc == next {
          ManifestResolves(t, w', p.img, oci, mt);
        }
    }
  }

  lemma StepGood(t: Tools, w: World, p: Proc, env: Env)
    requires Addressed(t, w) && CollisionFree(t.codec, w.blobs.Values + Offered(t, p, env)) && Inverse(t.json) && ProcOk(t, w, p)
    ensures var (w', p') := StepProc(t, w, p, env); GoodStep(t, w, p, env, w', p')
  {
    hide Stored, Agrees, Resolves, StepLayer, StepFetched, StepCopied, StepConfig, StepManifest, LayersStored;
    match p.pc
    case AtLayer(i) => LayerGood(t, w, p, i, env);
    case Fetched(i) => FetchedGood(t, w, p, i, env);
    case Copied(i) => CopiedGood(t, w, p, i, env);
    case AtConfig => ConfigGood(t, w, p, env);
    case AtManifest => ManifestGood(t, w, p, env);
    case CheckRef(desc) =>
    case WriteRef(desc) => EngineOnly(t, w, StepWriteRef(w, p, desc, env).0, p);
    case Done =>
    case Failed(_) =>
  }

  /** References stay closed when blobs are only added and a new one resolves. */
  lemma ClosedStays(t: Tools, w: World, w': World)
    requires ClosedRefs(t, w) && Extends(w, w') && w'.refs == w.refs
    ensures ClosedRefs(t, w')
  {
    hide Resolves;
    forall p | p in w'.refs && p.RefFile? && w'.refs[p].Some?
      ensures Resolves(t, w', p.repo, w'.refs[p].value)
    {
      ResolvesStays(t, w, w', p.repo, w.refs[p].value);
    }
  }

  lemma ClosedWithNew(t: Tools, w: World, w': World, p: Path, desc: Descriptor)
    requires ClosedRefs(t, w) && Extends(w, w') && p.RefFile? && w'.refs == w.refs[p := Some(desc)]
    requires Resolves(t, w, p.repo, desc)
    ensures ClosedRefs(t, w')
  {
    hide Resolves;
    forall q | q in w'.refs && q.RefFile? && w'.refs[q].Some?
      ensures Resolves(t, w', q.repo, w'.refs[q].value)
    {
      ResolvesStays(t, w, w', q.repo, w'.refs[q].value);
    }
  }

  lemma AdvanceInv(t: Tools, s: System, i: nat, env: Env)
    requires Inv(t, s) && i in s.procs && Inverse(t.json)
    requires CollisionFree(t.codec, s.world.blobs.Values + Offered(t, s.procs[i], env))
    ensures Inv(t, Do(t, s, Advance(i, env)))
    ensures Do(t, s, Advance(i, env)).world.blobs.Values <= s.world.blobs.Values + Offered(t, s.procs[i], env)
  {
    hide Stored, Agrees, Resolves, StepProc, LayersStored, Addressed, Extends, ClosedRefs, Offered, CollisionFree;
    var w, p := s.world, s.procs[i];
    var (w', p') := StepProc(t, w, p, env);
    StepGood(t, w, p, env);
    if w'.refs == w.refs {
      ClosedStays(t, w, w');
    } else {
      ClosedWithNew(t, w, w', Ref(p.img), p.pc.desc);
    }
    forall j | j in s.procs
      ensures ProcOk(t, w', s.procs[j])
    {
      ProcOkStays(t, w, w', s.procs[j]);
    }
  }

  ghost predicate AgreeingEvent(t: Tools, e: Event) {
    e.Spawn? ==> Agrees(t, e.img)
  }

  lemma StepInv(t: Tools, s: System, e: Event)
    requires Inv(t, s) && Inverse(t.json) && AgreeingEvent(t, e)
    requires CollisionFree(t.codec, s.world.blobs.Values + StepContents(t, s, e))
    ensures Inv(t, Do(t, s, e)) && Do(t, s, e).world.blobs.Values <= s.world.blobs.Values + StepContents(t, s, e)
  {
    hide Stored, Agrees, Resolves, StepProc, E.Do, CollisionFree, Offered;
    match e
    case Spawn(i, role, img) =>
    case Advance(i, env) =>
      if i in s.procs {
        AdvanceInv(t, s, i, env);
      }
    case Kill(i) =>
    case Engine(ee) => OtherInv(t, s, e);
    case ForgetRef(repo, tag) => OtherInv(t, s, e);
  }

  lemma OtherInv(t: Tools, s: System, e: Event)
    requires Inv(t, s) && (e.Engine? || e.ForgetRef?)
    ensures Inv(t, Do(t, s, e))
  {
    hide Stored, Agrees, Resolves, ProcOk, E.Do;
    var s' := Do(t, s, e);
    forall i | i in s'.procs
      ensures ProcOk(t, s'.world, s'.procs[i])
    {
      ProcOkStays(t, s.world, s'.world, s.procs[i]);
    }
    forall p | p in s'.world.refs && p.RefFile? && s'.world.refs[p].Some?
      ensures Resolves(t, s'.world, p.repo, s'.world.refs[p].value)
    {
      ResolvesStays(t, s.world, s'.world, p.repo, s.world.refs[p].value);
    }
  }

  /**
   In every interleaving of leecher and seeder downloads, crashes, engine steps and removals of
   references, at every step: whenever a reference resolves, its manifest is stored and has the
   size that the reference says, and all its layers and its config are stored under their digests.
   The hash need only tell apart what is stored and what the run publishes.
   */
  lemma {:induction false} RunClosed(t: Tools, s: System, es: seq<Event>)
    requires Inv(t, s) && Inverse(t.json) && CollisionFree(t.codec, s.world.blobs.Values + Contents(t, s, es))
    requires forall i :: 0 <= i < |es| ==> AgreeingEvent(t, es[i])
    ensures Inv(t, Run(t, s, es))
    decreases |es|
  {
    hide Inv, Do, CollisionFree, Inverse, AgreeingEvent, StepContents;
    if es == [] {
    } else {
      var s1, all := Do(t, s, es[0]), s.world.blobs.Values + Contents(t, s, es);
      FewerCollisions(t.codec, s.world.blobs.Values + StepContents(t, s, es[0]), all);
      StepInv(t, s, es[0]);
      FewerCollisions(t.codec, s1.world.blobs.Values + Contents(t, s1, es[1..]), all);
      RunClosed(t, s1, es[1..]);
    }
  }

  /** The same, said of any reference after any run from an empty store. */
  lemma ReferencesAreClosed(t: Tools, engine: E.Engine, es: seq<Event>, repo: string, tag: string)
    requires Inverse(t.json) && CollisionFree(t.codec, Contents(t, Empty(engine), es))
    requires forall i :: 0 <= i < |es| ==> AgreeingEvent(t, es[i])
    ensures var w := Run(t, Empty(engine), es).world;
            var r := References.Get(w.refs, RefFile(repo, tag));
            r.Some? && r.value.Some? ==> Resolves(t, w, repo, r.value.value)
  {
    hide Run, AgreeingEvent, CollisionFree, Inverse, Resolves, Contents;
    var s := Empty(engine);
    assert s.world.blobs.Values + Contents(t, s, es) == Contents(t, s, es);
    RunClosed(t, s, es);
  }
}
