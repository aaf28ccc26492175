/**
 The two levels put together: what readers of the disk see of interleaved writers is what the
 downloads publish, so what Closure proves of downloads holds of the disk at every step.
 */
module Refinement {
  import opened Wrappers
  import opened Hex
  import opened Layouts
  import References
  import S = Store
  import P = StoreProofs
  import D = Downloads
  import Manifests
  import Closure
  import E = EngineModel

  /** What readers see of the layouts. */
  datatype Readers = Readers(blobs: map<Path, Content>, refs: References.RefMap)

  datatype Publication =
    | NewBlob(repo: string, content: Content)
    | NewRef(repo: string, name: string, desc: Descriptor)
    | NoBlob(repo: string, name: string)
    | NoRef(repo: string, name: string)

  function Show(c: Codec, r: Readers, p: Publication): Readers {
    match p
    case NewBlob(repo, content) => r.(blobs := r.blobs[BlobFile(repo, c.sha(content)) := content])
    case NoBlob(repo, name) => r.(blobs := r.blobs - {BlobFile(repo, name)})
    case NewRef(repo, name, desc) => r.(refs := r.refs[RefFile(repo, name) := Some(desc)])
    case NoRef(repo, name) => r.(refs := r.refs - {RefFile(repo, name)})
  }

  function ShowAll(c: Codec, r: Readers, ps: seq<Publication>): Readers
    decreases |ps|
  {
    if ps == [] then r else ShowAll(c, Show(c, r, ps[0]), ps[1..])
  }

  ghost function Disk(c: Codec, s: S.Store): Readers {
    Readers(S.Blobs(s), S.Refs(c, s))
  }

  function World(w: D.World): Readers {
    Readers(w.blobs, w.refs)
  }

  /** A writer about to rename a complete file that is still there. */
  predicate Renames(s: S.Store, e: S.Event) {
    e.Publish? && e.w in s.writers && !s.writers[e.w].open && s.writers[e.w].temp in s.fs.names
  }

  /** What a step on disk publishes: a rename its whole file, a removal its absence. */
  function DiskStep(s: S.Store, e: S.Event): seq<Publication> {
    if e.DeleteBlob? then [NoBlob(e.repo, e.name)]
    else if e.DeleteRef? then [NoRef(e.repo, e.name)]
    else if !Renames(s, e) then []
    else
      match s.writers[e.w].target
      case ToBlob(repo) => [NewBlob(repo, s.writers[e.w].fed)]
      case ToRef(repo, name, desc) => [NewRef(repo, name, desc)]
  }

  function DiskRun(c: Codec, s: S.Store, es: seq<S.Event>): seq<Publication>
    decreases |es|
  {
    if es == [] then [] else DiskStep(s, es[0]) + DiskRun(c, S.Do(c, s, es[0]), es[1..])
  }

  /** What a step of a download publishes. */
  function DownloadStep(t: D.Tools, w: D.World, p: D.Proc, env: D.Env): seq<Publication> {
    var img := p.img;
    match p.pc
    case AtLayer(i) =>
      if i < |img.layers| && p.role.Seeder? && D.Exists(w, img.repo, img.layers[i].digest, env) == Some(false)
         && env.read.Some? && env.io
      then [NewBlob(img.repo, env.read.value)] else []
    case Fetched(i) => if i < |img.layers| && env.read.Some? && env.io then [NewBlob(img.repo, env.read.value)] else []
    case AtConfig =>
      if img.config.digest != "" && img.configBlob.Some? && env.io then [NewBlob(img.repo, img.configBlob.value)] else []
    case AtManifest => if D.Converts(t, img) && env.io then [NewBlob(img.repo, D.OciOf(t, img))] else []
    case WriteRef(desc) => if env.io then [NewRef(img.repo, img.tag, desc)] else []
    case _ => []
  }

  function SystemStep(t: D.Tools, s: D.System, e: D.Event): seq<Publication> {
    if e.ForgetRef? then [NoRef(e.repo, e.tag)]
    else if e.Advance? && e.i in s.procs then DownloadStep(t, s.world, s.procs[e.i], e.env)
    else []
  }

  function SystemRun(t: D.Tools, s: D.System, ds: seq<D.Event>): seq<Publication>
    decreases |ds|
  {
    if ds == [] then [] else SystemStep(t, s, ds[0]) + SystemRun(t, D.Do(t, s, ds[0]), ds[1..])
  }

  lemma {:induction false} ShowAppend(c: Codec, r: Readers, ps: seq<Publication>, qs: seq<Publication>)
    ensures ShowAll(c, r, ps + qs) == ShowAll(c, ShowAll(c, r, ps), qs)
    decreases |ps|
  {
    hide Show;
    if ps == [] {
      assert ps + qs == qs;
    } else {
      assert (ps + qs)[1..] == ps[1..] + qs;
      ShowAppend(c, Show(c, r, ps[0]), ps[1..], qs);
    }
  }

  lemma ShowOne(c: Codec, r: Readers, p: Publication)
    ensures ShowAll(c, r, [p]) == Show(c, r, p) && ShowAll(c, r, []) == r
  {
    hide Show;
    assert [p][1..] == [];
  }

  /** PutBlob and PutReference are atomic for readers: a step on disk publishes one whole entry or nothing. */
  lemma DiskStepShows(c: Codec, s: S.Store, e: S.Event)
    requires S.Sound(c, s) && Faithful(c) && S.Copies(e)
    ensures Disk(c, S.Do(c, s, e)) == ShowAll(c, Disk(c, s), DiskStep(s, e))
  {
    hide S.Sound, S.Do, S.Blobs, S.Refs, Faithful;
    P.StepVisible(c, s, e);
    if DiskStep(s, e) != [] {
      ShowOne(c, Disk(c, s), DiskStep(s, e)[0]);
    }
  }

  /** Readers of any interleaving on disk see the publications that it makes, in order, and nothing else. */
  lemma {:induction false} DiskRunShows(c: Codec, s: S.Store, es: seq<S.Event>)
    requires S.Sound(c, s) && Faithful(c) && P.AllCopy(es)
    ensures Disk(c, S.Run(c, s, es)) == ShowAll(c, Disk(c, s), DiskRun(c, s, es))
    decreases |es|
  {
    hide S.Sound, S.Do, Faithful, Disk, DiskStep, S.Copies;
    if es == [] {
    } else {
      P.StepSound(c, s, es[0]);
      DiskStepShows(c, s, es[0]);
      DiskRunShows(c, S.Do(c, s, es[0]), es[1..]);
      ShowAppend(c, Disk(c, s), DiskStep(s, es[0]), DiskRun(c, S.Do(c, s, es[0]), es[1..]));
    }
  }

  lemma DownloadStepShows(t: D.Tools, w: D.World, p: D.Proc, env: D.Env)
    ensures World(D.StepProc(t, w, p, env).0) == ShowAll(t.codec, World(w), DownloadStep(t, w, p, env))
    ensures |DownloadStep(t, w, p, env)| <= 1
  {
    hide D.Exists, D.LayerId, E.Do, E.StartLeecher, Manifests.CreateOciManifest, ShowAll;
    var ps := DownloadStep(t, w, p, env);
    if ps == [] {
      ShowOne(t.codec, World(w), NoRef("", ""));
    } else {
      ShowOne(t.codec, World(w), ps[0]);
      assert ps == [ps[0]];
    }
  }

  lemma SystemStepShows(t: D.Tools, s: D.System, d: D.Event)
    ensures World(D.Do(t, s, d).world) == ShowAll(t.codec, World(s.world), SystemStep(t, s, d))
    ensures |SystemStep(t, s, d)| <= 1
  {
    hide D.StepProc, DownloadStep, E.Do, ShowAll;
    ShowOne(t.codec, World(s.world), if d.ForgetRef? then NoRef(d.repo, d.tag) else NoRef("", ""));
    if d.Advance? && d.i in s.procs {
      DownloadStepShows(t, s.world, s.procs[d.i], d.env);
    }
  }

  lemma {:induction false} SystemRunShows(t: D.Tools, s: D.System, ds: seq<D.Event>)
    ensures World(D.Run(t, s, ds).world) == ShowAll(t.codec, World(s.world), SystemRun(t, s, ds))
    decreases |ds|
  {
    hide D.Do, SystemStep, World;
    if ds == [] {
    } else {
      SystemStepShows(t, s, ds[0]);
      SystemRunShows(t, D.Do(t, s, ds[0]), ds[1..]);
      ShowAppend(t.codec, World(s.world), SystemStep(t, s, ds[0]), SystemRun(t, D.Do(t, s, ds[0]), ds[1..]));
    }
  }

  /** As a step of the downloads publishes at most one entry, every prefix of what they publish is published by one of their runs. */
  lemma {:induction false} PrefixOfRun(t: D.Tools, s: D.System, ds: seq<D.Event>, ps: seq<Publication>) returns (j: nat)
    requires ps <= SystemRun(t, s, ds)
    ensures j <= |ds| && SystemRun(t, s, ds[..j]) == ps
    ensures D.Contents(t, s, ds[..j]) <= D.Contents(t, s, ds)
    decreases |ds|
  {
    hide D.Do, SystemStep, D.StepContents;
    if ps == [] || ds == [] {
      j := 0;
      assert ds[..0] == [];
    } else {
      SystemStepShows(t, s, ds[0]);
      var first := SystemStep(t, s, ds[0]);
      var i := PrefixOfRun(t, D.Do(t, s, ds[0]), ds[1..], ps[|first|..]);
      j := i + 1;
      assert ds[..j][1..] == ds[1..][..i] && ds[..j][0] == ds[0];
      assert ps == first + ps[|first|..];
    }
  }

  /**
   Closure of references on disk, at every step of every interleaving of writers and crashes whose
   renames are, so far, the publications of downloads: whenever a reference is visible, so are its
   manifest, of the size it says, and all the layers and the config that the manifest names.
   */
  lemma DiskIsClosed(t: D.Tools, es: seq<S.Event>, engine: E.Engine, ds: seq<D.Event>, p: Path)
    requires Faithful(t.codec) && P.AllCopy(es) && DiskRun(t.codec, P.EMPTY, es) <= SystemRun(t, D.Empty(engine), ds)
    requires Manifests.Inverse(t.json) && D.CollisionFree(t.codec, D.Contents(t, D.Empty(engine), ds))
    requires forall i :: 0 <= i < |ds| ==> Closure.AgreeingEvent(t, ds[i])
    requires p.RefFile? && p in S.Refs(t.codec, S.Run(t.codec, P.EMPTY, es))
    ensures var s := S.Run(t.codec, P.EMPTY, es);
            var desc := S.Refs(t.codec, s)[p];
            desc.Some? && Closure.Resolves(t, D.World(S.Blobs(s), S.Refs(t.codec, s), engine, []), p.repo, desc.value)
  {
    hide S.Run, S.Do, D.Run, D.Do, DiskRun, SystemRun, D.Contents, Faithful, Manifests.Inverse, D.CollisionFree,
      Closure.AgreeingEvent, Closure.Resolves, P.AllCopy, S.Blobs, S.Private, S.InStep;
    var c, s := t.codec, S.Run(t.codec, P.EMPTY, es);
    P.EmptySound(c);
    P.RunSound(c, P.EMPTY, es);
    DiskRunShows(c, P.EMPTY, es);
    var j := PrefixOfRun(t, D.Empty(engine), ds, DiskRun(c, P.EMPTY, es));
    SystemRunShows(t, D.Empty(engine), ds[..j]);
    EmptyDisk(c, engine);
    var w := D.Run(t, D.Empty(engine), ds[..j]).world;
    Closure.FewerCollisions(c, D.Contents(t, D.Empty(engine), ds[..j]), D.Contents(t, D.Empty(engine), ds));
    Closure.ReferencesAreClosed(t, engine, ds[..j], p.repo, p.name);
    SameBlobsResolve(t, w, D.World(S.Blobs(s), S.Refs(c, s), engine, []), p.repo, w.refs[p].value);
  }

  lemma EmptyDisk(c: Codec, engine: E.Engine)
    ensures Disk(c, P.EMPTY) == World(D.Empty(engine).world)
  {
  }

  lemma SameBlobsResolve(t: D.Tools, w: D.World, w': D.World, repo: string, desc: Descriptor)
    requires w.blobs == w'.blobs && Closure.Resolves(t, w, repo, desc)
    ensures Closure.Resolves(t, w', repo, desc)
  {
    hide D.LayerId, Manifests.Inverse;
  }
}
