/**
 The daemon's loops as they are written (daemon/daemon.go:104-424, daemon/oci.go:128-195), each
 tied to the steps of Downloads and Holds.
 */
module Daemon {
  import opened Wrappers
  import opened Hex
  import opened Layouts
  import opened Manifests
  import opened Downloads
  import Strings
  import Paths
  import References
  import Holds
  import E = EngineModel

  /** Where a call has got to when it returned `err` at the stage `next`. */
  function After(err: Option<DownloadError>, next: PC): PC {
    if err.None? then next else Failed(err.value)
  }

  lemma Over(t: Tools, w: World, p: Proc, env: nat -> Env, k: nat, n: nat)
    requires p.pc.Done? || p.pc.Failed?
    ensures Drive(t, w, p, env, k, n) == (w, p)
    decreases n
  {
    if n > 0 {
      Over(t, w, p, env, k + 1, n - 1);
    }
  }

  lemma DriveStep(t: Tools, w: World, p: Proc, env: nat -> Env, k: nat, n: nat)
    requires n > 0
    ensures var (w1, p1) := StepProc(t, w, p, env(k));
            Drive(t, w, p, env, k, n) == Drive(t, w1, p1, env, k + 1, n - 1)
  {
  }

  class Daemon {
    const t: Tools
    var world: World

    constructor (t: Tools, world: World)
      ensures this.t == t && this.world == world
    {
      this.t, this.world := t, world;
    }

    /** PutBlob and the check of its digest. */
    method PutBlob(img: Image, content: Content, digest: string, env: Env) returns (err: Option<DownloadError>)
      modifies this
      ensures forall p: Proc, next: PC :: p.img == img ==>
                PutChecked(t, old(world), p, content, digest, env, next) == (world, p.(pc := After(err, next)))
    {
      if !env.io {
        return Some(BlobFailed);
      }
      world := Publish(t, world, img.repo, content);
      if DigestOf(t.codec, content) != digest {
        return Some(DigestMismatch);
      }
      err := None;
    }

    /** startLeechingLayer, for a layer that is not stored: one step to fetch it, one to copy it. */
    method StartLeechingLayer(img: Image, i: nat, env: Env, copyEnv: Env) returns (err: Option<DownloadError>)
      requires i < |img.layers| && Exists(world, img.repo, img.layers[i].digest, env) == Some(false)
      modifies this
      ensures var (w1, p1) := StepProc(t, old(world), Proc(Leecher, img, AtLayer(i)), env);
              if p1.pc == Fetched(i)
              then StepProc(t, w1, p1, copyEnv) == (world, Proc(Leecher, img, After(err, AtLayer(i + 1))))
              else p1.pc.Failed? && (w1, p1) == (world, Proc(Leecher, img, After(err, AtLayer(i + 1))))
    {
      hide E.StartLeecher, E.Do, LayerId;
      var digest := img.layers[i].digest;
      var id := LayerId(digest);
      if env.torrent.None? {
        return Some(NoTorrent);
      }
      var started := E.StartLeecher(world.engine, id, env.torrent.value).1;
      world := Tell(world, E.Leech(id, env.torrent.value));
      if started.Err? {
        return Some(EngineFailed(started.error));
      }
      if copyEnv.read.None? {
        return Some(ReadFailed);
      }
      err := PutBlob(img, copyEnv.read.value, digest, copyEnv);
    }

    /** copyLayer and startSeedingLayer, for a layer that is not stored. */
    method CopyAndSeedLayer(img: Image, i: nat, env: Env, seedEnv: Env) returns (err: Option<DownloadError>)
      requires i < |img.layers| && Exists(world, img.repo, img.layers[i].digest, env) == Some(false)
      modifies this
      ensures var (w1, p1) := StepProc(t, old(world), Proc(Seeder, img, AtLayer(i)), env);
              if p1.pc == Copied(i)
              then StepProc(t, w1, p1, seedEnv) == (world, Proc(Seeder, img, After(err, AtLayer(i + 1))))
              else p1.pc.Failed? && (w1, p1) == (world, Proc(Seeder, img, After(err, AtLayer(i + 1))))
    {
      hide E.Do, LayerId;
      if env.read.None? {
        return Some(ReadFailed);
      }
      err := PutBlob(img, env.read.value, img.layers[i].digest, env);
      if err.Some? {
        return;
      }
      var id := LayerId(img.layers[i].digest);
      if !seedEnv.create {
        return Some(ReadFailed);
      }
      if Blob(img, id) !in world.blobs {
        world := Tell(world, E.WriteData(id, []));
        return Some(ReadFailed);
      }
      if !seedEnv.io {
        world := Tell(world, E.WriteData(id, if seedEnv.read.Some? then seedEnv.read.value else []));
        return Some(ReadFailed);
      }
      world := Tell(world, E.WriteData(id, world.blobs[Blob(img, id)]));
      world := Tell(world, E.Seed(id, seedEnv.seed));
      err := None;
    }

    /** The loop over the layers, on either role; `k` counts the steps, two for a layer that is not skipped. */
    method TransferLayers(role: Role, img: Image, env: nat -> Env) returns (err: Option<DownloadError>, k: nat)
      modifies this
      ensures k <= 2 * |img.layers|
      ensures Drive(t, old(world), Proc(role, img, AtLayer(0)), env, 0, Bound(img)) ==
              Drive(t, world, Proc(role, img, After(err, AtLayer(|img.layers|))), env, k, Bound(img) - k)
    {
      hide Drive, StepProc, Exists;
      k := 0;
      for i := 0 to |img.layers|
        invariant k <= 2 * i
        invariant Drive(t, old(world), Proc(role, img, AtLayer(0)), env, 0, Bound(img)) ==
                  Drive(t, world, Proc(role, img, AtLayer(i)), env, k, Bound(img) - k)
      {
        ghost var w, p, k0 := world, Proc(role, img, AtLayer(i)), k;
        var present := Exists(world, img.repo, img.layers[i].digest, env(k));
        if present != Some(false) {
          LayerSkipped(t, w, p, i, env(k));
          DriveStep(t, w, p, env, k0, Bound(img) - k0);
          k := k + 1;
          if present.None? {
            return Some(StatFailed), k;
          }
        } else {
          if role.Leecher? {
            err := StartLeechingLayer(img, i, env(k), env(k + 1));
          } else {
            err := CopyAndSeedLayer(img, i, env(k), env(k + 1));
          }
          TwoSteps(t, w, p, env, k0, Bound(img) - k0, world, After(err, AtLayer(i + 1)));
          k := k + 2;
          if err.Some? {
            return;
          }
        }
      }
      err := None;
    }

    /** putManifest: the manifest blob, then the reference. */
    method PutManifest(img: Image, raw: Content, env: Env, checkEnv: Env, refEnv: Env) returns (err: Option<DownloadError>)
      requires img.manifest == Some(raw)
      modifies this
      ensures forall n: nat, environment: nat -> Env, k: nat :: n >= 3 && environment(k) == env && environment(k + 1) == checkEnv && environment(k + 2) == refEnv ==>
                Drive(t, old(world), Proc(Leecher, img, AtManifest), environment, k, n) ==
                (world, Proc(Leecher, img, After(err, Done)))
    {
      hide Drive, CreateOciManifest, PutChecked;
      ghost var w0 := world;
      var converted := Create(t.json, raw);
      if converted.Fail? {
        err := Some(BadManifest(converted.error));
        ManifestOver(t, w0, img, env, checkEnv, refEnv, world, err);
        return;
      }
      var (oci, mt) := converted.value;
      var digest := DigestOf(t.codec, oci);
      var desc := Descriptor(mt, digest, |oci|);
      err := PutBlob(img, oci, digest, env);
      if err.Some? {
        ManifestOver(t, w0, img, env, checkEnv, refEnv, world, err);
        return;
      }
      if !checkEnv.stat {
        err := Some(RefFailed(References.IoFailed));
        ManifestOver(t, w0, img, env, checkEnv, refEnv, world, err);
        return;
      }
      match References.Get(world.refs, Ref(img)) {
        case Some(Some(found)) =>
          if found != desc {
            err := Some(RefFailed(References.Clobber));
          }
        case Some(None) =>
          err := Some(RefFailed(References.Corrupt));
        case None =>
          if !refEnv.io {
            err := Some(RefFailed(References.IoFailed));
          } else {
            world := world.(refs := world.refs[Ref(img) := Some(desc)]);
          }
      }
      ManifestOver(t, w0, img, env, checkEnv, refEnv, world, err);
    }

    /** startLeecherDownload, from the opened layout on. */
    method StartLeecherDownload(img: Image, env: nat -> Env) returns (err: Option<DownloadError>)
      modifies this
      ensures Drive(t, old(world), Proc(Leecher, img, AtLayer(0)), env, 0, Bound(img)) ==
              (world, Proc(Leecher, img, After(err, Done)))
    {
      hide Drive, CreateOciManifest, PutChecked, StepProc;
      var k: nat;
      err, k := TransferLayers(Leecher, img, env);
      var left := Bound(img) - k;
      if err.Some? {
        Over(t, world, Proc(Leecher, img, Failed(err.value)), env, k, left);
        return;
      }
      ghost var w1 := world;
      DriveStep(t, w1, Proc(Leecher, img, AtLayer(|img.layers|)), env, k, left);
      LayersDone(t, w1, img, env(k));
      if img.config.digest != "" {
        if img.configBlob.None? {
          err := Some(ConfigFailed);
        } else {
          err := PutBlob(img, img.configBlob.value, img.config.digest, env(k + 1));
        }
      }
      DriveStep(t, w1, Proc(Leecher, img, AtConfig), env, k + 1, left - 1);
      ConfigDone(t, w1, img, env(k + 1), world, err);
      if err.Some? {
        Over(t, world, Proc(Leecher, img, Failed(err.value)), env, k + 2, left - 2);
        return;
      }
      if img.manifest.None? {
        DriveStep(t, world, Proc(Leecher, img, AtManifest), env, k + 2, left - 2);
        NoManifest(t, world, img, env(k + 2));
        Over(t, world, Proc(Leecher, img, Failed(ManifestFailed)), env, k + 3, left - 3);
        return Some(ManifestFailed);
      }
      err := PutManifest(img, img.manifest.value, env(k + 2), env(k + 3), env(k + 4));
    }

    /** startSeederDownload: layers only; no config, manifest or reference is written. */
    method StartSeederDownload(img: Image, env: nat -> Env) returns (err: Option<DownloadError>)
      modifies this
      ensures Drive(t, old(world), Proc(Seeder, img, AtLayer(0)), env, 0, Bound(img)) ==
              (world, Proc(Seeder, img, After(err, Done)))
    {
      hide Drive, StepProc;
      var k: nat;
      err, k := TransferLayers(Seeder, img, env);
      var left := Bound(img) - k;
      if err.Some? {
        Over(t, world, Proc(Seeder, img, Failed(err.value)), env, k, left);
        return;
      }
      DriveStep(t, world, Proc(Seeder, img, AtLayer(|img.layers|)), env, k, left);
      SeederDone(t, world, img, env(k));
      Over(t, world, Proc(Seeder, img, Done), env, k + 1, left - 1);
    }

    /**
     getOciImageLayers, with its loop over the layers of the manifest; `refRead` and `blobRead` are
     false when the reference or the manifest is there and cannot be read.
     */
    method GetOciImageLayers(repo: string, tag: string, refRead: bool, blobRead: bool) returns (r: Result<seq<BlobInfo>, LayersError>)
      ensures refRead && blobRead ==> r == GetImageLayers(t, world, repo, tag)
      ensures !refRead ==> r == Fail(Unreadable)
      ensures refRead && !blobRead ==> r == Fail(Unreadable) || (r.Fail? && r == GetImageLayers(t, world, repo, tag))
    {
      hide LayerId, Paths.BlobPath;
      if !refRead {
        return Fail(Unreadable);
      }
      var found := References.Get(world.refs, RefFile(repo, tag));
      if found.None? || found.value.None? {
        return Fail(NoReference);
      }
      var digest := found.value.value.digest;
      var p := BlobFile(repo, LayerId(digest));
      if Paths.BlobPath(digest) != Ok([Paths.BLOBS, Paths.SHA256, LayerId(digest)]) || p !in world.blobs {
        return Fail(NoBlob);
      }
      if !blobRead {
        return Fail(Unreadable);
      }
      var decoded := t.json.decode(world.blobs[p]);
      if decoded.None? {
        return Fail(NotAManifest);
      }
      var om := decoded.value;
      var layers := [];
      for i := 0 to |om.layers|
        invariant layers == Infos(om.layers[..i])
      {
        layers := layers + [BlobInfo(om.layers[i].digest, om.layers[i].size)];
        assert om.layers[..i + 1] == om.layers[..i] + [om.layers[i]];
      }
      assert om.layers[..|om.layers|] == om.layers;
      r := Ok(layers);
    }

    /** StopDownload, with its loop over the layers that collects the stopped ids. */
    method StopDownload(repo: string, tag: string, clean: bool, env: string -> E.DeleteEnv, refRead: bool, blobRead: bool)
      returns (r: Result<seq<string>, Holds.StopError>)
      modifies this
      ensures refRead && blobRead ==> (world, r) == Holds.StopDownload(t, old(world), repo, tag, clean, env)
      ensures !refRead || !blobRead ==> world == old(world) && r.Fail? && r.error.NoLayers?
    {
      hide LayerId, E.StopTorrent, E.Do, GetImageLayers;
      var layers := GetOciImageLayers(repo, tag, refRead, blobRead);
      if layers.Fail? {
        return Fail(Holds.NoLayers(layers.error));
      }
      var infos := layers.value;
      var ids: seq<string> := [];
      for i := 0 to |infos|
        invariant ids == Holds.IdsOf(infos[..i])
        invariant Holds.StopLayers(old(world), infos, clean, env) == Holds.StopLayers(world, infos[i..], clean, env)
      {
        assert infos[i..][0] == infos[i] && infos[i..][1..] == infos[i + 1..];
        if Strings.Cut(infos[i].digest, ':').None? {
          return Fail(Holds.BadLayerDigest);
        }
        var id := LayerId(infos[i].digest);
        ghost var w := world;
        var err := E.StopTorrent(world.engine, id).1;
        world := Tell(world, E.Stop(id));
        if err.Err? {
          return Fail(Holds.StopFailed(err.error));
        }
        ids := ids + [id];
        assert infos[..i + 1] == infos[..i] + [infos[i]];
        if clean {
          world := Tell(world, E.Delete(id, env(id)));
        }
        assert Holds.StopLayer(w, id, clean, env) == (world, Nil);
      }
      assert infos[..|infos|] == infos;
      r := Ok(ids);
    }
  }

  /** A layer that is transferred takes two steps, or fails at the first. */
  lemma TwoSteps(t: Tools, w: World, p: Proc, env: nat -> Env, k: nat, n: nat, w': World, pc: PC)
    requires n >= 2
    requires var (w1, p1) := StepProc(t, w, p, env(k));
             if p1.pc.Failed? then (w1, p1) == (w', p.(pc := pc)) else StepProc(t, w1, p1, env(k + 1)) == (w', p.(pc := pc))
    ensures Drive(t, w, p, env, k, n) == Drive(t, w', p.(pc := pc), env, k + 2, n - 2)
  {
    hide Drive, StepProc;
    var (w1, p1) := StepProc(t, w, p, env(k));
    DriveStep(t, w, p, env, k, n);
    if p1.pc.Failed? {
      Over(t, w1, p1, env, k + 1, n - 1);
      Over(t, w1, p1, env, k + 2, n - 2);
    } else {
      DriveStep(t, w1, p1, env, k + 1, n - 1);
    }
  }

  lemma LayerSkipped(t: Tools, w: World, p: Proc, i: nat, env: Env)
    requires p.pc == AtLayer(i) && i < |p.img.layers| && Exists(w, p.img.repo, p.img.layers[i].digest, env) != Some(false)
    ensures StepProc(t, w, p, env) ==
              (w, p.(pc := if Exists(w, p.img.repo, p.img.layers[i].digest, env).None? then Failed(StatFailed) else AtLayer(i + 1)))
  {
    hide Exists;
  }

  lemma LayersDone(t: Tools, w: World, img: Image, env: Env)
    ensures StepProc(t, w, Proc(Leecher, img, AtLayer(|img.layers|)), env) == (w, Proc(Leecher, img, AtConfig))
  {
  }

  lemma SeederDone(t: Tools, w: World, img: Image, env: Env)
    ensures StepProc(t, w, Proc(Seeder, img, AtLayer(|img.layers|)), env) == (w, Proc(Seeder, img, Done))
  {
  }

  lemma NoManifest(t: Tools, w: World, img: Image, env: Env)
    requires img.manifest.None?
    ensures StepProc(t, w, Proc(Leecher, img, AtManifest), env) == (w, Proc(Leecher, img, Failed(ManifestFailed)))
  {
  }

  lemma ConfigDone(t: Tools, w: World, img: Image, env: Env, w': World, err: Option<DownloadError>)
    requires (w', Proc(Leecher, img, After(err, AtManifest))) == StepConfig(t, w, Proc(Leecher, img, AtConfig), env)
    ensures StepProc(t, w, Proc(Leecher, img, AtConfig), env) == (w', Proc(Leecher, img, After(err, AtManifest)))
  {
  }

  /** The three steps of putManifest put together. */
  lemma ManifestOver(t: Tools, w: World, img: Image, env: Env, checkEnv: Env, refEnv: Env, w': World,
                     err: Option<DownloadError>)
    requires ManifestSteps(t, w, img, env, checkEnv, refEnv) == (w', Proc(Leecher, img, After(err, Done)))
    ensures forall n: nat, environment: nat -> Env, k: nat :: n >= 3 && environment(k) == env && environment(k + 1) == checkEnv && environment(k + 2) == refEnv ==>
              Drive(t, w, Proc(Leecher, img, AtManifest), environment, k, n) == (w', Proc(Leecher, img, After(err, Done)))
  {
    hide Drive, StepManifest, StepCheckRef, StepWriteRef;
    forall n: nat, environment: nat -> Env, k: nat | n >= 3 && environment(k) == env && environment(k + 1) == checkEnv && environment(k + 2) == refEnv
      ensures Drive(t, w, Proc(Leecher, img, AtManifest), environment, k, n) == (w', Proc(Leecher, img, After(err, Done)))
    {
      var p := Proc(Leecher, img, AtManifest);
      DriveStep(t, w, p, environment, k, n);
      var (w1, p1) := StepProc(t, w, p, env);
      DriveStep(t, w1, p1, environment, k + 1, n - 1);
      var (w2, p2) := StepProc(t, w1, p1, checkEnv);
      DriveStep(t, w2, p2, environment, k + 2, n - 2);
      var (w3, p3) := StepProc(t, w2, p2, refEnv);
      DoneIsDone(t, w1, p1, checkEnv);
      DoneIsDone(t, w2, p2, refEnv);
      Over(t, w3, p3, environment, k + 3, n - 3);
    }
  }

  function ManifestSteps(t: Tools, w: World, img: Image, env: Env, checkEnv: Env, refEnv: Env): (World, Proc) {
    var (w1, p1) := StepManifest(t, w, Proc(Leecher, img, AtManifest), env);
    if !p1.pc.CheckRef? then (w1, p1)
    else
      var (w2, p2) := StepCheckRef(w1, p1, p1.pc.desc, checkEnv);
      if !p2.pc.WriteRef? then (w2, p2) else StepWriteRef(w2, p2, p2.pc.desc, refEnv)
  }

  lemma DoneIsDone(t: Tools, w: World, p: Proc, env: Env)
    ensures p.pc.Done? || p.pc.Failed? ==> StepProc(t, w, p, env) == (w, p)
  {
  }
}
