/**
 Holds that downloads take of the engine and stops give back (daemon/daemon.go:267-285, 376-424).
 */
module Holds {
  import opened Wrappers
  import opened Hex
  import opened Layouts
  import opened Manifests
  import opened Downloads
  import opened Resuming
  import Strings
  import Paths
  import Closure
  import E = EngineModel
  import Links = EngineLinks
  import Counts = EngineCounts

  /** `w'` is `w` after some steps of the engine, all of them in its log. */
  ghost predicate Grows(w: World, w': World) {
    w.log <= w'.log && w'.engine == E.Run(w.engine, w'.log[|w.log|..])
  }

  /** The holds of `id` taken less those given back since. */
  function NetSince(w: World, w': World, id: string): int {
    if |w.log| <= |w'.log| then Counts.Net(w.engine, w'.log[|w.log|..], id) else 0
  }

  lemma NothingSince(w: World, id: string)
    ensures Grows(w, w) && NetSince(w, w, id) == 0
  {
    assert w.log[|w.log|..] == [];
  }

  lemma SameLog(w: World, w': World, id: string)
    requires w'.log == w.log && w'.engine == w.engine
    ensures Grows(w, w') && NetSince(w, w', id) == 0
  {
    assert w.log[|w.log|..] == [];
  }

  lemma TellGrows(w: World, e: E.Event, id: string)
    ensures Grows(w, Tell(w, e)) && NetSince(w, Tell(w, e), id) == Counts.NetStep(w.engine, e, id)
  {
    hide E.Do, Counts.NetStep;
    assert (w.log + [e])[|w.log|..] == [e];
    assert [e][1..] == [];
    assert E.Run(w.engine, [e]) == E.Do(w.engine, e);
    assert Counts.Net(w.engine, [e], id) == Counts.NetStep(w.engine, e, id) + Counts.Net(E.Do(w.engine, e), [], id);
  }

  lemma TellKeepsStore(w: World, e: E.Event)
    ensures Tell(w, e).blobs == w.blobs && Tell(w, e).refs == w.refs
  {
    hide E.Do;
  }

  lemma GrowsOn(w: World, w1: World, w2: World, id: string)
    requires Grows(w, w1) && Grows(w1, w2)
    ensures Grows(w, w2) && NetSince(w, w2, id) == NetSince(w, w1, id) + NetSince(w1, w2, id)
  {
    hide E.Run, Counts.Net;
    var (es, fs) := (w1.log[|w.log|..], w2.log[|w1.log|..]);
    assert w2.log == w1.log + fs;
    assert w2.log[|w.log|..] == es + fs;
    Counts.RunAppend(w.engine, es, fs);
    Counts.NetAppend(w.engine, es, fs, id);
  }

  /** A start counts for a hold exactly if it succeeds. */
  lemma StartNet(s: E.Engine, id: string, leech: E.LeechEnv, seed: E.SeedEnv, x: string)
    ensures Counts.NetStep(s, E.Leech(id, leech), x) == if E.StartLeecher(s, id, leech).1.Nil? && x == id then 1 else 0
    ensures Counts.NetStep(s, E.Seed(id, seed), x) == if E.StartSeed(s, id, seed).1.Nil? && x == id then 1 else 0
  {
    hide HexString, E.AddToClient, E.AddTorrent, E.GetTorrentFilePath, E.GetFilePath;
  }

  lemma OtherNet(s: E.Engine, e: E.Event, x: string)
    requires !e.Seed? && !e.Leech?
    ensures Counts.NetStep(s, e, x) == if e.Stop? && s.running && E.IsStarted(s, e.id) && x == e.id then -1 else 0
  {
  }

  function Ids(img: Image): seq<string> {
    seq(|img.layers|, i requires 0 <= i < |img.layers| => LayerId(img.layers[i].digest))
  }

  /** The ids that a leecher starts from layer `i` on: those not stored when their turn comes. */
  function TakenFrom(img: Image, i: nat, have: set<Path>): seq<string>
    decreases |img.layers| - i
  {
    if i >= |img.layers| then []
    else
      var id := LayerId(img.layers[i].digest);
      if Blob(img, id) in have then TakenFrom(img, i + 1, have) else [id] + TakenFrom(img, i + 1, have + {Blob(img, id)})
  }

  /** The id of which the step takes a hold, if it does. */
  function TookStep(t: Tools, w: World, p: Proc, env: Env): seq<string> {
    match p.pc
    case AtLayer(i) => if StepProc(t, w, p, env).1.pc == Fetched(i) then [LayerId(p.img.layers[i].digest)] else []
    case Copied(i) =>
      if StepProc(t, w, p, env).1.pc != AtLayer(i + 1) then []
      else
        var id := LayerId(p.img.layers[i].digest);
        if E.StartSeed(Tell(w, E.WriteData(id, w.blobs[Blob(p.img, id)])).engine, id, env.seed).1.Nil? then [id] else []
    case _ => []
  }

  /** The ids of which a download takes holds, in order. */
  function Took(t: Tools, w: World, p: Proc, env: nat -> Env, k: nat, n: nat): seq<string>
    decreases n
  {
    if n == 0 then []
    else
      var (w1, p1) := StepProc(t, w, p, env(k));
      TookStep(t, w, p, env(k)) + Took(t, w1, p1, env, k + 1, n - 1)
  }

  lemma LayerNet(t: Tools, w: World, p: Proc, i: nat, env: Env, x: string)
    requires p.pc == AtLayer(i)
    ensures var w' := StepProc(t, w, p, env).0;
            Grows(w, w') && NetSince(w, w', x) == multiset(TookStep(t, w, p, env))[x]
  {
    hide LayerId, E.StartLeecher, E.Do, Exists, NetSince, Grows;
    var w' := StepProc(t, w, p, env).0;
    if w'.log == w.log {
      SameLog(w, w', x);
    } else {
      var id := LayerId(p.img.layers[i].digest);
      TellGrows(w, E.Leech(id, env.torrent.value), x);
      StartNet(w.engine, id, env.torrent.value, env.seed, x);
    }
  }

  lemma CopiedNet(t: Tools, w: World, p: Proc, i: nat, env: Env, x: string)
    requires p.pc == Copied(i)
    ensures var w' := StepProc(t, w, p, env).0;
            Grows(w, w') && NetSince(w, w', x) == multiset(TookStep(t, w, p, env))[x]
  {
    hide LayerId, E.StartSeed, E.Do, NetSince, Grows, Tell;
    if i >= |p.img.layers| || !env.create {
      NothingSince(w, x);
    } else {
      var id := LayerId(p.img.layers[i].digest);
      var content := if Blob(p.img, id) in w.blobs && env.io then w.blobs[Blob(p.img, id)]
                     else if Blob(p.img, id) in w.blobs && env.read.Some? then env.read.value else [];
      var w1 := Tell(w, E.WriteData(id, content));
      TellGrows(w, E.WriteData(id, content), x);
      OtherNet(w.engine, E.WriteData(id, content), x);
      var w2 := Tell(w1, E.Seed(id, env.seed));
      TellGrows(w1, E.Seed(id, env.seed), x);
      StartNet(w1.engine, id, E.LeechEnv(None, false), env.seed, x);
      GrowsOn(w, w1, w2, x);
    }
  }

  /** What a download does to the engine's holds, step by step, whatever its role and however it fares. */
  lemma {:induction false} DriveNet(t: Tools, w: World, p: Proc, env: nat -> Env, k: nat, n: nat, x: string)
    ensures var w' := Drive(t, w, p, env, k, n).0;
            Grows(w, w') && NetSince(w, w', x) == multiset(Took(t, w, p, env, k, n))[x]
    decreases n
  {
    hide StepProc, TookStep, NetSince, Grows;
    if n == 0 {
      NothingSince(w, x);
    } else {
      var (w1, p1) := StepProc(t, w, p, env(k));
      StepNet(t, w, p, env(k), x);
      DriveNet(t, w1, p1, env, k + 1, n - 1, x);
      GrowsOn(w, w1, Drive(t, w1, p1, env, k + 1, n - 1).0, x);
    }
  }

  lemma StepNet(t: Tools, w: World, p: Proc, env: Env, x: string)
    ensures var w' := StepProc(t, w, p, env).0;
            Grows(w, w') && NetSince(w, w', x) == multiset(TookStep(t, w, p, env))[x]
  {
    hide StepLayer, StepCopied, CreateOciManifest, NetSince, Grows;
    if p.pc.AtLayer? {
      LayerNet(t, w, p, p.pc.i, env, x);
    } else if p.pc.Copied? {
      CopiedNet(t, w, p, p.pc.i, env, x);
    } else {
      SameLog(w, StepProc(t, w, p, env).0, x);
    }
  }

  /** The holds still to be taken by a leecher at `pc`. */
  function ToTake(img: Image, pc: PC, have: set<Path>): seq<string> {
    match pc
    case AtLayer(i) => TakenFrom(img, i, have)
    case Fetched(i) => if i < |img.layers| then TakenFrom(img, i + 1, have + {Blob(img, LayerId(img.layers[i].digest))}) else []
    case _ => []
  }

  predicate ByDigest(img: Image) {
    forall i :: 0 <= i < |img.layers| ==> Paths.IsDigest(img.layers[i].digest)
  }

  lemma StepToTake(t: Tools, w: World, p: Proc, env: Env)
    requires p.role.Leecher? && ByDigest(p.img) && !p.pc.Copied?
    ensures var (w', p') := StepProc(t, w, p, env);
            && p'.img == p.img && p'.role == p.role && !p'.pc.Copied?
            && if p'.pc.Failed? then TookStep(t, w, p, env) == []
               else TookStep(t, w, p, env) + ToTake(p.img, p'.pc, w'.blobs.Keys) == ToTake(p.img, p.pc, w.blobs.Keys)
  {
    hide LayerId, E.StartLeecher, E.Do, Exists, CreateOciManifest, Paths.IsDigest, StepLayer;
    match p.pc {
      case AtLayer(i) => LayerToTake(t, w, p, i, env);
      case Fetched(i) =>
        if i < |p.img.layers| && env.read.Some? && env.io {
          var digest := p.img.layers[i].digest;
          if DigestOf(t.codec, env.read.value) == digest {
            ContentOfDigest(t, digest, env.read.value);
            assert StepProc(t, w, p, env).0.blobs.Keys == w.blobs.Keys + {Blob(p.img, LayerId(digest))};
          }
        }
      case _ =>
    }
  }

  lemma ContentOfDigest(t: Tools, digest: string, content: Content)
    requires DigestOf(t.codec, content) == digest
    ensures t.codec.sha(content) == LayerId(digest)
  {
    assert DigestOf(t.codec, content) == Paths.DigestOfName(t.codec.sha(content));
    Closure.IdOfDigest(t.codec.sha(content));
  }

  lemma LayerToTake(t: Tools, w: World, p: Proc, i: nat, env: Env)
    requires p.role.Leecher? && ByDigest(p.img) && p.pc == AtLayer(i)
    ensures var (w', p') := StepLayer(t, w, p, i, env);
            && p'.img == p.img && p'.role == p.role && !p'.pc.Copied?
            && if p'.pc.Failed? then TookStep(t, w, p, env) == []
               else TookStep(t, w, p, env) + ToTake(p.img, p'.pc, w'.blobs.Keys) == ToTake(p.img, p.pc, w.blobs.Keys)
  {
    hide LayerId, E.StartLeecher, E.Do, Exists, Paths.IsDigest;
    if i < |p.img.layers| && env.stat {
      ExistsOnDigest(w, p.img.repo, p.img.layers[i].digest, env);
    } else if i < |p.img.layers| {
      NoStat(w, p.img.repo, p.img.layers[i].digest, env);
    }
  }

  lemma NoStat(w: World, repo: string, digest: string, env: Env)
    requires !env.stat
    ensures Exists(w, repo, digest, env) == None
  {
  }

  lemma {:induction false} DriveToTake(t: Tools, w: World, p: Proc, env: nat -> Env, k: nat, n: nat)
    requires p.role.Leecher? && ByDigest(p.img) && !p.pc.Copied?
    ensures var (w', p') := Drive(t, w, p, env, k, n);
            && Took(t, w, p, env, k, n) <= ToTake(p.img, p.pc, w.blobs.Keys)
            && (!p'.pc.Failed? ==> Took(t, w, p, env, k, n) + ToTake(p.img, p'.pc, w'.blobs.Keys) == ToTake(p.img, p.pc, w.blobs.Keys))
    decreases n
  {
    hide StepProc, TookStep, ToTake, ByDigest;
    if n > 0 {
      var (w1, p1) := StepProc(t, w, p, env(k));
      StepToTake(t, w, p, env(k));
      if p1.pc.Failed? {
        FailedTakes(t, w1, p1, env, k + 1, n - 1);
      } else {
        DriveToTake(t, w1, p1, env, k + 1, n - 1);
      }
    }
  }

  lemma {:induction false} FailedTakes(t: Tools, w: World, p: Proc, env: nat -> Env, k: nat, n: nat)
    requires p.pc.Failed?
    ensures Took(t, w, p, env, k, n) == [] && Drive(t, w, p, env, k, n) == (w, p)
    decreases n
  {
    if n > 0 {
      assert StepProc(t, w, p, env(k)) == (w, p);
      FailedTakes(t, w, p, env, k + 1, n - 1);
    }
  }

  /**
   However a leecher's download fares and wherever it is cut off, it has taken holds of a prefix of
   the layers that were not stored, each once, and of nothing else; of all of them if it succeeds.
   */
  lemma DownloadTakes(t: Tools, w: World, img: Image, env: nat -> Env, n: nat, id: string)
    requires ByDigest(img)
    ensures var (w', p') := Drive(t, w, Start(img), env, 0, n);
            var took := Took(t, w, Start(img), env, 0, n);
            && Grows(w, w') && NetSince(w, w', id) == multiset(took)[id]
            && took <= TakenFrom(img, 0, w.blobs.Keys)
            && (p'.pc == Done ==> took == TakenFrom(img, 0, w.blobs.Keys))
  {
    hide Took, Drive, TakenFrom, NetSince, Grows;
    DriveNet(t, w, Start(img), env, 0, n, id);
    DriveToTake(t, w, Start(img), env, 0, n);
  }

  /** The first layer from `i` on that is not stored. */
  function FirstMissing(img: Image, i: nat, have: set<Path>): (m: nat)
    ensures m >= i
    decreases |img.layers| - i
  {
    if i >= |img.layers| || Blob(img, LayerId(img.layers[i].digest)) !in have then i else FirstMissing(img, i + 1, have)
  }

  /** The download comes to a layer that is not stored, and the engine starts it. */
  predicate StartsMissing(w: World, img: Image, i: nat, env: nat -> Env, k: nat, n: nat) {
    var m := FirstMissing(img, i, w.blobs.Keys);
    var at := k + m - i;
    && m < |img.layers| && m - i < n && (forall j :: k <= j <= at ==> env(j).stat)
    && env(at).torrent.Some? && E.StartLeecher(w.engine, LayerId(img.layers[m].digest), env(at).torrent.value).1.Nil?
  }

  /** A leecher's step at a layer: it is skipped, or started, or the download fails. */
  lemma LayerOutcome(t: Tools, w: World, img: Image, i: nat, env: Env)
    requires ByDigest(img) && i < |img.layers|
    ensures var (p, id) := (Proc(Leecher, img, AtLayer(i)), LayerId(img.layers[i].digest));
            var (w1, p1) := StepProc(t, w, p, env);
            if env.stat && Blob(img, id) in w.blobs then w1 == w && p1 == p.(pc := AtLayer(i + 1)) && TookStep(t, w, p, env) == []
            else if env.stat && env.torrent.Some? && E.StartLeecher(w.engine, id, env.torrent.value).1.Nil?
            then TookStep(t, w, p, env) == [id]
            else p1.pc.Failed? && TookStep(t, w, p, env) == []
  {
    hide LayerId, E.StartLeecher, E.Do, Exists, Paths.IsDigest;
    if env.stat {
      ExistsOnDigest(w, img.repo, img.layers[i].digest, env);
    } else {
      NoStat(w, img.repo, img.layers[i].digest, env);
    }
  }

  /** A leecher's download takes nothing exactly if it starts no layer that is missing when it begins. */
  lemma {:induction false} TakesNothingIff(t: Tools, w: World, img: Image, i: nat, env: nat -> Env, k: nat, n: nat)
    requires ByDigest(img)
    ensures Took(t, w, Proc(Leecher, img, AtLayer(i)), env, k, n) == [] <==> !StartsMissing(w, img, i, env, k, n)
    decreases n
  {
    hide LayerId, E.StartLeecher, StepProc, TookStep, ByDigest;
    var p := Proc(Leecher, img, AtLayer(i));
    if n > 0 {
      var (w1, p1) := StepProc(t, w, p, env(k));
      if i >= |img.layers| {
        DriveToTake(t, w, p, env, k, n);
      } else {
        LayerOutcome(t, w, img, i, env(k));
        if env(k).stat && Blob(img, LayerId(img.layers[i].digest)) in w.blobs {
          TakesNothingIff(t, w, img, i + 1, env, k + 1, n - 1);
          NextMissing(w, img, i, env, k, n);
        } else if p1.pc.Failed? {
          FailedTakes(t, w1, p1, env, k + 1, n - 1);
        }
      }
    }
  }

  lemma NextMissing(w: World, img: Image, i: nat, env: nat -> Env, k: nat, n: nat)
    requires i < |img.layers| && Blob(img, LayerId(img.layers[i].digest)) in w.blobs && env(k).stat && n > 0
    ensures StartsMissing(w, img, i, env, k, n) <==> StartsMissing(w, img, i + 1, env, k + 1, n - 1)
  {
    hide LayerId, E.StartLeecher;
    var m := FirstMissing(img, i, w.blobs.Keys);
    assert FirstMissing(img, i + 1, w.blobs.Keys) == m;
  }

  datatype StopError = NoLayers(why: LayersError) | StopFailed(cause: E.Error) | BadLayerDigest

  /** One round of the loop of StopDownload; a failed delete is only logged. */
  function StopLayer(w: World, id: string, clean: bool, env: string -> E.DeleteEnv): (World, Outcome<E.Error>) {
    var err := E.StopTorrent(w.engine, id).1;
    var w1 := Tell(w, E.Stop(id));
    (if err.Nil? && clean then Tell(w1, E.Delete(id, env(id))) else w1, err)
  }

  /** The loop; a digest without a colon panics there, which ends the call. */
  function StopLayers(w: World, infos: seq<BlobInfo>, clean: bool, env: string -> E.DeleteEnv): (World, Outcome<StopError>)
    decreases |infos|
  {
    if infos == [] then (w, Nil)
    else if Strings.Cut(infos[0].digest, ':').None? then (w, Err(BadLayerDigest))
    else
      var (w1, err) := StopLayer(w, LayerId(infos[0].digest), clean, env);
      if err.Err? then (w1, Err(StopFailed(err.error))) else StopLayers(w1, infos[1..], clean, env)
  }

  function IdsOf(infos: seq<BlobInfo>): seq<string> {
    seq(|infos|, i requires 0 <= i < |infos| => LayerId(infos[i].digest))
  }

  function StopDownload(t: Tools, w: World, repo: string, tag: string, clean: bool, env: string -> E.DeleteEnv)
    : (World, Result<seq<string>, StopError>)
  {
    match GetImageLayers(t, w, repo, tag)
    case Fail(e) => (w, Fail(NoLayers(e)))
    case Ok(infos) =>
      var (w', err) := StopLayers(w, infos, clean, env);
      (w', if err.Err? then Fail(err.error) else Ok(IdsOf(infos)))
  }

  /** The ids of which the loop gives back a hold: those that the engine has started when their turn comes. */
  function Found(w: World, infos: seq<BlobInfo>, clean: bool, env: string -> E.DeleteEnv): seq<string>
    decreases |infos|
  {
    if infos == [] || Strings.Cut(infos[0].digest, ':').None? then []
    else
      var id := LayerId(infos[0].digest);
      var (w1, err) := StopLayer(w, id, clean, env);
      (if w.engine.running && E.IsStarted(w.engine, id) then [id] else [])
      + (if err.Err? then [] else Found(w1, infos[1..], clean, env))
  }

  lemma StopLayerGives(w: World, id: string, clean: bool, env: string -> E.DeleteEnv, x: string)
    ensures var w1 := StopLayer(w, id, clean, env).0;
            && Grows(w, w1) && w1.blobs == w.blobs && w1.refs == w.refs
            && NetSince(w, w1, x) == if w.engine.running && E.IsStarted(w.engine, id) && x == id then -1 else 0
  {
    hide E.StopTorrent, E.Do, NetSince, Grows, Tell;
    var w1 := Tell(w, E.Stop(id));
    TellGrows(w, E.Stop(id), x);
    OtherNet(w.engine, E.Stop(id), x);
    var w2 := Tell(w1, E.Delete(id, env(id)));
    TellGrows(w1, E.Delete(id, env(id)), x);
    OtherNet(w1.engine, E.Delete(id, env(id)), x);
    GrowsOn(w, w1, w2, x);
    TellKeepsStore(w, E.Stop(id));
    TellKeepsStore(w1, E.Delete(id, env(id)));
  }

  /** A stop gives back one hold for each id that it finds started, and touches nothing that is stored. */
  lemma {:induction false} StopLayersGive(w: World, infos: seq<BlobInfo>, clean: bool, env: string -> E.DeleteEnv, x: string)
    ensures var w' := StopLayers(w, infos, clean, env).0;
            && Grows(w, w') && w'.blobs == w.blobs && w'.refs == w.refs
            && NetSince(w, w', x) == -(multiset(Found(w, infos, clean, env))[x] as int)
    decreases |infos|
  {
    hide LayerId, StopLayer, NetSince, Grows;
    if infos == [] || Strings.Cut(infos[0].digest, ':').None? {
      NothingSince(w, x);
    } else {
      var (w1, err) := StopLayer(w, LayerId(infos[0].digest), clean, env);
      StopLayerGives(w, LayerId(infos[0].digest), clean, env, x);
      if err.Nil? {
        StopLayersGive(w1, infos[1..], clean, env, x);
        GrowsOn(w, w1, StopLayers(w1, infos[1..], clean, env).0, x);
      }
    }
  }

  lemma {:induction false} FoundAll(w: World, infos: seq<BlobInfo>, clean: bool, env: string -> E.DeleteEnv)
    ensures |Found(w, infos, clean, env)| <= |infos|
    ensures |Found(w, infos, clean, env)| == |infos| ==> Found(w, infos, clean, env) == IdsOf(infos)
    decreases |infos|
  {
    hide LayerId, StopLayer;
    if infos == [] || Strings.Cut(infos[0].digest, ':').None? {
    } else {
      var id := LayerId(infos[0].digest);
      var (w1, err) := StopLayer(w, id, clean, env);
      FoundAll(w1, infos[1..], clean, env);
      assert IdsOf(infos) == [id] + IdsOf(infos[1..]);
    }
  }

  lemma StopOther(s: E.Engine, id: string, other: string)
    ensures var s' := E.Do(s, E.Stop(id));
            s'.running == s.running && (id != other ==> (E.IsStarted(s', other) <==> E.IsStarted(s, other)))
  {
    hide E.GetTorrent;
  }

  lemma DeleteOther(s: E.Engine, id: string, env: E.DeleteEnv, other: string)
    ensures var s' := E.Do(s, E.Delete(id, env));
            s'.running == s.running && (id != other ==> (E.IsStarted(s', other) <==> E.IsStarted(s, other)))
  {
    hide E.ForgetTorrent, E.RemoveFiles;
    if id in s.idInfos {
      var s1 := E.ForgetTorrent(s, s.idInfos[id].infoHash).0;
      ForgetKeepsInfos(s, s.idInfos[id].infoHash);
      RemoveKeepsInfos(s1.(idInfos := s1.idInfos - {id}), id, env);
    }
  }

  lemma ForgetKeepsInfos(s: E.Engine, k: string)
    ensures var s' := E.ForgetTorrent(s, k).0; s'.running == s.running && s'.idInfos == s.idInfos
  {
    hide E.GetTorrent, Str2ih;
  }

  lemma RemoveKeepsInfos(s: E.Engine, id: string, env: E.DeleteEnv)
    ensures var s' := E.RemoveFiles(s, id, env).0; s'.running == s.running && s'.idInfos == s.idInfos
  {
    hide E.GetFilePath, E.GetTorrentFilePath;
  }

  lemma OthersStay(w: World, id: string, clean: bool, env: string -> E.DeleteEnv, other: string)
    ensures var w1 := StopLayer(w, id, clean, env).0;
            && w1.engine.running == w.engine.running
            && (id != other ==> (E.IsStarted(w1.engine, other) <==> E.IsStarted(w.engine, other)))
  {
    hide E.Do, E.StopTorrent, E.IsStarted;
    StopOther(w.engine, id, other);
    DeleteOther(E.Do(w.engine, E.Stop(id)), id, env(id), other);
  }

  /** A stop over pairwise distinct ids that goes through finds all of them exactly if all are started before it. */
  lemma {:induction false} FoundAllIff(w: World, infos: seq<BlobInfo>, clean: bool, env: string -> E.DeleteEnv)
    requires StopLayers(w, infos, clean, env).1.Nil? && w.engine.running
    requires forall i, j :: 0 <= i < j < |infos| ==> LayerId(infos[i].digest) != LayerId(infos[j].digest)
    ensures Found(w, infos, clean, env) == IdsOf(infos) <==>
              forall i :: 0 <= i < |infos| ==> E.IsStarted(w.engine, LayerId(infos[i].digest))
    decreases |infos|
  {
    hide LayerId, StopLayer, E.IsStarted;
    if infos == [] {
    } else {
      var id := LayerId(infos[0].digest);
      var (w1, err) := StopLayer(w, id, clean, env);
      var rest := infos[1..];
      FoundAll(w1, rest, clean, env);
      assert |IdsOf(infos)| == |infos| && IdsOf(infos)[1..] == IdsOf(rest) && IdsOf(infos)[0] == id;
      forall i | 0 <= i < |rest|
        ensures rest[i] == infos[i + 1] && (E.IsStarted(w1.engine, LayerId(rest[i].digest)) <==> E.IsStarted(w.engine, LayerId(rest[i].digest)))
      {
        OthersStay(w, id, clean, env, LayerId(rest[i].digest));
      }
      OthersStay(w, id, clean, env, id);
      FoundAllIff(w1, rest, clean, env);
      FoundStep(w, infos, clean, env);
    }
  }

  lemma FoundStep(w: World, infos: seq<BlobInfo>, clean: bool, env: string -> E.DeleteEnv)
    requires infos != [] && StopLayers(w, infos, clean, env).1.Nil? && w.engine.running
    ensures var id := LayerId(infos[0].digest);
            var w1 := StopLayer(w, id, clean, env).0;
            && StopLayers(w1, infos[1..], clean, env).1.Nil?
            && Found(w, infos, clean, env) == (if E.IsStarted(w.engine, id) then [id] else []) + Found(w1, infos[1..], clean, env)
            && (forall i :: 0 <= i < |infos[1..]| ==> infos[1..][i] == infos[i + 1])
  {
    hide LayerId, StopLayer;
  }

  /** A stop of the id will find it started and will not fail. */
  predicate Releasable(s: E.Engine, id: string) {
    E.IsStarted(s, id) && (s.idInfos[id].count > 1 || Links.Stoppable(s, id))
  }

  lemma StopNilIff(s: E.Engine, id: string)
    requires E.WellFormed(s) && s.running
    ensures E.StopTorrent(s, id).1.Nil? <==> !E.IsStarted(s, id) || Releasable(s, id)
  {
    hide E.Canonical, HexString, Str2ih, E.GetTorrent;
    if E.IsStarted(s, id) {
      var info := s.idInfos[id].(count := s.idInfos[id].count - 1);
      E.GetTorrentFinds(s.(idInfos := s.idInfos[id := info]), s.idInfos[id].infoHash);
    }
  }

  /** With a hash of its own, an id is not touched by what happens to another. */
  lemma StopKeepsReleasable(s: E.Engine, id: string, other: string)
    requires E.WellFormed(s) && Links.Linked(s) && id != other
    ensures Releasable(E.Do(s, E.Stop(id)), other) <==> Releasable(s, other)
  {
    hide E.WellFormed, E.Do;
    Links.StopEffect(s, id);
  }

  lemma DeleteKeepsReleasable(s: E.Engine, id: string, env: E.DeleteEnv, other: string)
    requires E.WellFormed(s) && Links.Linked(s) && id != other
    ensures Releasable(E.Do(s, E.Delete(id, env)), other) <==> Releasable(s, other)
  {
    hide E.WellFormed, E.Do;
    Links.DeleteEffect(s, id, env);
  }

  /** A stop goes over all its layers only if every digest has a colon. */
  lemma {:induction false} NoColonFails(w: World, infos: seq<BlobInfo>, clean: bool, env: string -> E.DeleteEnv)
    requires StopLayers(w, infos, clean, env).1.Nil?
    ensures HaveColons(infos)
    decreases |infos|
  {
    hide LayerId, StopLayer;
    if infos != [] {
      NoColonFails(StopLayer(w, LayerId(infos[0].digest), clean, env).0, infos[1..], clean, env);
      assert forall i :: 0 < i < |infos| ==> infos[i] == infos[1..][i - 1];
    }
  }

  lemma OtherReleasable(w: World, id: string, clean: bool, env: string -> E.DeleteEnv, other: string)
    requires E.WellFormed(w.engine) && Links.Linked(w.engine)
    ensures var w1 := StopLayer(w, id, clean, env).0;
            && E.WellFormed(w1.engine) && Links.Linked(w1.engine) && w1.engine.running == w.engine.running
            && (id != other ==> (Releasable(w1.engine, other) <==> Releasable(w.engine, other)))
  {
    hide E.WellFormed, E.Do, Links.Linked, Releasable, E.StopTorrent;
    var s1 := E.Do(w.engine, E.Stop(id));
    E.StepWellFormed(w.engine, E.Stop(id));
    Links.StopLinked(w.engine, id);
    E.StepWellFormed(s1, E.Delete(id, env(id)));
    Links.DeleteLinked(s1, id, env(id));
    OthersStay(w, id, clean, env, other);
    if id != other {
      StopKeepsReleasable(w.engine, id, other);
      DeleteKeepsReleasable(s1, id, env(id), other);
    }
  }

  predicate HaveColons(infos: seq<BlobInfo>) {
    forall i :: 0 <= i < |infos| ==> Strings.Cut(infos[i].digest, ':').Some?
  }

  predicate DistinctIds(infos: seq<BlobInfo>) {
    forall i, j :: 0 <= i < j < |infos| ==> LayerId(infos[i].digest) != LayerId(infos[j].digest)
  }

  predicate AllReleasable(s: E.Engine, infos: seq<BlobInfo>) {
    forall i :: 0 <= i < |infos| ==> Releasable(s, LayerId(infos[i].digest))
  }

  /**
   From the state before the call: over linked maps and pairwise distinct layers, a stop succeeds
   and gives back a hold of every layer exactly if each layer is started, and either has holds to
   spare or a torrent that can be stopped; whether it deletes along the way does not matter.
   */
  lemma {:induction false} StopsAllIff(w: World, infos: seq<BlobInfo>, clean: bool, env: string -> E.DeleteEnv)
    requires w.engine.running && E.WellFormed(w.engine) && Links.Linked(w.engine)
    requires HaveColons(infos) && DistinctIds(infos)
    ensures StopLayers(w, infos, clean, env).1.Nil? && Found(w, infos, clean, env) == IdsOf(infos) <==>
              AllReleasable(w.engine, infos)
    decreases |infos|
  {
    hide LayerId, StopLayer, E.IsStarted, Releasable, E.WellFormed, Links.Linked;
    if infos == [] {
    } else {
      var (id, rest) := (LayerId(infos[0].digest), infos[1..]);
      var w1 := StopLayer(w, id, clean, env).0;
      OtherReleasable(w, id, clean, env, id);
      forall i | 0 <= i < |rest|
        ensures rest[i] == infos[i + 1]
        ensures Releasable(w1.engine, LayerId(rest[i].digest)) <==> Releasable(w.engine, LayerId(rest[i].digest))
      {
        OtherReleasable(w, id, clean, env, LayerId(rest[i].digest));
      }
      RestReleasable(w, w1, infos);
      StopsAllIff(w1, rest, clean, env);
      StopsFirst(w, infos, clean, env);
    }
  }

  lemma RestReleasable(w: World, w1: World, infos: seq<BlobInfo>)
    requires infos != []
    requires forall i :: 0 <= i < |infos[1..]| ==>
               (Releasable(w1.engine, LayerId(infos[1..][i].digest)) <==> Releasable(w.engine, LayerId(infos[1..][i].digest)))
    ensures AllReleasable(w.engine, infos) <==>
              Releasable(w.engine, LayerId(infos[0].digest)) && AllReleasable(w1.engine, infos[1..])
  {
    hide LayerId, Releasable;
    assert forall i :: 0 < i < |infos| ==> infos[i] == infos[1..][i - 1];
  }

  /** The first layer, and then the others. */
  lemma StopsFirst(w: World, infos: seq<BlobInfo>, clean: bool, env: string -> E.DeleteEnv)
    requires infos != [] && HaveColons(infos) && w.engine.running && E.WellFormed(w.engine)
    ensures var (w1, rest) := (StopLayer(w, LayerId(infos[0].digest), clean, env).0, infos[1..]);
            StopLayers(w, infos, clean, env).1.Nil? && Found(w, infos, clean, env) == IdsOf(infos) <==>
              && Releasable(w.engine, LayerId(infos[0].digest))
              && StopLayers(w1, rest, clean, env).1.Nil? && Found(w1, rest, clean, env) == IdsOf(rest)
  {
    hide LayerId, E.WellFormed, E.Do, E.StopTorrent, Links.Stoppable;
    var (id, rest) := (LayerId(infos[0].digest), infos[1..]);
    var w1 := StopLayer(w, id, clean, env).0;
    StopNilIff(w.engine, id);
    FoundAll(w1, rest, clean, env);
    assert IdsOf(infos) == [id] + IdsOf(rest);
    assert |IdsOf(rest)| == |rest|;
  }

  /** On a running engine a stop fails only at a layer that it finds started. */
  lemma {:induction false} FailedStopFinds(w: World, infos: seq<BlobInfo>, clean: bool, env: string -> E.DeleteEnv)
    requires HaveColons(infos) && w.engine.running && StopLayers(w, infos, clean, env).1.Err?
    ensures Found(w, infos, clean, env) != []
    decreases |infos|
  {
    hide LayerId, StopLayer, E.IsStarted;
    var id := LayerId(infos[0].digest);
    var (w1, err) := StopLayer(w, id, clean, env);
    OthersStay(w, id, clean, env, id);
    if err.Err? {
      UnknownStops(w, id, clean, env);
    } else {
      FailedStopFinds(w1, infos[1..], clean, env);
    }
  }

  lemma UnknownStops(w: World, id: string, clean: bool, env: string -> E.DeleteEnv)
    ensures w.engine.running && !E.IsStarted(w.engine, id) ==> StopLayer(w, id, clean, env).1.Nil?
    ensures !w.engine.running ==> StopLayer(w, id, clean, env).1.Err?
  {
    hide E.Do, E.DropTorrent;
  }

  /** What a stop that succeeds leaves of the holds: a layer at two or fewer is let go altogether. */
  function HeldAfter(held: int): int {
    if held >= 3 then held - 1 else 0
  }

  lemma StopHeld(s: E.Engine, id: string, x: string)
    requires s.running && E.StopTorrent(s, id).1.Nil?
    ensures Counts.Held(E.Do(s, E.Stop(id)), x) ==
              if x == id && E.IsStarted(s, id) then HeldAfter(Counts.Held(s, id)) else Counts.Held(s, x)
  {
    hide E.GetTorrent;
  }

  lemma DeleteHeld(s: E.Engine, id: string, env: E.DeleteEnv, x: string)
    ensures Counts.Held(E.Do(s, E.Delete(id, env)), x) == Counts.Held(s, x)
  {
    hide E.ForgetTorrent, E.RemoveFiles;
    if id in s.idInfos {
      var s1 := E.ForgetTorrent(s, s.idInfos[id].infoHash).0;
      ForgetKeepsInfos(s, s.idInfos[id].infoHash);
      RemoveKeepsInfos(s1.(idInfos := s1.idInfos - {id}), id, env);
    }
  }

  lemma StopLayerHeld(w: World, id: string, clean: bool, env: string -> E.DeleteEnv, x: string)
    requires w.engine.running && StopLayer(w, id, clean, env).1.Nil?
    ensures Counts.Held(StopLayer(w, id, clean, env).0.engine, x) ==
              if x == id && E.IsStarted(w.engine, id) then HeldAfter(Counts.Held(w.engine, id)) else Counts.Held(w.engine, x)
  {
    hide E.Do, E.StopTorrent, Counts.Held, E.IsStarted;
    StopHeld(w.engine, id, x);
    DeleteHeld(E.Do(w.engine, E.Stop(id)), id, env(id), x);
  }

  /** The engine's holds after a stop over distinct layers that succeeds. */
  lemma {:induction false} StopLayersHeld(w: World, infos: seq<BlobInfo>, clean: bool, env: string -> E.DeleteEnv, x: string)
    requires w.engine.running && StopLayers(w, infos, clean, env).1.Nil? && DistinctIds(infos)
    ensures Counts.Held(StopLayers(w, infos, clean, env).0.engine, x) ==
              if x in IdsOf(infos) && E.IsStarted(w.engine, x) then HeldAfter(Counts.Held(w.engine, x)) else Counts.Held(w.engine, x)
    decreases |infos|
  {
    hide LayerId, StopLayer, E.IsStarted, Counts.Held, HeldAfter;
    if infos == [] {
    } else {
      var (id, rest) := (LayerId(infos[0].digest), infos[1..]);
      var w1 := StopLayer(w, id, clean, env).0;
      StopLayerHeld(w, id, clean, env, x);
      OthersStay(w, id, clean, env, x);
      assert forall i :: 0 <= i < |rest| ==> rest[i] == infos[i + 1];
      assert IdsOf(infos) == [id] + IdsOf(rest);
      StopLayersHeld(w1, rest, clean, env, x);
      if x == id {
        assert forall i :: 0 <= i < |rest| ==> IdsOf(rest)[i] == LayerId(infos[i + 1].digest);
      }
    }
  }

  /** The manifest that is stored for the image decodes, and names the image's layers by digests. */
  ghost predicate Listed(t: Tools, img: Image) {
    && img.manifest.Some? && t.json.decode(img.manifest.value).Some?
    && IdsOf(InfosOf(t, img)) == Ids(img)
    && forall i :: 0 <= i < |img.layers| ==> Paths.IsDigest(img.layers[i].digest)
  }

  /** The layers that the image's manifest names. */
  function InfosOf(t: Tools, img: Image): seq<BlobInfo> {
    if img.manifest.Some? && t.json.decode(img.manifest.value).Some?
    then Infos(t.json.decode(img.manifest.value).value.layers) else []
  }

  /** A stop of a stored image goes over its layers: it returns their ids, in order, if no stop fails. */
  lemma StopReleases(t: Tools, w: World, img: Image, clean: bool, env: string -> E.DeleteEnv, x: string)
    requires Proper(t) && HasImage(t, img, w) && Listed(t, img)
    ensures var (w', r) := StopDownload(t, w, img.repo, img.tag, clean, env);
            && (r.Ok? ==> r.value == Ids(img))
            && Grows(w, w') && w'.blobs == w.blobs && w'.refs == w.refs
            && NetSince(w, w', x) == -(multiset(Found(w, InfosOf(t, img), clean, env))[x] as int)
  {
    hide LayerId, StopLayers, HasImage, Proper, GetImageLayers, Ids, IdsOf, Found, NetSince, Grows, Infos;
    LayersReadBack(t, img, w);
    StopLayersGive(w, InfosOf(t, img), clean, env, x);
  }

  /** No layer of the image comes twice, and none is stored already. */
  ghost predicate FirstAndDistinct(img: Image, have: set<Path>) {
    && (forall i, j :: 0 <= i < j < |Ids(img)| ==> Ids(img)[i] != Ids(img)[j])
    && (forall i :: 0 <= i < |Ids(img)| ==> Blob(img, Ids(img)[i]) !in have)
  }

  lemma {:induction false} TakenOnce(img: Image, i: nat, have: set<Path>, id: string)
    ensures multiset(TakenFrom(img, i, have))[id] <= 1
    ensures id in TakenFrom(img, i, have) ==> Blob(img, id) !in have
    decreases |img.layers| - i
  {
    hide LayerId;
    if i < |img.layers| {
      var x := LayerId(img.layers[i].digest);
      if Blob(img, x) in have {
        TakenOnce(img, i + 1, have, id);
      } else {
        TakenOnce(img, i + 1, have + {Blob(img, x)}, id);
      }
    }
  }

  lemma {:induction false} TakesAll(img: Image, i: nat, have: set<Path>)
    requires i <= |img.layers|
    requires forall j, k :: i <= j < k < |img.layers| ==> Ids(img)[j] != Ids(img)[k]
    requires forall j :: i <= j < |img.layers| ==> Blob(img, Ids(img)[j]) !in have
    ensures TakenFrom(img, i, have) == Ids(img)[i..]
    decreases |img.layers| - i
  {
    hide LayerId;
    if i < |img.layers| {
      assert Ids(img)[i..] == [Ids(img)[i]] + Ids(img)[i + 1..];
      TakesAll(img, i + 1, have + {Blob(img, Ids(img)[i])});
    }
  }

  /** What a download takes is what its stop gives back exactly if no layer repeats and none was stored. */
  lemma TakenIsAllIff(img: Image, have: set<Path>)
    ensures (forall id :: multiset(TakenFrom(img, 0, have))[id] == multiset(Ids(img))[id]) <==> FirstAndDistinct(img, have)
  {
    hide LayerId;
    var taken, ids := TakenFrom(img, 0, have), Ids(img);
    if FirstAndDistinct(img, have) {
      TakesAll(img, 0, have);
      assert ids[0..] == ids;
    }
    if forall id :: multiset(taken)[id] == multiset(ids)[id] {
      forall i | 0 <= i < |ids|
        ensures Blob(img, ids[i]) !in have
      {
        TakenOnce(img, 0, have, ids[i]);
        assert multiset(ids)[ids[i]] > 0;
        assert ids[i] in multiset(taken);
      }
      forall i, j | 0 <= i < j < |ids|
        ensures ids[i] != ids[j]
      {
        TakenOnce(img, 0, have, ids[i]);
        RepeatedTwice(ids, i, j);
      }
    }
  }

  lemma RepeatedTwice(ids: seq<string>, i: nat, j: nat)
    requires i < j < |ids|
    ensures ids[i] == ids[j] ==> multiset(ids)[ids[i]] >= 2
  {
    assert ids == ids[..i] + [ids[i]] + ids[i + 1..j] + [ids[j]] + ids[j + 1..];
  }

  /**
   One start and one stop: a successful start in `w`, anything that leaves the image stored, and a
   stop in `w2` leave the engine's holds as they were exactly if the stop finds what the start took.
   If it finds every layer started, that is exactly if no layer repeats and none was stored.
   */
  lemma StartStopConservesIff(t: Tools, w: World, img: Image, env: nat -> Env, n: nat,
                              w2: World, clean: bool, stopEnv: string -> E.DeleteEnv)
    requires Proper(t) && Listed(t, img) && HasImage(t, img, w2)
    requires Drive(t, w, Start(img), env, 0, n).1.pc == Done
    ensures var w1 := Drive(t, w, Start(img), env, 0, n).0;
            var w3 := StopDownload(t, w2, img.repo, img.tag, clean, stopEnv).0;
            var (taken, found) := (TakenFrom(img, 0, w.blobs.Keys), Found(w2, InfosOf(t, img), clean, stopEnv));
            var conserved := forall id :: NetSince(w, w1, id) + NetSince(w2, w3, id) == 0;
            && (conserved <==> multiset(taken) == multiset(found))
            && (found == Ids(img) ==> (conserved <==> FirstAndDistinct(img, w.blobs.Keys)))
  {
    hide Drive, HasImage, Proper, StopDownload, FirstAndDistinct, Ids, TakenFrom, Found, NetSince, Grows, IdsOf, Infos;
    var w1 := Drive(t, w, Start(img), env, 0, n).0;
    var w3 := StopDownload(t, w2, img.repo, img.tag, clean, stopEnv).0;
    var (taken, found) := (TakenFrom(img, 0, w.blobs.Keys), Found(w2, InfosOf(t, img), clean, stopEnv));
    forall id
      ensures NetSince(w, w1, id) == multiset(taken)[id] && NetSince(w2, w3, id) == -(multiset(found)[id] as int)
    {
      DownloadTakes(t, w, img, env, n, id);
      StopReleases(t, w2, img, clean, stopEnv, id);
    }
    TakenIsAllIff(img, w.blobs.Keys);
    assert (forall id :: multiset(taken)[id] == multiset(found)[id]) ==> multiset(taken) == multiset(found);
  }

  /** References are written by the last step of a leecher, and by nothing else. */
  lemma StepRefs(t: Tools, w: World, p: Proc, env: Env)
    ensures var (w', p') := StepProc(t, w, p, env);
            && p'.role == p.role && p'.img == p.img
            && (w'.refs == w.refs || p.pc.WriteRef?)
            && (p'.pc != Done ==> w'.refs == w.refs)
            && (p.role.Seeder? && SeederStage(p.pc) ==> SeederStage(p'.pc) && w'.refs == w.refs)
  {
    hide LayerId, E.StartLeecher, E.Do, Exists, CreateOciManifest;
  }

  predicate SeederStage(pc: PC) {
    pc.AtLayer? || pc.Copied? || pc.Done? || pc.Failed?
  }

  lemma {:induction false} DriveRefs(t: Tools, w: World, p: Proc, env: nat -> Env, k: nat, n: nat)
    ensures var (w', p') := Drive(t, w, p, env, k, n);
            && (p'.pc != Done ==> w'.refs == w.refs)
            && (p.role.Seeder? && SeederStage(p.pc) ==> w'.refs == w.refs)
    decreases n
  {
    hide StepProc, SeederStage;
    if n > 0 {
      var (w1, p1) := StepProc(t, w, p, env(k));
      StepRefs(t, w, p, env(k));
      DriveRefs(t, w1, p1, env, k + 1, n - 1);
      if p1.pc == Done {
        DriveDone(t, w1, p1, env, k + 1, n - 1);
      }
    }
  }

  lemma {:induction false} DriveDone(t: Tools, w: World, p: Proc, env: nat -> Env, k: nat, n: nat)
    requires p.pc == Done
    ensures Drive(t, w, p, env, k, n) == (w, p)
    decreases n
  {
    if n > 0 {
      assert StepProc(t, w, p, env(k)) == (w, p);
      DriveDone(t, w, p, env, k + 1, n - 1);
    }
  }

  /**
   A download that has not succeeded, and any download of a seeder, leaves no reference of a tag
   that had none: StopDownload then finds no layers and gives back none of the holds taken.
   */
  lemma UnfinishedCannotBeStopped(t: Tools, w: World, role: Role, img: Image, env: nat -> Env, n: nat,
                                  clean: bool, stopEnv: string -> E.DeleteEnv)
    requires Ref(img) !in w.refs
    ensures var (w', p') := Drive(t, w, Proc(role, img, AtLayer(0)), env, 0, n);
            p'.pc != Done || role.Seeder? ==>
              StopDownload(t, w', img.repo, img.tag, clean, stopEnv) == (w', Fail(NoLayers(NoReference)))
  {
    hide Drive, StopLayers;
    DriveRefs(t, w, Proc(role, img, AtLayer(0)), env, 0, n);
  }

  /** All layers of the image are stored. */
  predicate AllStored(img: Image, w: World) {
    forall i :: 0 <= i < |img.layers| ==> Paths.IsDigest(img.layers[i].digest) && Blob(img, LayerId(img.layers[i].digest)) in w.blobs
  }

  lemma {:induction false} LayersSkipped(t: Tools, w: World, role: Role, img: Image, i: nat, env: nat -> Env, k: nat)
    requires AllStored(img, w) && i <= |img.layers| && forall j :: env(j).stat
    ensures Drive(t, w, Proc(role, img, AtLayer(i)), env, k, |img.layers| - i) == (w, Proc(role, img, AtLayer(|img.layers|)))
    decreases |img.layers| - i
  {
    hide LayerId, Paths.IsDigest, Exists;
    if i < |img.layers| {
      ExistsOnDigest(w, img.repo, img.layers[i].digest, env(k));
      LayersSkipped(t, w, role, img, i + 1, env, k + 1);
    }
  }

  /**
   A download of either role over layers that are all stored starts nothing: no hold is taken, and
   a seeder that died after storing a layer and before seeding it never seeds it by running again.
   */
  lemma StoredLayersStartNothing(t: Tools, w: World, role: Role, img: Image, env: nat -> Env)
    requires AllStored(img, w) && forall j :: env(j).stat
    ensures Drive(t, w, Proc(role, img, AtLayer(0)), env, 0, |img.layers| + 1) ==
              (w, Proc(role, img, if role.Seeder? then Done else AtConfig))
  {
    hide LayerId, Paths.IsDigest, Exists;
    LayersSkipped(t, w, role, img, 0, env, 0);
    DriveAppend(t, w, Proc(role, img, AtLayer(0)), env, 0, |img.layers|, 1);
  }

  lemma {:induction false} DriveAppend(t: Tools, w: World, p: Proc, env: nat -> Env, k: nat, n: nat, m: nat)
    ensures Drive(t, w, p, env, k, n + m) ==
              var (w1, p1) := Drive(t, w, p, env, k, n); Drive(t, w1, p1, env, k + n, m)
    decreases n
  {
    hide StepProc;
    if n > 0 {
      var (w1, p1) := StepProc(t, w, p, env(k));
      DriveAppend(t, w1, p1, env, k + 1, n - 1, m);
    }
  }

  /** What a seeder serves under a layer's id is the stored blob, of that very digest. */
  lemma SeederServesTheBlob(t: Tools, w: World, p: Proc, i: nat, env: Env)
    requires Closure.Addressed(t, w) && p.pc == Copied(i) && StepProc(t, w, p, env).1.pc == AtLayer(i + 1)
    ensures var w', id := StepProc(t, w, p, env).0, LayerId(p.img.layers[i].digest);
            && E.GetFilePath(id) in w'.engine.dataDir
            && t.codec.sha(w'.engine.dataDir[E.GetFilePath(id)]) == id
            && w'.engine.dataDir[E.GetFilePath(id)] == w.blobs[Blob(p.img, id)]
  {
    hide LayerId, E.StartSeed, E.GetFilePath;
    var id := LayerId(p.img.layers[i].digest);
    SeedKeepsData(Tell(w, E.WriteData(id, w.blobs[Blob(p.img, id)])).engine, id, env.seed);
  }

  lemma SeedKeepsData(s: E.Engine, id: string, env: E.SeedEnv)
    ensures E.StartSeed(s, id, env).0.dataDir == s.dataDir
  {
    hide HexString;
  }
}
