/**
 Two images of different repositories that share a layer: a history that keeps the daemon's books
 balanced, and in which the engine drops the layer's torrent while an image still asks for it.
 */
module SharedLayers {
  import opened Wrappers
  import opened Hex
  import opened Layouts
  import opened Manifests
  import opened Downloads
  import opened Resuming
  import opened Attempts
  import opened Holds
  import opened Ledger
  import Paths
  import Closure
  import E = EngineModel
  import Links = EngineLinks
  import Restarts = EngineRestarts
  import Counts = EngineCounts

  /** An image of one layer, of content `x`, and no config. */
  ghost predicate OneLayer(t: Tools, img: Image, x: Content) {
    && |img.layers| == 1 && img.layers[0].digest == DigestOf(t.codec, x) && img.config.digest == ""
    && Converts(t, img) && Listed(t, img)
  }

  /** Nothing goes wrong, and the layer's data is complete when it is read. */
  function Answers(x: Content, h: Hash): Env {
    Env(true, false, Some(E.LeechEnv(Some(h), true)), true, Some(x), true, E.SeedEnv(None, false, false, false, false))
  }

  function Leeching(t: Tools, x: Content, h: Hash): E.Event {
    E.Leech(t.codec.sha(x), E.LeechEnv(Some(h), true))
  }

  lemma LayerOf(t: Tools, img: Image, x: Content)
    requires OneLayer(t, img, x)
    ensures LayerId(img.layers[0].digest) == t.codec.sha(x) && Ids(img) == [t.codec.sha(x)]
    ensures Paths.IsDigest(img.layers[0].digest)
  {
    hide Paths.IsDigest, LayerId;
    ContentOfDigest(t, img.layers[0].digest, x);
  }

  /** The layer is started, copied, and that is all there is of layers. */
  lemma LayerTransferred(t: Tools, w: World, img: Image, x: Content, h: Hash)
    requires OneLayer(t, img, x) && w.engine.running && Blob(img, t.codec.sha(x)) !in w.blobs
    ensures var w2 := Publish(t, Tell(w, Leeching(t, x, h)), img.repo, x);
            && StepProc(t, w, Start(img), Answers(x, h)) == (Tell(w, Leeching(t, x, h)), Start(img).(pc := Fetched(0)))
            && StepProc(t, Tell(w, Leeching(t, x, h)), Start(img).(pc := Fetched(0)), Answers(x, h)) == (w2, Start(img).(pc := AtLayer(1)))
  {
    hide E.StartLeecher, E.Do, Exists, LayerId, Paths.IsDigest, Listed, CreateOciManifest;
    LayerOf(t, img, x);
    ExistsOnDigest(w, img.repo, img.layers[0].digest, Answers(x, h));
    LeecherStarts(w.engine, t.codec.sha(x), E.LeechEnv(Some(h), true));
  }

  function AfterDownload(t: Tools, w: World, img: Image, x: Content, h: Hash): World
    requires Converts(t, img)
  {
    var w2 := Publish(t, Publish(t, Tell(w, Leeching(t, x, h)), img.repo, x), img.repo, OciOf(t, img));
    w2.(refs := w2.refs[Ref(img) := Some(DescriptorOf(t, img))])
  }

  /** The rest of it: no config, the manifest, the reference. */
  lemma Published(t: Tools, w: World, img: Image, x: Content, h: Hash)
    requires OneLayer(t, img, x) && Ref(img) !in w.refs
    ensures var w' := Publish(t, w, img.repo, OciOf(t, img));
            && Drive(t, w, Start(img).(pc := AtLayer(1)), _ => Answers(x, h), 2, 5) ==
                 (w'.(refs := w.refs[Ref(img) := Some(DescriptorOf(t, img))]), Start(img).(pc := Done))
            && DriveContents(t, w, Start(img).(pc := AtLayer(1)), _ => Answers(x, h), 2, 5) <= {OciOf(t, img)}
  {
    hide Listed, CreateOciManifest, LayerId;
    var env := _ => Answers(x, h);
    var p := Start(img);
    var w' := Publish(t, w, img.repo, OciOf(t, img));
    var desc := DescriptorOf(t, img);
    var w'' := w'.(refs := w.refs[Ref(img) := Some(desc)]);
    assert Drive(t, w'', p.(pc := Done), env, 7, 0) == (w'', p.(pc := Done));
    assert Drive(t, w', p.(pc := WriteRef(desc)), env, 6, 1) == (w'', p.(pc := Done));
    assert Drive(t, w', p.(pc := CheckRef(desc)), env, 5, 2) == (w'', p.(pc := Done));
    assert Drive(t, w, p.(pc := AtManifest), env, 4, 3) == (w'', p.(pc := Done));
    assert Drive(t, w, p.(pc := AtConfig), env, 3, 4) == (w'', p.(pc := Done));
    assert DriveContents(t, w', p.(pc := WriteRef(desc)), env, 6, 1) == {};
    assert DriveContents(t, w', p.(pc := CheckRef(desc)), env, 5, 2) == {};
    assert DriveContents(t, w, p.(pc := AtManifest), env, 4, 3) == {OciOf(t, img)};
    assert DriveContents(t, w, p.(pc := AtConfig), env, 3, 4) == {OciOf(t, img)};
  }

  lemma DownloadOne(t: Tools, w: World, img: Image, x: Content, h: Hash)
    requires OneLayer(t, img, x) && w.engine.running && Blob(img, t.codec.sha(x)) !in w.blobs && Ref(img) !in w.refs
    ensures Drive(t, w, Start(img), _ => Answers(x, h), 0, Bound(img)) == (AfterDownload(t, w, img, x, h), Start(img).(pc := Done))
    ensures DriveContents(t, w, Start(img), _ => Answers(x, h), 0, Bound(img)) <= {x, OciOf(t, img)}
  {
    hide StepProc, Publish, Tell, Listed, LayerId, OciOf, DescriptorOf, Converts;
    var env := _ => Answers(x, h);
    LayerTransferred(t, w, img, x, h);
    var w1 := Tell(w, Leeching(t, x, h));
    var w2 := Publish(t, w1, img.repo, x);
    StoreOnly(t, w, img, x, h);
    Published(t, w2, img, x, h);
    assert Drive(t, w1, Start(img).(pc := Fetched(0)), env, 1, 6) == Drive(t, w2, Start(img).(pc := AtLayer(1)), env, 2, 5);
    assert DriveContents(t, w1, Start(img).(pc := Fetched(0)), env, 1, 6) ==
           {x} + DriveContents(t, w2, Start(img).(pc := AtLayer(1)), env, 2, 5);
  }

  lemma StoreOnly(t: Tools, w: World, img: Image, x: Content, h: Hash)
    ensures Publish(t, Tell(w, Leeching(t, x, h)), img.repo, x).refs == w.refs
    ensures Converts(t, img) ==>
              var w' := AfterDownload(t, w, img, x, h);
              && w'.engine == E.Do(w.engine, Leeching(t, x, h)) && w'.log == w.log + [Leeching(t, x, h)]
              && w'.blobs.Values <= w.blobs.Values + {x, OciOf(t, img)}
              && (forall p :: p in w'.blobs && p !in w.blobs ==> p.BlobFile? && p.repo == img.repo)
              && w'.refs == w.refs[Ref(img) := Some(DescriptorOf(t, img))]
  {
    hide E.Do, CreateOciManifest, Converts;
  }

  /** The engine after two starts, with the starter in between, and after a stop. */
  lemma EngineDropsEarly(x: string, h: Hash)
    ensures var (leech, k) := (E.Leech(x, E.LeechEnv(Some(h), true)), HexString(h));
            var s2 := E.Do(E.Do(E.Fresh(map[], map[]), leech), E.Fire(k));
            var s3 := E.Do(s2, leech);
            && E.WellFormed(s2) && s2.running && s3.running && E.IsStarted(s3, x) && Counts.Held(s3, x) == 2
            && E.StopTorrent(s3, x).1.Nil? && !E.IsStarted(E.Do(s3, E.Stop(x)), x)
  {
    hide E.Canonical, HexString, Str2ih, E.Do, E.WellFormed, E.StopTorrent;
    var (leech, k) := (E.Leech(x, E.LeechEnv(Some(h), true)), HexString(h));
    var s0 := E.Fresh(map[], map[]);
    Restarts.FreshWellFormed(map[], map[]);
    Restarts.LeechEffect(s0, x, h);
    var s1 := E.Do(s0, leech);
    Links.FireEffect(s1, k);
    E.StepWellFormed(s1, E.Fire(k));
    var s2 := E.Do(s1, E.Fire(k));
    LeechJoins(s2, x, h);
    E.StepWellFormed(s2, leech);
    var s3 := E.Do(s2, leech);
    Links.StopEffect(s3, x);
    StopIsNil(s3, x);
  }

  lemma LeechJoins(s: E.Engine, x: string, h: Hash)
    requires s.running && E.IsStarted(s, x)
    ensures E.Do(s, E.Leech(x, E.LeechEnv(Some(h), true))) == E.Join(s, x)
  {
  }

  lemma StopIsNil(s: E.Engine, x: string)
    requires s.running && E.IsStarted(s, x) && !E.IsStarted(E.Do(s, E.Stop(x)), x)
    ensures E.StopTorrent(s, x).1.Nil?
  {
    hide E.GetTorrent;
  }

  /** A stop of an image of one layer is a stop of that layer. */
  lemma StopOne(t: Tools, w: World, img: Image, x: Content, stopEnv: string -> E.DeleteEnv)
    requires Proper(t) && OneLayer(t, img, x) && HasImage(t, img, w) && w.engine.running
    requires E.IsStarted(w.engine, t.codec.sha(x)) && E.StopTorrent(w.engine, t.codec.sha(x)).1.Nil?
    ensures StopDownload(t, w, img.repo, img.tag, false, stopEnv) == (Tell(w, E.Stop(t.codec.sha(x))), Ok(Ids(img)))
    ensures Found(w, InfosOf(t, img), false, stopEnv) == Ids(img)
  {
    hide HasImage, Proper, GetImageLayers, LayerId, Infos, Converts, Tell, E.StopTorrent, Paths.IsDigest;
    LayerOf(t, img, x);
    LayersReadBack(t, img, w);
    var infos := InfosOf(t, img);
    ListedByDigest(t, img);
    assert IdsOf(infos)[0] == LayerId(infos[0].digest);
    NameIsLong(t, x);
    HasColon(infos[0].digest);
    assert infos[1..] == [];
    assert IdsOf(infos) == [t.codec.sha(x)];
    assert GetImageLayers(t, w, img.repo, img.tag) == Ok(infos);
    assert StopLayer(w, t.codec.sha(x), false, stopEnv) == (Tell(w, E.Stop(t.codec.sha(x))), Nil);
    assert StopLayers(w, infos, false, stopEnv) == StopLayers(Tell(w, E.Stop(t.codec.sha(x))), infos[1..], false, stopEnv);
  }

  lemma NameIsLong(t: Tools, x: Content)
    requires Proper(t)
    ensures t.codec.sha(x) != ""
  {
    assert Paths.IsHexName(t.codec.sha(x));
  }

  /** The history: one image, the torrent's starter, the other image, and a stop of the first. */
  function History(a: Image, b: Image, x: Content, h: Hash): seq<Op> {
    [Download(Leecher, a, _ => Answers(x, h), Bound(a)), EngineStep(E.Fire(HexString(h))),
     Download(Leecher, b, _ => Answers(x, h), Bound(b)), StopImage(0, false, _ => E.DeleteEnv(true, true))]
  }

  /** The first download, from a new world. */
  lemma FirstImage(t: Tools, s0: E.Engine, a: Image, x: Content, h: Hash)
    requires OneLayer(t, a, x) && s0.running && CollisionFree(t.codec, {x, OciOf(t, a)})
    ensures var w0, op := NewWorld(s0), Download(Leecher, a, _ => Answers(x, h), Bound(a));
            && DoOp(t, w0, [], op) == AfterDownload(t, w0, a, x, h) && NextActive(t, w0, [], op) == [a]
            && Balanced(t, w0, [], op) && CollisionFree(t.codec, w0.blobs.Values + OpContents(t, w0, op))
  {
    hide Drive, DriveContents, Listed, E.Do, Publish, Tell, LayerId, OciOf, DescriptorOf, Converts, Paths.IsDigest, Took;
    var w0, op := NewWorld(s0), Download(Leecher, a, _ => Answers(x, h), Bound(a));
    DownloadOne(t, w0, a, x, h);
    LayerOf(t, a, x);
    Closure.FewerCollisions(t.codec, w0.blobs.Values + OpContents(t, w0, op), {x, OciOf(t, a)});
  }

  /** The second one, of another repository, in a world that has only blobs of the first. */
  lemma SecondImage(t: Tools, w: World, a: Image, b: Image, x: Content, h: Hash)
    requires OneLayer(t, b, x) && w.engine.running && a.repo != b.repo && Ref(b) !in w.refs
    requires forall p :: p in w.blobs ==> p.BlobFile? && p.repo == a.repo
    requires Converts(t, a) && w.blobs.Values <= {x, OciOf(t, a)} && CollisionFree(t.codec, {x, OciOf(t, a), OciOf(t, b)})
    ensures var op := Download(Leecher, b, _ => Answers(x, h), Bound(b));
            && DoOp(t, w, [a], op) == AfterDownload(t, w, b, x, h) && NextActive(t, w, [a], op) == [a, b]
            && Balanced(t, w, [a], op) && CollisionFree(t.codec, w.blobs.Values + OpContents(t, w, op))
            && AfterDownload(t, w, b, x, h).blobs.Values <= {x, OciOf(t, a), OciOf(t, b)}
  {
    hide Drive, DriveContents, Listed, E.Do, Publish, Tell, LayerId, OciOf, DescriptorOf, Converts, Paths.IsDigest, Took;
    var op := Download(Leecher, b, _ => Answers(x, h), Bound(b));
    DownloadOne(t, w, b, x, h);
    StoreOnly(t, w, b, x, h);
    LayerOf(t, b, x);
    Closure.FewerCollisions(t.codec, w.blobs.Values + OpContents(t, w, op), {x, OciOf(t, a), OciOf(t, b)});
  }

  lemma FireBalanced(t: Tools, w: World, active: seq<Image>, k: string)
    ensures Balanced(t, w, active, EngineStep(E.Fire(k)))
  {
    hide Counts.NetStep;
    forall id
      ensures Counts.NetStep(w.engine, E.Fire(k), id) == 0
    {
      OtherNet(w.engine, E.Fire(k), id);
    }
  }

  /** The four operations one after the other. */
  lemma FourOps(t: Tools, s0: E.Engine, w: World, active: seq<Image>, o1: Op, o2: Op, o3: Op, o4: Op)
    ensures var (w1, a1) := (DoOp(t, w, active, o1), NextActive(t, w, active, o1));
            var (w2, a2) := (DoOp(t, w1, a1, o2), NextActive(t, w1, a1, o2));
            var (w3, a3) := (DoOp(t, w2, a2, o3), NextActive(t, w2, a2, o3));
            && RunOps(t, w, active, [o1, o2, o3, o4]) == (DoOp(t, w3, a3, o4), NextActive(t, w3, a3, o4))
            && (AlwaysBalanced(t, w, active, [o1, o2, o3, o4]) <==>
                 Balanced(t, w, active, o1) && Balanced(t, w1, a1, o2) && Balanced(t, w2, a2, o3) && Balanced(t, w3, a3, o4))
            && (Fair(t, w, active, [o1, o2, o3, o4]) <==>
                 FairOp(t, w, o1) && FairOp(t, w1, o2) && FairOp(t, w2, o3) && FairOp(t, w3, o4))
  {
    hide DoOp, NextActive, Balanced, FairOp;
    var (w1, a1) := (DoOp(t, w, active, o1), NextActive(t, w, active, o1));
    var (w2, a2) := (DoOp(t, w1, a1, o2), NextActive(t, w1, a1, o2));
    var (w3, a3) := (DoOp(t, w2, a2, o3), NextActive(t, w2, a2, o3));
    var (w4, a4) := (DoOp(t, w3, a3, o4), NextActive(t, w3, a3, o4));
    assert [o1, o2, o3, o4][1..] == [o2, o3, o4];
    assert [o2, o3, o4][1..] == [o3, o4];
    assert [o3, o4][1..] == [o4];
    assert [o4][1..] == [];
    assert RunOps(t, w3, a3, [o4]) == RunOps(t, w4, a4, []);
    assert RunOps(t, w2, a2, [o3, o4]) == RunOps(t, w3, a3, [o4]);
    assert RunOps(t, w1, a1, [o2, o3, o4]) == RunOps(t, w2, a2, [o3, o4]);
    assert AlwaysBalanced(t, w3, a3, [o4]) <==> Balanced(t, w3, a3, o4);
    assert AlwaysBalanced(t, w2, a2, [o3, o4]) <==> Balanced(t, w2, a2, o3) && AlwaysBalanced(t, w3, a3, [o4]);
    assert AlwaysBalanced(t, w1, a1, [o2, o3, o4]) <==> Balanced(t, w1, a1, o2) && AlwaysBalanced(t, w2, a2, [o3, o4]);
    assert Fair(t, w3, a3, [o4]) <==> FairOp(t, w3, o4);
    assert Fair(t, w2, a2, [o3, o4]) <==> FairOp(t, w2, o3) && Fair(t, w3, a3, [o4]);
    assert Fair(t, w1, a1, [o2, o3, o4]) <==> FairOp(t, w1, o2) && Fair(t, w2, a2, [o3, o4]);
  }

  /** The world once both images are there. */
  function Both(t: Tools, a: Image, b: Image, x: Content, h: Hash): World
    requires Converts(t, a) && Converts(t, b)
  {
    AfterDownload(t, Tell(AfterDownload(t, NewWorld(E.Fresh(map[], map[])), a, x, h), E.Fire(HexString(h))), b, x, h)
  }

  ghost predicate TwoImages(t: Tools, a: Image, b: Image, x: Content) {
    && Proper(t) && OneLayer(t, a, x) && OneLayer(t, b, x) && a.repo != b.repo
    && CollisionFree(t.codec, {x, OciOf(t, a), OciOf(t, b)})
  }

  lemma BothThere(t: Tools, a: Image, b: Image, x: Content, h: Hash)
    requires TwoImages(t, a, b, x)
    ensures var ops, s0 := History(a, b, x, h), E.Fresh(map[], map[]);
            var w0 := NewWorld(s0);
            var w1 := DoOp(t, w0, [], ops[0]);
            var w2 := DoOp(t, w1, [a], ops[1]);
            && NextActive(t, w0, [], ops[0]) == [a] && NextActive(t, w1, [a], ops[1]) == [a]
            && DoOp(t, w2, [a], ops[2]) == Both(t, a, b, x, h) && NextActive(t, w2, [a], ops[2]) == [a, b]
            && Balanced(t, w0, [], ops[0]) && Balanced(t, w1, [a], ops[1]) && Balanced(t, w2, [a], ops[2])
            && FairOp(t, w0, ops[0]) && FairOp(t, w1, ops[1]) && FairOp(t, w2, ops[2])
            && CollisionFree(t.codec, Both(t, a, b, x, h).blobs.Values)
  {
    hide Balanced, Proper, CollisionFree, Listed, LayerId, E.Do, OciOf, DescriptorOf, Converts, Publish, HexString,
      Ids, Drive, StopDownload, DriveContents, Completes, Tell;
    var (s0, ops) := (E.Fresh(map[], map[]), History(a, b, x, h));
    var (w0, k) := (NewWorld(s0), HexString(h));
    var all := {x, OciOf(t, a), OciOf(t, b)};
    Closure.FewerCollisions(t.codec, {x, OciOf(t, a)}, all);
    FirstImage(t, s0, a, x, h);
    StoreOnly(t, w0, a, x, h);
    var w1 := AfterDownload(t, w0, a, x, h);
    FireBalanced(t, w1, [a], k);
    TellKeepsStore(w1, E.Fire(k));
    Closure.FewerCollisions(t.codec, w1.blobs.Values + {}, all);
    EngineRuns(t, x, h);
    var w2 := Tell(w1, E.Fire(k));
    TellSteps(w1, E.Fire(k));
    SecondImage(t, w2, a, b, x, h);
    Closure.FewerCollisions(t.codec, Both(t, a, b, x, h).blobs.Values, all);
  }

  lemma TellSteps(w: World, e: E.Event)
    ensures Tell(w, e).engine == E.Do(w.engine, e) && Tell(w, e).log == w.log + [e]
  {
    hide E.Do;
  }

  lemma EngineRuns(t: Tools, x: Content, h: Hash)
    ensures E.Do(E.Do(E.Fresh(map[], map[]), Leeching(t, x, h)), E.Fire(HexString(h))).running
  {
    hide HexString, E.Do;
    EngineDropsEarly(t.codec.sha(x), h);
  }

  /** The books of the first three operations, and what the engine has come to. */
  lemma BothSane(t: Tools, a: Image, b: Image, x: Content, h: Hash)
    requires TwoImages(t, a, b, x)
    ensures var s0, id := E.Fresh(map[], map[]), t.codec.sha(x);
            var w := Both(t, a, b, x, h);
            && Sane(t, s0, w, [a, b]) && w.engine.running && E.IsStarted(w.engine, id)
            && E.StopTorrent(w.engine, id).1.Nil? && !E.IsStarted(E.Do(w.engine, E.Stop(id)), id)
  {
    hide Balanced, Proper, Listed, LayerId, E.Do, OciOf, DescriptorOf, Converts, Publish, HexString, Both,
      Ids, DoOp, NextActive, Tell, Sane, FairOp, E.IsStarted, E.StopTorrent;
    var (s0, ops) := (E.Fresh(map[], map[]), History(a, b, x, h));
    var w0 := NewWorld(s0);
    BothThere(t, a, b, x, h);
    NewWorldSane(t, s0);
    OpSane(t, s0, w0, [], ops[0]);
    var w1 := DoOp(t, w0, [], ops[0]);
    OpSane(t, s0, w1, [a], ops[1]);
    var w2 := DoOp(t, w1, [a], ops[1]);
    OpSane(t, s0, w2, [a], ops[2]);
    BothEngine(t, a, b, x, h);
    EngineDropsEarly(t.codec.sha(x), h);
  }

  lemma BothEngine(t: Tools, a: Image, b: Image, x: Content, h: Hash)
    requires Converts(t, a) && Converts(t, b)
    ensures Both(t, a, b, x, h).engine ==
              E.Do(E.Do(E.Do(E.Fresh(map[], map[]), Leeching(t, x, h)), E.Fire(HexString(h))), Leeching(t, x, h))
  {
    hide E.Do, HexString, Publish, OciOf, DescriptorOf, Converts, Tell;
    var w0 := NewWorld(E.Fresh(map[], map[]));
    StoreOnly(t, w0, a, x, h);
    var w1 := AfterDownload(t, w0, a, x, h);
    TellSteps(w1, E.Fire(HexString(h)));
    StoreOnly(t, Tell(w1, E.Fire(HexString(h))), b, x, h);
  }

  lemma LastStop(t: Tools, a: Image, b: Image, x: Content, h: Hash)
    requires TwoImages(t, a, b, x)
    ensures var w, op := Both(t, a, b, x, h), History(a, b, x, h)[3];
            && DoOp(t, w, [a, b], op) == Tell(w, E.Stop(t.codec.sha(x))) && NextActive(t, w, [a, b], op) == [b]
            && Balanced(t, w, [a, b], op) && FairOp(t, w, op)
  {
    hide Proper, Listed, LayerId, E.Do, OciOf, DescriptorOf, Converts, Publish, HexString, Both, InfosOf, Found,
      Ids, StopDownload, Tell, E.IsStarted, E.StopTorrent, CollisionFree, HasImage, Closure.Addressed, E.Run, E.WellFormed,
      Links.Linked, DistinctIds, StopReady;
    var w, op := Both(t, a, b, x, h), History(a, b, x, h)[3];
    BothThere(t, a, b, x, h);
    BothSane(t, a, b, x, h);
    assert HasImage(t, [a, b][0], w);
    StopOne(t, w, a, x, op.stopEnv);
    if Links.Linked(w.engine) && DistinctIds(InfosOf(t, a)) {
      StopReadyIff(t, w, [a, b], op);
    }
    assert [a, b][..0] + [a, b][1..] == [b];
    assert w.blobs.Values + {} == w.blobs.Values;
  }

  /**
   Images of two repositories that share a layer, downloaded one after the other, and one of them
   stopped. The history is fair and every operation of it balanced, so the daemon's books are
   right: one hold is left, which the other image asks for. The engine has dropped the torrent.
   */
  lemma SharedLayerDroppedEarly(t: Tools, a: Image, b: Image, x: Content, h: Hash)
    requires TwoImages(t, a, b, x)
    ensures var s0, id := E.Fresh(map[], map[]), t.codec.sha(x);
            var w0, ops := NewWorld(s0), History(a, b, x, h);
            var (w, active) := RunOps(t, w0, [], ops);
            && Fair(t, w0, [], ops) && AlwaysBalanced(t, w0, [], ops) && AlwaysBooked(t, s0, w0, [], ops)
            && active == [b] && Counts.Net(s0, w.log, id) == 1 && Demand(active, id) == 1
            && Counts.Held(w.engine, id) == 0
  {
    hide DoOp, NextActive, Balanced, Proper, Fair, AlwaysBalanced, AlwaysBooked, RunOps, Sane, FairOp, Both,
      Listed, LayerId, E.Do, OciOf, Converts, HexString, Demand, Counts.Net, E.IsStarted, Ids, Paths.IsDigest, Tell;
    var s0, ops := E.Fresh(map[], map[]), History(a, b, x, h);
    var w0 := NewWorld(s0);
    BothThere(t, a, b, x, h);
    BothSane(t, a, b, x, h);
    LastStop(t, a, b, x, h);
    FourOps(t, s0, w0, [], ops[0], ops[1], ops[2], ops[3]);
    assert ops == [ops[0], ops[1], ops[2], ops[3]];
    NewWorldSane(t, s0);
    HoldsConservedIff(t, s0, w0, [], ops);
    RunSane(t, s0, w0, [], ops);
    LayerOf(t, b, x);
    DemandOne(b, t.codec.sha(x));
    TellSteps(Both(t, a, b, x, h), E.Stop(t.codec.sha(x)));
  }
}
