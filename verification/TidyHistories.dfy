/**
 Histories that keep the books balanced by what a caller can see before each call: images that no
 other active image shares a layer with, downloaded for the first time, and stopped once their
 torrents' starters have run.
 */
module TidyHistories {
  import opened Wrappers
  import opened Hex
  import opened Layouts
  import opened Manifests
  import opened Downloads
  import opened Resuming
  import opened Attempts
  import opened Holds
  import opened Ledger
  import opened SharedLayers
  import Closure
  import E = EngineModel
  import Links = EngineLinks
  import Restarts = EngineRestarts
  import Counts = EngineCounts

  /** Every layer is held once for the one active image that has it, and the maps are linked and live. */
  ghost predicate Tidy(w: World, active: seq<Image>) {
    && w.engine.running && E.WellFormed(w.engine) && Links.Linked(w.engine) && Links.Live(w.engine)
    && forall id :: Counts.Held(w.engine, id) == Demand(active, id) && Demand(active, id) <= 1
  }

  /** The steps of the engine that led from one world to the other. */
  function Since(w: World, w': World): seq<E.Event> {
    if |w.log| <= |w'.log| then w'.log[|w.log|..] else []
  }

  /**
   A download that completes, of layers that are new, distinct and asked for by no active image, and
   whose torrents have hashes of their own; a stop after the starters of its layers; a starter or a
   write to a data file.
   */
  ghost predicate TidyOp(t: Tools, w: World, active: seq<Image>, op: Op) {
    match op
    case Download(_, img, _, _) =>
      && Completes(t, w, op) && FirstAndDistinct(img, w.blobs.Keys)
      && (forall id :: id in Ids(img) ==> Demand(active, id) == 0)
      && Links.CleanRun(w.engine, Since(w, DoOp(t, w, active, op)))
    case StopImage(i, _, _) =>
      i < |active| && forall id :: id in Ids(active[i]) && id in w.engine.idInfos ==>
        w.engine.idInfos[id].infoHash !in w.engine.starters
    case EngineStep(e) => e.Fire? || e.WriteData?
  }

  ghost predicate TidyOps(t: Tools, w: World, active: seq<Image>, ops: seq<Op>)
    decreases |ops|
  {
    ops != [] ==>
      TidyOp(t, w, active, ops[0]) && TidyOps(t, DoOp(t, w, active, ops[0]), NextActive(t, w, active, ops[0]), ops[1..])
  }

  predicate AllLeech(es: seq<E.Event>) {
    forall i :: 0 <= i < |es| ==> es[i].Leech?
  }

  lemma StepLeeches(t: Tools, w: World, p: Proc, env: Env)
    requires p.role.Leecher? && !p.pc.Copied?
    ensures var (w', p') := StepProc(t, w, p, env);
            && p'.role.Leecher? && !p'.pc.Copied? && w.log <= w'.log && AllLeech(Since(w, w'))
  {
    hide E.StartLeecher, E.Do, Exists, LayerId, CreateOciManifest;
  }

  /** A leecher's download asks nothing of the engine but starts. */
  lemma {:induction false} DriveLeeches(t: Tools, w: World, p: Proc, env: nat -> Env, k: nat, n: nat)
    requires p.role.Leecher? && !p.pc.Copied?
    ensures var w' := Drive(t, w, p, env, k, n).0; w.log <= w'.log && AllLeech(Since(w, w'))
    decreases n
  {
    hide StepProc;
    if n > 0 {
      var (w1, p1) := StepProc(t, w, p, env(k));
      StepLeeches(t, w, p, env(k));
      DriveLeeches(t, w1, p1, env, k + 1, n - 1);
      var w' := Drive(t, w1, p1, env, k + 1, n - 1).0;
      assert Since(w, w') == Since(w, w1) + Since(w1, w');
    }
  }

  lemma {:induction false} LeechesNeverUneven(s: E.Engine, es: seq<E.Event>, id: string)
    requires AllLeech(es)
    ensures Counts.NeverUneven(s, es, id)
    decreases |es|
  {
    hide E.Do;
    if es != [] {
      LeechesNeverUneven(E.Do(s, es[0]), es[1..], id);
    }
  }

  /** A clean run of starts, and what it adds to the holds. */
  lemma CleanLeeches(w: World, w': World)
    requires w.engine.running && E.WellFormed(w.engine) && Links.Linked(w.engine) && Links.Live(w.engine)
    requires Grows(w, w') && w.log <= w'.log && AllLeech(Since(w, w')) && Links.CleanRun(w.engine, Since(w, w'))
    ensures w'.engine.running && E.WellFormed(w'.engine) && Links.Linked(w'.engine) && Links.Live(w'.engine)
    ensures forall id :: Counts.Held(w'.engine, id) == Counts.Held(w.engine, id) + NetSince(w, w', id)
  {
    hide E.WellFormed, Links.Linked, Links.Live, Links.CleanRun, E.Run, Counts.Held, Counts.Net, AllLeech;
    Links.RunLive(w.engine, Since(w, w'));
    Counts.RunRunning(w.engine, Since(w, w'));
    forall id
      ensures Counts.Held(w'.engine, id) == Counts.Held(w.engine, id) + NetSince(w, w', id)
    {
      LeechesNeverUneven(w.engine, Since(w, w'), id);
      Counts.RefinesCountIff(w.engine, Since(w, w'), id);
    }
  }

  lemma DownloadTidy(t: Tools, w: World, active: seq<Image>, op: Op)
    requires Tidy(w, active) && op.Download? && Listed(t, op.img) && TidyOp(t, w, active, op)
    ensures Tidy(DoOp(t, w, active, op), NextActive(t, w, active, op))
  {
    hide Drive, Listed, Took, NetSince, Grows, Demand, Ids, TakenFrom, FirstAndDistinct, E.WellFormed, Links.Linked, Links.Live,
      Links.CleanRun, Counts.Held, AllLeech;
    var (w', img) := (DoOp(t, w, active, op), op.img);
    ListedByDigest(t, img);
    DriveLeeches(t, w, Begin(op), op.env, 0, op.n);
    DownloadTakes(t, w, img, op.env, op.n, "");
    CleanLeeches(w, w');
    TakenIsAllIff(img, w.blobs.Keys);
    forall id
      ensures Counts.Held(w'.engine, id) == Demand(active + [img], id) && Demand(active + [img], id) <= 1
    {
      DownloadTakes(t, w, img, op.env, op.n, id);
      TakenOnce(img, 0, w.blobs.Keys, id);
      DemandConcat(active, [img], id);
      DemandOne(img, id);
      if id !in Ids(img) {
        assert multiset(Ids(img))[id] == 0;
      }
    }
  }

  /** An active image has each layer once, and the engine has it started. */
  lemma ActiveDistinct(t: Tools, w: World, active: seq<Image>, i: nat)
    requires Tidy(w, active) && i < |active| && Listed(t, active[i])
    ensures DistinctIds(InfosOf(t, active[i]))
    ensures forall id :: id in Ids(active[i]) ==> Counts.Held(w.engine, id) == 1 && Demand(active, id) == 1
    ensures forall id :: multiset(Ids(active[i]))[id] == if id in Ids(active[i]) then 1 else 0
  {
    hide Listed, Demand, Ids, Infos, E.WellFormed, Links.Linked, Links.Live, Counts.Held, LayerId, IdsOf;
    var (ids, infos) := (Ids(active[i]), InfosOf(t, active[i]));
    ListedByDigest(t, active[i]);
    forall id
      ensures multiset(ids)[id] <= 1 && (id in ids ==> multiset(ids)[id] == 1)
      ensures id in ids ==> Counts.Held(w.engine, id) == 1 && Demand(active, id) == 1
    {
      DemandWithout(active, i, id);
      if id in ids {
        assert id in multiset(ids);
      }
    }
    OnceMeansDistinct(infos);
  }

  lemma OnceMeansDistinct(infos: seq<BlobInfo>)
    requires forall id :: multiset(IdsOf(infos))[id] <= 1
    ensures DistinctIds(infos)
  {
    hide LayerId;
    var ids := IdsOf(infos);
    forall i, j | 0 <= i < j < |infos|
      ensures LayerId(infos[i].digest) != LayerId(infos[j].digest)
    {
      RepeatedTwice(ids, i, j);
      assert ids[i] == LayerId(infos[i].digest) && ids[j] == LayerId(infos[j].digest);
    }
  }

  lemma StopTidyReady(t: Tools, w: World, active: seq<Image>, op: Op)
    requires Tidy(w, active) && op.StopImage? && TidyOp(t, w, active, op) && Listed(t, active[op.which])
    ensures StopReady(w.engine, InfosOf(t, active[op.which])) && DistinctIds(InfosOf(t, active[op.which]))
  {
    hide Listed, Demand, Ids, Infos, E.WellFormed, Links.Linked, Links.Live, LayerId, IdsOf, DistinctIds, Links.Stoppable;
    var infos := InfosOf(t, active[op.which]);
    ListedByDigest(t, active[op.which]);
    ActiveDistinct(t, w, active, op.which);
    forall i | 0 <= i < |infos|
      ensures Releasable(w.engine, LayerId(infos[i].digest))
    {
      var id := LayerId(infos[i].digest);
      IdOfInfo(infos, i);
      assert id in Ids(active[op.which]);
      assert Counts.Held(w.engine, id) == 1;
      Counts.LiveIsStoppable(w.engine, id);
    }
  }

  lemma IdOfInfo(infos: seq<BlobInfo>, i: nat)
    requires i < |infos|
    ensures LayerId(infos[i].digest) in IdsOf(infos)
  {
    hide LayerId;
    assert IdsOf(infos)[i] == LayerId(infos[i].digest);
  }

  lemma StopLayerLive(w: World, id: string, clean: bool, env: string -> E.DeleteEnv)
    requires E.WellFormed(w.engine) && Links.Linked(w.engine) && Links.Live(w.engine)
    ensures var s' := StopLayer(w, id, clean, env).0.engine;
            E.WellFormed(s') && Links.Linked(s') && Links.Live(s') && s'.running == w.engine.running
  {
    hide E.WellFormed, E.Do, Links.Linked, Links.Live, E.StopTorrent;
    OtherReleasable(w, id, clean, env, id);
    Links.StopLive(w.engine, id);
    E.StepWellFormed(w.engine, E.Stop(id));
    Links.StopLinked(w.engine, id);
    Links.DeleteLinked(E.Do(w.engine, E.Stop(id)), id, env(id));
  }

  lemma {:induction false} StopLayersLive(w: World, infos: seq<BlobInfo>, clean: bool, env: string -> E.DeleteEnv)
    requires E.WellFormed(w.engine) && Links.Linked(w.engine) && Links.Live(w.engine)
    ensures var s' := StopLayers(w, infos, clean, env).0.engine;
            E.WellFormed(s') && Links.Linked(s') && Links.Live(s') && s'.running == w.engine.running
    decreases |infos|
  {
    hide E.WellFormed, Links.Linked, Links.Live, StopLayer, LayerId;
    if infos != [] {
      StopLayerLive(w, LayerId(infos[0].digest), clean, env);
      StopLayersLive(StopLayer(w, LayerId(infos[0].digest), clean, env).0, infos[1..], clean, env);
    }
  }

  lemma StopTidy(t: Tools, s0: E.Engine, w: World, active: seq<Image>, op: Op)
    requires Proper(t) && Sane(t, s0, w, active) && Tidy(w, active) && op.StopImage? && TidyOp(t, w, active, op)
    ensures Balanced(t, w, active, op) && Tidy(DoOp(t, w, active, op), NextActive(t, w, active, op))
    ensures StopSucceeds(t, w, active, op)
  {
    hide HasImage, Listed, Closure.Addressed, E.Run, E.WellFormed, Links.Linked, Links.Live, Proper, Infos, Ids, IdsOf, Demand, LayerId,
      StopLayers, StopDownload, StopReady, DistinctIds, E.IsStarted;
    var (i, img, infos) := (op.which, active[op.which], InfosOf(t, active[op.which]));
    StopTidyReady(t, w, active, op);
    StopReadyIff(t, w, active, op);
    ActiveDistinct(t, w, active, i);
    ListedByDigest(t, img);
    StopRunsOver(t, w, img, op.clean, op.stopEnv);
    StopLayersLive(w, infos, op.clean, op.stopEnv);
    forall id
      ensures var rest := active[..i] + active[i + 1..];
              Counts.Held(StopLayers(w, infos, op.clean, op.stopEnv).0.engine, id) == Demand(rest, id) && Demand(rest, id) <= 1
    {
      StopLayersHeld(w, infos, op.clean, op.stopEnv, id);
      DemandWithout(active, i, id);
    }
  }

  lemma EngineTidy(t: Tools, w: World, active: seq<Image>, e: E.Event)
    requires Tidy(w, active) && (e.Fire? || e.WriteData?)
    ensures Balanced(t, w, active, EngineStep(e)) && Tidy(Tell(w, e), active)
  {
    hide E.WellFormed, Links.Linked, Links.Live, E.Do, Counts.NetStep, Counts.Held, Demand, Counts.DropsUneven;
    E.StepWellFormed(w.engine, e);
    Restarts.NoLaunch(w.engine, e);
    Links.StepLinked(w.engine, e);
    Counts.StepRunning(w.engine, e);
    TellSteps(w, e);
    forall id
      ensures Counts.NetStep(w.engine, e, id) == 0 && Counts.Held(E.Do(w.engine, e), id) == Counts.Held(w.engine, id)
    {
      OtherNet(w.engine, e, id);
      NotUneven(w.engine, e, id);
      Counts.StepNetIff(w.engine, e, id);
    }
  }

  lemma NotUneven(s: E.Engine, e: E.Event, id: string)
    ensures !e.Stop? ==> !Counts.DropsUneven(s, e, id)
  {
  }

  predicate Succeeds(t: Tools, w: World, active: seq<Image>, op: Op) {
    op.StopImage? ==> op.which < |active| && StopSucceeds(t, w, active, op)
  }

  predicate AlwaysSucceed(t: Tools, w: World, active: seq<Image>, ops: seq<Op>)
    decreases |ops|
  {
    ops != [] ==>
      Succeeds(t, w, active, ops[0]) && AlwaysSucceed(t, DoOp(t, w, active, ops[0]), NextActive(t, w, active, ops[0]), ops[1..])
  }

  lemma OpTidy(t: Tools, s0: E.Engine, w: World, active: seq<Image>, op: Op)
    requires Proper(t) && Sane(t, s0, w, active) && Tidy(w, active) && FairOp(t, w, op) && TidyOp(t, w, active, op)
    ensures Balanced(t, w, active, op) && Tidy(DoOp(t, w, active, op), NextActive(t, w, active, op))
    ensures Succeeds(t, w, active, op)
  {
    hide Proper, Sane, Tidy, Listed, StopDownload, Drive, Tell, CollisionFree, OpContents, Links.CleanRun, FirstAndDistinct, Ids, Demand;
    match op {
      case Download(_, _, _, _) => DownloadTidy(t, w, active, op);
      case StopImage(_, _, _) => StopTidy(t, s0, w, active, op);
      case EngineStep(e) => EngineTidy(t, w, active, e);
    }
  }

  /**
   Over every tidy history, at every point: each operation is balanced, every stop succeeds, and the
   engine holds each layer once for the one active image that has it, and no other.
   */
  lemma {:induction false} TidyIsBalanced(t: Tools, s0: E.Engine, w: World, active: seq<Image>, ops: seq<Op>)
    requires Proper(t) && Sane(t, s0, w, active) && Tidy(w, active) && Fair(t, w, active, ops) && TidyOps(t, w, active, ops)
    ensures AlwaysBalanced(t, w, active, ops) && AlwaysSucceed(t, w, active, ops)
    ensures var (w', active') := RunOps(t, w, active, ops); Tidy(w', active') && Sane(t, s0, w', active')
    decreases |ops|
  {
    hide Proper, Sane, Tidy, FairOp, TidyOp, Balanced, DoOp, NextActive, Succeeds;
    if ops != [] {
      OpSane(t, s0, w, active, ops[0]);
      OpTidy(t, s0, w, active, ops[0]);
      TidyIsBalanced(t, s0, DoOp(t, w, active, ops[0]), NextActive(t, w, active, ops[0]), ops[1..]);
    }
  }

  /** From a new world, holds and demand agree throughout: what the daemon's books say is what the engine counts. */
  lemma TidyFromNew(t: Tools, dataDir: map<string, Content>, torrentDir: map<string, E.TorrentFile>, ops: seq<Op>)
    requires var w0 := NewWorld(E.Fresh(dataDir, torrentDir)); Proper(t) && Fair(t, w0, [], ops) && TidyOps(t, w0, [], ops)
    ensures var s0 := E.Fresh(dataDir, torrentDir);
            var (w, active) := RunOps(t, NewWorld(s0), [], ops);
            && AlwaysBooked(t, s0, NewWorld(s0), [], ops) && AlwaysSucceed(t, NewWorld(s0), [], ops)
            && forall id :: Counts.Held(w.engine, id) == Demand(active, id)
  {
    hide Proper, Fair, TidyOps, AlwaysBalanced, AlwaysBooked, AlwaysSucceed, RunOps, E.WellFormed, Links.Linked, Sane, Booked;
    var s0 := E.Fresh(dataDir, torrentDir);
    Restarts.FreshWellFormed(dataDir, torrentDir);
    NewWorldSane(t, s0);
    TidyIsBalanced(t, s0, NewWorld(s0), [], ops);
    HoldsConservedIff(t, s0, NewWorld(s0), [], ops);
  }

  function OneCycle(a: Image, x: Content, h: Hash): seq<Op> {
    [Download(Leecher, a, _ => Answers(x, h), Bound(a)), EngineStep(E.Fire(HexString(h))), StopImage(0, true, _ => E.DeleteEnv(true, true))]
  }

  /** The download of a new world: one start, with a hash that no other id has. */
  lemma FirstTidy(t: Tools, a: Image, x: Content, h: Hash)
    requires OneLayer(t, a, x) && CollisionFree(t.codec, {x, OciOf(t, a)})
    ensures var w0, op := NewWorld(E.Fresh(map[], map[])), OneCycle(a, x, h)[0];
            && DoOp(t, w0, [], op) == AfterDownload(t, w0, a, x, h) && NextActive(t, w0, [], op) == [a]
            && TidyOp(t, w0, [], op) && FairOp(t, w0, op)
  {
    hide Drive, DriveContents, Listed, E.Do, Publish, Tell, LayerId, OciOf, DescriptorOf, Converts, StartsMissing, FirstAndDistinct,
      Links.CleanRun, Ids, HexString, AfterDownload;
    var s0 := E.Fresh(map[], map[]);
    var w0 := NewWorld(s0);
    FirstImage(t, s0, a, x, h);
    StoreOnly(t, w0, a, x, h);
    var w1 := AfterDownload(t, w0, a, x, h);
    assert w1.log == [Leeching(t, x, h)];
    OneClean(s0, Leeching(t, x, h));
  }

  lemma OneClean(s: E.Engine, e: E.Event)
    requires s.idInfos == map[]
    ensures Links.CleanRun(s, [e])
  {
    hide E.Do, E.Launches, HexString;
    assert [e][1..] == [];
    assert Links.CleanRun(E.Do(s, e), []);
  }

  /** Tidy histories exist: a download, its starter, and a stop that deletes. */
  lemma CycleIsTidy(t: Tools, a: Image, x: Content, h: Hash)
    requires OneLayer(t, a, x) && CollisionFree(t.codec, {x, OciOf(t, a)})
    ensures var w0, ops := NewWorld(E.Fresh(map[], map[])), OneCycle(a, x, h);
            Fair(t, w0, [], ops) && TidyOps(t, w0, [], ops)
  {
    hide DoOp, NextActive, TidyOp, FairOp, OneLayer, CollisionFree, OciOf, HexString, AfterDownload, Converts;
    var (w0, ops) := (NewWorld(E.Fresh(map[], map[])), OneCycle(a, x, h));
    FirstTidy(t, a, x, h);
    var w1 := DoOp(t, w0, [], ops[0]);
    FireTidy(t, a, x, h);
    LastTidy(t, a, x, h);
    var w2 := DoOp(t, w1, [a], ops[1]);
    assert ops[1..] == [ops[1], ops[2]];
    assert ops[1..][1..] == [ops[2]];
    assert [ops[2]][1..] == [];
    assert Fair(t, w2, [a], [ops[2]]) && TidyOps(t, w2, [a], [ops[2]]);
    assert Fair(t, w1, [a], ops[1..]) && TidyOps(t, w1, [a], ops[1..]);
  }

  lemma FireTidy(t: Tools, a: Image, x: Content, h: Hash)
    requires OneLayer(t, a, x) && CollisionFree(t.codec, {x, OciOf(t, a)})
    ensures var w1, op := AfterDownload(t, NewWorld(E.Fresh(map[], map[])), a, x, h), OneCycle(a, x, h)[1];
            && TidyOp(t, w1, [a], op) && FairOp(t, w1, op)
            && DoOp(t, w1, [a], op) == Tell(w1, op.e) && NextActive(t, w1, [a], op) == [a]
            && CollisionFree(t.codec, w1.blobs.Values)
  {
    hide E.Do, Publish, Tell, OciOf, DescriptorOf, Converts, HexString, AfterDownload, CollisionFree, Listed;
    var w0 := NewWorld(E.Fresh(map[], map[]));
    StoreOnly(t, w0, a, x, h);
    var w1 := AfterDownload(t, w0, a, x, h);
    Closure.FewerCollisions(t.codec, w1.blobs.Values, {x, OciOf(t, a)});
    assert w1.blobs.Values + {} == w1.blobs.Values;
  }

  lemma LastTidy(t: Tools, a: Image, x: Content, h: Hash)
    requires OneLayer(t, a, x) && CollisionFree(t.codec, {x, OciOf(t, a)})
    ensures var w1 := AfterDownload(t, NewWorld(E.Fresh(map[], map[])), a, x, h);
            var (w2, op) := (Tell(w1, E.Fire(HexString(h))), OneCycle(a, x, h)[2]);
            TidyOp(t, w2, [a], op) && FairOp(t, w2, op)
  {
    hide E.Do, Publish, Tell, OciOf, DescriptorOf, Converts, HexString, AfterDownload, CollisionFree, Listed, E.WellFormed;
    var s0 := E.Fresh(map[], map[]);
    var w0 := NewWorld(s0);
    StoreOnly(t, w0, a, x, h);
    FireTidy(t, a, x, h);
    var (w1, k) := (AfterDownload(t, w0, a, x, h), HexString(h));
    TellSteps(w1, E.Fire(k));
    TellKeepsStore(w1, E.Fire(k));
    Restarts.FreshWellFormed(map[], map[]);
    Restarts.LeechEffect(s0, t.codec.sha(x), h);
    Links.FireEffect(w1.engine, k);
    assert Tell(w1, E.Fire(k)).engine.starters == multiset{};
    assert w1.blobs.Values + {} == w1.blobs.Values;
  }
}
