/**
 Holds over any history of downloads, stops and engine steps, images sharing layers as they like,
 and what the engine's own counts make of it.
 */
module Ledger {
  import opened Wrappers
  import opened Hex
  import opened Layouts
  import opened Manifests
  import opened Downloads
  import opened Resuming
  import opened Attempts
  import opened Holds
  import Paths
  import Closure
  import Strings
  import E = EngineModel
  import Links = EngineLinks
  import Restarts = EngineRestarts
  import Counts = EngineCounts

  datatype Op =
    | Download(role: Role, img: Image, env: nat -> Env, n: nat)           // `n` steps of it, whatever they come to
    | StopImage(which: nat, clean: bool, stopEnv: string -> E.DeleteEnv)  // of one of the active images
    | EngineStep(e: E.Event)

  function Begin(op: Op): Proc
    requires op.Download?
  {
    Proc(op.role, op.img, AtLayer(0))
  }

  function DoOp(t: Tools, w: World, active: seq<Image>, op: Op): World {
    match op
    case Download(_, _, env, n) => Drive(t, w, Begin(op), env, 0, n).0
    case StopImage(i, clean, stopEnv) =>
      if i >= |active| then w else StopDownload(t, w, active[i].repo, active[i].tag, clean, stopEnv).0
    case EngineStep(e) => Tell(w, e)
  }

  /** The download stores the image: it is a leecher's, and comes to its end. */
  predicate Completes(t: Tools, w: World, op: Op)
    requires op.Download?
  {
    op.role.Leecher? && Drive(t, w, Begin(op), op.env, 0, op.n).1.pc == Done
  }

  predicate StopSucceeds(t: Tools, w: World, active: seq<Image>, op: Op)
    requires op.StopImage? && op.which < |active|
  {
    var img := active[op.which];
    StopDownload(t, w, img.repo, img.tag, op.clean, op.stopEnv).1.Ok?
  }

  /** The images downloaded by a leecher and not yet stopped. */
  function NextActive(t: Tools, w: World, active: seq<Image>, op: Op): seq<Image> {
    match op
    case Download(_, img, _, _) => if Completes(t, w, op) then active + [img] else active
    case StopImage(i, _, _) =>
      if i < |active| && StopSucceeds(t, w, active, op) then active[..i] + active[i + 1..] else active
    case EngineStep(_) => active
  }

  function RunOps(t: Tools, w: World, active: seq<Image>, ops: seq<Op>): (World, seq<Image>)
    decreases |ops|
  {
    if ops == [] then (w, active) else RunOps(t, DoOp(t, w, active, ops[0]), NextActive(t, w, active, ops[0]), ops[1..])
  }

  /** How many holds of the layer the images ask for. */
  function Demand(active: seq<Image>, id: string): nat {
    if active == [] then 0 else multiset(Ids(active[0]))[id] + Demand(active[1..], id)
  }

  /** Every active image can be found again, and the log accounts for the engine since `s0`. */
  ghost predicate Sane(t: Tools, s0: E.Engine, w: World, active: seq<Image>) {
    && Closure.Addressed(t, w) && w.engine == E.Run(s0, w.log) && E.WellFormed(w.engine)
    && forall i :: 0 <= i < |active| ==> HasImage(t, active[i], w) && Listed(t, active[i])
  }

  /** The holds taken and not given back are those that the active images ask for. */
  ghost predicate Booked(s0: E.Engine, w: World, active: seq<Image>) {
    forall id :: Counts.Net(s0, w.log, id) == Demand(active, id)
  }

  /** The engine is not running, or every layer can be stopped. */
  predicate StopReady(s: E.Engine, infos: seq<BlobInfo>) {
    s.running ==> AllReleasable(s, infos)
  }

  /**
   The operation takes or gives back what it changes in the demand. A download that completes finds
   no layer stored or repeated; a leecher's that does not starts no missing layer, and a seeder's
   takes nothing. A stop finds all its layers ready to be stopped; over maps that are not linked, or
   for an image that repeats a layer, it finds them all started if it succeeds and none if it fails.
   The engine is not started or stopped behind the daemon's back.
   */
  ghost predicate Balanced(t: Tools, w: World, active: seq<Image>, op: Op) {
    match op
    case Download(role, img, env, n) =>
      if Completes(t, w, op) then FirstAndDistinct(img, w.blobs.Keys)
      else if role.Leecher? then !StartsMissing(w, img, 0, env, 0, n)
      else Took(t, w, Begin(op), env, 0, n) == []
    case StopImage(i, clean, stopEnv) =>
      i < |active| ==>
        var infos := InfosOf(t, active[i]);
        if Links.Linked(w.engine) && DistinctIds(infos) then StopReady(w.engine, infos)
        else Found(w, infos, clean, stopEnv) == if StopSucceeds(t, w, active, op) then Ids(active[i]) else []
    case EngineStep(e) => forall id :: Counts.NetStep(w.engine, e, id) == 0
  }

  /** What the operation may publish. */
  function OpContents(t: Tools, w: World, op: Op): set<Content> {
    match op
    case Download(_, _, env, n) => DriveContents(t, w, Begin(op), env, 0, n)
    case _ => {}
  }

  lemma {:induction false} DemandConcat(a: seq<Image>, b: seq<Image>, id: string)
    ensures Demand(a + b, id) == Demand(a, id) + Demand(b, id)
  {
    hide Ids;
    if a == [] {
      assert a + b == b;
    } else {
      DemandConcat(a[1..], b, id);
      assert (a + b)[1..] == a[1..] + b;
    }
  }

  lemma DemandOne(img: Image, id: string)
    ensures Demand([img], id) == multiset(Ids(img))[id]
  {
    hide Ids;
    assert Demand([img][1..], id) == 0;
  }

  lemma DemandWithout(active: seq<Image>, i: nat, id: string)
    requires i < |active|
    ensures Demand(active, id) == Demand(active[..i] + active[i + 1..], id) + multiset(Ids(active[i]))[id]
  {
    hide Ids, Demand;
    assert active == active[..i] + ([active[i]] + active[i + 1..]);
    DemandConcat(active[..i], [active[i]] + active[i + 1..], id);
    DemandConcat([active[i]], active[i + 1..], id);
    DemandConcat(active[..i], active[i + 1..], id);
    DemandOne(active[i], id);
  }

  lemma DownloadSane(t: Tools, s0: E.Engine, w: World, active: seq<Image>, op: Op)
    requires Sane(t, s0, w, active) && op.Download? && Listed(t, op.img)
    requires CollisionFree(t.codec, w.blobs.Values + OpContents(t, w, op))
    ensures Sane(t, s0, DoOp(t, w, active, op), NextActive(t, w, active, op))
    ensures DoOp(t, w, active, op).blobs.Values <= w.blobs.Values + OpContents(t, w, op)
  {
    hide Drive, DriveContents, HasImage, Listed, Closure.Addressed, CollisionFree, E.Run, Took, NetSince;
    DriveStores(t, w, Begin(op), op.env, 0, op.n, active);
    DriveNet(t, w, Begin(op), op.env, 0, op.n, "");
    LogGoesOn(s0, w, DoOp(t, w, active, op), "");
  }

  /** The books of the whole log follow those of its last part. */
  lemma LogGoesOn(s0: E.Engine, w: World, w': World, id: string)
    requires w.engine == E.Run(s0, w.log) && Grows(w, w')
    ensures w'.engine == E.Run(s0, w'.log) && (E.WellFormed(w.engine) ==> E.WellFormed(w'.engine))
    ensures Counts.Net(s0, w'.log, id) == Counts.Net(s0, w.log, id) + NetSince(w, w', id)
  {
    hide E.Run, Counts.Net, E.WellFormed;
    var fs := w'.log[|w.log|..];
    if E.WellFormed(w.engine) {
      E.RunWellFormed(w.engine, fs);
    }
    assert w'.log == w.log + fs;
    Counts.RunAppend(s0, w.log, fs);
    Counts.NetAppend(s0, w.log, fs, id);
  }

  lemma StopSane(t: Tools, s0: E.Engine, w: World, active: seq<Image>, op: Op)
    requires Proper(t) && Sane(t, s0, w, active) && op.StopImage?
    ensures var w' := DoOp(t, w, active, op);
            Sane(t, s0, w', NextActive(t, w, active, op)) && w'.blobs == w.blobs
  {
    hide StopDownload, HasImage, Listed, Closure.Addressed, E.Run, Found, NetSince, Proper;
    if op.which < |active| {
      var w' := DoOp(t, w, active, op);
      StopReleases(t, w, active[op.which], op.clean, op.stopEnv, "");
      LogGoesOn(s0, w, w', "");
      SameBlobs(t, w, w');
      forall i | 0 <= i < |active|
        ensures HasImage(t, active[i], w')
      {
        SameStore(t, active[i], w, w');
      }
    }
  }

  lemma SameStore(t: Tools, img: Image, w: World, w': World)
    requires HasImage(t, img, w) && w'.blobs == w.blobs && w'.refs == w.refs
    ensures HasImage(t, img, w')
  {
    hide CreateOciManifest;
  }

  lemma TellSane(t: Tools, s0: E.Engine, w: World, active: seq<Image>, e: E.Event)
    requires Sane(t, s0, w, active)
    ensures Sane(t, s0, Tell(w, e), active)
  {
    hide HasImage, Listed, Closure.Addressed, E.Run, Tell;
    TellGrows(w, e, "");
    TellKeepsStore(w, e);
    LogGoesOn(s0, w, Tell(w, e), "");
    SameBlobs(t, w, Tell(w, e));
    forall i | 0 <= i < |active|
      ensures HasImage(t, active[i], Tell(w, e))
    {
      SameStore(t, active[i], w, Tell(w, e));
    }
  }

  lemma {:induction false} SameCounts(a: seq<string>, b: seq<string>)
    requires forall id :: multiset(a)[id] == multiset(b)[id]
    ensures |a| == |b|
  {
    assert multiset(a) == multiset(b);
    assert |multiset(a)| == |a| && |multiset(b)| == |b|;
  }

  lemma NothingCounted(a: seq<string>)
    ensures (forall id :: multiset(a)[id] == 0) <==> a == []
  {
    if a != [] {
      assert a[0] in multiset(a);
    }
  }

  lemma DownloadBookedIff(t: Tools, s0: E.Engine, w: World, active: seq<Image>, op: Op)
    requires Sane(t, s0, w, active) && Booked(s0, w, active) && op.Download? && Listed(t, op.img)
    ensures Booked(s0, DoOp(t, w, active, op), NextActive(t, w, active, op)) <==> Balanced(t, w, active, op)
  {
    hide Drive, HasImage, Listed, Closure.Addressed, E.Run, Took, NetSince, Grows, Demand, Ids, TakenFrom, FirstAndDistinct, Counts.Net;
    var took := Took(t, w, Begin(op), op.env, 0, op.n);
    var w' := DoOp(t, w, active, op);
    forall id
      ensures Counts.Net(s0, w'.log, id) == Counts.Net(s0, w.log, id) + multiset(took)[id]
      ensures Demand(active + [op.img], id) == Demand(active, id) + multiset(Ids(op.img))[id]
    {
      DriveNet(t, w, Begin(op), op.env, 0, op.n, id);
      LogGoesOn(s0, w, w', id);
      DemandConcat(active, [op.img], id);
      DemandOne(op.img, id);
    }
    ListedByDigest(t, op.img);
    if op.role.Leecher? {
      TakesNothingIff(t, w, op.img, 0, op.env, 0, op.n);
    }
    if Completes(t, w, op) {
      DownloadTakes(t, w, op.img, op.env, op.n, "");
      TakenIsAllIff(op.img, w.blobs.Keys);
    } else {
      NothingCounted(took);
    }
  }

  lemma ListedByDigest(t: Tools, img: Image)
    requires Listed(t, img)
    ensures ByDigest(img) && |InfosOf(t, img)| == |Ids(img)| && IdsOf(InfosOf(t, img)) == Ids(img)
  {
    hide Paths.IsDigest;
    assert |IdsOf(InfosOf(t, img))| == |InfosOf(t, img)|;
  }

  lemma InfosHaveColons(t: Tools, img: Image)
    requires Listed(t, img)
    ensures HaveColons(InfosOf(t, img))
  {
    hide LayerId, Paths.IsDigest, Infos;
    var infos := InfosOf(t, img);
    forall i | 0 <= i < |infos|
      ensures Strings.Cut(infos[i].digest, ':').Some?
    {
      assert IdsOf(infos)[i] == LayerId(infos[i].digest) && Ids(img)[i] == LayerId(img.layers[i].digest);
      IdIsLong(img.layers[i].digest);
      HasColon(infos[i].digest);
    }
  }

  lemma IdIsLong(digest: string)
    requires Paths.IsDigest(digest)
    ensures LayerId(digest) != ""
  {
    Paths.DigestParts(digest);
    Closure.IdOfDigest(digest[7..]);
  }

  lemma HasColon(digest: string)
    requires LayerId(digest) != ""
    ensures Strings.Cut(digest, ':').Some?
  {
  }

  /** Over linked maps and distinct layers the state before the call decides. */
  lemma StopReadyIff(t: Tools, w: World, active: seq<Image>, op: Op)
    requires Proper(t) && op.StopImage? && op.which < |active| && HasImage(t, active[op.which], w) && Listed(t, active[op.which])
    requires E.WellFormed(w.engine) && Links.Linked(w.engine) && DistinctIds(InfosOf(t, active[op.which]))
    ensures var img := active[op.which];
            StopReady(w.engine, InfosOf(t, img)) <==>
              Found(w, InfosOf(t, img), op.clean, op.stopEnv) == if StopSucceeds(t, w, active, op) then Ids(img) else []
    ensures w.engine.running && StopReady(w.engine, InfosOf(t, active[op.which])) ==> StopSucceeds(t, w, active, op)
  {
    hide HasImage, Listed, Proper, LayerId, E.WellFormed, Links.Linked, DistinctIds, AllReleasable, StopLayers, Found, Ids, IdsOf,
      GetImageLayers, Infos, HaveColons;
    var (img, infos) := (active[op.which], InfosOf(t, active[op.which]));
    ListedByDigest(t, img);
    InfosHaveColons(t, img);
    StopRunsOver(t, w, img, op.clean, op.stopEnv);
    if w.engine.running {
      StopsAllIff(w, infos, op.clean, op.stopEnv);
      if !StopSucceeds(t, w, active, op) {
        FailedStopFinds(w, infos, op.clean, op.stopEnv);
      }
    } else {
      IdleStop(w, infos, op.clean, op.stopEnv);
    }
  }

  /** A stop of a stored image is the loop over its layers. */
  lemma StopRunsOver(t: Tools, w: World, img: Image, clean: bool, stopEnv: string -> E.DeleteEnv)
    requires Proper(t) && HasImage(t, img, w) && Listed(t, img)
    ensures var r := StopDownload(t, w, img.repo, img.tag, clean, stopEnv);
            && r.0 == StopLayers(w, InfosOf(t, img), clean, stopEnv).0
            && (r.1.Ok? <==> StopLayers(w, InfosOf(t, img), clean, stopEnv).1.Nil?)
  {
    hide HasImage, Proper, StopLayers, GetImageLayers, Infos, IdsOf;
    LayersReadBack(t, img, w);
    assert GetImageLayers(t, w, img.repo, img.tag) == Ok(InfosOf(t, img));
  }

  /** An engine that does not run stops nothing. */
  lemma IdleStop(w: World, infos: seq<BlobInfo>, clean: bool, env: string -> E.DeleteEnv)
    requires !w.engine.running && HaveColons(infos)
    ensures Found(w, infos, clean, env) == [] && (StopLayers(w, infos, clean, env).1.Nil? <==> infos == [])
    ensures |IdsOf(infos)| == |infos|
  {
    hide LayerId, StopLayer;
    if infos != [] {
      UnknownStops(w, LayerId(infos[0].digest), clean, env);
    }
  }

  lemma StopBookedIff(t: Tools, s0: E.Engine, w: World, active: seq<Image>, op: Op)
    requires Proper(t) && Sane(t, s0, w, active) && Booked(s0, w, active) && op.StopImage? && op.which < |active|
    ensures Booked(s0, DoOp(t, w, active, op), NextActive(t, w, active, op)) <==> Balanced(t, w, active, op)
  {
    hide StopDownload, HasImage, Listed, Closure.Addressed, E.Run, Found, NetSince, Grows, Demand, Ids, IdsOf, Counts.Net, Proper, Infos,
      Links.Linked, E.WellFormed, StopReady, DistinctIds;
    var img := active[op.which];
    var w' := DoOp(t, w, active, op);
    var found := Found(w, InfosOf(t, img), op.clean, op.stopEnv);
    var rest := active[..op.which] + active[op.which + 1..];
    forall id
      ensures Counts.Net(s0, w'.log, id) == Counts.Net(s0, w.log, id) - multiset(found)[id]
      ensures Demand(rest, id) == Demand(active, id) - multiset(Ids(img))[id]
    {
      StopReleases(t, w, img, op.clean, op.stopEnv, id);
      LogGoesOn(s0, w, w', id);
      DemandWithout(active, op.which, id);
    }
    if StopSucceeds(t, w, active, op) {
      ListedByDigest(t, img);
      FoundAll(w, InfosOf(t, img), op.clean, op.stopEnv);
      if forall id :: multiset(found)[id] == multiset(Ids(img))[id] {
        SameCounts(found, Ids(img));
      }
    } else {
      NothingCounted(found);
    }
    if Links.Linked(w.engine) && DistinctIds(InfosOf(t, img)) {
      StopReadyIff(t, w, active, op);
    }
  }

  lemma TellBookedIff(t: Tools, s0: E.Engine, w: World, active: seq<Image>, e: E.Event)
    requires Sane(t, s0, w, active) && Booked(s0, w, active)
    ensures Booked(s0, Tell(w, e), active) <==> forall id :: Counts.NetStep(w.engine, e, id) == 0
  {
    hide HasImage, Listed, Closure.Addressed, E.Run, Tell, NetSince, Grows, Demand, Counts.Net, Counts.NetStep;
    forall id
      ensures Counts.Net(s0, Tell(w, e).log, id) == Counts.Net(s0, w.log, id) + Counts.NetStep(w.engine, e, id)
    {
      TellGrows(w, e, id);
      LogGoesOn(s0, w, Tell(w, e), id);
    }
    if Booked(s0, Tell(w, e), active) {
      forall id
        ensures Counts.NetStep(w.engine, e, id) == 0
      {
        assert Counts.Net(s0, Tell(w, e).log, id) == Demand(active, id);
      }
    }
  }

  /** The image's manifest names its layers, and the hash tells apart what the operation may publish. */
  ghost predicate FairOp(t: Tools, w: World, op: Op) {
    (op.Download? ==> Listed(t, op.img)) && CollisionFree(t.codec, w.blobs.Values + OpContents(t, w, op))
  }

  ghost predicate Fair(t: Tools, w: World, active: seq<Image>, ops: seq<Op>)
    decreases |ops|
  {
    ops != [] ==>
      && FairOp(t, w, ops[0])
      && Fair(t, DoOp(t, w, active, ops[0]), NextActive(t, w, active, ops[0]), ops[1..])
  }

  ghost predicate AlwaysBooked(t: Tools, s0: E.Engine, w: World, active: seq<Image>, ops: seq<Op>)
    decreases |ops|
  {
    && Booked(s0, w, active)
    && (ops != [] ==> AlwaysBooked(t, s0, DoOp(t, w, active, ops[0]), NextActive(t, w, active, ops[0]), ops[1..]))
  }

  ghost predicate AlwaysBalanced(t: Tools, w: World, active: seq<Image>, ops: seq<Op>)
    decreases |ops|
  {
    ops != [] ==>
      && Balanced(t, w, active, ops[0])
      && AlwaysBalanced(t, DoOp(t, w, active, ops[0]), NextActive(t, w, active, ops[0]), ops[1..])
  }

  lemma OpSane(t: Tools, s0: E.Engine, w: World, active: seq<Image>, op: Op)
    requires Proper(t) && Sane(t, s0, w, active) && FairOp(t, w, op)
    ensures Sane(t, s0, DoOp(t, w, active, op), NextActive(t, w, active, op))
  {
    hide Sane, Proper, CollisionFree, Drive, StopDownload, Tell, Listed, OpContents;
    match op {
      case Download(_, _, _, _) => DownloadSane(t, s0, w, active, op);
      case StopImage(_, _, _) => StopSane(t, s0, w, active, op);
      case EngineStep(e) => TellSane(t, s0, w, active, e);
    }
  }

  lemma OpBookedIff(t: Tools, s0: E.Engine, w: World, active: seq<Image>, op: Op)
    requires Proper(t) && Sane(t, s0, w, active) && (op.Download? ==> Listed(t, op.img)) && Booked(s0, w, active)
    ensures Booked(s0, DoOp(t, w, active, op), NextActive(t, w, active, op)) <==> Balanced(t, w, active, op)
  {
    hide Sane, Proper, Drive, StopDownload, Listed, Booked, Took, Found, Ids, FirstAndDistinct, Tell, Counts.NetStep;
    match op {
      case Download(_, _, _, _) => DownloadBookedIff(t, s0, w, active, op);
      case StopImage(i, _, _) =>
        if i < |active| {
          StopBookedIff(t, s0, w, active, op);
        }
      case EngineStep(e) => TellBookedIff(t, s0, w, active, e);
    }
  }

  /**
   Over every history of downloads of either role, finished, failed or cut short, of stops, and of
   engine steps in between: the holds taken and not given back are at every point those that the
   active images ask for, if and only if every operation is balanced. A download that repeats a
   layer or finds one stored, or fails after it took a hold, is not, and neither is a seeder's that
   took one; nor is a stop that finds a layer no longer started.
   */
  lemma {:induction false} HoldsConservedIff(t: Tools, s0: E.Engine, w: World, active: seq<Image>, ops: seq<Op>)
    requires Proper(t) && Sane(t, s0, w, active) && Booked(s0, w, active) && Fair(t, w, active, ops)
    ensures AlwaysBooked(t, s0, w, active, ops) <==> AlwaysBalanced(t, w, active, ops)
    decreases |ops|
  {
    hide Sane, Booked, Proper, CollisionFree, DoOp, NextActive, Balanced, Listed, OpContents;
    if ops != [] {
      OpSane(t, s0, w, active, ops[0]);
      OpBookedIff(t, s0, w, active, ops[0]);
      if Balanced(t, w, active, ops[0]) {
        HoldsConservedIff(t, s0, DoOp(t, w, active, ops[0]), NextActive(t, w, active, ops[0]), ops[1..]);
      }
    }
  }

  lemma {:induction false} RunSane(t: Tools, s0: E.Engine, w: World, active: seq<Image>, ops: seq<Op>)
    requires Proper(t) && Sane(t, s0, w, active) && Fair(t, w, active, ops) && AlwaysBooked(t, s0, w, active, ops)
    ensures var (w', active') := RunOps(t, w, active, ops); Sane(t, s0, w', active') && Booked(s0, w', active')
    decreases |ops|
  {
    hide Sane, Booked, Proper, CollisionFree, DoOp, NextActive, Listed, OpContents;
    if ops != [] {
      OpSane(t, s0, w, active, ops[0]);
      RunSane(t, s0, DoOp(t, w, active, ops[0]), NextActive(t, w, active, ops[0]), ops[1..]);
    }
  }

  /** A world in which nothing is stored, over an engine that has just started. */
  function NewWorld(s0: E.Engine): World {
    World(map[], map[], s0, [])
  }

  lemma NewWorldSane(t: Tools, s0: E.Engine)
    requires E.WellFormed(s0)
    ensures Sane(t, s0, NewWorld(s0), []) && Booked(s0, NewWorld(s0), [])
  {
    hide HasImage, Listed;
  }

  /**
   The two cores together: after a balanced history from a new world, the engine's holds of a layer
   have been starts minus stops at every step exactly if its torrent was never dropped unevenly, and
   then `Count` stands for exactly the active images that have the layer.
   */
  lemma CountIsDemand(t: Tools, dataDir: map<string, Content>, torrentDir: map<string, E.TorrentFile>, ops: seq<Op>, id: string)
    requires var w0 := NewWorld(E.Fresh(dataDir, torrentDir));
             Proper(t) && Fair(t, w0, [], ops) && AlwaysBalanced(t, w0, [], ops)
    ensures var s0 := E.Fresh(dataDir, torrentDir);
            var (w, active) := RunOps(t, NewWorld(s0), [], ops);
            && (Counts.AlwaysHeld(s0, w.log, id, 0) <==> Counts.NeverUneven(s0, w.log, id))
            && (Counts.NeverUneven(s0, w.log, id) ==> Counts.Held(w.engine, id) == Demand(active, id))
  {
    hide Proper, Fair, AlwaysBalanced, AlwaysBooked, RunOps, E.Run, Counts.Net, Counts.NeverUneven, Counts.AlwaysHeld, Demand,
      HasImage, Listed, Closure.Addressed, E.WellFormed;
    var s0 := E.Fresh(dataDir, torrentDir);
    Restarts.FreshWellFormed(dataDir, torrentDir);
    NewWorldSane(t, s0);
    HoldsConservedIff(t, s0, NewWorld(s0), [], ops);
    RunSane(t, s0, NewWorld(s0), [], ops);
    Counts.RefinesCountIff(s0, RunOps(t, NewWorld(s0), [], ops).0.log, id);
  }

  /**
   Where the two part, for every history: a layer that two active images ask for, and that the
   engine counts twice, is let go by the first stop of either, while the other still asks for it.
   */
  lemma SecondHoldIsLost(t: Tools, s0: E.Engine, w: World, active: seq<Image>, op: Op, id: string)
    requires Proper(t) && Sane(t, s0, w, active) && w.engine.running
    requires op.StopImage? && op.which < |active| && StopSucceeds(t, w, active, op)
    requires DistinctIds(InfosOf(t, active[op.which])) && id in Ids(active[op.which])
    requires Demand(active, id) == 2 && Counts.Held(w.engine, id) == 2
    ensures Demand(NextActive(t, w, active, op), id) == 1 && Counts.Held(DoOp(t, w, active, op).engine, id) == 0
  {
    hide StopDownload, HasImage, Listed, Closure.Addressed, E.Run, Proper, Infos, E.WellFormed, StopLayers, LayerId, Demand, DistinctIds,
      E.IsStarted, IdsOf, Ids;
    var img := active[op.which];
    ListedByDigest(t, img);
    StopRunsOver(t, w, img, op.clean, op.stopEnv);
    StopLayersHeld(w, InfosOf(t, img), op.clean, op.stopEnv, id);
    DemandWithout(active, op.which, id);
    OnceEach(InfosOf(t, img), id);
  }

  lemma OnceEach(infos: seq<BlobInfo>, id: string)
    requires DistinctIds(infos)
    ensures multiset(IdsOf(infos))[id] == if id in IdsOf(infos) then 1 else 0
  {
    hide LayerId;
    var ids := IdsOf(infos);
    assert forall i, j :: 0 <= i < j < |ids| ==> ids[i] != ids[j];
    CountDistinct(ids, id);
  }

  lemma {:induction false} CountDistinct(ids: seq<string>, id: string)
    requires forall i, j :: 0 <= i < j < |ids| ==> ids[i] != ids[j]
    ensures multiset(ids)[id] == if id in ids then 1 else 0
  {
    if ids != [] {
      CountDistinct(ids[1..], id);
      assert ids == [ids[0]] + ids[1..];
    }
  }
}
