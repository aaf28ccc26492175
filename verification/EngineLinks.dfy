/**
 The two linked maps of the engine over every interleaving: layer ids and torrents correspond one
 to one exactly while no launch gives an id a new hash or a hash a second id.
 */
module EngineLinks {
  import opened Wrappers
  import opened Hex
  import opened EngineModel

  /** `id -> infoHash` is a bijection between the keys of `idInfos` and of `ts`. */
  ghost predicate Linked(s: Engine) {
    && (forall id :: id in s.idInfos ==> s.idInfos[id].infoHash in s.ts)
    && (forall i, j :: i in s.idInfos && j in s.idInfos && s.idInfos[i].infoHash == s.idInfos[j].infoHash ==> i == j)
    && (forall k :: k in s.ts ==> exists id :: id in s.idInfos && s.idInfos[id].infoHash == k)
  }

  /** A started id has a started torrent, or a goroutine that is still to start it. */
  ghost predicate Live(s: Engine) {
    forall id :: IsStarted(s, id) ==>
      var k := s.idInfos[id].infoHash;
      (k in s.ts && s.ts[k].state == Started) || k in s.starters
  }

  /** The id keeps its hash, and no other id has it. */
  ghost predicate OwnHash(s: Engine, id: string, h: Hash) {
    forall j :: j in s.idInfos ==> (j == id <==> s.idInfos[j].infoHash == HexString(h))
  }

  ghost predicate CleanStep(s: Engine, e: Event) {
    Launches(s, e).Some? && Accepted(e) ==> OwnHash(s, Launches(s, e).value.0, Launches(s, e).value.1)
  }

  /** Torrents that StopTorrent can still stop for `id`. */
  predicate Stoppable(s: Engine, id: string) {
    id in s.idInfos && s.idInfos[id].infoHash in s.ts && s.ts[s.idInfos[id].infoHash].state != Dropped
  }

  /** What an accepted launch does to the maps, in terms of plain lookups. */
  lemma LaunchEffect(s: Engine, e: Event)
    requires WellFormed(s) && Launches(s, e).Some?
    ensures var (id, h) := Launches(s, e).value;
            var k, s' := HexString(h), Do(s, e);
            && s'.client == AddToClient(s.client, h) && s'.dataDir == s.dataDir && s'.running == s.running
            && (!Accepted(e) ==> s'.idInfos == s.idInfos && s'.ts == s.ts && s'.starters == s.starters)
            && (Accepted(e) ==>
                 && s'.idInfos == s.idInfos[id := Info(k, true, 0)]
                 && s'.starters == s.starters + multiset{k}
                 && s'.ts == (if k in s.ts then s.ts else s.ts[k := Record(k, s'.client.live[h], Unknown)])
                 && s'.client.live[h].hash == h)
  {
    hide Canonical, HexString, Str2ih, Do, Launches;
    var (id, h) := Launches(s, e).value;
    LaunchStep(s, e);
    var torrentDir :| Do(s, e) == Launch(s.(torrentDir := torrentDir), id, h, Accepted(e)).0;
    LaunchOnlyWhenRunning(s, e);
  }

  lemma LaunchOnlyWhenRunning(s: Engine, e: Event)
    requires Launches(s, e).Some?
    ensures s.running && (e.Seed? || e.Leech?) && e.id == Launches(s, e).value.0 && !IsStarted(s, e.id)
  {
    hide Launch;
  }

  /** Starts that do not launch only count, or leave a torrent file behind. */
  lemma StartEffect(s: Engine, e: Event)
    requires Launches(s, e).None? && (e.Seed? || e.Leech?)
    ensures var s' := Do(s, e);
            && s'.ts == s.ts && s'.starters == s.starters && s'.client == s.client && s'.running == s.running
            && s'.idInfos == if s.running && IsStarted(s, e.id) then Join(s, e.id).idInfos else s.idInfos
  {
    hide Launch, HexString, Str2ih;
  }

  lemma StopEffect(s: Engine, id: string)
    requires WellFormed(s)
    ensures Do(s, Stop(id)) ==
              if !s.running || !IsStarted(s, id) then s
              else
                var k, c := s.idInfos[id].infoHash, s.idInfos[id].count - 1;
                if c > 0 || !Stoppable(s, id) then s.(idInfos := s.idInfos[id := Info(k, true, c)])
                else s.(idInfos := s.idInfos[id := Info(k, false, c)],
                        ts := s.ts[k := s.ts[k].(state := Dropped)],
                        client := DropFromClient(s.client, s.ts[k].tt.hash))
  {
    hide Canonical, HexString, Str2ih, GetTorrent;
    if s.running && IsStarted(s, id) {
      var info := s.idInfos[id].(count := s.idInfos[id].count - 1);
      GetTorrentFinds(s.(idInfos := s.idInfos[id := info]), s.idInfos[id].infoHash);
    }
  }

  /** The maps after DeleteTorrent; the files may be kept by a failure, the maps are not. */
  lemma DeleteEffect(s: Engine, id: string, env: DeleteEnv)
    requires WellFormed(s)
    ensures var s' := Do(s, Delete(id, env));
            && s'.running == s.running && s'.starters == s.starters
            && if !s.running || id !in s.idInfos || s.idInfos[id].started || s.idInfos[id].infoHash !in s.ts then s' == s
               else
                 var k := s.idInfos[id].infoHash;
                 && s'.idInfos == s.idInfos - {id} && s'.ts == s.ts - {k}
                 && s'.client == DropFromClient(s.client, s.ts[k].tt.hash)
  {
    hide HexString, Str2ih, GetTorrent;
    if s.running && id in s.idInfos && !s.idInfos[id].started {
      var k := s.idInfos[id].infoHash;
      GetTorrentFinds(s, k);
      if k in s.ts {
        HexStringInjective(s.ts[k].tt.hash, Str2ih(k).h);
      }
    }
  }

  lemma FireEffect(s: Engine, ih: string)
    requires WellFormed(s)
    ensures Do(s, Fire(ih)) ==
              if ih !in s.starters then s
              else
                var s1 := s.(starters := s.starters - multiset{ih});
                if ih in s.ts then s1.(ts := s.ts[ih := s.ts[ih].(state := Started)]) else s1
  {
    hide Canonical, HexString, Str2ih, GetTorrent;
    if ih in s.starters {
      GetTorrentFinds(s.(starters := s.starters - multiset{ih}), ih);
    }
  }

  lemma OwnHashKeepsLinked(s: Engine, e: Event)
    requires WellFormed(s) && Linked(s) && Launches(s, e).Some? && Accepted(e)
    requires OwnHash(s, Launches(s, e).value.0, Launches(s, e).value.1)
    ensures Linked(Do(s, e))
  {
    hide Canonical, HexString, Str2ih, Do, Launches, WellFormed;
    var (id, h) := Launches(s, e).value;
    var k, s' := HexString(h), Do(s, e);
    LaunchEffect(s, e);
    forall x | x in s'.ts
      ensures exists j :: j in s'.idInfos && s'.idInfos[j].infoHash == x
    {
      if x == k {
        assert s'.idInfos[id].infoHash == x;
      } else {
        var j :| j in s.idInfos && s.idInfos[j].infoHash == x;
        assert s'.idInfos[j].infoHash == x;
      }
    }
  }

  lemma LinkedNeedsOwnHash(s: Engine, e: Event)
    requires WellFormed(s) && Linked(s) && Launches(s, e).Some? && Accepted(e)
    requires !OwnHash(s, Launches(s, e).value.0, Launches(s, e).value.1)
    ensures !Linked(Do(s, e))
  {
    hide Canonical, HexString, Str2ih, Do, Launches, WellFormed;
    var (id, h) := Launches(s, e).value;
    var k, s' := HexString(h), Do(s, e);
    LaunchEffect(s, e);
    assert s'.idInfos[id].infoHash == k;
    var j :| j in s.idInfos && !(j == id <==> s.idInfos[j].infoHash == k);
    if j != id {
      assert s'.idInfos[j].infoHash == k;
    } else {
      var before := s.idInfos[id].infoHash;
      assert before in s'.ts;
      assert forall i :: i in s'.idInfos && i != id ==> s.idInfos[i].infoHash != before;
    }
  }

  lemma WriteDataEffect(s: Engine, id: string, content: Content)
    ensures Do(s, WriteData(id, content)) == s.(dataDir := s.dataDir[GetFilePath(id) := content])
  {
  }

  /** A launch keeps the correspondence exactly when the id keeps a hash of its own. */
  lemma LaunchLinkedIff(s: Engine, e: Event)
    requires WellFormed(s) && Linked(s) && Launches(s, e).Some? && Accepted(e)
    ensures Linked(Do(s, e)) <==> OwnHash(s, Launches(s, e).value.0, Launches(s, e).value.1)
  {
    if OwnHash(s, Launches(s, e).value.0, Launches(s, e).value.1) {
      OwnHashKeepsLinked(s, e);
    } else {
      LinkedNeedsOwnHash(s, e);
    }
  }

  /** Linked speaks of nothing but keys and hashes. */
  lemma LinkedByKeys(s: Engine, t: Engine)
    requires Linked(s) && t.ts.Keys == s.ts.Keys && t.idInfos.Keys == s.idInfos.Keys
    requires forall id :: id in s.idInfos ==> t.idInfos[id].infoHash == s.idInfos[id].infoHash
    ensures Linked(t)
  {
    assert forall id :: id in s.idInfos <==> id in t.idInfos;
    assert forall k :: k in s.ts <==> k in t.ts;
    forall k | k in t.ts
      ensures exists j :: j in t.idInfos && t.idInfos[j].infoHash == k
    {
      var j :| j in s.idInfos && s.idInfos[j].infoHash == k;
      assert t.idInfos[j].infoHash == k;
    }
  }

  lemma LiveByFields(s: Engine, t: Engine)
    requires t.ts == s.ts && t.idInfos == s.idInfos && t.starters == s.starters
    ensures Live(s) ==> Live(t)
  {
  }

  lemma StartLinked(s: Engine, e: Event)
    requires Linked(s) && Launches(s, e).None? && (e.Seed? || e.Leech?)
    ensures Linked(Do(s, e))
    ensures Live(s) ==> Live(Do(s, e))
  {
    hide Canonical, HexString, Str2ih, Do, Launches, Linked;
    StartEffect(s, e);
    LinkedByKeys(s, Do(s, e));
  }

  lemma StopLinked(s: Engine, id: string)
    requires WellFormed(s) && Linked(s)
    ensures Linked(Do(s, Stop(id)))
  {
    hide Canonical, HexString, Str2ih, Do, WellFormed, Linked;
    StopEffect(s, id);
    LinkedByKeys(s, Do(s, Stop(id)));
  }

  lemma StopLive(s: Engine, id: string)
    requires WellFormed(s) && Linked(s) && Live(s)
    ensures Live(Do(s, Stop(id)))
  {
    hide Canonical, HexString, Str2ih, Do, WellFormed;
    StopEffect(s, id);
  }

  lemma DeleteLinked(s: Engine, id: string, env: DeleteEnv)
    requires WellFormed(s) && Linked(s)
    ensures Linked(Do(s, Delete(id, env)))
    ensures Live(s) ==> Live(Do(s, Delete(id, env)))
  {
    hide Canonical, HexString, Str2ih, Do, WellFormed;
    DeleteEffect(s, id, env);
    var s' := Do(s, Delete(id, env));
    forall k | k in s'.ts
      ensures exists j :: j in s'.idInfos && s'.idInfos[j].infoHash == k
    {
      var j :| j in s.idInfos && s.idInfos[j].infoHash == k;
      assert j in s'.idInfos ==> s'.idInfos[j].infoHash == k;
    }
  }

  lemma FireLinked(s: Engine, ih: string)
    requires WellFormed(s) && Linked(s)
    ensures Linked(Do(s, Fire(ih)))
    ensures Live(s) ==> Live(Do(s, Fire(ih)))
  {
    hide Canonical, HexString, Str2ih, Do, WellFormed, Linked;
    FireEffect(s, ih);
    LinkedByKeys(s, Do(s, Fire(ih)));
  }

  lemma LaunchLive(s: Engine, e: Event)
    requires WellFormed(s) && Live(s) && Launches(s, e).Some?
    ensures Live(Do(s, e))
  {
    hide Canonical, HexString, Str2ih, Do, Launches, WellFormed;
    LaunchEffect(s, e);
  }

  /** One step keeps both, whatever it is, as long as a launch is clean. */
  lemma StepLinked(s: Engine, e: Event)
    requires WellFormed(s) && Linked(s) && CleanStep(s, e)
    ensures Linked(Do(s, e))
    ensures Live(s) ==> Live(Do(s, e))
  {
    hide Canonical, HexString, Str2ih, Do, Launches, WellFormed, Linked, Live, OwnHash;
    if Launches(s, e).Some? {
      if Accepted(e) {
        LaunchLinkedIff(s, e);
      } else {
        LaunchEffect(s, e);
        LinkedByKeys(s, Do(s, e));
      }
      if Live(s) {
        LaunchLive(s, e);
      }
    } else {
      match e
      case Seed(id, env) => StartLinked(s, e);
      case Leech(id, env) => StartLinked(s, e);
      case Stop(id) =>
        StopLinked(s, id);
        if Live(s) {
          StopLive(s, id);
        }
      case Delete(id, env) => DeleteLinked(s, id, env);
      case Fire(ih) => FireLinked(s, ih);
      case WriteData(id, content) =>
        WriteDataEffect(s, id, content);
        LinkedByKeys(s, Do(s, e));
        LiveByFields(s, Do(s, e));
    }
  }

  /** Every launch of the run finds its hash its own. */
  ghost predicate CleanRun(s: Engine, es: seq<Event>)
    decreases |es|
  {
    es != [] ==> CleanStep(s, es[0]) && CleanRun(Do(s, es[0]), es[1..])
  }

  ghost predicate AlwaysLinked(s: Engine, es: seq<Event>)
    decreases |es|
  {
    Linked(s) && (es != [] ==> AlwaysLinked(Do(s, es[0]), es[1..]))
  }

  /** The correspondence holds throughout a run exactly when all its launches are clean. */
  lemma {:induction false} RunLinkedIff(s: Engine, es: seq<Event>)
    requires WellFormed(s) && Linked(s)
    ensures AlwaysLinked(s, es) <==> CleanRun(s, es)
    decreases |es|
  {
    hide Canonical, HexString, Str2ih, Do, Launches, WellFormed, Linked, OwnHash;
    if es == [] {
    } else {
      StepWellFormed(s, es[0]);
      if CleanStep(s, es[0]) {
        StepLinked(s, es[0]);
        RunLinkedIff(Do(s, es[0]), es[1..]);
      } else {
        LaunchLinkedIff(s, es[0]);
      }
    }
  }

  /** Through a clean run every started id keeps a started torrent or a starter to come. */
  lemma {:induction false} RunLive(s: Engine, es: seq<Event>)
    requires WellFormed(s) && Linked(s) && Live(s) && CleanRun(s, es)
    ensures WellFormed(Run(s, es)) && Linked(Run(s, es)) && Live(Run(s, es))
    decreases |es|
  {
    hide Canonical, HexString, Str2ih, Do, Launches, WellFormed, Linked, OwnHash, Live;
    if es == [] {
    } else {
      StepWellFormed(s, es[0]);
      StepLinked(s, es[0]);
      RunLive(Do(s, es[0]), es[1..]);
    }
  }

  /** Every launch of the run is of an id in `hashOf`, with the hash assigned to it there. */
  ghost predicate Assigned(s: Engine, es: seq<Event>, hashOf: map<string, Hash>)
    decreases |es|
  {
    es != [] ==> AssignedStep(s, es[0], hashOf) && Assigned(Do(s, es[0]), es[1..], hashOf)
  }

  predicate AssignedStep(s: Engine, e: Event, hashOf: map<string, Hash>) {
    match Launches(s, e)
    case None => true
    case Some((id, h)) => id in hashOf && hashOf[id] == h
  }

  ghost predicate Injective(hashOf: map<string, Hash>) {
    forall i, j :: i in hashOf && j in hashOf && hashOf[i] == hashOf[j] ==> i == j
  }

  ghost predicate Tagged(s: Engine, hashOf: map<string, Hash>) {
    forall id :: id in s.idInfos ==> id in hashOf && s.idInfos[id].infoHash == HexString(hashOf[id])
  }

  lemma StepTagged(s: Engine, e: Event, hashOf: map<string, Hash>)
    requires WellFormed(s) && Tagged(s, hashOf) && AssignedStep(s, e, hashOf)
    ensures Tagged(Do(s, e), hashOf)
  {
    hide Canonical, HexString, Str2ih, Do, Launches, WellFormed;
    if Launches(s, e).Some? {
      LaunchEffect(s, e);
    } else {
      match e
      case Seed(id, env) => StartEffect(s, e);
      case Leech(id, env) => StartEffect(s, e);
      case Stop(id) => StopEffect(s, id);
      case Delete(id, env) => DeleteEffect(s, id, env);
      case Fire(ih) => FireEffect(s, ih);
      case WriteData(id, content) => WriteDataEffect(s, id, content);
    }
  }

  lemma TaggedOwnHash(s: Engine, e: Event, hashOf: map<string, Hash>)
    requires Tagged(s, hashOf) && Injective(hashOf) && AssignedStep(s, e, hashOf) && Launches(s, e).Some?
    ensures OwnHash(s, Launches(s, e).value.0, Launches(s, e).value.1)
  {
    hide HexString, Launches;
    var (id, h) := Launches(s, e).value;
    forall j | j in s.idInfos && s.idInfos[j].infoHash == HexString(h)
      ensures j == id
    {
      HexStringInjective(hashOf[j], h);
    }
  }

  /** A fixed, injective assignment of hashes to ids makes every interleaving clean. */
  lemma {:induction false} AssignedRunIsClean(s: Engine, es: seq<Event>, hashOf: map<string, Hash>)
    requires WellFormed(s) && Tagged(s, hashOf) && Injective(hashOf) && Assigned(s, es, hashOf)
    ensures CleanRun(s, es)
    decreases |es|
  {
    hide Canonical, HexString, Str2ih, Do, Launches, WellFormed, Tagged, OwnHash, Injective, AssignedStep;
    if es == [] {
    } else {
      if Launches(s, es[0]).Some? {
        TaggedOwnHash(s, es[0], hashOf);
      }
      StepWellFormed(s, es[0]);
      StepTagged(s, es[0], hashOf);
      AssignedRunIsClean(Do(s, es[0]), es[1..], hashOf);
    }
  }

  /**
   From a fresh engine, in every interleaving of locked operations and starters whose launches
   follow an injective assignment, ids and torrents correspond one to one and started ids are live.
   */
  lemma EngineStaysLinked(dataDir: map<string, Content>, torrentDir: map<string, TorrentFile>,
                          es: seq<Event>, hashOf: map<string, Hash>)
    requires Injective(hashOf) && Assigned(Fresh(dataDir, torrentDir), es, hashOf)
    ensures var s := Run(Fresh(dataDir, torrentDir), es); WellFormed(s) && Linked(s) && Live(s)
  {
    var s := Fresh(dataDir, torrentDir);
    AssignedRunIsClean(s, es, hashOf);
    RunLive(s, es);
  }
}
