/**
 Stopping for good, starters that come late, stale library objects, and ids stuck on a shared hash.
 */
module EngineRestarts {
  import opened Wrappers
  import opened Hex
  import opened EngineModel
  import opened EngineLinks
  import opened EngineCounts

  /** No step of the run launches the info hash `k`. */
  ghost predicate NeverLaunches(s: Engine, es: seq<Event>, k: string)
    decreases |es|
  {
    es != [] ==>
      && (Launches(s, es[0]).Some? ==> HexString(Launches(s, es[0]).value.1) != k)
      && NeverLaunches(Do(s, es[0]), es[1..], k)
  }

  /** Torrent `k` is stopped or unknown, and nothing is under way that would start it. */
  predicate Quiet(s: Engine, k: string) {
    (k in s.ts ==> s.ts[k].state == Dropped) && k !in s.starters
  }

  lemma StepQuiet(s: Engine, e: Event, k: string)
    requires WellFormed(s) && Quiet(s, k)
    requires Launches(s, e).Some? ==> HexString(Launches(s, e).value.1) != k
    ensures Quiet(Do(s, e), k)
  {
    hide Canonical, HexString, Str2ih, Do, Launches, WellFormed;
    if Launches(s, e).Some? {
      LaunchEffect(s, e);
    } else {
      match e
      case Seed(_, env) => StartEffect(s, e);
      case Leech(_, env) => StartEffect(s, e);
      case Stop(i) => StopEffect(s, i);
      case Delete(i, env) => DeleteEffect(s, i, env);
      case Fire(ih) => FireEffect(s, ih);
      case WriteData(i, content) => WriteDataEffect(s, i, content);
    }
  }

  lemma {:induction false} RunQuiet(s: Engine, es: seq<Event>, k: string)
    requires WellFormed(s) && Quiet(s, k) && NeverLaunches(s, es, k)
    ensures Quiet(Run(s, es), k)
    decreases |es|
  {
    hide Do, WellFormed, Quiet, HexString, Launches;
    if es == [] {
    } else {
      StepWellFormed(s, es[0]);
      StepQuiet(s, es[0], k);
      RunQuiet(Do(s, es[0]), es[1..], k);
    }
  }

  /** The maps after a stop that really stops. */
  lemma RealStop(s: Engine, id: string)
    requires WellFormed(s) && s.running && IsStarted(s, id) && !IsStarted(Do(s, Stop(id)), id)
    ensures var k, s1 := s.idInfos[id].infoHash, Do(s, Stop(id));
            && WellFormed(s1) && k in s1.ts && s1.ts[k].state == Dropped && s1.starters == s.starters
            && id in s1.idInfos && !s1.idInfos[id].started
  {
    hide Canonical, HexString, Str2ih, Do, WellFormed;
    StopEffect(s, id);
    StepWellFormed(s, Stop(id));
  }

  /** A starter that is still to come puts a stopped torrent back to Started, its id staying stopped. */
  lemma LateStarterRevives(s: Engine, id: string)
    requires WellFormed(s) && s.running && IsStarted(s, id) && !IsStarted(Do(s, Stop(id)), id)
    requires s.idInfos[id].infoHash in s.starters
    ensures var k, s2 := s.idInfos[id].infoHash, Do(Do(s, Stop(id)), Fire(s.idInfos[id].infoHash));
            k in s2.ts && s2.ts[k].state == Started && !IsStarted(s2, id)
  {
    hide Canonical, HexString, Str2ih, Do, WellFormed;
    RealStop(s, id);
    FireEffect(Do(s, Stop(id)), s.idInfos[id].infoHash);
  }

  /**
   A stop that really stops is final, in every run without a new launch of the hash, exactly when
   all starters of the hash have run before it.
   */
  lemma StopIsFinalIff(s: Engine, id: string)
    requires WellFormed(s) && s.running && IsStarted(s, id) && !IsStarted(Do(s, Stop(id)), id)
    ensures var k, s1 := s.idInfos[id].infoHash, Do(s, Stop(id));
            k !in s.starters <==>
              forall es :: NeverLaunches(s1, es, k) ==> k in Run(s1, es).ts ==> Run(s1, es).ts[k].state == Dropped
  {
    hide Canonical, HexString, Str2ih, Do, WellFormed, Launches, NeverLaunches;
    var k, s1 := s.idInfos[id].infoHash, Do(s, Stop(id));
    RealStop(s, id);
    if k !in s.starters {
      forall es | NeverLaunches(s1, es, k)
        ensures k in Run(s1, es).ts ==> Run(s1, es).ts[k].state == Dropped
      {
        RunQuiet(s1, es, k);
      }
    } else {
      LateStarterRevives(s, id);
      FireNeverLaunches(s1, k);
      RunOne(s1, Fire(k));
      assert Run(s1, [Fire(k)]).ts[k].state == Started;
    }
  }

  lemma FireNeverLaunches(s: Engine, k: string)
    ensures NeverLaunches(s, [Fire(k)], k)
  {
    hide Do;
    assert [Fire(k)][1..] == [];
  }

  /** A starter that comes second, or too late, changes nothing but the pending starters. */
  lemma ExtraStarterIsHarmless(s: Engine, ih: string)
    requires WellFormed(s) && (ih !in s.ts || s.ts[ih].state == Started)
    ensures Do(s, Fire(ih)) == s.(starters := s.starters - multiset{ih})
  {
    hide Canonical, HexString, Str2ih, Do, WellFormed;
    FireEffect(s, ih);
    if ih in s.ts {
      assert s.ts == s.ts[ih := s.ts[ih].(state := Started)];
    }
    if ih !in s.starters {
      assert s.starters == s.starters - multiset{ih};
    }
  }

  /** Started, with a torrent that no call can stop and no goroutine will start. */
  predicate Stuck(s: Engine, id: string, k: string) {
    IsStarted(s, id) && s.idInfos[id].infoHash == k && Quiet(s, k)
  }

  lemma StepStuck(s: Engine, e: Event, id: string, k: string)
    requires WellFormed(s) && Stuck(s, id, k)
    requires Launches(s, e).Some? ==> HexString(Launches(s, e).value.1) != k
    ensures Stuck(Do(s, e), id, k)
  {
    hide Canonical, HexString, Str2ih, Do, Launches, WellFormed, Quiet;
    StepQuiet(s, e, k);
    if Launches(s, e).Some? {
      LaunchEffect(s, e);
      LaunchOnlyWhenRunning(s, e);
    } else {
      match e
      case Seed(_, env) => StartEffect(s, e);
      case Leech(_, env) => StartEffect(s, e);
      case Stop(i) => StuckStop(s, i, id, k);
      case Delete(i, env) => DeleteEffect(s, i, env);
      case Fire(ih) => FireEffect(s, ih);
      case WriteData(i, content) => WriteDataEffect(s, i, content);
    }
  }

  lemma StuckStop(s: Engine, i: string, id: string, k: string)
    requires WellFormed(s) && Stuck(s, id, k)
    ensures IsStarted(Do(s, Stop(i)), id) && Do(s, Stop(i)).idInfos[id].infoHash == k
  {
    hide Canonical, HexString, Str2ih, Do, WellFormed;
    StopEffect(s, i);
  }

  /**
   A stuck id stays started in every run, and cannot be deleted, until some other id launches its
   hash again: starting it only counts, and stopping it fails.
   */
  lemma {:induction false} StuckForever(s: Engine, es: seq<Event>, id: string, k: string)
    requires WellFormed(s) && Stuck(s, id, k) && NeverLaunches(s, es, k)
    ensures Stuck(Run(s, es), id, k)
    ensures s.running ==> forall env :: DeleteTorrent(Run(s, es), id, env) == (Run(s, es), Err(StillStarted))
    decreases |es|
  {
    hide Do, WellFormed, HexString, Launches, Quiet;
    if es == [] {
    } else {
      StepWellFormed(s, es[0]);
      StepStuck(s, es[0], id, k);
      StepRunning(s, es[0]);
      StuckForever(Do(s, es[0]), es[1..], id, k);
    }
  }

  /** Two ids that share a hash: once both have started and one is stopped, the other is stuck. */
  lemma SharedHashSticks(a: string, b: string, h: Hash)
    requires a != b
    ensures var env := LeechEnv(Some(h), true);
            var k := HexString(h);
            var s := Run(Fresh(map[], map[]), [Leech(a, env), Leech(b, env), Fire(k), Fire(k), Stop(a)]);
            WellFormed(s) && Stuck(s, b, k) && !Linked(s) && !IsStarted(s, a)
  {
    hide Canonical, HexString, Str2ih, Do, Run, WellFormed;
    var env, k := LeechEnv(Some(h), true), HexString(h);
    var s0 := Fresh(map[], map[]);
    FreshWellFormed(map[], map[]);
    var s1 := Do(s0, Leech(a, env));
    LaunchEffect(s0, Leech(a, env));
    StepWellFormed(s0, Leech(a, env));
    var s2 := Do(s1, Leech(b, env));
    LaunchEffect(s1, Leech(b, env));
    StepWellFormed(s1, Leech(b, env));
    var s3 := Do(s2, Fire(k));
    FireEffect(s2, k);
    StepWellFormed(s2, Fire(k));
    var s4 := Do(s3, Fire(k));
    FireEffect(s3, k);
    StepWellFormed(s3, Fire(k));
    var s5 := Do(s4, Stop(a));
    StopEffect(s4, a);
    StepWellFormed(s4, Stop(a));
    assert s5.idInfos[a].infoHash == s5.idInfos[b].infoHash;
    RunFive(s0, Leech(a, env), Leech(b, env), Fire(k), Fire(k), Stop(a));
  }

  lemma FreshWellFormed(dataDir: map<string, Content>, torrentDir: map<string, TorrentFile>)
    ensures WellFormed(Fresh(dataDir, torrentDir)) && Linked(Fresh(dataDir, torrentDir))
  {
  }

  lemma RunOne(s: Engine, e: Event)
    ensures Run(s, [e]) == Do(s, e)
  {
    hide Do;
    assert [e][1..] == [];
  }

  lemma RunTwo(s: Engine, e1: Event, e2: Event)
    ensures Run(s, [e1, e2]) == Do(Do(s, e1), e2)
  {
    hide Do;
    assert [e1, e2][1..] == [e2];
    RunOne(Do(s, e1), e2);
  }

  lemma RunFive(s: Engine, e1: Event, e2: Event, e3: Event, e4: Event, e5: Event)
    ensures Run(s, [e1, e2, e3, e4, e5]) == Do(Do(Do(Do(Do(s, e1), e2), e3), e4), e5)
  {
    hide Do;
    var (s1, s2, s3) := (Do(s, e1), Do(Do(s, e1), e2), Do(Do(Do(s, e1), e2), e3));
    assert [e1, e2, e3, e4, e5][1..] == [e2, e3, e4, e5];
    assert [e2, e3, e4, e5][1..] == [e3, e4, e5];
    assert [e3, e4, e5][1..] == [e4, e5];
    RunTwo(s3, e4, e5);
    assert Run(s2, [e3, e4, e5]) == Run(s3, [e4, e5]);
    assert Run(s1, [e2, e3, e4, e5]) == Run(s2, [e3, e4, e5]);
  }

  /** Wherever the client has a live object and the engine a record, the record holds that object. */
  ghost predicate Current(s: Engine) {
    forall h :: h in s.client.live && HexString(h) in s.ts ==> s.ts[HexString(h)].tt == s.client.live[h]
  }

  /**
   A launch keeps the records current exactly when the hash has no record, or the client still has
   its object: a record left by a stop keeps the dropped object, and every use of it is lost.
   */
  lemma LaunchCurrentIff(s: Engine, e: Event)
    requires WellFormed(s) && Current(s) && Launches(s, e).Some?
    ensures Current(Do(s, e)) <==>
              (HexString(Launches(s, e).value.1) in s.ts ==> Launches(s, e).value.1 in s.client.live)
  {
    hide Canonical, Str2ih, HexString, Do, Launches;
    var (id, h) := Launches(s, e).value;
    var k, s' := HexString(h), Do(s, e);
    LaunchEffect(s, e);
    forall g | g in s.client.live && HexString(g) == k
      ensures g == h
    {
      HexStringInjective(g, h);
    }
    if k in s.ts && h !in s.client.live {
      assert s'.client.live[h].uid == s.client.next;
      assert s'.ts[k].tt != s'.client.live[h];
    } else {
      forall g | g in s'.client.live && HexString(g) in s'.ts
        ensures s'.ts[HexString(g)].tt == s'.client.live[g]
      {
        if HexString(g) == k {
          HexStringInjective(g, h);
        }
      }
    }
  }

  lemma StopCurrent(s: Engine, id: string)
    requires WellFormed(s) && Current(s)
    ensures Current(Do(s, Stop(id)))
  {
    hide Canonical, Str2ih, HexString, Do;
    StopEffect(s, id);
    var s' := Do(s, Stop(id));
    forall g | g in s'.client.live && HexString(g) in s'.ts
      ensures s'.ts[HexString(g)].tt == s'.client.live[g]
    {
      if IsStarted(s, id) && HexString(g) == s.idInfos[id].infoHash {
        HexStringInjective(g, s.ts[HexString(g)].tt.hash);
      }
    }
  }

  lemma DeleteCurrent(s: Engine, id: string, env: DeleteEnv)
    requires WellFormed(s) && Current(s)
    ensures Current(Do(s, Delete(id, env)))
  {
    hide Canonical, Str2ih, HexString, Do;
    DeleteEffect(s, id, env);
  }

  /** A start is of an id that is started, or that the engine does not know. */
  predicate NoRestart(s: Engine, e: Event) {
    (e.Seed? || e.Leech?) && e.id in s.idInfos ==> s.idInfos[e.id].started
  }

  /** A launch whose hash has a record finds its torrent object still live. */
  predicate FreshLaunch(s: Engine, e: Event) {
    match Launches(s, e)
    case None => true
    case Some((_, h)) => HexString(h) in s.ts ==> h in s.client.live
  }

  lemma StepCurrentIff(s: Engine, e: Event)
    requires WellFormed(s) && Current(s)
    ensures Current(Do(s, e)) <==> FreshLaunch(s, e)
  {
    hide Canonical, Str2ih, HexString, Do, Launches, WellFormed;
    if Launches(s, e).Some? {
      LaunchCurrentIff(s, e);
    } else {
      match e
      case Seed(_, env) => StartEffect(s, e);
      case Leech(_, env) => StartEffect(s, e);
      case Stop(i) => StopCurrent(s, i);
      case Delete(i, env) => DeleteCurrent(s, i, env);
      case Fire(ih) => FireEffect(s, ih);
      case WriteData(i, content) => WriteDataEffect(s, i, content);
    }
  }

  ghost predicate AlwaysCurrent(s: Engine, es: seq<Event>)
    decreases |es|
  {
    Current(s) && (es != [] ==> AlwaysCurrent(Do(s, es[0]), es[1..]))
  }

  predicate FreshLaunches(s: Engine, es: seq<Event>)
    decreases |es|
  {
    es != [] ==> FreshLaunch(s, es[0]) && FreshLaunches(Do(s, es[0]), es[1..])
  }

  /** Records stay current throughout a run exactly when no launch meets a record without its object. */
  lemma {:induction false} RunCurrentIff(s: Engine, es: seq<Event>)
    requires WellFormed(s) && Current(s)
    ensures AlwaysCurrent(s, es) <==> FreshLaunches(s, es)
    decreases |es|
  {
    hide Do, WellFormed, Current, FreshLaunch;
    if es == [] {
    } else {
      StepWellFormed(s, es[0]);
      StepCurrentIff(s, es[0]);
      if FreshLaunch(s, es[0]) {
        RunCurrentIff(Do(s, es[0]), es[1..]);
      }
    }
  }

  predicate NoRestarts(s: Engine, es: seq<Event>)
    decreases |es|
  {
    es != [] ==> NoRestart(s, es[0]) && NoRestarts(Do(s, es[0]), es[1..])
  }

  lemma NewIdIsFresh(s: Engine, e: Event, hashOf: map<string, Hash>)
    requires Linked(s) && NoRestart(s, e) && Tagged(s, hashOf) && Injective(hashOf) && AssignedStep(s, e, hashOf)
    ensures FreshLaunch(s, e)
  {
    hide HexString, Launches;
    if Launches(s, e).Some? {
      LaunchOnlyWhenRunning(s, e);
      TaggedOwnHash(s, e, hashOf);
    }
  }

  /**
   Records stay current over every run in which hashes are assigned to ids injectively and a
   stopped id is deleted before it is started again.
   */
  lemma {:induction false} RunCurrent(s: Engine, es: seq<Event>, hashOf: map<string, Hash>)
    requires WellFormed(s) && Linked(s) && Current(s) && NoRestarts(s, es)
    requires Tagged(s, hashOf) && Injective(hashOf) && Assigned(s, es, hashOf)
    ensures AlwaysCurrent(s, es)
    decreases |es|
  {
    hide Do, WellFormed, HexString, Launches, Current, Linked, Tagged, Injective, OwnHash, NoRestart, AssignedStep, FreshLaunch;
    if es == [] {
    } else {
      var e := es[0];
      NewIdIsFresh(s, e, hashOf);
      if Launches(s, e).Some? {
        TaggedOwnHash(s, e, hashOf);
      }
      StepWellFormed(s, e);
      StepLinked(s, e);
      StepTagged(s, e, hashOf);
      StepCurrentIff(s, e);
      RunCurrent(Do(s, e), es[1..], hashOf);
    }
  }

  /** Such runs start, stop, delete and start again, with other ids in between. */
  lemma AssignedRunExists(a: string, b: string, g: Hash, h: Hash)
    requires a != b && g != h
    ensures var hashOf := map[a := g, b := h];
            var (startA, startB) := (Leech(a, LeechEnv(Some(g), true)), Leech(b, LeechEnv(Some(h), true)));
            var es := [startA, startB, Stop(a), Delete(a, DeleteEnv(true, true)), startA];
            var s0 := Fresh(map[], map[]);
            && Injective(hashOf) && Assigned(s0, es, hashOf) && NoRestarts(s0, es)
            && IsStarted(Run(s0, es), a) && IsStarted(Run(s0, es), b)
  {
    hide Canonical, HexString, Str2ih, Do, Run, WellFormed, Launches, Assigned, NoRestarts, Linked;
    var (ea, eb) := (LeechEnv(Some(g), true), LeechEnv(Some(h), true));
    var delete := Delete(a, DeleteEnv(true, true));
    var s0 := Fresh(map[], map[]);
    FreshWellFormed(map[], map[]);
    LeechEffect(s0, a, g);
    var s1 := Do(s0, Leech(a, ea));
    LeechEffect(s1, b, h);
    var s2 := Do(s1, Leech(b, eb));
    if HexString(g) == HexString(h) {
      HexStringInjective(g, h);
    }
    StopEffect(s2, a);
    StepWellFormed(s2, Stop(a));
    var s3 := Do(s2, Stop(a));
    DeleteEffect(s3, a, DeleteEnv(true, true));
    StepWellFormed(s3, delete);
    var s4 := Do(s3, delete);
    LeechEffect(s4, a, g);
    NoLaunch(s2, Stop(a));
    NoLaunch(s3, delete);
    RunFive(s0, Leech(a, ea), Leech(b, eb), Stop(a), delete, Leech(a, ea));
    AssignedFive(s0, Leech(a, ea), Leech(b, eb), Stop(a), delete, Leech(a, ea), map[a := g, b := h]);
  }

  lemma NoLaunch(s: Engine, e: Event)
    requires !e.Seed? && !e.Leech?
    ensures Launches(s, e) == None
  {
  }

  /** A leecher's start of an id that is not started. */
  lemma LeechEffect(s: Engine, id: string, h: Hash)
    requires WellFormed(s) && s.running && !IsStarted(s, id)
    ensures var e, k := Leech(id, LeechEnv(Some(h), true)), HexString(h);
            var s' := Do(s, e);
            && Launches(s, e) == Some((id, h)) && WellFormed(s') && s'.running
            && s'.idInfos == s.idInfos[id := Info(k, true, 0)] && k in s'.ts
            && (k in s.ts ==> s'.ts == s.ts) && (k !in s.ts ==> s'.ts.Keys == s.ts.Keys + {k} && s'.ts[k].state == Unknown)
            && (forall j :: j in s.ts ==> s'.ts[j] == s.ts[j])
            && s'.starters == s.starters + multiset{k} && s'.dataDir == s.dataDir && s'.torrentDir == s.torrentDir
  {
    hide Canonical, HexString, Str2ih, Do, WellFormed;
    var e := Leech(id, LeechEnv(Some(h), true));
    LaunchEffect(s, e);
    StepWellFormed(s, e);
    LeechKeepsFiles(s, id, LeechEnv(Some(h), true));
  }

  lemma LeechKeepsFiles(s: Engine, id: string, env: LeechEnv)
    ensures var s' := Do(s, Leech(id, env)); s'.dataDir == s.dataDir && s'.torrentDir == s.torrentDir
  {
    hide HexString;
  }

  lemma AssignedFive(s: Engine, e1: Event, e2: Event, e3: Event, e4: Event, e5: Event, hashOf: map<string, Hash>)
    requires var (s1, s2) := (Do(s, e1), Do(Do(s, e1), e2));
             var (s3, s4) := (Do(s2, e3), Do(Do(s2, e3), e4));
             && Disciplined(s, e1, hashOf) && Disciplined(s1, e2, hashOf) && Disciplined(s2, e3, hashOf)
             && Disciplined(s3, e4, hashOf) && Disciplined(s4, e5, hashOf)
    ensures Assigned(s, [e1, e2, e3, e4, e5], hashOf) && NoRestarts(s, [e1, e2, e3, e4, e5])
  {
    hide Do, Disciplined, Assigned, NoRestarts;
    var (s1, s2) := (Do(s, e1), Do(Do(s, e1), e2));
    var (s3, s4) := (Do(s2, e3), Do(Do(s2, e3), e4));
    NothingAssigned(Do(s4, e5), hashOf);
    assert [e5][1..] == [];
    assert [e4, e5][1..] == [e5];
    assert [e3, e4, e5][1..] == [e4, e5];
    assert [e2, e3, e4, e5][1..] == [e3, e4, e5];
    assert [e1, e2, e3, e4, e5][1..] == [e2, e3, e4, e5];
    OneMore(s4, [e5], hashOf);
    OneMore(s3, [e4, e5], hashOf);
    OneMore(s2, [e3, e4, e5], hashOf);
    OneMore(s1, [e2, e3, e4, e5], hashOf);
    OneMore(s, [e1, e2, e3, e4, e5], hashOf);
  }

  ghost predicate Disciplined(s: Engine, e: Event, hashOf: map<string, Hash>) {
    AssignedStep(s, e, hashOf) && NoRestart(s, e)
  }

  lemma NothingAssigned(s: Engine, hashOf: map<string, Hash>)
    ensures Assigned(s, [], hashOf) && NoRestarts(s, [])
  {
  }

  lemma OneMore(s: Engine, es: seq<Event>, hashOf: map<string, Hash>)
    requires es != [] && Disciplined(s, es[0], hashOf)
    requires Assigned(Do(s, es[0]), es[1..], hashOf) && NoRestarts(Do(s, es[0]), es[1..])
    ensures Assigned(s, es, hashOf) && NoRestarts(s, es)
  {
    hide Do, AssignedStep, NoRestart;
  }

  /** Start, stop, start again: the record is left with the object that the stop dropped. */
  lemma RestartIsStale(id: string, h: Hash)
    ensures var env := LeechEnv(Some(h), true);
            var k := HexString(h);
            var s := Run(Fresh(map[], map[]), [Leech(id, env), Fire(k), Stop(id), Leech(id, env), Fire(k)]);
            && !Current(s) && IsStarted(s, id)
            && k in s.ts && s.ts[k].state == Started && s.ts[k].tt == Handle(0, h)
            && h in s.client.live && s.client.live[h] == Handle(1, h)
  {
    hide Canonical, HexString, Str2ih, Do, Run, WellFormed;
    var env, k := LeechEnv(Some(h), true), HexString(h);
    var s0 := Fresh(map[], map[]);
    FreshWellFormed(map[], map[]);
    var e := Leech(id, env);
    var s1 := Do(s0, e);
    LaunchEffect(s0, e);
    StepWellFormed(s0, e);
    var s2 := Do(s1, Fire(k));
    FireEffect(s1, k);
    StepWellFormed(s1, Fire(k));
    var s3 := Do(s2, Stop(id));
    StopEffect(s2, id);
    StepWellFormed(s2, Stop(id));
    var s4 := Do(s3, e);
    LaunchEffect(s3, e);
    StepWellFormed(s3, e);
    FireEffect(s4, k);
    RunFive(s0, e, Fire(k), Stop(id), e, Fire(k));
  }
}
