/**
 Holds when downloads overlap: any number of them, with stops, starters and other engine steps
 falling anywhere between their steps.
 */
module OverlappingHolds {
  import opened Wrappers
  import opened Hex
  import opened Layouts
  import opened Manifests
  import opened Downloads
  import opened Holds
  import E = EngineModel
  import Counts = EngineCounts

  /** The ids of which the event takes a hold: a download's step, or a start that succeeds. */
  function EventTook(t: Tools, s: System, e: Event): seq<string> {
    match e
    case Advance(i, env) => if i in s.procs then TookStep(t, s.world, s.procs[i], env) else []
    case Engine(Leech(id, env)) => if E.StartLeecher(s.world.engine, id, env).1.Nil? then [id] else []
    case Engine(Seed(id, env)) => if E.StartSeed(s.world.engine, id, env).1.Nil? then [id] else []
    case _ => []
  }

  /** The id of which the event gives a hold back: a stop that finds it started. */
  function EventGave(s: System, e: Event): seq<string> {
    match e
    case Engine(Stop(id)) => if s.world.engine.running && E.IsStarted(s.world.engine, id) then [id] else []
    case _ => []
  }

  function RunTook(t: Tools, s: System, es: seq<Event>): seq<string>
    decreases |es|
  {
    if es == [] then [] else EventTook(t, s, es[0]) + RunTook(t, Do(t, s, es[0]), es[1..])
  }

  function RunGave(t: Tools, s: System, es: seq<Event>): seq<string>
    decreases |es|
  {
    if es == [] then [] else EventGave(s, es[0]) + RunGave(t, Do(t, s, es[0]), es[1..])
  }

  lemma EngineEventNet(t: Tools, s: System, e: E.Event, id: string)
    ensures var s' := Do(t, s, Engine(e));
            && Grows(s.world, s'.world)
            && NetSince(s.world, s'.world, id) + multiset(EventGave(s, Engine(e)))[id] == multiset(EventTook(t, s, Engine(e)))[id]
  {
    hide E.Do, E.StartLeecher, E.StartSeed, E.IsStarted, Counts.NetStep, NetSince, Grows, Tell;
    TellGrows(s.world, e, id);
    match e {
      case Leech(x, env) => StartNet(s.world.engine, x, env, E.SeedEnv(None, false, false, false, false), id);
      case Seed(x, env) => StartNet(s.world.engine, x, E.LeechEnv(None, false), env, id);
      case _ => OtherNet(s.world.engine, e, id);
    }
  }

  lemma EventNet(t: Tools, s: System, e: Event, id: string)
    ensures var s' := Do(t, s, e);
            && Grows(s.world, s'.world)
            && NetSince(s.world, s'.world, id) + multiset(EventGave(s, e))[id] == multiset(EventTook(t, s, e))[id]
  {
    hide StepProc, TookStep, Tell, NetSince, Grows;
    match e {
      case Advance(i, env) =>
        if i in s.procs {
          StepNet(t, s.world, s.procs[i], env, id);
        } else {
          NothingSince(s.world, id);
        }
      case Engine(ee) => EngineEventNet(t, s, ee, id);
      case _ => SameLog(s.world, Do(t, s, e).world, id);
    }
  }

  /**
   In every interleaving of downloads, stops, starters and crashes, and at every step of it, the
   holds taken and not given back are what the downloads took less what the stops found started.
   */
  lemma {:induction false} RunNet(t: Tools, s: System, es: seq<Event>, id: string)
    ensures var s' := Run(t, s, es);
            && Grows(s.world, s'.world)
            && NetSince(s.world, s'.world, id) + multiset(RunGave(t, s, es))[id] == multiset(RunTook(t, s, es))[id]
    decreases |es|
  {
    hide Do, EventTook, EventGave, NetSince, Grows;
    if es == [] {
      NothingSince(s.world, id);
    } else {
      var s1 := Do(t, s, es[0]);
      EventNet(t, s, es[0], id);
      RunNet(t, s1, es[1..], id);
      GrowsOn(s.world, s1.world, Run(t, s1, es[1..]).world, id);
    }
  }

  /** The ids of which one of the downloads takes holds. */
  function TookBy(t: Tools, s: System, es: seq<Event>, i: nat): seq<string>
    decreases |es|
  {
    if es == [] then []
    else (if es[0].Advance? && es[0].i == i then EventTook(t, s, es[0]) else []) + TookBy(t, Do(t, s, es[0]), es[1..], i)
  }

  /** The layers that a download at `pc` has still to come to. */
  function LayersAhead(img: Image, pc: PC): seq<string> {
    match pc
    case AtLayer(j) => if j <= |img.layers| then Ids(img)[j..] else []
    case Fetched(j) => if j < |img.layers| then Ids(img)[j + 1..] else []
    case _ => []
  }

  lemma StepPc(t: Tools, w: World, p: Proc, env: Env)
    requires p.role.Leecher? && !p.pc.Copied?
    ensures var p' := StepProc(t, w, p, env).1;
            && p'.role.Leecher? && p'.img == p.img && !p'.pc.Copied?
            && match p.pc
               case AtLayer(i) =>
                 if i >= |p.img.layers| then p'.pc == AtConfig else p'.pc == Fetched(i) || p'.pc == AtLayer(i + 1) || p'.pc.Failed?
               case Fetched(i) => p'.pc.Failed? || (i < |p.img.layers| && p'.pc == AtLayer(i + 1))
               case _ => !p'.pc.AtLayer? && !p'.pc.Fetched?
  {
    hide LayerId, E.Do, E.StartLeecher, Exists, CreateOciManifest;
  }

  lemma StepAhead(t: Tools, w: World, p: Proc, env: Env, id: string)
    requires p.role.Leecher? && !p.pc.Copied?
    ensures var p' := StepProc(t, w, p, env).1;
            && p'.role.Leecher? && !p'.pc.Copied? && p'.img == p.img
            && multiset(TookStep(t, w, p, env))[id] + multiset(LayersAhead(p.img, p'.pc))[id] <= multiset(LayersAhead(p.img, p.pc))[id]
  {
    hide StepProc, LayerId, Ids;
    StepPc(t, w, p, env);
    if p.pc.AtLayer? && p.pc.i < |p.img.layers| {
      OneAhead(p.img, p.pc.i, id);
    }
  }

  lemma OneAhead(img: Image, i: nat, id: string)
    requires i < |img.layers|
    ensures |Ids(img)| == |img.layers|
    ensures multiset(Ids(img)[i..])[id] == multiset([LayerId(img.layers[i].digest)])[id] + multiset(Ids(img)[i + 1..])[id]
  {
    hide LayerId;
    var ids := Ids(img);
    assert ids[i..] == [ids[i]] + ids[i + 1..];
    assert ids[i] == LayerId(img.layers[i].digest);
  }

  predicate NeverKills(es: seq<Event>, i: nat) {
    forall k :: 0 <= k < |es| ==> es[k] != Kill(i)
  }

  /** Whatever goes on around it, a leecher's download takes each of its layers at most once for each time that it is listed. */
  lemma {:induction false} TookByBound(t: Tools, s: System, es: seq<Event>, i: nat, id: string)
    requires i in s.procs && s.procs[i].role.Leecher? && !s.procs[i].pc.Copied? && NeverKills(es, i)
    ensures multiset(TookBy(t, s, es, i))[id] <= multiset(LayersAhead(s.procs[i].img, s.procs[i].pc))[id]
    decreases |es|
  {
    hide StepProc, TookStep, LayersAhead, E.Do;
    if es != [] {
      assert es[0] != Kill(i);
      var s1 := Do(t, s, es[0]);
      if es[0].Advance? && es[0].i == i {
        StepAhead(t, s.world, s.procs[i], es[0].env, id);
      }
      TookByBound(t, s1, es[1..], i, id);
    }
  }
}
