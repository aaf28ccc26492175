/**
 The wait of a leecher's start for its data (bt/btprogress.go:29-37, bt/engine.go:411-415): it asks
 the library object of the engine's record how many bytes are there, again and again.
 */
module Waiting {
  import opened Wrappers
  import opened Hex
  import opened EngineModel
  import opened EngineLinks
  import opened EngineRestarts

  /** The engine, and the bytes that each library object has completed. */
  datatype State = State(engine: Engine, bytes: map<Handle, nat>)

  datatype Event =
    | Step(e: EngineModel.Event)
    | Progress(h: Hash, n: nat)  // the library completes more of the live object's data

  function Completed(s: State, tt: Handle): nat {
    if tt in s.bytes then s.bytes[tt] else 0
  }

  predicate IsLive(s: Engine, tt: Handle) {
    tt.hash in s.client.live && s.client.live[tt.hash] == tt
  }

  /** The library works for its live objects only. */
  function Next(s: State, e: Event): State {
    match e
    case Step(ee) => s.(engine := Do(s.engine, ee))
    case Progress(h, n) =>
      if h !in s.engine.client.live then s
      else
        var tt := s.engine.client.live[h];
        s.(bytes := s.bytes[tt := Completed(s, tt) + n])
  }

  function After(s: State, es: seq<Event>): State
    decreases |es|
  {
    if es == [] then s else After(Next(s, es[0]), es[1..])
  }

  /** An object that the library has dropped. */
  predicate Gone(s: Engine, tt: Handle) {
    tt.uid < s.client.next && !IsLive(s, tt)
  }

  /** What a step does to the library's objects: it makes new ones and drops some. */
  lemma StepClient(s: Engine, e: EngineModel.Event)
    requires WellFormed(s)
    ensures var c, c' := s.client, Do(s, e).client;
            && c'.next >= c.next
            && forall h :: h in c'.live ==> (h in c.live && c'.live[h] == c.live[h]) || c'.live[h].uid >= c.next
  {
    hide Canonical, HexString, Str2ih, Do, Launches, WellFormed;
    if Launches(s, e).Some? {
      LaunchEffect(s, e);
    } else {
      match e {
        case Seed(_, env) => StartEffect(s, e);
        case Leech(_, env) => StartEffect(s, e);
        case Stop(i) => StopEffect(s, i);
        case Delete(i, env) => DeleteEffect(s, i, env);
        case Fire(ih) => FireEffect(s, ih);
        case WriteData(i, content) => WriteDataEffect(s, i, content);
      }
    }
  }

  lemma StepGone(s: State, e: Event, tt: Handle)
    requires WellFormed(s.engine) && Gone(s.engine, tt)
    ensures WellFormed(Next(s, e).engine) && Gone(Next(s, e).engine, tt) && Completed(Next(s, e), tt) == Completed(s, tt)
  {
    hide Do, WellFormed;
    if e.Step? {
      StepClient(s.engine, e.e);
      StepWellFormed(s.engine, e.e);
    } else if e.h in s.engine.client.live {
      LiveHash(s.engine, e.h);
    }
  }

  lemma LiveHash(s: Engine, h: Hash)
    requires WellFormed(s) && h in s.client.live
    ensures s.client.live[h].hash == h
  {
  }

  /** A dropped object is never live again, and never completes another byte. */
  lemma {:induction false} GoneForever(s: State, es: seq<Event>, tt: Handle)
    requires WellFormed(s.engine) && Gone(s.engine, tt)
    ensures Completed(After(s, es), tt) == Completed(s, tt)
    decreases |es|
  {
    hide Next, Gone, WellFormed, Completed;
    if es == [] {
    } else {
      StepGone(s, es[0], tt);
      GoneForever(Next(s, es[0]), es[1..], tt);
    }
  }

  /** The wait ends at a step at which the object of the record has completed all there is. */
  ghost predicate CanEnd(s: State, tt: Handle, total: nat) {
    exists es :: Completed(After(s, es), tt) >= total
  }

  /** The object whose bytes the launch that has just been made waits for. */
  function WaitsFor(s: Engine, h: Hash): Handle
    requires HexString(h) in s.ts
  {
    s.ts[HexString(h)].tt
  }

  /**
   A launch that waits can come to an end exactly if its hash had no record whose object was
   dropped, or that object had completed everything before it was. Otherwise the call of
   StartLeecher never returns, whatever the library downloads: it asks the wrong object.
   */
  lemma WaitEndsIff(s: State, e: EngineModel.Event, total: nat)
    requires WellFormed(s.engine) && Current(s.engine) && Launches(s.engine, e).Some? && Accepted(e)
    ensures var h := Launches(s.engine, e).value.1;
            var s' := Next(s, Step(e));
            && HexString(h) in s'.engine.ts
            && (CanEnd(s', WaitsFor(s'.engine, h), total) <==>
                 FreshLaunch(s.engine, e) || Completed(s, WaitsFor(s'.engine, h)) >= total)
  {
    hide HexString, Do, Launches, WellFormed, Canonical, Str2ih, Current, Completed;
    var h := Launches(s.engine, e).value.1;
    var s' := Next(s, Step(e));
    LaunchEffect(s.engine, e);
    StepWellFormed(s.engine, e);
    LaunchCurrentIff(s.engine, e);
    var tt := WaitsFor(s'.engine, h);
    SameBytes(s, e, tt);
    if FreshLaunch(s.engine, e) {
      CurrentIsLive(s'.engine, h);
      LiveCompletes(s', tt, total);
    } else {
      StaleIsGone(s.engine, e);
      NothingMore(s', tt, total);
    }
  }

  lemma SameBytes(s: State, e: EngineModel.Event, tt: Handle)
    ensures Completed(Next(s, Step(e)), tt) == Completed(s, tt)
  {
    hide Do;
  }

  lemma CurrentIsLive(s: Engine, h: Hash)
    requires WellFormed(s) && Current(s) && h in s.client.live && HexString(h) in s.ts
    ensures IsLive(s, WaitsFor(s, h))
  {
    hide HexString, Canonical;
    LiveHash(s, h);
  }

  lemma LiveCompletes(s: State, tt: Handle, total: nat)
    requires IsLive(s.engine, tt)
    ensures CanEnd(s, tt, total)
  {
    var es := [Progress(tt.hash, total)];
    assert es[1..] == [];
    assert After(s, es) == Next(s, es[0]);
    assert Completed(After(s, es), tt) >= total;
  }

  lemma NothingMore(s: State, tt: Handle, total: nat)
    requires WellFormed(s.engine) && Gone(s.engine, tt)
    ensures CanEnd(s, tt, total) <==> Completed(s, tt) >= total
  {
    hide WellFormed, Gone, Completed;
    if CanEnd(s, tt, total) {
      var es :| Completed(After(s, es), tt) >= total;
      GoneForever(s, es, tt);
    } else {
      assert After(s, []) == s;
      assert Completed(After(s, []), tt) == Completed(s, tt);
    }
  }

  /** The record of a stale launch keeps an object that the library no longer has. */
  lemma StaleIsGone(s: Engine, e: EngineModel.Event)
    requires WellFormed(s) && Launches(s, e).Some? && Accepted(e) && !FreshLaunch(s, e)
    ensures var h := Launches(s, e).value.1;
            HexString(h) in Do(s, e).ts && Gone(Do(s, e), WaitsFor(Do(s, e), h))
  {
    hide HexString, Do, Launches, Canonical, Str2ih;
    var h := Launches(s, e).value.1;
    LaunchEffect(s, e);
    HexStringInjectiveOn(s.ts[HexString(h)].tt.hash, h);
  }

  lemma HexStringInjectiveOn(g: Hash, h: Hash)
    ensures HexString(g) == HexString(h) ==> g == h
  {
    if HexString(g) == HexString(h) {
      HexStringInjective(g, h);
    }
  }
}
