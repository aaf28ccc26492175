/**
 References under overlapping downloads (oci/dir.go:128-167): a write-once reference is one that
 nobody who looked too early is still going to write.
 */
module Overlaps {
  import opened Wrappers
  import opened Layouts
  import opened Manifests
  import opened Downloads
  import Attempts
  import References
  import E = EngineModel

  predicate NeverForgets(es: seq<Event>, repo: string, tag: string) {
    forall i :: 0 <= i < |es| ==> es[i] != ForgetRef(repo, tag)
  }

  /** A live download that has looked for the reference and not found it, and is about to write another one. */
  ghost predicate Overwriting(s: System, repo: string, tag: string, desc: Descriptor) {
    exists i :: i in s.procs && Ref(s.procs[i].img) == RefFile(repo, tag) && s.procs[i].pc.WriteRef? && s.procs[i].pc.desc != desc
  }

  lemma StepKeepsRef(t: Tools, s: System, e: Event, repo: string, tag: string, desc: Descriptor)
    requires References.Get(s.world.refs, RefFile(repo, tag)) == Some(Some(desc))
    requires !Overwriting(s, repo, tag, desc) && e != ForgetRef(repo, tag)
    ensures References.Get(Do(t, s, e).world.refs, RefFile(repo, tag)) == Some(Some(desc))
    ensures !Overwriting(Do(t, s, e), repo, tag, desc)
  {
    hide StepLayer, StepFetched, StepCopied, StepConfig, StepManifest, E.Do;
    if e.Advance? && e.i in s.procs {
      Attempts.EarlyRefs(t, s.world, s.procs[e.i], e.env);
    }
  }

  lemma {:induction false} RunKeepsRef(t: Tools, s: System, es: seq<Event>, repo: string, tag: string, desc: Descriptor)
    requires References.Get(s.world.refs, RefFile(repo, tag)) == Some(Some(desc))
    requires !Overwriting(s, repo, tag, desc) && NeverForgets(es, repo, tag)
    ensures References.Get(Run(t, s, es).world.refs, RefFile(repo, tag)) == Some(Some(desc))
    decreases |es|
  {
    hide Do, Overwriting;
    if es == [] {
    } else {
      assert es[0] != ForgetRef(repo, tag);
      StepKeepsRef(t, s, es[0], repo, tag, desc);
      RunKeepsRef(t, Do(t, s, es[0]), es[1..], repo, tag, desc);
    }
  }

  /**
   A stored reference stays what it is in every continuation that does not delete it, if and only
   if no live download has already looked for it in vain and is about to write a different one.
   */
  lemma WriteOnceIff(t: Tools, s: System, repo: string, tag: string, desc: Descriptor, env: Env)
    requires References.Get(s.world.refs, RefFile(repo, tag)) == Some(Some(desc)) && env.io
    ensures (forall es :: NeverForgets(es, repo, tag) ==>
              References.Get(Run(t, s, es).world.refs, RefFile(repo, tag)) == Some(Some(desc)))
            <==> !Overwriting(s, repo, tag, desc)
  {
    hide Run, NeverForgets;
    if !Overwriting(s, repo, tag, desc) {
      forall es | NeverForgets(es, repo, tag)
        ensures References.Get(Run(t, s, es).world.refs, RefFile(repo, tag)) == Some(Some(desc))
      {
        RunKeepsRef(t, s, es, repo, tag, desc);
      }
    } else {
      OverwritingRun(t, s, repo, tag, desc, env);
    }
  }

  lemma OverwritingRun(t: Tools, s: System, repo: string, tag: string, desc: Descriptor, env: Env)
    requires Overwriting(s, repo, tag, desc) && env.io
    ensures exists es :: NeverForgets(es, repo, tag) &&
              References.Get(Run(t, s, es).world.refs, RefFile(repo, tag)) != Some(Some(desc))
  {
    var i :| i in s.procs && Ref(s.procs[i].img) == RefFile(repo, tag) && s.procs[i].pc.WriteRef? && s.procs[i].pc.desc != desc;
    var es := [Advance(i, env)];
    RunOne(t, s, Advance(i, env));
    assert NeverForgets(es, repo, tag);
  }

  lemma RunOne(t: Tools, s: System, e: Event)
    ensures Run(t, s, [e]) == Do(t, s, e)
  {
    hide Do;
    assert [e][1..] == [];
  }

  lemma {:induction false} RunAppend(t: Tools, s: System, es: seq<Event>, fs: seq<Event>)
    ensures Run(t, s, es + fs) == Run(t, Run(t, s, es), fs)
    decreases |es|
  {
    hide Do;
    if es == [] {
      assert es + fs == fs;
    } else {
      assert (es + fs)[1..] == es[1..] + fs;
      RunAppend(t, Do(t, s, es[0]), es[1..], fs);
    }
  }

  /** An image of no layers and no config. */
  predicate Bare(t: Tools, img: Image) {
    img.layers == [] && img.config.digest == "" && Converts(t, img)
  }

  function ToCheck(i: nat, img: Image, env: Env): seq<Event> {
    [Spawn(i, Leecher, img), Advance(i, env), Advance(i, env), Advance(i, env)]
  }

  /** A bare image's download comes to the check of its reference in three steps. */
  lemma ReachesCheck(t: Tools, s: System, i: nat, img: Image, env: Env)
    requires Bare(t, img) && env.io && i !in s.procs
    ensures var s' := Run(t, s, ToCheck(i, img, env));
            && s'.procs == s.procs[i := Proc(Leecher, img, CheckRef(DescriptorOf(t, img)))]
            && s'.world.refs == s.world.refs
  {
    hide CreateOciManifest;
    var s1 := Do(t, s, Spawn(i, Leecher, img));
    var s2 := Do(t, s1, Advance(i, env));
    var s3 := Do(t, s2, Advance(i, env));
    RunFour(t, s, Spawn(i, Leecher, img), Advance(i, env), Advance(i, env), Advance(i, env));
    assert s3.procs == s.procs[i := Proc(Leecher, img, AtManifest)];
    assert Do(t, s3, Advance(i, env)).procs == s.procs[i := Proc(Leecher, img, CheckRef(DescriptorOf(t, img)))];
  }

  /**
   Two downloads of one tag with different manifests, from their first steps on: both look before
   either writes, both succeed, and the later rename replaces the reference that the earlier one
   was told is stored.
   */
  lemma LaterReferenceWins(t: Tools, engine: E.Engine, a: Image, b: Image, env: Env)
    requires Bare(t, a) && Bare(t, b) && a.repo == b.repo && a.tag == b.tag && env.io && env.stat
    requires DescriptorOf(t, a) != DescriptorOf(t, b)
    ensures var es := ToCheck(0, a, env) + ToCheck(1, b, env)
                      + [Advance(0, env), Advance(1, env), Advance(0, env), Advance(1, env)];
            var s := Run(t, Empty(engine), es);
            && 0 in s.procs && 1 in s.procs && s.procs[0].pc == Done && s.procs[1].pc == Done
            && References.Get(s.world.refs, Ref(a)) == Some(Some(DescriptorOf(t, b)))
  {
    hide Run, DescriptorOf, ToCheck, CreateOciManifest;
    var s0 := Empty(engine);
    var (first, second) := (ToCheck(0, a, env), ToCheck(1, b, env));
    var last := [Advance(0, env), Advance(1, env), Advance(0, env), Advance(1, env)];
    ReachesCheck(t, s0, 0, a, env);
    var s1 := Run(t, s0, first);
    ReachesCheck(t, s1, 1, b, env);
    var s2 := Run(t, s1, second);
    RunAppend(t, s0, first, second);
    RunAppend(t, s0, first + second, last);
    RunFour(t, s2, Advance(0, env), Advance(1, env), Advance(0, env), Advance(1, env));
    BothWrite(t, s2, DescriptorOf(t, a), DescriptorOf(t, b), env);
  }

  lemma BothWrite(t: Tools, s: System, d: Descriptor, e: Descriptor, env: Env)
    requires 0 in s.procs && 1 in s.procs && s.procs[0].pc == CheckRef(d) && s.procs[1].pc == CheckRef(e) && env.io && env.stat
    requires Ref(s.procs[0].img) == Ref(s.procs[1].img) && Ref(s.procs[0].img) !in s.world.refs
    ensures var s' := Do(t, Do(t, Do(t, Do(t, s, Advance(0, env)), Advance(1, env)), Advance(0, env)), Advance(1, env));
            && 0 in s'.procs && 1 in s'.procs && s'.procs[0].pc == Done && s'.procs[1].pc == Done
            && References.Get(s'.world.refs, Ref(s.procs[0].img)) == Some(Some(e))
  {
    var s1 := Do(t, s, Advance(0, env));
    assert s1.world == s.world && s1.procs[0].pc == WriteRef(d);
    var s2 := Do(t, s1, Advance(1, env));
    assert s2.world == s.world && s2.procs[1].pc == WriteRef(e);
  }

  lemma RunFour(t: Tools, s: System, e1: Event, e2: Event, e3: Event, e4: Event)
    ensures Run(t, s, [e1, e2, e3, e4]) == Do(t, Do(t, Do(t, Do(t, s, e1), e2), e3), e4)
  {
    hide Do;
    var s1, s2 := Do(t, s, e1), Do(t, Do(t, s, e1), e2);
    var s3 := Do(t, s2, e3);
    assert [e1, e2, e3, e4][1..] == [e2, e3, e4];
    assert [e2, e3, e4][1..] == [e3, e4];
    assert [e3, e4][1..] == [e4];
    assert [e4][1..] == [];
    assert Run(t, s3, [e4]) == Do(t, s3, e4);
    assert Run(t, s2, [e3, e4]) == Run(t, s3, [e4]);
    assert Run(t, s1, [e2, e3, e4]) == Run(t, s2, [e3, e4]);
  }
}
