/**
 What a stop of an image leaves of the engine, with `clean` and without (daemon/daemon.go:398-418):
 which ids, torrents and files go, and that nothing else does.
 */
module Stopping {
  import opened Wrappers
  import opened Hex
  import opened Layouts
  import opened Manifests
  import opened Downloads
  import opened Resuming
  import opened Holds
  import opened Ledger
  import E = EngineModel
  import Links = EngineLinks
  import Counts = EngineCounts
  import Recovery = EngineRecovery

  predicate SameFiles(s: E.Engine, s': E.Engine, x: string) {
    var (dfn, tfn) := (E.GetFilePath(x), E.GetTorrentFilePath(x));
    && (dfn in s'.dataDir <==> dfn in s.dataDir) && (dfn in s.dataDir ==> s'.dataDir[dfn] == s.dataDir[dfn])
    && (tfn in s'.torrentDir <==> tfn in s.torrentDir) && (tfn in s.torrentDir ==> s'.torrentDir[tfn] == s.torrentDir[tfn])
  }

  /** The id, its torrent and its files are as they were. */
  predicate Untouched(s: E.Engine, s': E.Engine, x: string) {
    && SameFiles(s, s', x)
    && (x in s'.idInfos <==> x in s.idInfos)
    && (x in s.idInfos ==>
         var k := s.idInfos[x].infoHash;
         s'.idInfos[x] == s.idInfos[x] && (k in s'.ts <==> k in s.ts) && (k in s.ts ==> s'.ts[k] == s.ts[k]))
  }

  /** The id is gone, and its torrent; so are its files, as far as they could be removed. */
  predicate Gone(s: E.Engine, s': E.Engine, x: string, env: E.DeleteEnv) {
    var (dfn, tfn) := (E.GetFilePath(x), E.GetTorrentFilePath(x));
    && x !in s'.idInfos && (x in s.idInfos ==> s.idInfos[x].infoHash !in s'.ts)
    && (dfn in s'.dataDir <==> dfn in s.dataDir && !env.removeData)
    && (tfn in s'.torrentDir <==> tfn in s.torrentDir && (dfn in s'.dataDir || !env.removeTorrent))
  }

  /** Only counts, states and library objects may be new. */
  predicate NothingGone(s: E.Engine, s': E.Engine) {
    s'.idInfos.Keys == s.idInfos.Keys && s'.ts.Keys == s.ts.Keys && s'.dataDir == s.dataDir && s'.torrentDir == s.torrentDir
  }

  lemma StopUntouched(s: E.Engine, id: string, x: string)
    requires E.WellFormed(s) && Links.Linked(s)
    ensures var s' := E.Do(s, E.Stop(id)); NothingGone(s, s') && (id != x ==> Untouched(s, s', x))
    ensures var s' := E.Do(s, E.Stop(id));
            id in s.idInfos ==> id in s'.idInfos && s'.idInfos[id].infoHash == s.idInfos[id].infoHash
  {
    hide E.WellFormed, E.Do, E.GetFilePath, E.GetTorrentFilePath, Links.Linked, Links.Stoppable, Untouched;
    Links.StopEffect(s, id);
    LinkedHash(s, id);
    if id != x {
      StopKeepsOther(s, id, x);
    }
  }

  lemma StopKeepsOther(s: E.Engine, id: string, x: string)
    requires E.WellFormed(s) && Links.Linked(s) && id != x
    ensures Untouched(s, E.Do(s, E.Stop(id)), x)
  {
    hide E.WellFormed, E.Do, E.GetFilePath, E.GetTorrentFilePath;
    Links.StopEffect(s, id);
  }

  lemma DeleteUntouched(s: E.Engine, id: string, env: E.DeleteEnv, x: string)
    requires E.WellFormed(s) && Links.Linked(s)
    ensures var s' := E.Do(s, E.Delete(id, env));
            && (id != x ==> Untouched(s, s', x)) && s'.ts.Keys <= s.ts.Keys
            && (s.running && id in s.idInfos && !s.idInfos[id].started ==> Gone(s, s', id, env))
            && (!s.running || id !in s.idInfos || s.idInfos[id].started ==> s' == s)
  {
    hide E.WellFormed, E.Do, E.GetFilePath, E.GetTorrentFilePath;
    Links.DeleteEffect(s, id, env);
    Recovery.PathsInjective(id, x);
    if s.running && id in s.idInfos && !s.idInfos[id].started {
      Counts.DeleteFiles(s, id, env);
    }
  }

  lemma UntouchedOn(s: E.Engine, s1: E.Engine, s2: E.Engine, x: string)
    requires Untouched(s, s1, x) && Untouched(s1, s2, x)
    ensures Untouched(s, s2, x)
  {
    hide E.GetFilePath, E.GetTorrentFilePath;
  }

  lemma UntouchedGone(s: E.Engine, s1: E.Engine, s2: E.Engine, x: string, env: E.DeleteEnv)
    requires Untouched(s, s1, x) && Gone(s1, s2, x, env)
    ensures Gone(s, s2, x, env)
  {
    hide E.GetFilePath, E.GetTorrentFilePath;
  }

  lemma GoneStays(s: E.Engine, s1: E.Engine, s2: E.Engine, x: string, env: E.DeleteEnv)
    requires Gone(s, s1, x, env) && Untouched(s1, s2, x) && s2.ts.Keys <= s1.ts.Keys
    ensures Gone(s, s2, x, env)
  {
    hide E.GetFilePath, E.GetTorrentFilePath;
    assert forall k :: k in s2.ts.Keys ==> k in s1.ts.Keys;
    assert forall k :: k in s2.ts ==> k in s2.ts.Keys;
  }

  /** One layer: any other id is untouched; the layer's own goes exactly if `clean` and at most two holds were left. */
  lemma LayerStopped(w: World, id: string, clean: bool, env: string -> E.DeleteEnv, x: string)
    requires E.WellFormed(w.engine) && Links.Linked(w.engine) && w.engine.running
    requires StopLayer(w, id, clean, env).1.Nil?
    ensures var (s, s') := (w.engine, StopLayer(w, id, clean, env).0.engine);
            && s'.ts.Keys <= s.ts.Keys && (!clean ==> NothingGone(s, s'))
            && (x != id ==> Untouched(s, s', x))
            && (clean && id in s.idInfos && Counts.Held(s, id) <= 2 ==> Gone(s, s', id, env(id)))
            && (id in s.idInfos && Counts.Held(s, id) > 2 ==>
                  id in s'.idInfos && s'.idInfos[id].started && Counts.Held(s', id) == Counts.Held(s, id) - 1
                  && s'.idInfos[id].infoHash == s.idInfos[id].infoHash
                  && s.idInfos[id].infoHash in s.ts && s'.ts == s.ts
                  && SameFiles(s, s', id))
  {
    hide E.WellFormed, Links.Linked, E.Do, E.StopTorrent, Untouched, Gone, E.GetFilePath, E.GetTorrentFilePath, Counts.Held, E.IsStarted,
      NothingGone, SameFiles;
    var s := w.engine;
    var s1 := E.Do(s, E.Stop(id));
    StopUntouched(s, id, x);
    StopHeld(s, id, id);
    E.StepWellFormed(s, E.Stop(id));
    Links.StopLinked(s, id);
    Counts.StepRunning(s, E.Stop(id));
    DeleteUntouched(s1, id, env(id), x);
    HeldStarted(s, s1, id);
    StoppedOne(s, id, env(id));
    LinkedHash(s, id);
    if x != id && clean {
      UntouchedOn(s, s1, E.Do(s1, E.Delete(id, env(id))), x);
    }
  }

  lemma LinkedHash(s: E.Engine, id: string)
    requires Links.Linked(s)
    ensures id in s.idInfos ==> s.idInfos[id].infoHash in s.ts
  {
  }

  lemma HeldStarted(s: E.Engine, s1: E.Engine, id: string)
    requires id in s.idInfos ==> id in s1.idInfos
    requires Counts.Held(s1, id) == if E.IsStarted(s, id) then HeldAfter(Counts.Held(s, id)) else Counts.Held(s, id)
    ensures id in s.idInfos && Counts.Held(s, id) > 2 ==> id in s1.idInfos && s1.idInfos[id].started && Counts.Held(s1, id) == Counts.Held(s, id) - 1
  {
  }

  lemma StopStarted(s: E.Engine, id: string)
    requires s.running && E.StopTorrent(s, id).1.Nil?
    ensures E.IsStarted(E.Do(s, E.Stop(id)), id) <==> E.IsStarted(s, id) && Counts.Held(s, id) > 2
  {
    hide E.GetTorrent;
  }

  /** A stop that leaves holds over changes nothing but the count. */
  lemma StopKeepsTorrents(s: E.Engine, id: string)
    requires E.WellFormed(s) && s.running && Counts.Held(s, id) > 2
    ensures E.Do(s, E.Stop(id)).ts == s.ts
  {
    hide E.WellFormed, E.Do;
    Links.StopEffect(s, id);
  }

  lemma GoneFrom(s: E.Engine, s1: E.Engine, s2: E.Engine, x: string, env: E.DeleteEnv)
    requires NothingGone(s, s1) && Gone(s1, s2, x, env)
    requires x in s.idInfos ==> x in s1.idInfos && s1.idInfos[x].infoHash == s.idInfos[x].infoHash
    ensures Gone(s, s2, x, env)
  {
    hide E.GetFilePath, E.GetTorrentFilePath;
  }

  lemma NothingGoneMeans(s: E.Engine, s': E.Engine, x: string)
    requires NothingGone(s, s')
    ensures SameFiles(s, s', x) && s'.ts.Keys == s.ts.Keys && (x in s'.idInfos <==> x in s.idInfos)
  {
    hide E.GetFilePath, E.GetTorrentFilePath;
    assert x in s'.idInfos.Keys <==> x in s.idInfos.Keys;
  }

  lemma StoppedOne(s: E.Engine, id: string, env: E.DeleteEnv)
    requires E.WellFormed(s) && Links.Linked(s) && s.running && E.StopTorrent(s, id).1.Nil?
    ensures var s1 := E.Do(s, E.Stop(id));
            var s2 := E.Do(s1, E.Delete(id, env));
            && NothingGone(s, s1) && s1.ts.Keys <= s.ts.Keys && s2.ts.Keys <= s.ts.Keys
            && (id in s.idInfos && Counts.Held(s, id) <= 2 ==> Gone(s, s2, id, env))
            && (id in s.idInfos && Counts.Held(s, id) > 2 ==>
                  && s2 == s1 && SameFiles(s, s1, id)
                  && id in s1.idInfos && s1.idInfos[id].infoHash == s.idInfos[id].infoHash && s1.ts == s.ts)
  {
    hide E.WellFormed, E.Do, E.StopTorrent, E.GetFilePath, E.GetTorrentFilePath, Links.Linked, Gone, NothingGone, Counts.Held,
      Untouched, SameFiles;
    var s1 := E.Do(s, E.Stop(id));
    StopUntouched(s, id, id);
    NothingGoneMeans(s, s1, id);
    StopStarted(s, id);
    E.StepWellFormed(s, E.Stop(id));
    Links.StopLinked(s, id);
    Counts.StepRunning(s, E.Stop(id));
    DeleteUntouched(s1, id, env, id);
    if id in s.idInfos && Counts.Held(s, id) > 2 {
      HeldMeansStarted(s, id);
      StopKeepsTorrents(s, id);
    } else if id in s.idInfos {
      GoneFrom(s, s1, E.Do(s1, E.Delete(id, env)), id, env);
    }
  }

  lemma HeldMeansStarted(s: E.Engine, id: string)
    ensures Counts.Held(s, id) > 0 ==> E.IsStarted(s, id)
  {
  }

  /** The state of an id of the image after the loop, and of any other. */
  ghost predicate Left(s: E.Engine, s': E.Engine, x: string, named: bool, clean: bool, env: E.DeleteEnv) {
    && (!named ==> Untouched(s, s', x))
    && (named && clean && x in s.idInfos ==> (x !in s'.idInfos <==> Counts.Held(s, x) <= 2))
    && (named && clean && x in s.idInfos && Counts.Held(s, x) <= 2 ==> Gone(s, s', x, env))
    && (named && x in s.idInfos && Counts.Held(s, x) > 2 ==>
          x in s'.idInfos && Counts.Held(s', x) == Counts.Held(s, x) - 1 && SameFiles(s, s', x)
          && s.idInfos[x].infoHash in s.ts && s.idInfos[x].infoHash in s'.ts
          && s'.ts[s.idInfos[x].infoHash] == s.ts[s.idInfos[x].infoHash])
  }

  lemma FirstLeft(w: World, infos: seq<BlobInfo>, clean: bool, env: string -> E.DeleteEnv, x: string, s': E.Engine)
    requires infos != [] && E.WellFormed(w.engine) && Links.Linked(w.engine) && w.engine.running && DistinctIds(infos)
    requires StopLayer(w, LayerId(infos[0].digest), clean, env).1.Nil?
    requires var s1 := StopLayer(w, LayerId(infos[0].digest), clean, env).0.engine;
             s'.ts.Keys <= s1.ts.Keys && Left(s1, s', x, x in IdsOf(infos[1..]), clean, env(x))
    ensures Left(w.engine, s', x, x in IdsOf(infos), clean, env(x))
  {
    hide E.WellFormed, Links.Linked, StopLayer, Untouched, Gone, E.GetFilePath, E.GetTorrentFilePath, LayerId, SameFiles, Counts.Held;
    var (id, rest) := (LayerId(infos[0].digest), infos[1..]);
    var s, s1 := w.engine, StopLayer(w, id, clean, env).0.engine;
    LayerStopped(w, id, clean, env, x);
    NamedOnce(infos, x);
    if x == id {
      if clean && x in s.idInfos && Counts.Held(s, x) <= 2 {
        GoneStays(s, s1, s', x, env(x));
        GoneMeans(s, s', x, env(x));
      } else if x in s.idInfos && Counts.Held(s, x) > 2 {
        UntouchedMeans(s1, s', x);
        FilesOn(s, s1, s', x);
      }
    } else {
      UntouchedMeans(s, s1, x);
      if x !in IdsOf(rest) {
        UntouchedOn(s, s1, s', x);
      } else {
        if Gone(s1, s', x, env(x)) {
          UntouchedGone(s, s1, s', x, env(x));
        }
        if SameFiles(s1, s', x) {
          FilesOn(s, s1, s', x);
        }
      }
    }
  }

  lemma NamedOnce(infos: seq<BlobInfo>, x: string)
    requires infos != [] && DistinctIds(infos)
    ensures x in IdsOf(infos) <==> x == LayerId(infos[0].digest) || x in IdsOf(infos[1..])
    ensures LayerId(infos[0].digest) !in IdsOf(infos[1..])
    ensures DistinctIds(infos[1..])
  {
    hide LayerId;
    assert IdsOf(infos) == [LayerId(infos[0].digest)] + IdsOf(infos[1..]);
    assert forall i :: 0 <= i < |infos[1..]| ==> infos[1..][i] == infos[i + 1];
  }

  lemma GoneMeans(s: E.Engine, s': E.Engine, x: string, env: E.DeleteEnv)
    requires Gone(s, s', x, env)
    ensures x !in s'.idInfos
  {
  }

  lemma UntouchedMeans(s: E.Engine, s': E.Engine, x: string)
    requires Untouched(s, s', x)
    ensures SameFiles(s, s', x) && (x in s'.idInfos <==> x in s.idInfos) && Counts.Held(s', x) == Counts.Held(s, x)
    ensures x in s.idInfos ==>
              var k := s.idInfos[x].infoHash;
              s'.idInfos[x] == s.idInfos[x] && (k in s'.ts <==> k in s.ts) && (k in s.ts ==> s'.ts[k] == s.ts[k])
  {
    hide E.GetFilePath, E.GetTorrentFilePath;
  }

  lemma FilesOn(s: E.Engine, s1: E.Engine, s2: E.Engine, x: string)
    requires SameFiles(s, s1, x) && SameFiles(s1, s2, x)
    ensures SameFiles(s, s2, x)
  {
    hide E.GetFilePath, E.GetTorrentFilePath;
  }

  /**
   A stop over distinct layers that succeeds, on linked maps. With `clean` an id of the image that
   the engine knew is gone, with its torrent and its files, exactly if at most two holds were left
   of it, and otherwise has one less; without `clean` no id, torrent or file goes at all. Ids that
   are not of the image are left alone, and so is all that belongs to them.
   */
  lemma {:induction false} StopLeaves(w: World, infos: seq<BlobInfo>, clean: bool, env: string -> E.DeleteEnv, x: string)
    requires E.WellFormed(w.engine) && Links.Linked(w.engine) && w.engine.running && DistinctIds(infos)
    requires StopLayers(w, infos, clean, env).1.Nil?
    ensures var s' := StopLayers(w, infos, clean, env).0.engine;
            && Left(w.engine, s', x, x in IdsOf(infos), clean, env(x)) && s'.ts.Keys <= w.engine.ts.Keys
            && (!clean ==> NothingGone(w.engine, s'))
    decreases |infos|
  {
    hide E.WellFormed, Links.Linked, StopLayer, Left, LayerId, NothingGone, DistinctIds;
    if infos == [] {
      NothingLeft(w.engine, x, clean, env(x));
    } else {
      var (id, rest) := (LayerId(infos[0].digest), infos[1..]);
      var w1 := StopLayer(w, id, clean, env).0;
      LayerStopped(w, id, clean, env, x);
      OtherReleasable(w, id, clean, env, id);
      NamedOnce(infos, x);
      StopLeaves(w1, rest, clean, env, x);
      FirstLeft(w, infos, clean, env, x, StopLayers(w1, rest, clean, env).0.engine);
      if !clean {
        NothingGoneOn(w.engine, w1.engine, StopLayers(w1, rest, clean, env).0.engine);
      }
    }
  }

  lemma NothingLeft(s: E.Engine, x: string, clean: bool, env: E.DeleteEnv)
    ensures Left(s, s, x, false, clean, env) && NothingGone(s, s)
  {
    hide E.GetFilePath, E.GetTorrentFilePath;
  }

  lemma NothingGoneOn(s: E.Engine, s1: E.Engine, s2: E.Engine)
    requires NothingGone(s, s1) && NothingGone(s1, s2)
    ensures NothingGone(s, s2)
  {
  }

  /** The same of StopDownload, for a stored image whose layers are distinct. */
  lemma StopDownloadLeaves(t: Tools, w: World, img: Image, clean: bool, env: string -> E.DeleteEnv, x: string)
    requires Proper(t) && HasImage(t, img, w) && Listed(t, img) && DistinctIds(InfosOf(t, img))
    requires E.WellFormed(w.engine) && Links.Linked(w.engine) && w.engine.running
    requires StopDownload(t, w, img.repo, img.tag, clean, env).1.Ok?
    ensures var s' := StopDownload(t, w, img.repo, img.tag, clean, env).0.engine;
            && Left(w.engine, s', x, x in Ids(img), clean, env(x))
            && (!clean ==> NothingGone(w.engine, s'))
  {
    hide HasImage, Proper, Listed, E.WellFormed, Links.Linked, Left, NothingGone, DistinctIds, StopDownload, StopLayers, Ids, IdsOf, InfosOf;
    ListedByDigest(t, img);
    StopRunsOver(t, w, img, clean, env);
    StopLeaves(w, InfosOf(t, img), clean, env, x);
  }
}
