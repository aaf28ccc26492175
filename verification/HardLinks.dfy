/**
 Layers under hard links (daemon/daemon.go:195-205, 337-356): the leecher links the data file into
 the blobs once StartLeecher returns, the seeder links the blob into the data directory.
 */
module HardLinks {
  import opened Wrappers
  import opened Hex
  import opened Layouts
  import opened Store
  import opened StoreProofs
  import Downloads
  import Paths
  import E = EngineModel

  datatype LinkError = NoTorrent | EngineFailed(cause: E.Error) | BadPath | LinkFailed

  function FileContent(st: Store, p: Path): Option<Content> {
    if p in st.fs.names && st.fs.names[p] in st.fs.data then Some(st.fs.data[st.fs.names[p]]) else None
  }

  /** The library gives the data file a new content, making the file if it must. */
  function LibraryWrite(c: Codec, st: Store, id: string, content: Content): Store {
    var st1 := if DataFile(id) in st.fs.names then st else Do(c, st, CreateData(id));
    Do(c, st1, WriteData(id, content))
  }

  /** The contents that the data file goes through, one after the other. */
  function Written(c: Codec, st: Store, id: string, contents: seq<Content>): Store {
    if contents == [] then st
    else LibraryWrite(c, Written(c, st, id, contents[..|contents| - 1]), id, contents[|contents| - 1])
  }

  /** StartLeecher returns only when the data is complete: it launched the torrent, and has a progress to report to. */
  predicate Waits(e: E.Engine, id: string, env: E.LeechEnv, progress: bool) {
    progress && E.StartLeecher(e, id, env).1.Nil? && !E.IsStarted(e, id)
  }

  /** The data file may have gone through `contents` when StartLeecher returns. */
  predicate MayReturn(c: Codec, st: Store, id: string, whole: Content, contents: seq<Content>, waits: bool) {
    waits ==> FileContent(Written(c, st, id, contents), DataFile(id)) == Some(whole)
  }

  /** No blob is linked to the data file yet. */
  ghost predicate Unlinked(st: Store, id: string) {
    forall p :: p in st.fs.names && p.BlobFile? && DataFile(id) in st.fs.names ==> st.fs.names[p] != st.fs.names[DataFile(id)]
  }

  lemma LibraryWriteKeeps(c: Codec, st: Store, id: string, content: Content)
    requires Kept(c, st) && Faithful(c) && ContentAddressed(c, st) && Unlinked(st, id)
    ensures var st' := LibraryWrite(c, st, id, content);
            && Kept(c, st') && ContentAddressed(c, st') && Unlinked(st', id)
            && (forall p: Path :: p.BlobFile? ==> (p in st'.fs.names <==> p in st.fs.names))
            && FileContent(st', DataFile(id)) == Some(content)
  {
    hide Private, InStep, RefsWhole, ContentAddressed, Faithful;
    var st1 := if DataFile(id) in st.fs.names then st else Do(c, st, CreateData(id));
    StepKept(c, st, CreateData(id));
    StepAddressedIff(c, st, CreateData(id));
    assert Unlinked(st1, id);
    StepKept(c, st1, WriteData(id, content));
    StepAddressedIff(c, st1, WriteData(id, content));
  }

  lemma {:induction false} WrittenKeeps(c: Codec, st: Store, id: string, contents: seq<Content>)
    requires Kept(c, st) && Faithful(c) && ContentAddressed(c, st) && Unlinked(st, id)
    ensures var st' := Written(c, st, id, contents);
            && Kept(c, st') && ContentAddressed(c, st') && Unlinked(st', id)
            && (forall p: Path :: p.BlobFile? ==> (p in st'.fs.names <==> p in st.fs.names))
  {
    hide Kept, ContentAddressed, Faithful, LibraryWrite, Unlinked;
    if contents == [] {
    } else {
      WrittenKeeps(c, st, id, contents[..|contents| - 1]);
      LibraryWriteKeeps(c, Written(c, st, id, contents[..|contents| - 1]), id, contents[|contents| - 1]);
    }
  }

  /** The link after `contents` keeps content addressing exactly if the last of them has the layer's digest. */
  lemma LinkAfter(c: Codec, st: Store, repo: string, id: string, contents: seq<Content>)
    requires Kept(c, st) && Faithful(c) && ContentAddressed(c, st) && Unlinked(st, id)
    requires BlobFile(repo, id) !in st.fs.names && FileContent(Written(c, st, id, contents), DataFile(id)).Some?
    ensures ContentAddressed(c, Do(c, Written(c, st, id, contents), LinkIntoBlobs(repo, id, id))) <==>
              c.sha(FileContent(Written(c, st, id, contents), DataFile(id)).value) == id
  {
    hide Kept, ContentAddressed, Faithful, LibraryWrite, Unlinked, Do;
    WrittenKeeps(c, st, id, contents);
    StepAddressedIff(c, Written(c, st, id, contents), LinkIntoBlobs(repo, id, id));
  }

  /** Whatever the library does with the data file, the link leaves every blob named by its content. */
  ghost predicate LinkKeepsNames(c: Codec, st: Store, repo: string, id: string, whole: Content, waits: bool) {
    forall contents :: MayReturn(c, st, id, whole, contents, waits) ==>
      ContentAddressed(c, Do(c, Written(c, st, id, contents), LinkIntoBlobs(repo, id, id)))
  }

  /**
   A leecher's link keeps every blob named by its content, however slowly the library goes, if and
   only if StartLeecher waits and what it waits for is the layer: not when it joins a download that
   is under way, not when it has no progress to report to, and not when the torrent that the seeder
   sent is of other data, which nobody compares with the digest.
   */
  lemma LinkIsSafeIff(c: Codec, e: E.Engine, st: Store, repo: string, id: string, env: E.LeechEnv, progress: bool,
                      whole: Content, part: Content)
    requires Kept(c, st) && Faithful(c) && ContentAddressed(c, st) && Unlinked(st, id) && BlobFile(repo, id) !in st.fs.names
    requires c.sha(part) != id && E.StartLeecher(e, id, env).1.Nil?
    ensures LinkKeepsNames(c, st, repo, id, whole, Waits(e, id, env, progress)) <==>
              progress && !E.IsStarted(e, id) && c.sha(whole) == id
  {
    hide Kept, ContentAddressed, Faithful, LibraryWrite, Unlinked, Do, E.StartLeecher, E.IsStarted;
    if Waits(e, id, env, progress) && c.sha(whole) == id {
      forall contents | MayReturn(c, st, id, whole, contents, true)
        ensures ContentAddressed(c, Do(c, Written(c, st, id, contents), LinkIntoBlobs(repo, id, id)))
      {
        LinkAfter(c, st, repo, id, contents);
      }
    } else {
      var last: Content := if c.sha(whole) == id then part else whole;
      assert [last][..0] == [];
      assert Written(c, st, id, [last]) == LibraryWrite(c, st, id, last);
      LibraryWriteKeeps(c, st, id, last);
      LinkAfter(c, st, repo, id, [last]);
      assert MayReturn(c, st, id, whole, [last], Waits(e, id, env, progress));
    }
  }

  /** After the first `k` contents the data file is complete. */
  predicate Whole(c: Codec, st: Store, id: string, whole: Content, contents: seq<Content>, k: nat)
    requires k <= |contents|
  {
    FileContent(Written(c, st, id, contents[..k]), DataFile(id)) == Some(whole)
  }

  /** A link that is made: the blob is the data file. */
  lemma Linked(c: Codec, st: Store, repo: string, id: string)
    requires DataFile(id) in st.fs.names && BlobFile(repo, id) !in st.fs.names
    ensures var st' := Do(c, st, LinkIntoBlobs(repo, id, id));
            && BlobFile(repo, id) in st'.fs.names && DataFile(id) in st'.fs.names
            && st'.fs.names[BlobFile(repo, id)] == st'.fs.names[DataFile(id)]
            && FileContent(st', BlobFile(repo, id)) == FileContent(st, DataFile(id))
  {
  }

  /** startLeechingLayer and startSeedingLayer with UseHardlink, over the disk that all share. */
  class LinkingDaemon {
    const c: Codec
    var engine: E.Engine
    var st: Store

    constructor (c: Codec, engine: E.Engine, st: Store)
      ensures this.c == c && this.engine == engine && this.st == st
    {
      this.c, this.engine, this.st := c, engine, st;
    }

    /** waitComplete: it looks at the data file again and again until that is complete. */
    method WaitComplete(id: string, whole: Content, contents: seq<Content>) returns (k: nat, complete: bool)
      modifies this`st
      ensures k <= |contents| && st == Written(c, old(st), id, contents[..k])
      ensures complete <==> FileContent(st, DataFile(id)) == Some(whole)
      ensures !complete ==> k == |contents|
      ensures forall j :: 0 <= j < k ==> FileContent(Written(c, old(st), id, contents[..j]), DataFile(id)) != Some(whole)
    {
      hide Do, FileContent;
      k := 0;
      while k < |contents| && FileContent(st, DataFile(id)) != Some(whole)
        invariant k <= |contents| && st == Written(c, old(st), id, contents[..k])
        invariant forall j :: 0 <= j < k ==> FileContent(Written(c, old(st), id, contents[..j]), DataFile(id)) != Some(whole)
      {
        assert contents[..k + 1][..k] == contents[..k];
        st := LibraryWrite(c, st, id, contents[k]);
        k := k + 1;
      }
      complete := FileContent(st, DataFile(id)) == Some(whole);
    }

    /**
     startLeechingLayer. The data file goes through the first `k` of `contents` before the link: as
     many as it takes to complete it if StartLeecher waits, and `hurry` of them otherwise. None is
     a call that still waits.
     */
    method StartLeechingLayer(repo: string, digest: string, torrent: Option<E.LeechEnv>, progress: bool,
                              whole: Content, contents: seq<Content>, hurry: nat)
      returns (r: Option<Outcome<LinkError>>, k: nat)
      requires hurry <= |contents|
      modifies this
      ensures torrent.None? ==> r == Some(Err(NoTorrent)) && engine == old(engine) && st == old(st)
      ensures torrent.Some? ==> engine == E.StartLeecher(old(engine), Downloads.LayerId(digest), torrent.value).0
      ensures k <= |contents|
      // how it ends, by what it was called with
      ensures r == Some(Err(NoTorrent)) <==> torrent.None?
      ensures var id := Downloads.LayerId(digest);
              torrent.Some? ==>
                var (begun, waits) := (E.StartLeecher(old(engine), id, torrent.value).1, Waits(old(engine), id, torrent.value, progress));
                var st1 := Written(c, old(st), id, contents[..k]);
                && (begun.Err? ==> r == Some(Err(EngineFailed(begun.error))) && k == 0)
                && (begun.Nil? ==>
                     && (r.None? <==> waits && forall j :: 0 <= j <= |contents| ==> !Whole(c, old(st), id, whole, contents, j))
                     && (!waits ==> k == hurry)
                     && (waits && r.Some? ==> Whole(c, old(st), id, whole, contents, k)
                                              && forall j :: 0 <= j < k ==> !Whole(c, old(st), id, whole, contents, j))
                     && (r == Some(Err(BadPath)) <==> r.Some? && Paths.BlobPath(digest).Fail?)
                     && (r == Some(Nil) <==>
                           && r.Some? && Paths.BlobPath(digest) == Ok([Paths.BLOBS, Paths.SHA256, id])
                           && DataFile(id) in st1.fs.names && BlobFile(repo, id) !in st1.fs.names)
                     && (r.Some? && r != Some(Nil) ==> r == Some(Err(BadPath)) || r == Some(Err(LinkFailed))))
      // and what it leaves
      ensures var id := Downloads.LayerId(digest);
              var st1 := Written(c, old(st), id, contents[..k]);
              && (r != Some(Nil) ==> st == st1)
              && (r == Some(Nil) ==>
                    && torrent.Some? && MayReturn(c, old(st), id, whole, contents[..k], Waits(old(engine), id, torrent.value, progress))
                    && st == Do(c, st1, LinkIntoBlobs(repo, id, id))
                    && BlobFile(repo, id) in st.fs.names && DataFile(id) in st.fs.names
                    && st.fs.names[BlobFile(repo, id)] == st.fs.names[DataFile(id)]
                    && FileContent(st, BlobFile(repo, id)) == FileContent(st1, DataFile(id)))
    {
      hide FileContent, E.StartLeecher, E.IsStarted, Downloads.LayerId, LibraryWrite, Paths.BlobPath, Do;
      k := 0;
      assert contents[..0] == [];
      if torrent.None? {
        return Some(Err(NoTorrent)), 0;
      }
      var id := Downloads.LayerId(digest);
      var waits := progress && !E.IsStarted(engine, id);
      var (started, err) := E.StartLeecher(engine, id, torrent.value);
      engine := started;
      if err.Err? {
        return Some(Err(EngineFailed(err.error))), 0;
      }
      if waits {
        var complete: bool;
        k, complete := WaitComplete(id, whole, contents);
        if !complete {
          return None, k;
        }
        assert Whole(c, old(st), id, whole, contents, k);
      } else {
        k := hurry;
        st := Written(c, st, id, contents[..hurry]);
      }
      var path := Paths.BlobPath(digest);
      if path.Fail? {
        return Some(Err(BadPath)), k;
      }
      if path.value != [Paths.BLOBS, Paths.SHA256, id] || DataFile(id) !in st.fs.names || BlobFile(repo, id) in st.fs.names {
        return Some(Err(LinkFailed)), k;
      }
      Linked(c, st, repo, id);
      st := Do(c, st, LinkIntoBlobs(repo, id, id));
      r := Some(Nil);
    }

    /** startSeedingLayer: what is served is the very file of the blob; a failed StartSeed is only logged. */
    method StartSeedingLayer(repo: string, digest: string, env: E.SeedEnv) returns (err: Outcome<LinkError>)
      requires Kept(c, st)
      modifies this
      ensures err == Err(BadPath) <==> Paths.BlobPath(digest).Fail?
      ensures var id := Downloads.LayerId(digest);
              err.Nil? <==>
                && Paths.BlobPath(digest) == Ok([Paths.BLOBS, Paths.SHA256, id])
                && BlobFile(repo, id) in old(st).fs.names && DataFile(id) !in old(st).fs.names
      ensures err.Err? ==> err == Err(BadPath) || err == Err(LinkFailed)
      ensures var id := Downloads.LayerId(digest);
              && (err.Err? ==> engine == old(engine) && st == old(st))
              && (err.Nil? ==>
                    && DataFile(id) !in old(st).fs.names && st == Do(c, old(st), LinkIntoData(id, repo, id))
                    && FileContent(st, DataFile(id)).Some? && FileContent(st, DataFile(id)) == FileContent(old(st), BlobFile(repo, id))
                    && exists dataDir :: engine == E.StartSeed(old(engine).(dataDir := dataDir), id, env).0
                                         && E.GetFilePath(id) in dataDir
                                         && FileContent(st, DataFile(id)) == Some(dataDir[E.GetFilePath(id)]))
    {
      hide E.StartSeed, Downloads.LayerId, E.GetFilePath, Paths.BlobPath, Private, InStep, RefsWhole;
      var id := Downloads.LayerId(digest);
      var path := Paths.BlobPath(digest);
      if path.Fail? {
        return Err(BadPath);
      }
      if path.value != [Paths.BLOBS, Paths.SHA256, id] || BlobFile(repo, id) !in st.fs.names || DataFile(id) in st.fs.names {
        return Err(LinkFailed);
      }
      st := Do(c, st, LinkIntoData(id, repo, id));
      var content := st.fs.data[st.fs.names[DataFile(id)]];
      var dataDir := engine.dataDir[E.GetFilePath(id) := content];
      var (seeding, _) := E.StartSeed(engine.(dataDir := dataDir), id, env);
      engine := seeding;
      err := Nil;
    }
  }
}
