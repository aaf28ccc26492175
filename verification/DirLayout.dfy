/**
 One layout on disk as it is written (oci/dir.go): each method is the sequence of system calls of
 the source, every one of them a step of Store, with nothing else happening in between.
 */
module DirLayout {
  import opened Wrappers
  import opened Hex
  import opened Layouts
  import opened Store
  import opened StoreProofs
  import Paths
  import References

  /** The disk that all layouts and the engine share. */
  class Disk {
    var st: Store

    constructor ()
      ensures st == EMPTY
    {
      st := EMPTY;
    }

    method Step(c: Codec, e: Event)
      modifies this
      ensures st == Do(c, old(st), e)
    {
      st := Do(c, st, e);
    }
  }

  /** All the chunks that a reader delivers. */
  function Concat(chunks: seq<Content>): Content {
    if chunks == [] then [] else Concat(chunks[..|chunks| - 1]) + chunks[|chunks| - 1]
  }

  /** Concat is concatenation: the bytes of the chunks, in order. */
  lemma {:induction false} ConcatAppends(a: seq<Content>, b: seq<Content>)
    ensures Concat(a + b) == Concat(a) + Concat(b)
    ensures forall chunk: Content :: Concat([chunk]) == chunk
    ensures Concat([]) == []
  {
    forall chunk: Content
      ensures Concat([chunk]) == chunk
    {
      assert [chunk][..0] == [];
    }
    if b == [] {
      assert a + b == a;
    } else {
      var ab := a + b;
      assert ab[..|ab| - 1] == a + b[..|b| - 1];
      ConcatAppends(a, b[..|b| - 1]);
    }
  }

  /** Where PutBlob fails, if it does: in the copy, after part of a chunk reached the file, or around it. */
  datatype PutFailure = TempFailed | CopyFailed(after: nat, part: Content) | RenameFailed

  datatype BlobError = BadDigest(cause: Paths.PathError) | Io

  class DirLayout {
    const c: Codec
    const disk: Disk
    const repo: string
    const session: nat

    constructor (c: Codec, disk: Disk, repo: string, session: nat)
      ensures this.c == c && this.disk == disk && this.repo == repo && this.session == session
    {
      this.c, this.disk, this.repo, this.session := c, disk, repo, session;
    }

    /** The copy loop of PutBlob: each chunk goes to the file, and then to the hash. */
    method Copy(w: nat, reader: seq<Content>)
      requires Sound(c, disk.st) && Faithful(c)
      requires w in disk.st.writers && Fresh(disk.st.writers[w])
      requires disk.st.writers[w].temp in disk.st.fs.names
      modifies disk
      ensures Sound(c, disk.st) && disk.st.receipts == old(disk.st.receipts)
      ensures w in disk.st.writers && disk.st.fs.names == old(disk.st.fs.names)
      ensures disk.st.writers[w] == old(disk.st.writers[w]).(fed := Concat(reader), size := |Concat(reader)|)
      ensures Blobs(disk.st) == old(Blobs(disk.st)) && Refs(c, disk.st) == old(Refs(c, disk.st))
    {
      hide Sound, Faithful, Blobs, Refs, Do;
      ghost var before := disk.st.writers[w];
      assert before.(fed := Concat(reader[..0]), size := |Concat(reader[..0])|) == before;
      for i := 0 to |reader|
        invariant Sound(c, disk.st) && w in disk.st.writers && disk.st.fs.names == old(disk.st.fs.names)
        invariant disk.st.receipts == old(disk.st.receipts)
        invariant disk.st.writers[w] == before.(fed := Concat(reader[..i]), size := |Concat(reader[..i])|)
        invariant Blobs(disk.st) == old(Blobs(disk.st)) && Refs(c, disk.st) == old(Refs(c, disk.st))
      {
        ghost var s := disk.st;
        disk.Step(c, Write(w, reader[i]));
        disk.Step(c, Feed(w));
        CopyStep(c, s, w, reader[i]);
        assert reader[..i + 1][..i] == reader[..i];
      }
      assert reader[..|reader|] == reader;
    }

    /**
     PutBlob: on success it returns the digest and the size of all it read and the blob is stored
     under that digest, replacing what was there; on failure readers see no change.
     */
    method PutBlob(w: nat, reader: seq<Content>, fails: Option<PutFailure>) returns (r: Result<(string, int), BlobError>)
      requires Sound(c, disk.st) && Faithful(c) && w !in disk.st.writers && w !in disk.st.receipts
      modifies disk
      ensures Sound(c, disk.st)
      ensures r.Ok? <==> fails.None?
      ensures r.Ok? ==> var content := Concat(reader);
                        && r.value == (DigestOf(c, content), |content|)
                        && Blobs(disk.st) == old(Blobs(disk.st))[BlobFile(repo, c.sha(content)) := content]
      ensures r.Fail? ==> Blobs(disk.st) == old(Blobs(disk.st))
      ensures Refs(c, disk.st) == old(Refs(c, disk.st))
    {
      hide Sound, Faithful, Blobs, Refs;
      if fails == Some(TempFailed) {
        return Fail(Io);
      }
      Begin(w, ToBlob(repo));
      if fails.Some? && fails.value.CopyFailed? {
        Copy(w, reader[..if fails.value.after < |reader| then fails.value.after else |reader|]);
        Visible(Write(w, fails.value.part));
        Visible(Abort(w));
        return Fail(Io);
      }
      Copy(w, reader);
      Visible(Event.Close(w));
      if fails == Some(RenameFailed) {
        Visible(Abort(w));
        return Fail(Io);
      }
      ghost var writer := disk.st.writers[w];
      Visible(Publish(w));
      r := Ok((DigestOf(c, Concat(reader)), |Concat(reader)|));
    }

    predicate Fresh(writer: Writer) {
      writer.open && writer.fed == [] && writer.lag == [] && writer.size == 0 && writer.target.ToBlob?
    }

    /**
     Exist: for a well-formed digest, whether readers see a blob of that name. `stat` is false when
     the file system fails; a malformed digest may lead to some other path, `elsewhere` then being
     whether that exists.
     */
    method Exist(digest: string, stat: bool, elsewhere: bool) returns (r: Result<bool, BlobError>)
      requires Sound(c, disk.st)
      ensures Paths.IsDigest(digest) ==>
                r == if stat then Ok(BlobFile(repo, digest[7..]) in Blobs(disk.st)) else Fail(Io)
      ensures r.Fail? && r.error.BadDigest? <==> Paths.BlobPath(digest).Fail?
    {
      hide InStep, Private, ContentAddressed, RefsWhole;
      if Paths.IsDigest(digest) {
        Paths.BlobPathOfDigest(digest);
      }
      match Paths.BlobPath(digest)
      case Fail(e) => r := Fail(BadDigest(e));
      case Ok(path) =>
        if !stat {
          r := Fail(Io);
        } else if |path| == 3 && path == [Paths.BLOBS, Paths.SHA256, path[2]] {
          r := Ok(BlobFile(repo, path[2]) in disk.st.fs.names);
        } else {
          r := Ok(elsewhere);
        }
    }

    /** ListBlobs: exactly the well-formed digests that Exist affirms, each once. */
    method ListBlobs() returns (digests: seq<string>)
      requires Sound(c, disk.st) && forall content :: Paths.IsHexName(c.sha(content))
      ensures forall d :: d in digests <==> Paths.IsDigest(d) && BlobFile(repo, d[7..]) in Blobs(disk.st)
      ensures forall i, j :: 0 <= i < j < |digests| ==> digests[i] != digests[j]
    {
      hide InStep, Private, RefsWhole, Paths.IsHexName;
      var rest := set p | p in disk.st.fs.names && p.BlobFile? && p.repo == repo;
      ghost var all := rest;
      ghost var from: seq<Path> := [];
      digests := [];
      while rest != {}
        invariant rest <= all
        invariant forall p :: p in all ==> p in disk.st.fs.names && p.BlobFile? && p.repo == repo
        invariant forall p :: p in all && p !in rest ==> Paths.DigestOfName(p.name) in digests
        invariant |from| == |digests|
        invariant forall i :: 0 <= i < |from| ==>
                    from[i] in all && from[i] !in rest && digests[i] == Paths.DigestOfName(from[i].name)
        invariant forall i, j :: 0 <= i < j < |digests| ==> digests[i] != digests[j]
        decreases rest
      {
        var p :| p in rest;
        var d := Paths.DigestOfName(p.name);
        forall i | 0 <= i < |digests|
          ensures digests[i] != d
        {
          if digests[i] == d {
            SameName(p.name, from[i].name);
          }
        }
        rest := rest - {p};
        digests := digests + [d];
        from := from + [p];
      }
      ghost var seen := Blobs(disk.st);
      forall d
        ensures d in digests <==> Paths.IsDigest(d) && BlobFile(repo, d[7..]) in seen
      {
        if d in digests {
          var i :| 0 <= i < |digests| && digests[i] == d;
          var p := from[i];
          BlobNameIsHex(c, disk.st, p);
          NameOfDigest(p.name);
          assert p == BlobFile(repo, d[7..]);
        }
        if Paths.IsDigest(d) && BlobFile(repo, d[7..]) in seen {
          Paths.DigestParts(d);
          assert BlobFile(repo, d[7..]) in all;
        }
      }
    }

    /** `io` is false when the file system refuses to remove the file. */
    method DeleteBlob(digest: string, io: bool) returns (err: Outcome<BlobError>)
      requires Sound(c, disk.st) && Faithful(c)
      modifies disk
      ensures Sound(c, disk.st) && Refs(c, disk.st) == old(Refs(c, disk.st))
      ensures Paths.IsDigest(digest) ==>
                var p := BlobFile(repo, digest[7..]);
                && (err.Nil? <==> io || p !in old(Blobs(disk.st)))
                && Blobs(disk.st) == if err.Nil? then old(Blobs(disk.st)) - {p} else old(Blobs(disk.st))
    {
      hide Sound, Faithful, Blobs, Refs;
      if Paths.IsDigest(digest) {
        Paths.BlobPathOfDigest(digest);
      }
      match Paths.BlobPath(digest)
      case Fail(e) => err := Err(BadDigest(e));
      case Ok(path) =>
        err := Nil;
        if |path| == 3 && path == [Paths.BLOBS, Paths.SHA256, path[2]] {
          NamesOfBlobs(c, disk.st, BlobFile(repo, path[2]));
          if BlobFile(repo, path[2]) in disk.st.fs.names && !io {
            return Err(Io);
          }
          Visible(Event.DeleteBlob(repo, path[2]));
        }
    }

    /**
     GetReference; None is os.ErrNotExist. `read` is false when the file cannot be read for another
     reason. A name whose path is not that of a file of `refs` leads `elsewhere`.
     */
    method GetReference(name: string, read: bool, elsewhere: Result<Option<Descriptor>, References.RefError>)
      returns (r: Result<Option<Descriptor>, References.RefError>)
      requires Sound(c, disk.st)
      ensures r == if Paths.RefName(name).None? then elsewhere
                   else if !read then Fail(References.IoFailed)
                   else match References.Get(Refs(c, disk.st), RefFile(repo, Paths.RefName(name).value)) {
                     case None => Ok(None)
                     case Some(Some(desc)) => Ok(Some(desc))
                     case Some(None) => Fail(References.Corrupt)
                   }
      ensures Paths.RefName(name).Some? ==> r != Fail(References.Corrupt)
    {
      hide InStep, Private, ContentAddressed, Paths.RefName;
      var own := Paths.RefName(name);
      if own.None? {
        return elsewhere;
      }
      var p := RefFile(repo, own.value);
      if !read {
        return Fail(References.IoFailed);
      }
      if p !in disk.st.fs.names {
        return Ok(None);
      }
      var parsed := c.decode(disk.st.fs.data[disk.st.fs.names[p]]);
      r := if parsed.None? then Fail(References.Corrupt) else Ok(parsed);
    }

    /**
     PutReference; `read` is false when the reference that is there cannot be read, `io` when making,
     writing or renaming the temporary file fails.
     */
    method PutReference(w: nat, name: string, desc: Descriptor, read: bool, io: bool) returns (err: Outcome<References.RefError>)
      requires Sound(c, disk.st) && Faithful(c) && w !in disk.st.writers && w !in disk.st.receipts
      modifies disk
      ensures Sound(c, disk.st) && Blobs(disk.st) == old(Blobs(disk.st))
      ensures Paths.RefName(name).Some? ==>
                (Refs(c, disk.st), err) ==
                References.Apply(old(Refs(c, disk.st)), References.Put(RefFile(repo, Paths.RefName(name).value), desc, read, io))
      ensures Paths.RefName(name).Some? && err.Nil? ==>
                References.Get(Refs(c, disk.st), RefFile(repo, Paths.RefName(name).value)) == Some(Some(desc))
      ensures Paths.RefName(name).Some? && read && io && old(References.Get(Refs(c, disk.st), RefFile(repo, Paths.RefName(name).value))).None? ==>
                err.Nil?
    {
      hide Sound, Faithful, Blobs, Refs, Paths.RefName;
      var found := GetReference(name, read, Fail(References.IoFailed));
      if found.Fail? {
        return Err(found.error);
      }
      if found.value.Some? {
        return if found.value.value != desc then Err(References.Clobber) else Nil;
      }
      Begin(w, ToRef(repo, Paths.RefName(name).value, desc));
      assert disk.st.writers[w].fed + c.encode(desc) == c.encode(desc);
      InodeOfWriter(c, disk.st, w);
      Visible(Write(w, c.encode(desc)));
      Visible(Feed(w));
      Visible(Event.Close(w));
      if !io {
        Visible(Abort(w));
        return Err(References.IoFailed);
      }
      Visible(Publish(w));
      err := Nil;
    }

    method DeleteReference(name: string, io: bool) returns (err: Outcome<References.RefError>)
      requires Sound(c, disk.st) && Faithful(c)
      modifies disk
      ensures Sound(c, disk.st) && Blobs(disk.st) == old(Blobs(disk.st))
      ensures Paths.RefName(name).Some? ==>
                (Refs(c, disk.st), err) ==
                References.Apply(old(Refs(c, disk.st)), References.Delete(RefFile(repo, Paths.RefName(name).value), io))
      ensures Paths.RefName(name).Some? ==>
                (err.Nil? <==> References.Get(Refs(c, disk.st), RefFile(repo, Paths.RefName(name).value)).None?)
    {
      hide Sound, Faithful, Blobs, Paths.RefName;
      var own := Paths.RefName(name);
      if own.None? {
        return Err(References.IoFailed);
      }
      var p := RefFile(repo, own.value);
      NamesOfRefs(c, disk.st, p);
      if p in disk.st.fs.names && !io {
        return Err(References.IoFailed);
      }
      Visible(DeleteRef(repo, own.value));
      err := Nil;
    }

    /** Close: the layout's temporary files go, and readers see no change. */
    method Close()
      requires Sound(c, disk.st) && Faithful(c)
      modifies disk
      ensures Sound(c, disk.st) && Blobs(disk.st) == old(Blobs(disk.st)) && Refs(c, disk.st) == old(Refs(c, disk.st))
      ensures forall n :: TempFile(repo, session, n) !in disk.st.fs.names
      ensures forall p :: p in old(disk.st.fs.names) && !(p.TempFile? && p.repo == repo && p.session == session) ==>
                p in disk.st.fs.names && disk.st.fs.names[p] == old(disk.st.fs.names)[p]
    {
      hide Sound, Faithful, Blobs, Refs;
      Visible(CloseSession(repo, session));
    }

    /** The temporary file of a new call. */
    method Begin(w: nat, target: Target)
      requires Sound(c, disk.st) && Faithful(c) && w !in disk.st.writers && w !in disk.st.receipts
      requires target.repo == repo
      modifies disk
      ensures Sound(c, disk.st) && w in disk.st.writers && w !in disk.st.receipts
      ensures disk.st.writers[w].open && disk.st.writers[w].fed == [] && disk.st.writers[w].lag == []
      ensures disk.st.writers[w].size == 0 && disk.st.writers[w].target == target
      ensures disk.st.writers[w].temp in disk.st.fs.names
      ensures Blobs(disk.st) == old(Blobs(disk.st)) && Refs(c, disk.st) == old(Refs(c, disk.st))
    {
      Visible(Open(w, session, target));
    }

    /** One system call, with what it means for readers. */
    method Visible(e: Event)
      requires Sound(c, disk.st) && Faithful(c) && Copies(e)
      modifies disk
      ensures Sound(c, disk.st) && disk.st == Do(c, old(disk.st), e)
      ensures Blobs(disk.st) == NextBlobs(c, old(disk.st), e, old(Blobs(disk.st)))
      ensures Refs(c, disk.st) == NextRefs(old(disk.st), e, old(Refs(c, disk.st)))
    {
      hide Sound, Faithful, Blobs, Refs, Do;
      StepSound(c, disk.st, e);
      StepVisible(c, disk.st, e);
      disk.Step(c, e);
    }
  }

  /** One round of the copy loop. */
  lemma CopyStep(c: Codec, s: Store, w: nat, chunk: Content)
    requires Sound(c, s) && Faithful(c) && w in s.writers
    requires s.writers[w].open && s.writers[w].lag == [] && s.writers[w].target.ToBlob?
    ensures var s' := Do(c, Do(c, s, Write(w, chunk)), Feed(w));
            && Sound(c, s') && s'.fs.names == s.fs.names && s'.receipts == s.receipts
            && w in s'.writers
            && s'.writers[w] == s.writers[w].(fed := s.writers[w].fed + chunk, size := s.writers[w].size + |chunk|)
            && Blobs(s') == Blobs(s) && Refs(c, s') == Refs(c, s)
  {
    hide Blobs, Refs, OneName, Private, ContentAddressed, RefsWhole, Faithful;
    StepSound(c, s, Write(w, chunk));
    StepVisible(c, s, Write(w, chunk));
    var s1 := Do(c, s, Write(w, chunk));
    StepSound(c, s1, Feed(w));
    StepVisible(c, s1, Feed(w));
  }

  lemma SameName(m: string, n: string)
    requires Paths.DigestOfName(m) == Paths.DigestOfName(n)
    ensures m == n
  {
    assert Paths.DigestOfName(m)[7..] == m && Paths.DigestOfName(n)[7..] == n;
  }

  lemma NameOfDigest(name: string)
    requires Paths.IsHexName(name)
    ensures Paths.IsDigest(Paths.DigestOfName(name)) && Paths.DigestOfName(name)[7..] == name
  {
    assert Paths.DigestOfName(name)[7..] == name;
  }

  lemma BlobNameIsHex(c: Codec, s: Store, p: Path)
    requires ContentAddressed(c, s) && p in s.fs.names && p.BlobFile?
    requires forall content :: Paths.IsHexName(c.sha(content))
    ensures Paths.IsHexName(p.name) && p in Blobs(s)
  {
    assert c.sha(s.fs.data[s.fs.names[p]]) == p.name;
  }

  lemma InodeOfWriter(c: Codec, s: Store, w: nat)
    requires Sound(c, s) && w in s.writers
    ensures s.writers[w].ino in s.fs.data
  {
  }

  lemma NamesOfBlobs(c: Codec, s: Store, p: Path)
    requires Sound(c, s) && p.BlobFile?
    ensures p in Blobs(s) <==> p in s.fs.names
  {
  }

  lemma NamesOfRefs(c: Codec, s: Store, p: Path)
    requires Sound(c, s) && p.RefFile?
    ensures p in Refs(c, s) <==> p in s.fs.names
  {
  }
}
