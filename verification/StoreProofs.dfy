/**
 Content addressing at every intermediate step of any number of writers and crashes, and the
 atomic view that readers have of the layouts.
 */
module StoreProofs {
  import opened Wrappers
  import opened Hex
  import opened Layouts
  import opened Store

  lemma CreateApart(fs: FS, p: Path)
    requires Apart(fs) && (p.TempFile? ==> p.number == fs.next)
    ensures Apart(Create(fs, p))
  {
  }

  lemma RenameApart(fs: FS, p: Path, q: Path)
    requires Apart(fs) && p in fs.names && !Linkable(p) && !q.TempFile?
    ensures Apart(Rename(fs, p, q))
  {
  }

  lemma LinkApart(fs: FS, p: Path, q: Path)
    requires Apart(fs) && p in fs.names && Linkable(p) && Linkable(q)
    ensures Apart(Link(fs, p, q))
  {
  }

  lemma OpenNames(c: Codec, s: Store, i: nat, session: nat, target: Target)
    requires Apart(s.fs) && Private(s)
    ensures Apart(Do(c, s, Open(i, session, target)).fs) && Private(Do(c, s, Open(i, session, target)))
  {
    hide Apart;
    if i !in s.writers && i !in s.receipts {
      var temp := TempFile(target.repo, session, s.fs.next);
      CreateApart(s.fs, temp);
      NewName(s.fs, temp);
    }
  }

  /** A temporary name made from the next inode is free. */
  lemma NewName(fs: FS, p: Path)
    requires Apart(fs) && p.TempFile? && p.number == fs.next
    ensures p !in fs.names && forall q :: q in fs.names ==> fs.names[q] < fs.next
  {
  }

  /** Taking names and writers away, and filling files, keeps files apart and writers private. */
  lemma FewerNames(s: Store, t: Store)
    requires Apart(s.fs) && Private(s)
    requires forall p :: p in t.fs.names ==> p in s.fs.names && t.fs.names[p] == s.fs.names[p]
    requires s.fs.next == t.fs.next && forall n :: n in s.fs.data ==> n in t.fs.data
    requires forall i :: i in t.writers ==>
               i in s.writers && t.writers[i].temp == s.writers[i].temp && t.writers[i].ino == s.writers[i].ino
    ensures Apart(t.fs) && Private(t)
  {
    FewerApart(s.fs, t.fs);
  }

  lemma FewerApart(fs: FS, gs: FS)
    requires Apart(fs)
    requires forall p :: p in gs.names ==> p in fs.names && gs.names[p] == fs.names[p]
    requires fs.next == gs.next && forall n :: n in fs.data ==> n in gs.data
    ensures Apart(gs)
  {
  }

  lemma WriterNames(c: Codec, s: Store, e: Event)
    requires Apart(s.fs) && Private(s) && (e.Write? || e.Feed? || e.Close? || e.Abort?)
    ensures Apart(Do(c, s, e).fs) && Private(Do(c, s, e))
  {
    hide Fits, Complete, Apart, Private;
    FewerNames(s, Do(c, s, e));
  }

  lemma PublishNames(c: Codec, s: Store, i: nat)
    requires Apart(s.fs) && Private(s)
    ensures Apart(Do(c, s, Publish(i)).fs) && Private(Do(c, s, Publish(i)))
  {
    hide Apart;
    if i in s.writers && !s.writers[i].open && s.writers[i].temp in s.fs.names {
      RenameApart(s.fs, s.writers[i].temp, Destination(c, s.writers[i]));
    }
  }

  lemma DataNames(c: Codec, s: Store, e: Event)
    requires Apart(s.fs) && Private(s) && (e.CreateData? || e.WriteData?)
    ensures Apart(Do(c, s, e).fs) && Private(Do(c, s, e))
  {
    hide Apart, Private;
    if e.CreateData? && DataFile(e.id) !in s.fs.names {
      CreateApart(s.fs, DataFile(e.id));
      NewDataPrivate(s, DataFile(e.id));
    } else {
      FewerNames(s, Do(c, s, e));
    }
  }

  lemma NewDataPrivate(s: Store, p: Path)
    requires Apart(s.fs) && Private(s) && p.DataFile? && p !in s.fs.names
    ensures Private(s.(fs := Create(s.fs, p)))
  {
    hide Apart;
  }

  lemma LinkNames(c: Codec, s: Store, e: Event)
    requires Apart(s.fs) && Private(s) && (e.LinkIntoBlobs? || e.LinkIntoData?)
    ensures Apart(Do(c, s, e).fs) && Private(Do(c, s, e))
  {
    hide Apart;
    var (p, q) := (DataFile(e.id), BlobFile(e.repo, e.name));
    if e.LinkIntoBlobs? && p in s.fs.names {
      LinkApart(s.fs, p, q);
    } else if e.LinkIntoData? && q in s.fs.names {
      LinkApart(s.fs, q, p);
    }
  }

  lemma RemovalNames(c: Codec, s: Store, e: Event)
    requires Apart(s.fs) && Private(s) && (e.CloseSession? || e.DeleteBlob? || e.DeleteRef? || e.RemoveData?)
    ensures Apart(Do(c, s, e).fs) && Private(Do(c, s, e))
  {
    hide Apart, Private;
    FewerNames(s, Do(c, s, e));
  }

  lemma StepNames(c: Codec, s: Store, e: Event)
    requires Apart(s.fs) && Private(s)
    ensures Apart(Do(c, s, e).fs) && Private(Do(c, s, e))
  {
    hide Apart, Private, Do;
    match e {
      case Open(i, session, target) => OpenNames(c, s, i, session, target);
      case Write(_, _) => WriterNames(c, s, e);
      case Feed(_) => WriterNames(c, s, e);
      case Close(_) => WriterNames(c, s, e);
      case Abort(_) => WriterNames(c, s, e);
      case Publish(i) => PublishNames(c, s, i);
      case CreateData(_) => DataNames(c, s, e);
      case WriteData(_, _) => DataNames(c, s, e);
      case LinkIntoBlobs(_, _, _) => LinkNames(c, s, e);
      case LinkIntoData(_, _, _) => LinkNames(c, s, e);
      case _ => RemovalNames(c, s, e);
    }
  }

  lemma OpenContents(c: Codec, s: Store, i: nat, session: nat, target: Target)
    requires Kept(c, s)
    ensures var s' := Do(c, s, Open(i, session, target)); InStep(c, s') && RefsWhole(c, s')
  {
    var empty: Content := [];
    assert empty + empty == empty;
  }

  lemma WriterContents(c: Codec, s: Store, e: Event)
    requires Private(s) && InStep(c, s) && (e.Write? || e.Feed? || e.Close? || e.Abort?)
    ensures InStep(c, Do(c, s, e))
  {
  }

  /** The file written to is not visible under any name but a temporary one. */
  lemma WriterInvisible(c: Codec, s: Store, e: Event)
    requires Private(s) && (e.Write? || e.Feed? || e.Close? || e.Abort?)
    ensures RefsWhole(c, s) ==> RefsWhole(c, Do(c, s, e))
    ensures ContentAddressed(c, s) ==> ContentAddressed(c, Do(c, s, e))
  {
    hide Fits, Complete;
  }

  /** A complete file and its hash: what Publish renames. */
  lemma ClosedContent(c: Codec, s: Store, i: nat)
    requires Kept(c, s) && i in s.writers && !s.writers[i].open && s.writers[i].temp in s.fs.names
    ensures var w := s.writers[i];
            && s.fs.names[w.temp] == w.ino && w.ino in s.fs.data && s.fs.data[w.ino] == w.fed && w.size == |w.fed|
            && (w.target.ToRef? ==> w.fed == c.encode(w.target.desc))
  {
    var w := s.writers[i];
    assert w.fed + w.lag == w.fed;
  }

  lemma PublishContents(c: Codec, s: Store, i: nat)
    requires Kept(c, s) && Faithful(c)
    ensures var s' := Do(c, s, Publish(i)); InStep(c, s') && RefsWhole(c, s')
    ensures ContentAddressed(c, s) ==> ContentAddressed(c, Do(c, s, Publish(i)))
  {
    hide Apart;
    if i in s.writers && !s.writers[i].open && s.writers[i].temp in s.fs.names {
      ClosedContent(c, s, i);
    }
  }

  lemma OtherContents(c: Codec, s: Store, e: Event)
    requires Kept(c, s)
    requires e.CloseSession? || e.DeleteBlob? || e.DeleteRef? || e.RemoveData? || e.LinkIntoBlobs? || e.LinkIntoData?
    ensures InStep(c, Do(c, s, e)) && RefsWhole(c, Do(c, s, e))
  {
    hide Apart, Complete;
  }

  /** A data file shares its inode with no reference and no writer. */
  lemma OverwriteContents(c: Codec, s: Store, id: string, content: Content)
    requires Kept(c, s) && DataFile(id) in s.fs.names
    ensures var s' := s.(fs := Overwrite(s.fs, DataFile(id), content)); InStep(c, s') && RefsWhole(c, s')
  {
    hide Complete;
  }

  lemma NewDataContents(c: Codec, s: Store, id: string)
    requires Kept(c, s) && DataFile(id) !in s.fs.names
    ensures var s' := s.(fs := Create(s.fs, DataFile(id))); InStep(c, s') && RefsWhole(c, s')
  {
    hide Complete;
  }

  lemma DataContents(c: Codec, s: Store, e: Event)
    requires Kept(c, s) && (e.CreateData? || e.WriteData?)
    ensures InStep(c, Do(c, s, e)) && RefsWhole(c, Do(c, s, e))
  {
    hide Kept, InStep, RefsWhole, Overwrite, Create;
    if DataFile(e.id) in s.fs.names {
      OverwriteContents(c, s, e.id, if e.WriteData? then e.content else []);
    } else {
      NewDataContents(c, s, e.id);
      KeptParts(c, s);
    }
  }

  lemma KeptParts(c: Codec, s: Store)
    ensures Kept(c, s) ==> InStep(c, s) && RefsWhole(c, s)
  {
    hide InStep, RefsWhole;
  }

  lemma StepContents(c: Codec, s: Store, e: Event)
    requires Kept(c, s) && Faithful(c)
    ensures InStep(c, Do(c, s, e)) && RefsWhole(c, Do(c, s, e))
  {
    hide Apart, Private, InStep, RefsWhole, Faithful, Do;
    match e {
      case Open(i, session, target) => OpenContents(c, s, i, session, target);
      case Write(_, _) => WriterContents(c, s, e); WriterInvisible(c, s, e);
      case Feed(_) => WriterContents(c, s, e); WriterInvisible(c, s, e);
      case Close(_) => WriterContents(c, s, e); WriterInvisible(c, s, e);
      case Abort(_) => WriterContents(c, s, e); WriterInvisible(c, s, e);
      case Publish(i) => PublishContents(c, s, i);
      case CreateData(_) => DataContents(c, s, e);
      case WriteData(_, _) => DataContents(c, s, e);
      case _ => OtherContents(c, s, e);
    }
  }

  /** One step of any writer, of the engine, or of a linking daemon. */
  lemma StepKept(c: Codec, s: Store, e: Event)
    requires Kept(c, s) && Faithful(c)
    ensures Kept(c, Do(c, s, e))
  {
    hide Apart, Private, InStep, RefsWhole, Faithful, Do;
    StepNames(c, s, e);
    StepContents(c, s, e);
  }

  /** Every blob that is linked to the data file has the name of `content`. */
  ghost predicate NamesFit(c: Codec, s: Store, id: string, content: Content) {
    forall p :: p in s.fs.names && p.BlobFile? && DataFile(id) in s.fs.names && s.fs.names[p] == s.fs.names[DataFile(id)] ==>
      c.sha(content) == p.name
  }

  /**
   The step links only a data file that matches the digest, and writes or truncates a data file
   only if no blob is linked to it that would then have the wrong name.
   */
  ghost predicate KeepsNames(c: Codec, s: Store, e: Event) {
    match e
    case LinkIntoBlobs(repo, name, id) =>
      DataFile(id) in s.fs.names && BlobFile(repo, name) !in s.fs.names && s.fs.names[DataFile(id)] in s.fs.data ==>
        c.sha(s.fs.data[s.fs.names[DataFile(id)]]) == name
    case CreateData(id) => NamesFit(c, s, id, [])
    case WriteData(id, content) => NamesFit(c, s, id, content)
    case _ => true
  }

  lemma LinkAddressedIff(c: Codec, s: Store, e: Event)
    requires Kept(c, s) && ContentAddressed(c, s) && e.LinkIntoBlobs?
    ensures ContentAddressed(c, Do(c, s, e)) <==> KeepsNames(c, s, e)
  {
    hide Private, InStep, RefsWhole;
    var (p, q) := (DataFile(e.id), BlobFile(e.repo, e.name));
    if p in s.fs.names && q !in s.fs.names {
      assert q in Do(c, s, e).fs.names;
    }
  }

  lemma OverwriteAddressedIff(c: Codec, s: Store, id: string, content: Content)
    requires ContentAddressed(c, s) && DataFile(id) in s.fs.names
    ensures ContentAddressed(c, s.(fs := Overwrite(s.fs, DataFile(id), content))) <==> NamesFit(c, s, id, content)
  {
    var s' := s.(fs := Overwrite(s.fs, DataFile(id), content));
    if ContentAddressed(c, s') {
      forall p | p in s.fs.names && p.BlobFile? && s.fs.names[p] == s.fs.names[DataFile(id)]
        ensures c.sha(content) == p.name
      {
        assert p in s'.fs.names;
      }
    }
  }

  /** A step that touches no content, and makes no blob but by moving one already named. */
  lemma OtherAddressed(c: Codec, s: Store, e: Event)
    requires Kept(c, s) && ContentAddressed(c, s)
    requires e.Open? || e.CloseSession? || e.DeleteBlob? || e.DeleteRef? || e.RemoveData? || e.LinkIntoData?
             || (e.CreateData? && DataFile(e.id) !in s.fs.names)
    ensures ContentAddressed(c, Do(c, s, e))
  {
    hide Private, InStep, RefsWhole;
  }

  lemma StepAddressedIff(c: Codec, s: Store, e: Event)
    requires Kept(c, s) && Faithful(c) && ContentAddressed(c, s)
    ensures ContentAddressed(c, Do(c, s, e)) <==> KeepsNames(c, s, e)
  {
    hide Apart, InStep, RefsWhole, ContentAddressed, Faithful, DoWriter, NamesFit, Overwrite, Private, Link, Create, Unlink;
    match e {
      case LinkIntoBlobs(_, _, _) => LinkAddressedIff(c, s, e);
      case CreateData(id) =>
        if DataFile(id) in s.fs.names {
          OverwriteAddressedIff(c, s, id, []);
        } else {
          OtherAddressed(c, s, e);
          NothingLinked(c, s, id, []);
        }
      case WriteData(id, content) =>
        if DataFile(id) in s.fs.names {
          OverwriteAddressedIff(c, s, id, content);
        } else {
          NothingLinked(c, s, id, content);
        }
      case Write(_, _) => WriterInvisible(c, s, e);
      case Feed(_) => WriterInvisible(c, s, e);
      case Close(_) => WriterInvisible(c, s, e);
      case Abort(_) => WriterInvisible(c, s, e);
      case Publish(i) => PublishContents(c, s, i);
      case _ => OtherAddressed(c, s, e);
    }
  }

  lemma NothingLinked(c: Codec, s: Store, id: string, content: Content)
    requires DataFile(id) !in s.fs.names
    ensures NamesFit(c, s, id, content)
  {
  }

  lemma {:induction false} RunKept(c: Codec, s: Store, es: seq<Event>)
    requires Kept(c, s) && Faithful(c)
    ensures Kept(c, Run(c, s, es))
    decreases |es|
  {
    hide Kept, Do, Faithful;
    if es == [] {
    } else {
      StepKept(c, s, es[0]);
      RunKept(c, Do(c, s, es[0]), es[1..]);
    }
  }

  ghost predicate AlwaysAddressed(c: Codec, s: Store, es: seq<Event>)
    decreases |es|
  {
    ContentAddressed(c, s) && (es != [] ==> AlwaysAddressed(c, Do(c, s, es[0]), es[1..]))
  }

  ghost predicate AlwaysKeepsNames(c: Codec, s: Store, es: seq<Event>)
    decreases |es|
  {
    es != [] ==> KeepsNames(c, s, es[0]) && AlwaysKeepsNames(c, Do(c, s, es[0]), es[1..])
  }

  /**
   With hard links, in every interleaving of writers, crashes, links, deletions and engine writes:
   each blob is named by the hash of its whole content at every step if and only if every link was
   made to a data file that matched, and no data file with a blob linked to it was written or
   truncated to anything that the blob's name does not fit.
   */
  lemma {:induction false} RunAddressedIff(c: Codec, s: Store, es: seq<Event>)
    requires Kept(c, s) && Faithful(c) && ContentAddressed(c, s)
    ensures AlwaysAddressed(c, s, es) <==> AlwaysKeepsNames(c, s, es)
    decreases |es|
  {
    hide Kept, Do, Faithful, ContentAddressed, KeepsNames;
    if es == [] {
    } else {
      StepKept(c, s, es[0]);
      StepAddressedIff(c, s, es[0]);
      if KeepsNames(c, s, es[0]) {
        RunAddressedIff(c, Do(c, s, es[0]), es[1..]);
      }
    }
  }

  lemma OneNameApart(fs: FS)
    requires OneName(fs)
    ensures Apart(fs)
  {
  }

  lemma SoundKept(c: Codec, s: Store)
    requires Sound(c, s)
    ensures Kept(c, s)
  {
    hide Apart, OneName, Private, InStep, RefsWhole;
    OneNameApart(s.fs);
  }

  lemma StepOneName(c: Codec, s: Store, e: Event)
    requires OneName(s.fs) && Private(s) && Copies(e)
    ensures OneName(Do(c, s, e).fs)
  {
    hide DoWriter, Private, OneName;
    match e {
      case Open(i, session, target) => CreateOneName(s.fs, TempFile(target.repo, session, s.fs.next));
      case CreateData(id) => CreateOneName(s.fs, DataFile(id)); DataOneName(s.fs, id, []);
      case WriteData(id, content) => DataOneName(s.fs, id, content);
      case CloseSession(_, _) => RemovalOneName(c, s, e);
      case DeleteBlob(_, _) => RemovalOneName(c, s, e);
      case DeleteRef(_, _) => RemovalOneName(c, s, e);
      case RemoveData(_) => RemovalOneName(c, s, e);
      case _ => WriterOneName(c, s, e);
    }
  }

  lemma CreateOneName(fs: FS, p: Path)
    requires OneName(fs) && (p.TempFile? ==> p.number == fs.next)
    ensures OneName(Create(fs, p))
  {
  }

  lemma DataOneName(fs: FS, id: string, content: Content)
    requires OneName(fs)
    ensures DataFile(id) in fs.names ==> OneName(Overwrite(fs, DataFile(id), content))
  {
  }

  lemma RemovalOneName(c: Codec, s: Store, e: Event)
    requires OneName(s.fs) && (e.CloseSession? || e.DeleteBlob? || e.DeleteRef? || e.RemoveData?)
    ensures OneName(Do(c, s, e).fs)
  {
  }

  lemma WriterOneName(c: Codec, s: Store, e: Event)
    requires OneName(s.fs) && Private(s) && (e.Write? || e.Feed? || e.Close? || e.Publish? || e.Abort?)
    ensures OneName(Do(c, s, e).fs)
  {
    hide Fits, Complete;
    if e.Publish? && e.w in s.writers && s.writers[e.w].temp in s.fs.names {
      RenameOneName(s.fs, s.writers[e.w].temp, Destination(c, s.writers[e.w]));
    }
  }

  lemma RenameOneName(fs: FS, p: Path, q: Path)
    requires OneName(fs) && p in fs.names && !q.TempFile?
    ensures OneName(Rename(fs, p, q))
  {
  }

  lemma CopyKeepsNames(c: Codec, s: Store, e: Event)
    requires OneName(s.fs) && Copies(e)
    ensures KeepsNames(c, s, e)
  {
  }

  /** One step, of any writer or of the engine, keeps all of it as long as nothing is hard-linked. */
  lemma StepSound(c: Codec, s: Store, e: Event)
    requires Sound(c, s) && Faithful(c) && Copies(e)
    ensures Sound(c, Do(c, s, e))
  {
    hide Apart, OneName, Private, InStep, ContentAddressed, RefsWhole, Faithful, Do, KeepsNames;
    SoundKept(c, s);
    StepKept(c, s, e);
    StepOneName(c, s, e);
    CopyKeepsNames(c, s, e);
    StepAddressedIff(c, s, e);
  }

  predicate AllCopy(es: seq<Event>) {
    forall i :: 0 <= i < |es| ==> Copies(es[i])
  }

  /**
   In every interleaving of PutBlob and PutReference calls, crashes, deletions and engine writes,
   at every step: each blob file is named by the hash of its whole content, each reference file
   holds a whole descriptor, and no inode has two names - so no writer still has a visible file
   open, and no data file of the engine shares an inode with a blob.
   */
  lemma {:induction false} RunSound(c: Codec, s: Store, es: seq<Event>)
    requires Sound(c, s) && Faithful(c) && AllCopy(es)
    ensures Sound(c, Run(c, s, es))
    decreases |es|
  {
    hide Sound, Do, Faithful, Copies;
    if es == [] {
    } else {
      StepSound(c, s, es[0]);
      RunSound(c, Do(c, s, es[0]), es[1..]);
    }
  }

  const EMPTY := Store(FS(map[], map[], 0), map[], map[])

  lemma EmptySound(c: Codec)
    ensures Sound(c, EMPTY)
  {
  }

  /** From an empty root, in the words of a reader of the disk. */
  lemma NoSharingInCopyMode(c: Codec, es: seq<Event>, p: Path, q: Path, i: nat)
    requires Faithful(c) && AllCopy(es)
    ensures var s := Run(c, EMPTY, es);
            && (p in s.fs.names && q in s.fs.names && p.DataFile? && q.BlobFile? ==> s.fs.names[p] != s.fs.names[q])
            && (i in s.writers && q in s.fs.names && q.BlobFile? ==> s.fs.names[q] != s.writers[i].ino)
            && (q in s.fs.names && q.BlobFile? ==>
                  s.fs.names[q] in s.fs.data && c.sha(s.fs.data[s.fs.names[q]]) == q.name)
  {
    hide Run, Do, Faithful, InStep, RefsWhole;
    EmptySound(c);
    RunSound(c, EMPTY, es);
  }

  /** What a step changes for the readers of blobs: only a rename adds, and only whole contents. */
  function NextBlobs(c: Codec, s: Store, e: Event, blobs: map<Path, Content>): map<Path, Content> {
    match e
    case Publish(i) =>
      if i in s.writers && !s.writers[i].open && s.writers[i].temp in s.fs.names && s.writers[i].target.ToBlob?
      then var w := s.writers[i]; blobs[BlobFile(w.target.repo, c.sha(w.fed)) := w.fed]
      else blobs
    case DeleteBlob(repo, name) => blobs - {BlobFile(repo, name)}
    case _ => blobs
  }

  function NextRefs(s: Store, e: Event, refs: map<Path, Option<Descriptor>>): map<Path, Option<Descriptor>> {
    match e
    case Publish(i) =>
      if i in s.writers && !s.writers[i].open && s.writers[i].temp in s.fs.names && s.writers[i].target.ToRef?
      then var w := s.writers[i]; refs[RefFile(w.target.repo, w.target.name) := Some(w.target.desc)]
      else refs
    case DeleteRef(repo, name) => refs - {RefFile(repo, name)}
    case _ => refs
  }

  lemma RenameBlobs(s: Store, p: Path, q: Path)
    requires OneName(s.fs) && p in s.fs.names && p.TempFile? && !q.TempFile?
    ensures Blobs(s.(fs := Rename(s.fs, p, q))) ==
              if q.BlobFile? then Blobs(s)[q := s.fs.data[s.fs.names[p]]] else Blobs(s)
  {
  }

  lemma RenameRefs(c: Codec, s: Store, p: Path, q: Path)
    requires OneName(s.fs) && p in s.fs.names && p.TempFile? && !q.TempFile?
    ensures Refs(c, s.(fs := Rename(s.fs, p, q))) ==
              if q.RefFile? then Refs(c, s)[q := c.decode(s.fs.data[s.fs.names[p]])] else Refs(c, s)
  {
  }

  lemma PublishVisible(c: Codec, s: Store, i: nat)
    requires Sound(c, s) && Faithful(c)
    ensures Blobs(Do(c, s, Publish(i))) == NextBlobs(c, s, Publish(i), Blobs(s))
    ensures Refs(c, Do(c, s, Publish(i))) == NextRefs(s, Publish(i), Refs(c, s))
  {
    hide InStep, ContentAddressed, RefsWhole, Rename, OneName;
    if i in s.writers && !s.writers[i].open && s.writers[i].temp in s.fs.names {
      var w := s.writers[i];
      SoundKept(c, s);
      ClosedContent(c, s, i);
      RenameBlobs(s, w.temp, Destination(c, w));
      RenameRefs(c, s, w.temp, Destination(c, w));
      SameFiles(c, Do(c, s, Publish(i)), s.(fs := Rename(s.fs, w.temp, Destination(c, w))));
    } else {
      SameFiles(c, Do(c, s, Publish(i)), s);
    }
  }

  lemma SameFiles(c: Codec, s: Store, t: Store)
    requires s.fs == t.fs
    ensures Blobs(s) == Blobs(t) && Refs(c, s) == Refs(c, t)
  {
  }

  /** Steps that touch no visible name and no visible inode. */
  lemma SameVisible(c: Codec, s: Store, t: Store)
    requires forall p: Path :: p.BlobFile? || p.RefFile? ==> (p in s.fs.names <==> p in t.fs.names)
    requires forall p: Path :: (p.BlobFile? || p.RefFile?) && p in s.fs.names ==>
               && s.fs.names[p] == t.fs.names[p] && s.fs.names[p] in s.fs.data && s.fs.names[p] in t.fs.data
               && s.fs.data[s.fs.names[p]] == t.fs.data[s.fs.names[p]]
    ensures Blobs(t) == Blobs(s) && Refs(c, t) == Refs(c, s)
  {
  }

  lemma QuietVisible(c: Codec, s: Store, e: Event)
    requires Sound(c, s) && Copies(e) && !e.Publish? && !e.DeleteBlob? && !e.DeleteRef?
    ensures Blobs(Do(c, s, e)) == Blobs(s) && Refs(c, Do(c, s, e)) == Refs(c, s)
  {
    hide Private, InStep, ContentAddressed, RefsWhole, Blobs, Refs, DoWriter;
    if e.Open? || e.CloseSession? || e.RemoveData? {
      SameVisible(c, s, Do(c, s, e));
    } else if e.CreateData? || e.WriteData? {
      DataVisible(c, s, e);
    } else {
      WriterVisible(c, s, e);
    }
  }

  lemma DataVisible(c: Codec, s: Store, e: Event)
    requires Sound(c, s) && (e.CreateData? || e.WriteData?)
    ensures Blobs(Do(c, s, e)) == Blobs(s) && Refs(c, Do(c, s, e)) == Refs(c, s)
  {
    hide Private, InStep, ContentAddressed, RefsWhole, Blobs, Refs;
    SameVisible(c, s, Do(c, s, e));
  }

  lemma WriterVisible(c: Codec, s: Store, e: Event)
    requires Sound(c, s) && (e.Write? || e.Feed? || e.Close? || e.Abort?)
    ensures Blobs(Do(c, s, e)) == Blobs(s) && Refs(c, Do(c, s, e)) == Refs(c, s)
  {
    hide InStep, ContentAddressed, RefsWhole, Blobs, Refs, Complete, Fits;
    SameVisible(c, s, Do(c, s, e));
  }

  /**
   The protocol refines an atomic store: in copy mode a reader sees blobs and references change
   only at a rename, by one whole entry, and at deletions; writing to data files is never seen.
   */
  lemma StepVisible(c: Codec, s: Store, e: Event)
    requires Sound(c, s) && Faithful(c) && Copies(e)
    ensures Blobs(Do(c, s, e)) == NextBlobs(c, s, e, Blobs(s))
    ensures Refs(c, Do(c, s, e)) == NextRefs(s, e, Refs(c, s))
  {
    hide Do, Sound, Faithful, Refs, Blobs;
    match e
    case Publish(i) => PublishVisible(c, s, i);
    case DeleteBlob(repo, name) => DeleteVisible(c, s, e);
    case DeleteRef(repo, name) => DeleteVisible(c, s, e);
    case _ => QuietVisible(c, s, e);
  }

  /** A removal removes that name, and no other. */
  lemma RemovalRemoves(c: Codec, s: Store, e: Event)
    requires e.DeleteBlob? || e.DeleteRef? || e.RemoveData?
    ensures var p := if e.DeleteBlob? then BlobFile(e.repo, e.name) else if e.DeleteRef? then RefFile(e.repo, e.name) else DataFile(e.id);
            var s' := Do(c, s, e);
            && p !in s'.fs.names && s'.fs.data == s.fs.data && s'.writers == s.writers
            && forall q :: q != p ==> (q in s'.fs.names <==> q in s.fs.names) && (q in s.fs.names ==> s'.fs.names[q] == s.fs.names[q])
  {
  }

  lemma UnlinkVisible(c: Codec, s: Store, p: Path)
    ensures Blobs(s.(fs := Unlink(s.fs, p))) == Blobs(s) - {p}
    ensures Refs(c, s.(fs := Unlink(s.fs, p))) == Refs(c, s) - {p}
  {
    hide Refs;
    UnlinkRefs(c, s, p);
  }

  lemma UnlinkRefs(c: Codec, s: Store, p: Path)
    ensures Refs(c, s.(fs := Unlink(s.fs, p))) == Refs(c, s) - {p}
  {
  }

  lemma DeleteVisible(c: Codec, s: Store, e: Event)
    requires e.DeleteBlob? || e.DeleteRef?
    ensures Blobs(Do(c, s, e)) == NextBlobs(c, s, e, Blobs(s))
    ensures Refs(c, Do(c, s, e)) == NextRefs(s, e, Refs(c, s))
  {
    hide Blobs, Refs;
    var p := if e.DeleteBlob? then BlobFile(e.repo, e.name) else RefFile(e.repo, e.name);
    UnlinkVisible(c, s, p);
    KindsDiffer(c, s, p);
  }

  lemma KindsDiffer(c: Codec, s: Store, p: Path)
    ensures p.RefFile? ==> Blobs(s) - {p} == Blobs(s)
    ensures p.BlobFile? ==> Refs(c, s) - {p} == Refs(c, s)
  {
  }

  /** What PutBlob returns: the digest and the length of the content that is now stored. */
  lemma ReceiptIsTrue(c: Codec, s: Store, i: nat)
    requires Sound(c, s) && Faithful(c) && i in s.writers && s.writers[i].target.ToBlob?
    requires i !in s.receipts && i in Do(c, s, Publish(i)).receipts
    ensures var s', repo := Do(c, s, Publish(i)), s.writers[i].target.repo;
            exists content ::
              && s'.receipts[i] == BlobStored(DigestOf(c, content), |content|)
              && BlobFile(repo, c.sha(content)) in Blobs(s') && Blobs(s')[BlobFile(repo, c.sha(content))] == content
  {
    hide InStep, ContentAddressed, RefsWhole, Blobs, Refs, Private, OneName;
    var w := s.writers[i];
    SoundKept(c, s);
    ClosedContent(c, s, i);
    PublishVisible(c, s, i);
    assert Do(c, s, Publish(i)).receipts[i] == BlobStored(DigestOf(c, w.fed), |w.fed|);
  }
}
