/**
 The OCI image layouts on disk at the level of names and inodes (oci/dir.go), shared by any number
 of writers that create a temporary file, fill it, and rename it into place, one step at a time.
 The layout is that of the OCI Image Format Specification, Image Layout, "Blobs" and "Refs".
 */
module Store {
  import opened Wrappers
  import opened Hex
  import opened Layouts

  /** Names lead to inodes, inodes hold contents; two names may lead to one inode. */
  datatype FS = FS(names: map<Path, nat>, data: map<nat, Content>, next: nat)

  datatype Target = ToBlob(repo: string) | ToRef(repo: string, name: string, desc: Descriptor)

  /** A PutBlob or PutReference under way: `lag` is in the file and not yet in the running hash. */
  datatype Writer = Writer(target: Target, temp: Path, ino: nat, fed: Content, lag: Content, size: int, open: bool)

  /** What a finished call returned. */
  datatype Receipt = BlobStored(digest: string, size: int) | RefStored

  datatype Store = Store(fs: FS, writers: map<nat, Writer>, receipts: map<nat, Receipt>)

  datatype Event =
    | Open(w: nat, session: nat, target: Target)   // create the temporary file
    | Write(w: nat, chunk: Content)                // a chunk, or the part of one that fitted, reaches the file
    | Feed(w: nat)                                 // and then the hash
    | Close(w: nat)
    | Publish(w: nat)                              // rename into place and return
    | Abort(w: nat)                                // an error return or a crash, at any point
    | CloseSession(repo: string, session: nat)     // the layout is closed: its temporary files go
    | DeleteBlob(repo: string, name: string)
    | DeleteRef(repo: string, name: string)
    | CreateData(id: string)                       // os.Create: make or truncate
    | WriteData(id: string, content: Content)
    | RemoveData(id: string)
    | LinkIntoBlobs(repo: string, name: string, id: string)
    | LinkIntoData(id: string, repo: string, name: string)

  function Destination(c: Codec, w: Writer): Path {
    match w.target
    case ToBlob(repo) => BlobFile(repo, c.sha(w.fed))
    case ToRef(repo, name, _) => RefFile(repo, name)
  }

  function ReceiptOf(c: Codec, w: Writer): Receipt {
    if w.target.ToBlob? then BlobStored(DigestOf(c, w.fed), w.size) else RefStored
  }

  function Unlink(fs: FS, p: Path): FS {
    fs.(names := fs.names - {p})
  }

  /** A new file under a free name. */
  function Create(fs: FS, p: Path): FS {
    FS(fs.names[p := fs.next], fs.data[fs.next := []], fs.next + 1)
  }

  /** os.Rename of an existing file, replacing whatever the new name led to. */
  function Rename(fs: FS, p: Path, q: Path): FS
    requires p in fs.names
  {
    fs.(names := fs.names[q := fs.names[p]] - {p})
  }

  function Link(fs: FS, p: Path, q: Path): FS
    requires p in fs.names
  {
    fs.(names := fs.names[q := fs.names[p]])
  }

  function Overwrite(fs: FS, p: Path, content: Content): FS
    requires p in fs.names
  {
    fs.(data := fs.data[fs.names[p] := content])
  }

  /** The chunk continues what this writer is there to write. */
  predicate Fits(c: Codec, w: Writer, chunk: Content) {
    w.target.ToRef? ==> w.fed + chunk <= c.encode(w.target.desc)
  }

  predicate Complete(c: Codec, w: Writer) {
    w.target.ToRef? ==> w.fed == c.encode(w.target.desc)
  }

  function SetWriter(s: Store, i: nat, w: Writer): Store {
    s.(writers := s.writers[i := w])
  }

  /** A step of writer `i`. */
  function DoWriter(c: Codec, s: Store, i: nat, e: Event): Store
    requires i in s.writers
  {
    var w := s.writers[i];
    match e
    case Write(_, chunk) =>
      if w.open && w.lag == [] && Fits(c, w, chunk) && w.ino in s.fs.data then
        SetWriter(s.(fs := s.fs.(data := s.fs.data[w.ino := s.fs.data[w.ino] + chunk])), i, w.(lag := chunk))
      else s
    case Feed(_) =>
      if w.open then SetWriter(s, i, w.(fed := w.fed + w.lag, size := w.size + |w.lag|, lag := [])) else s
    case Close(_) =>
      if w.open && w.lag == [] && Complete(c, w) then SetWriter(s, i, w.(open := false)) else s
    case Publish(_) =>
      if w.open then s
      else
        var s1 := s.(writers := s.writers - {i});
        if w.temp in s.fs.names then
          s1.(fs := Rename(s.fs, w.temp, Destination(c, w)), receipts := s.receipts[i := ReceiptOf(c, w)])
        else s1
    case Abort(_) => s.(writers := s.writers - {i})
    case _ => s
  }

  /** One atomic step; an event that cannot happen in `s` changes nothing. */
  function Do(c: Codec, s: Store, e: Event): Store {
    match e
    case Open(i, session, target) =>
      if i in s.writers || i in s.receipts then s
      else
        var temp := TempFile(target.repo, session, s.fs.next);
        SetWriter(s.(fs := Create(s.fs, temp)), i, Writer(target, temp, s.fs.next, [], [], 0, true))
    case CloseSession(repo, session) =>
      s.(fs := s.fs.(names := map p | p in s.fs.names && !(p.TempFile? && p.repo == repo && p.session == session) :: s.fs.names[p]))
    case DeleteBlob(repo, name) => s.(fs := Unlink(s.fs, BlobFile(repo, name)))
    case DeleteRef(repo, name) => s.(fs := Unlink(s.fs, RefFile(repo, name)))
    case CreateData(id) =>
      s.(fs := if DataFile(id) in s.fs.names then Overwrite(s.fs, DataFile(id), []) else Create(s.fs, DataFile(id)))
    case WriteData(id, content) =>
      if DataFile(id) in s.fs.names then s.(fs := Overwrite(s.fs, DataFile(id), content)) else s
    case RemoveData(id) => s.(fs := Unlink(s.fs, DataFile(id)))
    case LinkIntoBlobs(repo, name, id) =>
      if DataFile(id) in s.fs.names && BlobFile(repo, name) !in s.fs.names
      then s.(fs := Link(s.fs, DataFile(id), BlobFile(repo, name))) else s
    case LinkIntoData(id, repo, name) =>
      if BlobFile(repo, name) in s.fs.names && DataFile(id) !in s.fs.names
      then s.(fs := Link(s.fs, BlobFile(repo, name), DataFile(id))) else s
    case _ => if e.w in s.writers then DoWriter(c, s, e.w, e) else s
  }

  function Run(c: Codec, s: Store, es: seq<Event>): Store
    decreases |es|
  {
    if es == [] then s else Run(c, Do(c, s, es[0]), es[1..])
  }

  /** The copying daemon: no hard links. */
  predicate Copies(e: Event) {
    !e.LinkIntoBlobs? && !e.LinkIntoData?
  }

  /** Every inode has at most one name, and temporary files are numbered by their inode. */
  ghost predicate OneName(fs: FS) {
    && (forall p :: p in fs.names ==> fs.names[p] in fs.data && fs.names[p] < fs.next)
    && (forall p, q :: p in fs.names && q in fs.names && fs.names[p] == fs.names[q] ==> p == q)
    && (forall p :: p in fs.names && p.TempFile? ==> p.number == fs.names[p])
  }

  /** With hard links: only a blob and a data file, or two of them, ever share an inode. */
  ghost predicate Apart(fs: FS) {
    && (forall p :: p in fs.names ==> fs.names[p] in fs.data && fs.names[p] < fs.next)
    && (forall p, q :: p in fs.names && q in fs.names && fs.names[p] == fs.names[q] && p != q ==> Linkable(p) && Linkable(q))
    && (forall p :: p in fs.names && p.TempFile? ==> p.number == fs.names[p])
  }

  predicate Linkable(p: Path) {
    p.BlobFile? || p.DataFile?
  }

  /** The file of a writer has no name but its temporary one, and no other writer. */
  ghost predicate Private(s: Store) {
    && (forall i :: i in s.writers ==>
         var w := s.writers[i];
         && w.ino in s.fs.data && w.ino < s.fs.next
         && w.temp.TempFile? && w.temp.number == w.ino)
    && (forall i, p :: i in s.writers && p in s.fs.names ==>
         (p == s.writers[i].temp <==> s.fs.names[p] == s.writers[i].ino))
    && (forall i, j :: i in s.writers && j in s.writers && s.writers[i].ino == s.writers[j].ino ==> i == j)
  }

  /** The file of a writer holds what the hash has seen, and what it is about to see. */
  ghost predicate InStep(c: Codec, s: Store) {
    forall i :: i in s.writers ==>
      var w := s.writers[i];
      && w.ino in s.fs.data && s.fs.data[w.ino] == w.fed + w.lag && w.size == |w.fed|
      && (!w.open ==> w.lag == [] && Complete(c, w))
      && (w.target.ToRef? ==> w.fed + w.lag <= c.encode(w.target.desc))
  }

  /** Every visible blob is named by the hash of its whole content. */
  ghost predicate ContentAddressed(c: Codec, s: Store) {
    forall p :: p in s.fs.names && p.BlobFile? ==> s.fs.names[p] in s.fs.data && c.sha(s.fs.data[s.fs.names[p]]) == p.name
  }

  /** Every visible reference holds a whole descriptor. */
  ghost predicate RefsWhole(c: Codec, s: Store) {
    forall p :: p in s.fs.names && p.RefFile? ==> s.fs.names[p] in s.fs.data && c.decode(s.fs.data[s.fs.names[p]]).Some?
  }

  /** What every run keeps, hard links or not. */
  ghost predicate Kept(c: Codec, s: Store) {
    Apart(s.fs) && Private(s) && InStep(c, s) && RefsWhole(c, s)
  }

  /** What every copying run keeps. */
  ghost predicate Sound(c: Codec, s: Store) {
    OneName(s.fs) && Private(s) && InStep(c, s) && ContentAddressed(c, s) && RefsWhole(c, s)
  }

  /** What readers of the layouts can see. */
  ghost function Blobs(s: Store): map<Path, Content> {
    map p | p in s.fs.names && p.BlobFile? && s.fs.names[p] in s.fs.data :: s.fs.data[s.fs.names[p]]
  }

  ghost function Refs(c: Codec, s: Store): map<Path, Option<Descriptor>> {
    map p | p in s.fs.names && p.RefFile? && s.fs.names[p] in s.fs.data :: c.decode(s.fs.data[s.fs.names[p]])
  }
}
