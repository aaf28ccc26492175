/**
 Sequential calls of PutReference and DeleteReference on the references that readers see
 (oci/dir.go:128-167, 181-199, 220-231).
 */
module References {
  import opened Wrappers
  import opened Layouts

  datatype RefError = Clobber | Corrupt | IoFailed

  type RefMap = map<Path, Option<Descriptor>>

  /** `read` tells whether what is there can be read, `io` whether writing and renaming, or removing, works. */
  datatype Call = Put(p: Path, desc: Descriptor, read: bool, io: bool) | Delete(p: Path, io: bool)

  /** GetReference; the outer None is os.ErrNotExist, the inner one a file that does not parse. */
  function Get(refs: RefMap, p: Path): Option<Option<Descriptor>> {
    if p in refs then Some(refs[p]) else None
  }

  function Apply(refs: RefMap, call: Call): (RefMap, Outcome<RefError>) {
    match call
    case Put(p, desc, read, io) =>
      if !read then (refs, Err(IoFailed)) else
      (match Get(refs, p)
       case Some(Some(found)) => (refs, if found != desc then Err(Clobber) else Nil)
       case Some(None) => (refs, Err(Corrupt))
       case None => if io then (refs[p := Some(desc)], Nil) else (refs, Err(IoFailed)))
    case Delete(p, io) =>
      if p in refs && !io then (refs, Err(IoFailed)) else (refs - {p}, Nil)
  }

  function Calls(refs: RefMap, calls: seq<Call>): RefMap
    decreases |calls|
  {
    if calls == [] then refs else Calls(Apply(refs, calls[0]).0, calls[1..])
  }

  /**
   Once a reference is stored, and until it is deleted, every sequence of calls leaves it as it is:
   reading it gives the stored descriptor, storing another one is refused as clobbering, storing
   the same one succeeds, and neither changes anything.
   */
  lemma {:induction false} WriteOnce(refs: RefMap, calls: seq<Call>, p: Path, desc: Descriptor)
    requires Get(refs, p) == Some(Some(desc))
    requires forall i :: 0 <= i < |calls| ==> !(calls[i].Delete? && calls[i].p == p)
    ensures var refs' := Calls(refs, calls);
            && Get(refs', p) == Some(Some(desc))
            && (forall other, io :: Apply(refs', Put(p, other, true, io)) == (refs', if other == desc then Nil else Err(Clobber)))
    decreases |calls|
  {
    if calls == [] {
    } else {
      assert !(calls[0].Delete? && calls[0].p == p);
      WriteOnce(Apply(refs, calls[0]).0, calls[1..], p, desc);
    }
  }

  /**
   What PutReference means: nil exactly if the reference then reads as the descriptor and what was
   there could be read; on a free name with good I/O it is nil; an error changes nothing, and it is
   ErrClobber exactly for another descriptor. A file that does not parse is neither taken for the
   descriptor nor replaced.
   */
  lemma PutOutcome(refs: RefMap, p: Path, desc: Descriptor, read: bool, io: bool)
    ensures var (refs', err) := Apply(refs, Put(p, desc, read, io));
            && (err.Nil? <==> read && Get(refs', p) == Some(Some(desc)))
            && (read && io && Get(refs, p).None? ==> err.Nil?)
            && (read && Get(refs, p) == Some(Some(desc)) ==> err.Nil?)
            && (err == Err(Clobber) <==> read && exists other :: other != desc && Get(refs, p) == Some(Some(other)))
            && (err == Err(Corrupt) <==> read && Get(refs, p) == Some(None))
            && (err == Err(IoFailed) <==> !read || (Get(refs, p).None? && !io))
            && (err.Err? ==> refs' == refs)
            && forall q :: q != p ==> Get(refs', q) == Get(refs, q)
  {
    var (refs', err) := Apply(refs, Put(p, desc, read, io));
    if read && Get(refs, p).Some? && Get(refs, p).value.Some? {
      var found := Get(refs, p).value.value;
      assert found != desc ==> err == Err(Clobber);
    }
  }

  /** What DeleteReference means: nil exactly if the reference is gone, and an error changes nothing. */
  lemma DeleteOutcome(refs: RefMap, p: Path, io: bool)
    ensures var (refs', err) := Apply(refs, Delete(p, io));
            && (err.Nil? <==> Get(refs', p).None?)
            && (io || Get(refs, p).None? ==> err.Nil?)
            && (err.Err? ==> refs' == refs)
            && forall q :: q != p ==> Get(refs', q) == Get(refs, q)
  {
  }

  /**
   From the call on: once PutReference has returned nil, every sequence of calls without a deletion
   leaves the reference as it was told, whatever was there before the call.
   */
  lemma NilMeansStored(refs: RefMap, p: Path, desc: Descriptor, read: bool, io: bool, calls: seq<Call>)
    requires Apply(refs, Put(p, desc, read, io)).1.Nil?
    requires forall i :: 0 <= i < |calls| ==> !(calls[i].Delete? && calls[i].p == p)
    ensures var refs' := Calls(refs, [Put(p, desc, read, io)] + calls);
            && Get(refs', p) == Some(Some(desc))
            && (forall other, works :: Apply(refs', Put(p, other, true, works)) == (refs', if other == desc then Nil else Err(Clobber)))
  {
    hide Apply;
    var all := [Put(p, desc, read, io)] + calls;
    assert all[1..] == calls;
    PutOutcome(refs, p, desc, read, io);
    WriteOnce(Apply(refs, all[0]).0, calls, p, desc);
  }
}
