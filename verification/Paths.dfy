/**
 Paths of blobs and references inside a layout (oci/layout.go:104-125), as lists of cleaned
 path components relative to the layout's root.
 */
module Paths {
  import opened Wrappers
  import opened Strings

  const BLOBS := "blobs"
  const REFS := "refs"
  const SHA256 := "sha256"

  datatype PathError = InvalidDigest | UnsupportedAlgorithm

  /** filepath.Clean on the components of a relative path, `done` being the cleaned part. */
  function Clean(done: seq<string>, rest: seq<string>): seq<string>
    decreases |rest|
  {
    if rest == [] then done
    else if rest[0] == "" || rest[0] == "." then Clean(done, rest[1..])
    else if rest[0] == ".." && done != [] && done[|done| - 1] != ".." then Clean(done[..|done| - 1], rest[1..])
    else Clean(done + [rest[0]], rest[1..])
  }

  /** filepath.Join of a directory and a name that may hold slashes. */
  function Join(dir: seq<string>, name: string): seq<string> {
    Clean([], dir + Split(name, '/'))
  }

  function BlobPath(digest: string): Result<seq<string>, PathError> {
    match Cut(digest, ':')
    case None => Fail(InvalidDigest)
    case Some((algo, hash)) => if algo != SHA256 then Fail(UnsupportedAlgorithm) else Ok(Join([BLOBS, algo], hash))
  }

  function RefPath(name: string): seq<string> {
    Join([REFS], name)
  }

  /** The file of `refs` that a reference name leads to once its path is cleaned, if it leads to one. */
  function RefName(name: string): Option<string> {
    var path := RefPath(name);
    if |path| == 2 && path[0] == REFS then Some(path[1]) else None
  }

  /** A name that is one path component of its own. */
  predicate Plain(name: string) {
    '/' !in name && name != "" && name != "." && name != ".."
  }

  predicate IsHexName(name: string) {
    |name| == 64 && forall i :: 0 <= i < |name| ==> '0' <= name[i] <= '9' || 'a' <= name[i] <= 'f'
  }

  /** "sha256:" and 64 lower-case hex digits. */
  predicate IsDigest(digest: string) {
    |digest| == 71 && digest[..7] == "sha256:" && IsHexName(digest[7..])
  }

  function DigestOfName(name: string): string {
    SHA256 + ":" + name
  }

  lemma {:induction false} CleanKeepsPlain(done: seq<string>, rest: seq<string>)
    requires forall i :: 0 <= i < |rest| ==> Plain(rest[i])
    ensures Clean(done, rest) == done + rest
    decreases |rest|
  {
    if rest == [] {
      assert done + rest == done;
    } else {
      CleanKeepsPlain(done + [rest[0]], rest[1..]);
      assert done + [rest[0]] + rest[1..] == done + rest;
    }
  }

  lemma JoinPlain(dir: seq<string>, name: string)
    requires Plain(name) && forall i :: 0 <= i < |dir| ==> Plain(dir[i])
    ensures Join(dir, name) == dir + [name]
  {
    SplitFree(name, '/');
    CleanKeepsPlain([], dir + [name]);
    assert [] + (dir + [name]) == dir + [name];
  }

  /** Every component of a cleaned path comes from its input. */
  lemma {:induction false} CleanSelects(done: seq<string>, rest: seq<string>, x: string)
    requires x in Clean(done, rest)
    ensures x in done || (x in rest && x != "" && x != ".")
    decreases |rest|
  {
    if rest == [] {
    } else if rest[0] == "" || rest[0] == "." {
      CleanSelects(done, rest[1..], x);
    } else if rest[0] == ".." && done != [] && done[|done| - 1] != ".." {
      CleanSelects(done[..|done| - 1], rest[1..], x);
    } else {
      CleanSelects(done + [rest[0]], rest[1..], x);
    }
  }

  /** Joining names a file of the directory itself exactly for a plain name. */
  lemma JoinPlainIff(dir: seq<string>, name: string)
    requires dir != [] && forall i :: 0 <= i < |dir| ==> Plain(dir[i])
    ensures Join(dir, name) == dir + [name] <==> Plain(name)
  {
    if Plain(name) {
      JoinPlain(dir, name);
    } else if name == ".." {
      SplitFree(name, '/');
      DotDotPops(dir);
      assert |Join(dir, name)| < |dir + [name]|;
    } else if Join(dir, name) == dir + [name] {
      var parts := Split(name, '/');
      assert (dir + [name])[|dir|] == name;
      CleanSelects([], dir + parts, name);
      assert name !in dir;
      var i :| 0 <= i < |parts| && parts[i] == name;
      SplitPartsFree(name, '/', i);
    }
  }

  lemma DotDotPops(dir: seq<string>)
    requires forall i :: 0 <= i < |dir| ==> Plain(dir[i])
    ensures Clean([], dir + [".."]) == if dir == [] then [".."] else dir[..|dir| - 1]
  {
    CleanAppend([], dir, [".."]);
    CleanKeepsPlain([], dir);
    assert [] + dir == dir;
    assert [".."][1..] == [];
  }

  lemma {:induction false} CleanAppend(done: seq<string>, first: seq<string>, second: seq<string>)
    ensures Clean(done, first + second) == Clean(Clean(done, first), second)
    decreases |first|
  {
    var rest := first + second;
    if first == [] {
      assert rest == second;
    } else {
      assert rest[0] == first[0] && rest[1..] == first[1..] + second;
      if first[0] == "" || first[0] == "." {
        CleanAppend(done, first[1..], second);
      } else if first[0] == ".." && done != [] && done[|done| - 1] != ".." {
        CleanAppend(done[..|done| - 1], first[1..], second);
      } else {
        CleanAppend(done + [first[0]], first[1..], second);
      }
    }
  }

  /** A sha256 digest leads to the blob file of its own name exactly when that name is plain. */
  lemma BlobPathIff(hash: string)
    ensures BlobPath(DigestOfName(hash)) == Ok([BLOBS, SHA256, hash]) <==> Plain(hash)
  {
    CutAt(SHA256, hash, ':');
    assert DigestOfName(hash) == SHA256 + [':'] + hash;
    JoinPlainIff([BLOBS, SHA256], hash);
    assert [BLOBS, SHA256] + [hash] == [BLOBS, SHA256, hash];
  }

  /** A reference name leads to a file of its own in `refs` exactly when it is plain. */
  lemma RefPathIff(name: string)
    ensures RefPath(name) == [REFS, name] <==> Plain(name)
    ensures RefName(name) == Some(name) <==> Plain(name)
  {
    JoinPlainIff([REFS], name);
    assert [REFS] + [name] == [REFS, name];
    var path := RefPath(name);
    assert |path| == 2 && path[0] == REFS ==> path == [REFS, path[1]];
  }

  /** Which digests have a path at all: those with a colon, after exactly "sha256". */
  lemma BlobPathOutcome(digest: string)
    ensures BlobPath(digest) == Fail(InvalidDigest) <==> ':' !in digest
    ensures BlobPath(digest).Ok? <==> |digest| >= 7 && digest[..7] == "sha256:"
    ensures BlobPath(digest) == Fail(UnsupportedAlgorithm) <==> ':' in digest && !(|digest| >= 7 && digest[..7] == "sha256:")
  {
    hide Join;
    CutNone(digest, ':');
    if |digest| >= 7 && digest[..7] == "sha256:" {
      assert digest == SHA256 + [':'] + digest[7..];
      CutAt(SHA256, digest[7..], ':');
      assert digest[6] == ':';
    }
  }

  lemma DigestParts(digest: string)
    requires IsDigest(digest)
    ensures digest == DigestOfName(digest[7..]) && Plain(digest[7..])
  {
    var name := digest[7..];
    assert digest == digest[..7] + name;
    assert forall i :: 0 <= i < |name| ==> name[i] != '/' && name[i] != '.';
  }

  /**
   On well-formed digests blobPath is injective, and prefixing the file name with the algorithm, as
   ListBlobs does, gives the digest back.
   */
  lemma BlobPathOfDigest(digest: string)
    requires IsDigest(digest)
    ensures BlobPath(digest) == Ok([BLOBS, SHA256, digest[7..]]) && DigestOfName(digest[7..]) == digest
    ensures forall other :: IsDigest(other) && BlobPath(other) == BlobPath(digest) ==> other == digest
  {
    DigestParts(digest);
    BlobPathIff(digest[7..]);
    forall other | IsDigest(other) && BlobPath(other) == BlobPath(digest)
      ensures other == digest
    {
      DigestParts(other);
      BlobPathIff(other[7..]);
      assert [BLOBS, SHA256, other[7..]][2] == [BLOBS, SHA256, digest[7..]][2];
    }
  }

  /** A digest with an empty hash leads to the blob directory, so Exist answers true for it. */
  lemma EmptyHashIsTheDirectory()
    ensures BlobPath("sha256:") == Ok([BLOBS, SHA256])
  {
    CutAt(SHA256, "", ':');
    assert "sha256:" == SHA256 + [':'] + "";
    var dir: seq<string> := [BLOBS, SHA256];
    CleanAppend([], dir, [""]);
    CleanKeepsPlain([], dir);
    assert [] + dir == dir;
    assert [""][1..] == [];
    assert Clean(dir, [""]) == dir;
  }
}
