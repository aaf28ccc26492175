/** The names, digests and descriptors of OCI image layouts. */
module Layouts {
  import opened Wrappers
  import opened Hex

  datatype Descriptor = Descriptor(mediaType: string, digest: string, size: int)

  /** SHA-256 of a content as printed in file names, and the JSON of descriptors. */
  datatype Codec = Codec(sha: Content -> string, encode: Descriptor -> Content, decode: Content -> Option<Descriptor>)

  ghost predicate Faithful(c: Codec) {
    forall d :: c.decode(c.encode(d)) == Some(d)
  }

  const ALGORITHM := "sha256"

  /** The digest under which `content` is stored. */
  function DigestOf(c: Codec, content: Content): string {
    ALGORITHM + ":" + c.sha(content)
  }

  /** The names that matter: blobs, references, temporary files and the engine's data files. */
  datatype Path =
    | BlobFile(repo: string, name: string)
    | RefFile(repo: string, name: string)
    | TempFile(repo: string, session: nat, number: nat)
    | DataFile(id: string)
}
