/**
 Rewriting a pulled manifest to an OCI manifest (daemon/oci.go:94-126), JSON being a pair of
 functions of which decoding undoes encoding.
 */
module Manifests {
  import opened Wrappers
  import opened Hex
  import opened Layouts

  const DOCKER_V1 := "application/vnd.docker.distribution.manifest.v1+json"
  const DOCKER_V1_SIGNED := "application/vnd.docker.distribution.manifest.v1+prettyjws"
  const DOCKER_V2 := "application/vnd.docker.distribution.manifest.v2+json"
  const DOCKER_LIST := "application/vnd.docker.distribution.manifest.list.v2+json"
  const OCI_MANIFEST := "application/vnd.oci.image.manifest.v1+json"
  const OCI_LIST := "application/vnd.oci.image.manifest.list.v1+json"
  const OCI_LAYER := "application/vnd.oci.image.layer.v1.tar+gzip"
  const OCI_CONFIG := "application/vnd.oci.image.config.v1+json"

  datatype Manifest = Manifest(
    schemaVersion: int, mediaType: string, config: Descriptor, layers: seq<Descriptor>, annotations: map<string, string>)

  /** The fields by which a manifest's type is guessed. */
  datatype Header = Header(mediaType: string, schemaVersion: int, signed: bool)

  datatype Json = Json(header: Content -> Option<Header>, decode: Content -> Option<Manifest>, encode: Manifest -> Content)

  ghost predicate Inverse(j: Json) {
    forall m :: j.decode(j.encode(m)) == Some(m) && j.header(j.encode(m)) == Some(Header(m.mediaType, m.schemaVersion, false))
  }

  datatype ManifestError = Schema1 | DockerList | OciList | BadJson | Unrecognized

  /** manifest.GuessMIMEType; the media type decides where it is recognized, the schema version otherwise. */
  function GuessMIMEType(j: Json, raw: Content): string {
    match j.header(raw)
    case None => ""
    case Some(h) =>
      if h.mediaType in {DOCKER_V2, DOCKER_LIST, OCI_MANIFEST, OCI_LIST} then h.mediaType
      else if h.schemaVersion == 1 then (if h.signed then DOCKER_V1_SIGNED else DOCKER_V1)
      else if h.schemaVersion == 2 then DOCKER_V2
      else ""
  }

  function Retype(ds: seq<Descriptor>, mediaType: string): seq<Descriptor> {
    seq(|ds|, i requires 0 <= i < |ds| => ds[i].(mediaType := mediaType))
  }

  function ToOci(m: Manifest): Manifest {
    m.(mediaType := OCI_MANIFEST, layers := Retype(m.layers, OCI_LAYER), config := m.config.(mediaType := OCI_CONFIG))
  }

  function CreateOciManifest(j: Json, raw: Content): Result<(Content, string), ManifestError> {
    var mt := GuessMIMEType(j, raw);
    if mt == DOCKER_V1 || mt == DOCKER_V1_SIGNED then Fail(Schema1)
    else if mt == DOCKER_V2 then
      match j.decode(raw)
      case None => Fail(BadJson)
      case Some(m) => Ok((j.encode(ToOci(m)), OCI_MANIFEST))
    else if mt == DOCKER_LIST then Fail(DockerList)
    else if mt == OCI_LIST then Fail(OciList)
    else if mt == OCI_MANIFEST then Ok((raw, mt))
    else Fail(Unrecognized)
  }

  /** createOciManifest as it is written, with its loop over the layers. */
  method Create(j: Json, raw: Content) returns (r: Result<(Content, string), ManifestError>)
    ensures r == CreateOciManifest(j, raw)
  {
    var mt := GuessMIMEType(j, raw);
    if mt == DOCKER_V1 || mt == DOCKER_V1_SIGNED {
      return Fail(Schema1);
    }
    if mt == DOCKER_V2 {
      var decoded := j.decode(raw);
      if decoded.None? {
        return Fail(BadJson);
      }
      var om := decoded.value.(mediaType := OCI_MANIFEST);
      var layers := om.layers;
      for i := 0 to |layers|
        invariant |layers| == |om.layers|
        invariant forall k :: 0 <= k < |layers| ==>
                    layers[k] == if k < i then om.layers[k].(mediaType := OCI_LAYER) else om.layers[k]
      {
        layers := layers[i := layers[i].(mediaType := OCI_LAYER)];
      }
      om := om.(layers := layers, config := om.config.(mediaType := OCI_CONFIG));
      assert om.layers == Retype(decoded.value.layers, OCI_LAYER);
      return Ok((j.encode(om), om.mediaType));
    }
    if mt == DOCKER_LIST {
      return Fail(DockerList);
    }
    if mt == OCI_LIST {
      return Fail(OciList);
    }
    if mt == OCI_MANIFEST {
      return Ok((raw, mt));
    }
    r := Fail(Unrecognized);
  }

  datatype BlobInfo = BlobInfo(digest: string, size: int)

  function InfoOf(d: Descriptor): BlobInfo {
    BlobInfo(d.digest, d.size)
  }

  function Infos(ds: seq<Descriptor>): seq<BlobInfo> {
    seq(|ds|, i requires 0 <= i < |ds| => InfoOf(ds[i]))
  }

  /**
   A manifest that converts is a Docker schema 2 or OCI one; converting the result again gives the
   result, and apart from media types nothing a reader decodes has changed.
   */
  lemma ConversionKeepsContent(j: Json, raw: Content)
    requires Inverse(j) && CreateOciManifest(j, raw).Ok?
    ensures var (oci, mt) := CreateOciManifest(j, raw).value;
            && mt == OCI_MANIFEST && GuessMIMEType(j, oci) == OCI_MANIFEST
            && CreateOciManifest(j, oci) == Ok((oci, mt))
            && (j.decode(oci).Some? <==> j.decode(raw).Some?)
            && (j.decode(raw).Some? ==>
                 var m, m' := j.decode(raw).value, j.decode(oci).value;
                 && Infos(m'.layers) == Infos(m.layers) && InfoOf(m'.config) == InfoOf(m.config)
                 && m'.annotations == m.annotations && m'.schemaVersion == m.schemaVersion)
  {
    if GuessMIMEType(j, raw) == DOCKER_V2 {
      var m := j.decode(raw).value;
      assert j.decode(j.encode(ToOci(m))) == Some(ToOci(m));
      assert Infos(ToOci(m).layers) == Infos(m.layers);
    }
  }

  /** The manifest is Docker's schema 2: by its media type, or by its schema version where that is none of the known ones. */
  predicate IsSchema2(h: Header) {
    h.mediaType == DOCKER_V2 || (h.mediaType !in {DOCKER_LIST, OCI_MANIFEST, OCI_LIST} && h.schemaVersion == 2)
  }

  predicate IsSchema1(h: Header) {
    h.mediaType !in {DOCKER_V2, DOCKER_LIST, OCI_MANIFEST, OCI_LIST} && h.schemaVersion == 1
  }

  /**
   Which manifests convert, and with what error the others are refused: an OCI manifest is taken as
   it is, a Docker schema 2 one if it decodes; schema 1 and both kinds of list are told apart.
   */
  lemma CreateOutcome(j: Json, raw: Content)
    ensures var (r, h) := (CreateOciManifest(j, raw), j.header(raw));
            && (r.Ok? <==> h.Some? && (h.value.mediaType == OCI_MANIFEST || (IsSchema2(h.value) && j.decode(raw).Some?)))
            && (h.Some? && h.value.mediaType == OCI_MANIFEST ==> r == Ok((raw, OCI_MANIFEST)))
            && (r == Fail(BadJson) <==> h.Some? && IsSchema2(h.value) && j.decode(raw).None?)
            && (r == Fail(Schema1) <==> h.Some? && IsSchema1(h.value))
            && (r == Fail(DockerList) <==> h.Some? && h.value.mediaType == DOCKER_LIST)
            && (r == Fail(OciList) <==> h.Some? && h.value.mediaType == OCI_LIST)
            && (r.Ok? ==> r.value.1 == OCI_MANIFEST)
  {
  }

  /** What a Docker schema 2 manifest becomes: OCI's media types throughout, everything else as it was. */
  lemma Schema2Becomes(j: Json, raw: Content)
    requires Inverse(j) && j.header(raw).Some? && IsSchema2(j.header(raw).value) && j.decode(raw).Some?
    ensures CreateOciManifest(j, raw).Ok?
    ensures var (m, oci) := (j.decode(raw).value, CreateOciManifest(j, raw).value.0);
            && j.decode(oci).Some?
            && var m' := j.decode(oci).value;
               && m'.mediaType == "application/vnd.oci.image.manifest.v1+json"
               && m'.config == Descriptor("application/vnd.oci.image.config.v1+json", m.config.digest, m.config.size)
               && |m'.layers| == |m.layers|
               && forall i :: 0 <= i < |m.layers| ==>
                    m'.layers[i] == Descriptor("application/vnd.oci.image.layer.v1.tar+gzip", m.layers[i].digest, m.layers[i].size)
  {
    CreateOutcome(j, raw);
    var m := j.decode(raw).value;
    assert j.decode(j.encode(ToOci(m))) == Some(ToOci(m));
  }
}
