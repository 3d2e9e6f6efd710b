/** The provider's asset records and the compact summaries the handler sends to its client. */
module Assets {

  /** A record as the provider's listing primitive returns it: the fields the
      handler reads, and the others it receives and drops. */
  datatype AssetRecord = AssetRecord(
    assetId: string,
    publicId: string,
    format: string,
    version: int,
    resourceType: string,
    deliveryType: string,
    createdAt: string,
    bytes: int,
    width: int,
    height: int,
    folder: string,
    url: string,
    secureUrl: string)

  /** The client-facing shape; its JSON keys are public_id, src, format, width,
      height, bytes and created_at. */
  datatype AssetSummary = AssetSummary(
    publicId: string,
    src: string,
    format: string,
    width: int,
    height: int,
    bytes: int,
    createdAt: string)

  /** The seven fields the projection reads. */
  predicate SameMappedFields(a: AssetRecord, b: AssetRecord) {
    a.publicId == b.publicId && a.secureUrl == b.secureUrl && a.format == b.format &&
    a.width == b.width && a.height == b.height && a.bytes == b.bytes &&
    a.createdAt == b.createdAt
  }

  /** One record's summary: public_id, format, width, height, bytes and
      created_at are copied under their own names, secure_url becomes src. */
  function Project(a: AssetRecord): (s: AssetSummary)
    ensures s.publicId == a.publicId && s.src == a.secureUrl && s.format == a.format
    ensures s.width == a.width && s.height == a.height && s.bytes == a.bytes
    ensures s.createdAt == a.createdAt
  {
    AssetSummary(a.publicId, a.secureUrl, a.format, a.width, a.height, a.bytes, a.createdAt)
  }

  /** The `.map` over the accumulated records. */
  function ProjectAll(rs: seq<AssetRecord>): (out: seq<AssetSummary>)
    ensures |out| == |rs|
    ensures forall i :: 0 <= i < |rs| ==> out[i] == Project(rs[i])
  {
    if rs == [] then [] else [Project(rs[0])] + ProjectAll(rs[1..])
  }

  /** Two records have the same summary exactly when they agree on the seven
      mapped fields: every field outside the mapping, `url` included, is dropped,
      and no mapped field is lost or merged with another. */
  lemma ProjectSameIff(a: AssetRecord, b: AssetRecord)
    ensures Project(a) == Project(b) <==> SameMappedFields(a, b)
  {
    if Project(a) == Project(b) {
      assert Project(a).src == Project(b).src;
    }
  }
}
