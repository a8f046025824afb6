/**
  The records the SrgSsr middleware works on: the delivery resources of one
  media item, their DRM descriptors and the key-system configuration derived
  from them.
*/
module Resources {
  import opened Wrappers

  /** The `streaming` protocol of a resource. */
  datatype Streaming = HLS | DASH | HDS | RTMP | OtherStreaming(name: string)

  /** The `tokenType` of a resource. */
  datatype TokenType = NoToken | Akamai | OtherToken(name: string)

  /** The `type` of one entry of a `drmList`. */
  datatype DrmType = Widevine | PlayReady | FairPlay | OtherDrm(name: string)

  /** One entry of a `drmList`; only FairPlay entries carry a certificate URL. */
  datatype Drm = Drm(drmType: DrmType, licenseUrl: string, certificateUrl: Option<string>)

  /** The value a key system maps to: a license URL, or FairPlay's pair of URIs. */
  datatype KeySystemValue =
    | LicenseUrl(url: string)
    | FairPlayUris(certificateUri: Option<string>, licenseUri: string)

  /** A `keySystems` record: key-system identifier to its configuration. */
  type KeySystems = map<string, KeySystemValue>

  /**
    One alternative delivery of a media item. `keySystems` is absent until
    the key-system step has added it; a missing `isFirst` reads as false.
  */
  datatype Resource = Resource(
    streaming: Streaming,
    url: string,
    mimeType: string,
    tokenType: Option<TokenType>,
    isFirst: bool,
    drmList: Option<seq<Drm>>,
    blockReason: Option<string>,
    keySystems: Option<KeySystems>)

  /** A resource whose exchange of its URL for a signed one is required. */
  predicate NeedsToken(r: Resource) {
    r.tokenType == Some(Akamai)
  }
}
