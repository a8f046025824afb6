/**
  `composeSrcMediaData`: the source descriptor handed to the player, built
  from the selection context (the source options other than `src`) and the
  selected resource.
*/
module SourceComposer {
  import opened Wrappers
  import opened Resources

  /** Media data supplied by the caller; its content is opaque to the middleware. */
  type MediaData = map<string, string>

  /** The source options the caller passes beside `src`. */
  datatype Context = Context(mediaData: Option<MediaData>, disableTrackers: Option<bool>)

  /** `{src, type, keySystems, disableTrackers, mediaData}`; every key exists, possibly undefined. */
  datatype SourceDescriptor = SourceDescriptor(
    src: string,
    mimeType: string,
    keySystems: Option<KeySystems>,
    disableTrackers: Option<bool>,
    mediaData: Option<MediaData>)

  /** The context a descriptor was composed with. */
  function ContextOf(d: SourceDescriptor): Context {
    Context(d.mediaData, d.disableTrackers)
  }

  /**
    The descriptor plays the resource's URL as the resource's MIME type with
    its key systems, and carries the caller's context back unchanged.
  */
  function ComposeSrcMediaData(ctx: Context, r: Resource): (d: SourceDescriptor)
    ensures d.src == r.url && d.mimeType == r.mimeType && d.keySystems == r.keySystems
    ensures ContextOf(d) == ctx
  {
    SourceDescriptor(r.url, r.mimeType, r.keySystems, ctx.disableTrackers, ctx.mediaData)
  }

  /** An empty context and a resource without key systems leave the three optional keys undefined. */
  lemma EmptyContextLeavesOptionalKeysUndefined(r: Resource)
    requires r.keySystems == None
    ensures var d := ComposeSrcMediaData(Context(None, None), r);
      d.keySystems == None && d.disableTrackers == None && d.mediaData == None
  {
  }
}
