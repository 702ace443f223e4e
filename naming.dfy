/** How `setName` decodes a display name, and which header `fetch` takes
    the name from. */
module Naming {
  import opened Php
  import opened Inputs
  import MediaTypes

  datatype HeaderDecoder = ImapUtf8 | MimeHeader

  /** `imap_utf8` is used exactly when the `decoder.attachment` option is
      the string "utf-8" and the imap extension is loaded; otherwise
      `mb_decode_mimeheader`, the RFC 2047 encoded-word decoder. */
  function DecoderFor(rt: Runtime): (d: HeaderDecoder)
    ensures d == ImapUtf8 <==> rt.attachmentDecoder == Some("utf-8") && rt.imapLoaded
  {
    if rt.attachmentDecoder == Some("utf-8") && rt.imapLoaded then ImapUtf8 else MimeHeader
  }

  /** The decoded form of a raw name, by the decoder the runtime selects. */
  function DecodeName(raw: string, rt: Runtime): string
  {
    match DecoderFor(rt)
    case ImapUtf8 => rt.imapUtf8(raw)
    case MimeHeader => rt.mbDecodeMimeheader(raw)
  }

  /** The raw name the header branch of `fetch` passes to `setName`: the
      `name` parameter when there is one, else the `filename` parameter.
      There is one exactly when either header is present. */
  function HeaderName(p: Part): (r: Option<string>)
    ensures r.Some? <==> p.name.Some? || p.filename.Some?
    ensures p.name.Some? ==> r == p.name
    ensures p.name.None? && p.filename.Some? ==> r == p.filename
  {
    if p.name.Some? then p.name else p.filename
  }

  /** What the message branch of `fetch` passes to `setName`: nothing for a
      non-message part; for a message part the description when
      `ifdescription` is set, otherwise the subtype. */
  function OverrideName(p: Part): (r: Option<string>)
    ensures p.typeCode != MediaTypes.MESSAGE ==> r.None?
    ensures p.typeCode == MediaTypes.MESSAGE && p.ifdescription ==> r == p.description
    ensures p.typeCode == MediaTypes.MESSAGE && !p.ifdescription ==> r == p.subtype
  {
    if p.typeCode != MediaTypes.MESSAGE then None
    else if p.ifdescription then p.description
    else p.subtype
  }
}
