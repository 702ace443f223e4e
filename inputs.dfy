/** What the attachment receives from outside: the parsed body part, the
    owning message, and the runtime it runs in (configuration, loaded
    extensions, known classes and the library functions it calls). */
module Inputs {
  import opened Php

  /** The fields of a parsed MIME body part that the attachment reads.
      `typeCode` is the IMAP body type number, `encoding` the transfer
      encoding number, `bytes` the size the server reported. */
  datatype Part = Part(
    typeCode: int,
    subtype: Option<string>,
    encoding: int,
    content: string,
    bytes: int,
    id: Option<string>,
    name: Option<string>,
    filename: Option<string>,
    disposition: Option<string>,
    ifdescription: bool,
    description: Option<string>)

  /** The owning message: its payload decoder, and the default attachment
      mask its client is configured with. */
  datatype Message = Message(
    decodeString: (string, int) -> string,
    defaultAttachmentMask: Option<string>)

  /** The process-wide inputs: the `decoder.attachment` option, whether the
      imap extension is loaded, the two header decoders, the method-suffix
      to attribute-key mapping, and the class names that exist. */
  datatype Runtime = Runtime(
    attachmentDecoder: Option<string>,
    imapLoaded: bool,
    imapUtf8: string -> string,
    mbDecodeMimeheader: string -> string,
    snake: string -> string,
    knownClasses: set<string>)

  /** `strtolower` of a null subtype is the empty string. */
  function SubtypeText(p: Part): string
  {
    match p.subtype
    case None => ""
    case Some(s) => s
  }
}
