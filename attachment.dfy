/** The attachment itself: a class whose attribute map and mask are updated
    in place, and the pure account of what construction stores. */
module Attachments {
  import opened Php
  import opened Inputs
  import opened MediaTypes
  import opened ContentIds
  import opened Naming
  import opened AttributeStore
  import opened Masks

  /** What `setName` does to the map: nothing for a null name, otherwise it
      stores the decoded name. */
  function Named(a: map<string, Value>, raw: Option<string>, rt: Runtime): map<string, Value>
  {
    if raw.None? then a else a["name" := Str(DecodeName(raw.value, rt))]
  }

  /** What `findType` does to the map. */
  function Typed(a: map<string, Value>, p: Part): map<string, Value>
  {
    a["type" := Str(Category(p.typeCode))]
  }

  /** What `fetch` does to the map, write by write. */
  function Fetched(a: map<string, Value>, p: Part, msg: Message, rt: Runtime): map<string, Value>
  {
    var withType := a["content_type" := Str(ContentTypeOf(Text(Lookup(a, "type")), SubtypeText(p)))];
    var withContent := withType["content" := Str(msg.decodeString(p.content, p.encoding))];
    var withId := if p.id.Some? then withContent["id" := Str(StripDelimiters(p.id.value))] else withContent;
    var withSize := withId["size" := Int(p.bytes)];
    var withHeader :=
      if HeaderName(p).Some? then Named(withSize, HeaderName(p), rt)["disposition" := Nullable(p.disposition)]
      else withSize;
    Named(withHeader, OverrideName(p), rt)
  }

  /** The attribute map a freshly constructed attachment holds. */
  function Constructed(p: Part, msg: Message, rt: Runtime): map<string, Value>
  {
    Fetched(Typed(InitialAttributes, p), p, msg, rt)
  }

  /** The keys `fetch` may write. */
  const FetchKeys: set<string> := {"content_type", "content", "id", "size", "name", "disposition"}

  /** `content` is exactly the message's decoding of the raw payload under
      the part's transfer encoding, and `size` the part's declared byte
      count, whatever the decoded content's length. */
  lemma FetchedContentAndSize(a: map<string, Value>, p: Part, msg: Message, rt: Runtime)
    ensures Lookup(Fetched(a, p, msg, rt), "content") == Str(msg.decodeString(p.content, p.encoding))
    ensures Lookup(Fetched(a, p, msg, rt), "size") == Int(p.bytes)
  {
  }

  /** A present Content-ID is stored without any '<' or '>'; an absent one
      leaves `id` as it was. */
  lemma FetchedId(a: map<string, Value>, p: Part, msg: Message, rt: Runtime)
    ensures p.id.Some? ==> Lookup(Fetched(a, p, msg, rt), "id") == Str(StripDelimiters(p.id.value))
    ensures p.id.Some? ==> NoDelimiters(Lookup(Fetched(a, p, msg, rt), "id").s)
    ensures p.id.None? ==> Lookup(Fetched(a, p, msg, rt), "id") == Lookup(a, "id")
  {
  }

  /** For a part that is not a message: a `name` header wins over
      `filename`; with neither, the name is left as it was. */
  lemma FetchedNamePrecedence(a: map<string, Value>, p: Part, msg: Message, rt: Runtime)
    requires p.typeCode != MESSAGE
    ensures p.name.Some? ==> Lookup(Fetched(a, p, msg, rt), "name") == Str(DecodeName(p.name.value, rt))
    ensures p.name.None? && p.filename.Some? ==>
              Lookup(Fetched(a, p, msg, rt), "name") == Str(DecodeName(p.filename.value, rt))
    ensures p.name.None? && p.filename.None? ==> Lookup(Fetched(a, p, msg, rt), "name") == Lookup(a, "name")
  {
  }

  /** `disposition` is copied from the part exactly when a `name` or
      `filename` header is present, for every type of part; otherwise it is
      left as it was. */
  lemma FetchedDisposition(a: map<string, Value>, p: Part, msg: Message, rt: Runtime)
    ensures p.name.Some? || p.filename.Some? ==>
              Lookup(Fetched(a, p, msg, rt), "disposition") == Nullable(p.disposition)
    ensures p.name.None? && p.filename.None? ==>
              Lookup(Fetched(a, p, msg, rt), "disposition") == Lookup(a, "disposition")
  {
  }

  /** For a message part, the description (when `ifdescription` is set) or
      else the subtype overrides any name taken from the headers; when the
      chosen source is null, `setName` does nothing and the name from the
      headers, or else the old name, stays. */
  lemma FetchedMessageOverride(a: map<string, Value>, p: Part, msg: Message, rt: Runtime)
    requires p.typeCode == MESSAGE
    ensures p.ifdescription && p.description.Some? ==>
              Lookup(Fetched(a, p, msg, rt), "name") == Str(DecodeName(p.description.value, rt))
    ensures !p.ifdescription && p.subtype.Some? ==>
              Lookup(Fetched(a, p, msg, rt), "name") == Str(DecodeName(p.subtype.value, rt))
    ensures OverrideName(p).None? && HeaderName(p).Some? ==>
              Lookup(Fetched(a, p, msg, rt), "name") == Str(DecodeName(HeaderName(p).value, rt))
    ensures OverrideName(p).None? && HeaderName(p).None? ==>
              Lookup(Fetched(a, p, msg, rt), "name") == Lookup(a, "name")
  {
  }

  /** `fetch` writes only its own keys: every other slot, `type` and
      `img_src` among them, is as it was, and no other key appears. */
  lemma FetchedFrame(a: map<string, Value>, p: Part, msg: Message, rt: Runtime, k: string)
    requires k !in FetchKeys
    ensures k in Fetched(a, p, msg, rt) <==> k in a
    ensures k in a ==> Fetched(a, p, msg, rt)[k] == a[k]
  {
  }

  /** After construction `type` is the part's category and `content_type`
      is that category, '/', and the lower-cased subtype; it is lower-case
      and splits back into both. */
  lemma ConstructedContentType(p: Part, msg: Message, rt: Runtime)
    ensures Lookup(Constructed(p, msg, rt), "type") == Str(Category(p.typeCode))
    ensures Lookup(Constructed(p, msg, rt), "content_type") ==
              Str(Category(p.typeCode) + "/" + AsciiLower(SubtypeText(p)))
    ensures NoUpper(Lookup(Constructed(p, msg, rt), "content_type").s)
    ensures TopLevelOf(Lookup(Constructed(p, msg, rt), "content_type").s) == Category(p.typeCode)
  {
    ClassifiedContentType(p.typeCode, SubtypeText(p));
  }

  /** After construction a name is set exactly when the part had a `name`
      or `filename` header, or is a message part whose override source
      (description or subtype) is present. */
  lemma ConstructedNameIff(p: Part, msg: Message, rt: Runtime)
    ensures Lookup(Constructed(p, msg, rt), "name") != Null <==>
              p.name.Some? || p.filename.Some? || OverrideName(p).Some?
  {
  }

  /** After construction `disposition` is the part's disposition when a
      `name` or `filename` header was present, and null otherwise: a name
      coming from the description or subtype never sets it. */
  lemma ConstructedDisposition(p: Part, msg: Message, rt: Runtime)
    ensures Lookup(Constructed(p, msg, rt), "disposition") ==
              if p.name.Some? || p.filename.Some? then Nullable(p.disposition) else Null
  {
  }

  /** After construction the map holds exactly the declared slots, `id` is
      null when the part has no Content-ID, and never holds a delimiter. */
  lemma ConstructedSlots(p: Part, msg: Message, rt: Runtime)
    ensures Constructed(p, msg, rt).Keys == DeclaredKeys
    ensures p.id.None? <==> Lookup(Constructed(p, msg, rt), "id") == Null
    ensures Lookup(Constructed(p, msg, rt), "id").Str? ==> NoDelimiters(Lookup(Constructed(p, msg, rt), "id").s)
    ensures Lookup(Constructed(p, msg, rt), "img_src") == Null
  {
  }

  /** A view of an attachment through a mask class: the mask wraps the
      attachment itself, not a copy. */
  datatype View = View(maskClass: string, attachment: Attachment)

  class Attachment {
    const message: Message
    const part: Part
    const rt: Runtime
    var attributes: map<string, Value>
    var mask: string

    /** The declared slots are never removed. */
    ghost predicate Valid()
      reads this
    {
      DeclaredKeys <= attributes.Keys
    }

    /** Sets the default mask from the client, then classifies and fetches. */
    constructor (message: Message, part: Part, rt: Runtime)
      ensures Valid()
      ensures this.message == message && this.part == part && this.rt == rt
      ensures mask == InitialMask(message.defaultAttachmentMask)
      ensures attributes == Constructed(part, message, rt)
    {
      this.message := message;
      this.part := part;
      this.rt := rt;
      attributes := InitialAttributes;
      mask := BuiltInMask;
      new;
      if LooselyNonNull(message.defaultAttachmentMask) {
        mask := message.defaultAttachmentMask.value;
      }
      FindType();
      Fetch();
    }

    /** `__get`. */
    method Get(key: string) returns (v: Value)
      ensures v == Lookup(attributes, key)
    {
      if key in attributes && attributes[key] != Null {
        v := attributes[key];
      } else {
        v := Null;
      }
    }

    /** `__set`: stores the value under the key and returns it. */
    method Set(key: string, value: Value) returns (v: Value)
      requires Valid()
      modifies this`attributes
      ensures Valid()
      ensures attributes == old(attributes)[key := value]
      ensures v == value
    {
      attributes := attributes[key := value];
      v := attributes[key];
    }

    /** `__call`: a getter reads, a setter stores its last argument (null if
      there is none) and returns it; any other name throws and leaves the map
      alone. */
    method Call(methodName: string, arguments: seq<Value>) returns (r: Result<Value>)
      requires Valid()
      modifies this`attributes
      ensures Valid()
      ensures match Dispatch(methodName, rt.snake)
        case Getter(k) => r == Ok(Lookup(old(attributes), k)) && attributes == old(attributes)
        case Setter(k) => r == Ok(LastOrNull(arguments)) && attributes == old(attributes)[k := LastOrNull(arguments)]
        case Unsupported => r == Err(MethodNotFound(methodName)) && attributes == old(attributes)
    {
      match Dispatch(methodName, rt.snake)
      case Getter(k) =>
        var v := Get(k);
        r := Ok(v);
      case Setter(k) =>
        attributes := attributes[k := LastOrNull(arguments)];
        r := Ok(attributes[k]);
      case Unsupported =>
        r := Err(MethodNotFound(methodName));
    }

    /** `findType`. */
    method FindType()
      requires Valid()
      modifies this`attributes
      ensures Valid()
      ensures attributes == Typed(old(attributes), part)
    {
      var _ := Set("type", Str(Category(part.typeCode)));
    }

    /** `fetch`: each `$this->x = ...` is a `__set`. */
    method Fetch()
      requires Valid()
      modifies this`attributes
      ensures Valid()
      ensures attributes == Fetched(old(attributes), part, message, rt)
    {
      var content := part.content;
      var category := Get("type");
      var _ := Set("content_type", Str(ContentTypeOf(Text(category), SubtypeText(part))));
      var _ := Set("content", Str(message.decodeString(content, part.encoding)));
      if part.id.Some? {
        var _ := Set("id", Str(StripDelimiters(part.id.value)));
      }
      var _ := Set("size", Int(part.bytes));
      if part.name.Some? {
        SetName(part.name);
        var _ := Set("disposition", Nullable(part.disposition));
      } else if part.filename.Some? {
        SetName(part.filename);
        var _ := Set("disposition", Nullable(part.disposition));
      }
      if part.typeCode == MESSAGE {
        if part.ifdescription {
          SetName(part.description);
        } else {
          SetName(part.subtype);
        }
      }
    }

    /** `setName`: a null name changes nothing; otherwise the name is
      decoded by the decoder the runtime selects and stored. */
    method SetName(name: Option<string>)
      requires Valid()
      modifies this`attributes
      ensures Valid()
      ensures name.None? ==> attributes == old(attributes)
      ensures name.Some? && DecoderFor(rt) == ImapUtf8 ==>
                attributes == old(attributes)["name" := Str(rt.imapUtf8(name.value))]
      ensures name.Some? && DecoderFor(rt) == MimeHeader ==>
                attributes == old(attributes)["name" := Str(rt.mbDecodeMimeheader(name.value))]
    {
      if name.Some? {
        if rt.attachmentDecoder == Some("utf-8") && rt.imapLoaded {
          var _ := Set("name", Str(rt.imapUtf8(name.value)));
        } else {
          var _ := Set("name", Str(rt.mbDecodeMimeheader(name.value)));
        }
      }
    }

    /** The file `save` writes to: the path followed by the given file name
      if it is truthy, else by the stored name (`getName()`, read through
      `__call`). */
    function SaveTarget(path: string, filename: Option<string>): (target: string)
      reads this
      ensures |path| <= |target| && target[..|path|] == path
      ensures Truthy(filename) ==> target[|path|..] == filename.value
      ensures !Truthy(filename) ==> target[|path|..] == Text(Lookup(attributes, rt.snake("Name")))
    {
      path + (if Truthy(filename) then filename.value else Text(Lookup(attributes, rt.snake("Name"))))
    }

    /** `setMask`: adopts the mask only if it is a known class; returns the
      attachment itself either way. */
    method SetMask(requested: string) returns (self: Attachment)
      modifies this`mask
      ensures self == this
      ensures mask == NextMask(old(mask), requested, rt.knownClasses)
    {
      if requested in rt.knownClasses {
        mask := requested;
      }
      self := this;
    }

    /** `getMask`. */
    method GetMask() returns (m: string)
      ensures m == mask
    {
      m := mask;
    }

    /** `mask()`: a view of this attachment through the requested mask class,
      or the default one when none is requested; an unknown class throws. */
    method Mask(requested: Option<string>) returns (r: Result<View>)
      ensures r.Ok? <==> ResolveMask(requested, mask, rt.knownClasses).Ok?
      ensures r.Ok? ==> r.value == View(ResolveMask(requested, mask, rt.knownClasses).value, this)
      ensures r.Err? ==> r.error == ResolveMask(requested, mask, rt.knownClasses).error
    {
      var chosen := if requested.Some? then requested.value else mask;
      if chosen in rt.knownClasses {
        r := Ok(View(chosen, this));
      } else {
        r := Err(MaskNotFound(chosen));
      }
    }
  }
}
