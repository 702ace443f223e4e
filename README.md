# Attachment model (php-imap)

A Dafny model of `Webklex\PHPIMAP\Attachment`, the class that turns one
parsed MIME body part of a message into a flat record of attributes:
its media category, its `type/subtype` content type, its decoded content,
its Content-ID without angle brackets, its declared size, its display name
and its disposition. The record lives in a mutable string-keyed attribute
map, read and written through PHP's magic accessors (`__get`, `__set`,
`__call`). The attachment also keeps a default "mask", the name of a view
class that can wrap it.

Layout, one module per concern:

- `php.dfy` (`Php`): attribute values (null, string, integer), the two
  exceptions, PHP string conversion, truthiness, `!= null` on strings,
  `strtolower` and the case-insensitive three-byte prefix test.
- `inputs.dfy` (`Inputs`): the body part, the owning message and the
  runtime (configuration, `extension_loaded('imap')`, `imap_utf8`,
  `mb_decode_mimeheader`, `Str::snake`, the set of existing classes).
- `media_types.dfy` (`MediaTypes`): `findType`'s classification and the
  content type composition, with its split back into category and subtype.
- `content_ids.dfy` (`ContentIds`): removal of `<` and `>` from a Content-ID.
- `naming.dfy` (`Naming`): `setName`'s decoder choice and `fetch`'s name sources.
- `attribute_store.dfy` (`AttributeStore`): the initial slots, `__get`'s
  read rule and `__call`'s dispatch.
- `masks.dfy` (`Masks`): default mask, `setMask` and mask resolution.
- `attachment.dfy` (`Attachments`): the `Attachment` class, whose
  `attributes` map and `mask` field change in place, and the pure account
  (`Typed`, `Fetched`, `Constructed`) of what construction stores, with the
  lemmas about it.

The message's payload decoder, the two header decoders and `Str::snake`
are function-valued inputs about which nothing is assumed, so every
property holds whatever they compute. `class_exists` is membership in
`Runtime.knownClasses`. The IMAP body type numbers come from the `IMAP`
class, which is not part of this model; the model uses the c-client
numbering (text 0, multipart 1, message 2, application 3, audio 4,
image 5, video 6, model 7).

Three behaviours of the code worth stating plainly:
- `imap_utf8` is used exactly when the `decoder.attachment` option is the
  string `utf-8` and the imap extension is loaded; in every other case the
  name goes through `mb_decode_mimeheader`.
- `size` is the part's declared byte count, not the length of the decoded
  content.
- The client default mask is tested with PHP's loose `!= null`, so an
  empty string keeps the built-in mask, and a non-empty name of a class
  that does not exist is installed unchecked.

## Model

| member | source | states |
|---|---|---|
| MediaTypes.Category | src/Attachment.php:160-190 | classification is total: the result is one of the nine category names, and it is "other" exactly when the code is none of the eight IMAP attachment types |
| MediaTypes.CategoryRoundTrip | src/Attachment.php:160-190 | each known code maps to its own category and back, so distinct codes get distinct names; every category but "other" comes from exactly one code |
| MediaTypes.ContentTypeSplits | src/Attachment.php:199 | `type/strtolower(subtype)` splits at its first '/' back into the category and the lower-cased subtype, for any category without '/' |
| MediaTypes.ClassifiedContentType | src/Attachment.php:160-199 | the content type of a classified part is lower-case and splits back into its category and the lower-cased subtype |
| Php.LowerPrefixMatches | src/Attachment.php:113 | `strtolower(substr(m, 0, 3)) === word` holds exactly when m starts with word's three letters in any mix of cases |
| ContentIds.StripDelimiters | src/Attachment.php:203 | the stripped id contains no '<' or '>', is no longer than the input, and equals the input exactly when the input had no delimiter |
| ContentIds.StripIdempotent | src/Attachment.php:203 | stripping an already stripped id changes nothing |
| ContentIds.StripConcat | src/Attachment.php:203 | stripping distributes over concatenation, so the characters that stay keep their order |
| ContentIds.StripCounts | src/Attachment.php:203 | every character other than '<' and '>' survives as many times as it occurs; the delimiters all go |
| ContentIds.StripWrapped | src/Attachment.php:202-204 | an id written `<x>` is stored as `x` |
| ContentIds.StripAround | src/Attachment.php:203 | brackets inserted anywhere around or between pieces of an id are all dropped, leaving the stripped pieces in order |
| Naming.DecoderFor | src/Attachment.php:243-249 | `imap_utf8` is chosen if and only if the attachment decoder option is "utf-8" and the imap extension is loaded; otherwise `mb_decode_mimeheader` |
| Naming.HeaderName | src/Attachment.php:208-214 | the header branch takes `name` when present, else `filename`; it fires exactly when one of them is present |
| Naming.OverrideName | src/Attachment.php:216-222 | only message parts are overridden: by the description when `ifdescription` is set, otherwise by the subtype |
| AttributeStore.Lookup | src/Attachment.php:149-155 | `__get` of a missing key gives null; of a present key, what the key holds (null included) |
| AttributeStore.LookupAfterStore | src/Attachment.php:138-155 | a value stored under a key reads back, and every other key reads as before |
| AttributeStore.Dispatch | src/Attachment.php:112-129 | a name starting with get/set in any case reads/writes the snake-cased rest of the name; every other name is unsupported |
| AttributeStore.LastOrNull | src/Attachment.php:124 | a setter stores its last argument, or null when called without arguments |
| Masks.InitialMask | src/Attachment.php:95-98 | the client default replaces the built-in mask exactly when it is loosely non-null, with no existence check |
| Masks.NextMask | src/Attachment.php:285-291 | `setMask` adopts a known class and otherwise keeps the current mask |
| Masks.ResolveMask | src/Attachment.php:307-314 | `mask()` succeeds exactly when the requested class, or the default when none is requested, is known, and otherwise fails with "Unknown mask provided: " and that name |
| Masks.SetThenResolve | src/Attachment.php:285-314 | after setting a known mask, resolving the default gives it; after setting an unknown one, resolution is as before |
| Masks.NextMaskKeepsResolvable | src/Attachment.php:285-291 | `setMask` never makes a resolvable default unresolvable |
| Masks.InitialMaskUnchecked | src/Attachment.php:95-98 | a non-empty unknown client default is installed, and then `mask()` without an argument fails |
| Attachments.FetchedContentAndSize | src/Attachment.php:197-206 | `content` is the message's decoding of the raw payload under the part's encoding; `size` is the declared byte count |
| Attachments.FetchedId | src/Attachment.php:202-204 | a present Content-ID is stored stripped and without delimiters; an absent one leaves `id` unchanged |
| Attachments.FetchedNamePrecedence | src/Attachment.php:208-214 | for a non-message part `name` wins over `filename`; with neither, the name is unchanged |
| Attachments.FetchedDisposition | src/Attachment.php:208-214 | `disposition` becomes the part's disposition exactly when `name` or `filename` is present, otherwise it is unchanged |
| Attachments.FetchedMessageOverride | src/Attachment.php:216-222 | for a message part the description, or else the subtype, overrides any header name; when the chosen source is null the header name (or the old name) stays |
| Attachments.FetchedFrame | src/Attachment.php:195-223 | `fetch` writes no key outside content_type, content, id, size, name and disposition, and adds no other key |
| Attachments.ConstructedContentType | src/Attachment.php:100-101 | after construction `type` is the category and `content_type` is category, '/', lower-cased subtype, lower-case throughout |
| Attachments.ConstructedNameIff | src/Attachment.php:208-222 | after construction a name is set exactly when `name`, `filename`, or a message part's override source is present |
| Attachments.ConstructedDisposition | src/Attachment.php:208-222 | after construction `disposition` is the part's disposition if a name/filename header was present and null otherwise |
| Attachments.ConstructedSlots | src/Attachment.php:66-75 | after construction the map holds exactly the eight declared slots; `id` is null exactly when the part has no Content-ID and never holds a delimiter; `img_src` is null |
| Attachments.Attachment.constructor | src/Attachment.php:89-102 | the mask is the initial mask for the client default, and the attributes are those classification then fetching store |
| Attachments.Attachment.Get | src/Attachment.php:149-155 | `__get` reads by the `Lookup` rule |
| Attachments.Attachment.Set | src/Attachment.php:138-142 | `__set` stores the value under the key, changes nothing else, and returns the value |
| Attachments.Attachment.Call | src/Attachment.php:112-130 | a getter returns the lookup and leaves the map alone; a setter stores and returns its last argument; anything else throws MethodNotFoundException and leaves the map alone |
| Attachments.Attachment.FindType | src/Attachment.php:160-190 | stores the category under `type`, nothing else |
| Attachments.Attachment.Fetch | src/Attachment.php:195-223 | the map afterwards is `Fetched` of the map before, built by the same sequence of writes |
| Attachments.Attachment.SetName | src/Attachment.php:242-251 | a null name is a no-op; otherwise the name is stored decoded by `imap_utf8` or `mb_decode_mimeheader` as `DecoderFor` chooses |
| Attachments.Attachment.SaveTarget | src/Attachment.php:233-236 | the path `save` writes to: the path, then the file name when truthy, else the stored name |
| Attachments.Attachment.SetMask | src/Attachment.php:285-291 | the mask becomes `NextMask` of the old one, and the attachment itself is returned |
| Attachments.Attachment.GetMask | src/Attachment.php:296-298 | returns the current mask |
| Attachments.Attachment.Mask | src/Attachment.php:307-314 | succeeds exactly when `ResolveMask` does, with a view of this very attachment through the resolved class, and otherwise fails with its error |

## Left out

- `save`'s file write (`File::put`) is I/O. Only the target path is modelled, as `SaveTarget`. The boolean it returns is not modelled.
- `getMimeType` and `getExtension` sniff the content with `finfo` and map the result through Symfony's extension guesser. Both are foreign libraries and are not modelled.
- `getAttributes` and `getMessage` return a field unchanged. They are the class's `attributes` and `message` fields.
- The internals of `Message::decodeString`, `imap_utf8`, `mb_decode_mimeheader` and `Str::snake` are inputs about which nothing is assumed. A decoding failure, which would abort construction, is not modelled: the decoder is total.
- `new $mask($this)` is the `View` value: the class name plus a reference to the attachment. The mask class's own behaviour is not modelled.
- The `Part`, `Message`, client and `IMAP` classes are not part of this model. Their fields are parameters. A part's declared size is an integer.
- Attribute values are null, strings and integers. Other PHP values (booleans, floats, arrays, objects) that `__set` would also accept are not modelled.
- `strtolower` is ASCII-only, as from PHP 8.2. The locale-dependent behaviour of earlier versions is not modelled.
- Whether the imap extension is loaded and which classes exist are taken as fixed for the life of an attachment, though PHP asks again on each call.
- PHP calls the class's declared methods (`setName`, `setMask`, `getMask`, `getAttributes`, `getMessage`, `getMimeType`, `getExtension`, matched case-insensitively) directly, never through `__call`. `Call` models only names that reach `__call`: `Call("setName", [x])` is `$a->__call('setName', [x])`, which stores `x` undecoded, not `$a->setName(x)`.
- Class names are case-insensitive for `class_exists` and `new $mask`, while `knownClasses` is exact string membership, so two spellings of one class count as different masks here.
