/** Classification of a body part's IMAP type number into a media category,
    and the `category/subtype` content type built from it. */
module MediaTypes {
  import opened Php

  // The IMAP body type numbers (the TYPE* numbering of the c-client library).
  const TEXT := 0
  const MULTIPART := 1
  const MESSAGE := 2
  const APPLICATION := 3
  const AUDIO := 4
  const IMAGE := 5
  const VIDEO := 6
  const MODEL := 7

  const KnownCodes: set<int> := {MESSAGE, APPLICATION, AUDIO, IMAGE, VIDEO, MODEL, TEXT, MULTIPART}

  const Categories: set<string> :=
    {"message", "application", "audio", "image", "video", "model", "text", "multipart", "other"}

  /** The category `findType` stores under `type`. Total: every code outside
      the eight known ones is "other". */
  function Category(code: int): (r: string)
    ensures r in Categories
    ensures r == "other" <==> code !in KnownCodes
  {
    if code == MESSAGE then "message"
    else if code == APPLICATION then "application"
    else if code == AUDIO then "audio"
    else if code == IMAGE then "image"
    else if code == VIDEO then "video"
    else if code == MODEL then "model"
    else if code == TEXT then "text"
    else if code == MULTIPART then "multipart"
    else "other"
  }

  /** The code a category name stands for; the inverse of `Category`. */
  function CodeOf(category: string): Option<int>
  {
    if category == "message" then Some(MESSAGE)
    else if category == "application" then Some(APPLICATION)
    else if category == "audio" then Some(AUDIO)
    else if category == "image" then Some(IMAGE)
    else if category == "video" then Some(VIDEO)
    else if category == "model" then Some(MODEL)
    else if category == "text" then Some(TEXT)
    else if category == "multipart" then Some(MULTIPART)
    else None
  }

  /** Each known code has its own category (so distinct codes give distinct
      names), and every category but "other" is reached by exactly one code. */
  lemma CategoryRoundTrip(code: int, category: string)
    ensures code in KnownCodes ==> CodeOf(Category(code)) == Some(code)
    ensures category in Categories - {"other"} ==>
              CodeOf(category).Some? && Category(CodeOf(category).value) == category
  {
  }

  predicate NoSlash(s: string)
  {
    forall i :: 0 <= i < |s| ==> s[i] != '/'
  }

  predicate NoUpper(s: string)
  {
    forall i :: 0 <= i < |s| ==> !IsUpper(s[i])
  }

  /** `type . '/' . strtolower(subtype)`, the `type "/" subtype` form of
      section 5.1 of RFC 2045. */
  function ContentTypeOf(category: string, subtype: string): (r: string)
    ensures |r| == |category| + 1 + |subtype|
    ensures NoUpper(category) ==> NoUpper(r)
  {
    category + "/" + AsciiLower(subtype)
  }

  /** The position of the first '/' in `s`, or `|s|` when there is none. */
  function FirstSlash(s: string): (k: nat)
    ensures k <= |s|
    ensures k < |s| ==> s[k] == '/'
    ensures forall i :: 0 <= i < k ==> s[i] != '/'
  {
    if s == [] || s[0] == '/' then 0 else 1 + FirstSlash(s[1..])
  }

  /** The top-level type of a content type: everything before the first '/'. */
  function TopLevelOf(ct: string): string
  {
    ct[..FirstSlash(ct)]
  }

  /** The subtype of a content type: everything after the first '/', if any. */
  function SubtypeOf(ct: string): Option<string>
  {
    var k := FirstSlash(ct);
    if k < |ct| then Some(ct[k + 1..]) else None
  }

  /** A composed content type splits back into its category and the
      lower-cased subtype, whenever the category has no '/'. */
  lemma ContentTypeSplits(category: string, subtype: string)
    requires NoSlash(category)
    ensures TopLevelOf(ContentTypeOf(category, subtype)) == category
    ensures SubtypeOf(ContentTypeOf(category, subtype)) == Some(AsciiLower(subtype))
  {
    var ct := ContentTypeOf(category, subtype);
    var k := FirstSlash(ct);
    assert ct[|category|] == '/';
    assert k <= |category|;
    assert forall i :: 0 <= i < |category| ==> ct[i] == category[i];
    assert k == |category|;
    assert ct[..k] == category;
    assert ct[k + 1..] == AsciiLower(subtype);
  }

  /** Every category is a lower-case name without '/', so the content type
      of a classified part is lower-case and splits back into the category
      and the lower-cased subtype. */
  lemma ClassifiedContentType(code: int, subtype: string)
    ensures NoUpper(ContentTypeOf(Category(code), subtype))
    ensures TopLevelOf(ContentTypeOf(Category(code), subtype)) == Category(code)
    ensures SubtypeOf(ContentTypeOf(Category(code), subtype)) == Some(AsciiLower(subtype))
  {
    var c := Category(code);
    assert NoSlash(c) && NoUpper(c);
    ContentTypeSplits(c, subtype);
  }
}
