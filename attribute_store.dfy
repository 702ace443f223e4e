/** The attachment's attribute map and the rules of its dynamic accessors
    `__get`, `__set` and `__call`. */
module AttributeStore {
  import opened Php

  /** The slots the attribute map starts with, all null. */
  const InitialAttributes: map<string, Value> := map[
    "content" := Null, "type" := Null, "content_type" := Null, "id" := Null,
    "name" := Null, "disposition" := Null, "img_src" := Null, "size" := Null]

  const DeclaredKeys: set<string> := InitialAttributes.Keys

  /** `__get`: the stored value when it is set and not null, else null. So a
      missing key reads as null, and a present one reads as what it holds. */
  function Lookup(attrs: map<string, Value>, key: string): (v: Value)
    ensures key !in attrs ==> v == Null
    ensures key in attrs ==> v == attrs[key]
  {
    if key in attrs && attrs[key] != Null then attrs[key] else Null
  }

  /** A value written under a key reads back, and no other key reads
      differently. */
  lemma LookupAfterStore(attrs: map<string, Value>, key: string, v: Value, other: string)
    ensures Lookup(attrs[key := v], key) == v
    ensures other != key ==> Lookup(attrs[key := v], other) == Lookup(attrs, other)
  {
  }

  /** What a dynamic method call does with the map. */
  datatype Accessor = Getter(key: string) | Setter(key: string) | Unsupported

  /** `__call`'s dispatch: a name whose first three bytes lower-case to
      "get" reads and one that lower-cases to "set" writes, the key being
      the snake-cased rest of the name; anything else is unsupported. */
  function Dispatch(methodName: string, snake: string -> string): (r: Accessor)
    ensures r.Getter? <==> StartsCaseInsensitive(methodName, "get")
    ensures r.Setter? <==> StartsCaseInsensitive(methodName, "set")
    ensures !r.Unsupported? ==> |methodName| >= 3 && r.key == snake(methodName[3..])
  {
    LowerPrefixMatches(methodName, "get");
    LowerPrefixMatches(methodName, "set");
    if AsciiLower(Prefix3(methodName)) == "get" then Getter(snake(methodName[3..]))
    else if AsciiLower(Prefix3(methodName)) == "set" then Setter(snake(methodName[3..]))
    else Unsupported
  }

  /** `array_pop($arguments)`: the last argument, or null when there is none. */
  function LastOrNull(arguments: seq<Value>): (v: Value)
    ensures |arguments| > 0 ==> v == arguments[|arguments| - 1]
    ensures |arguments| == 0 ==> v == Null
  {
    if |arguments| == 0 then Null else arguments[|arguments| - 1]
  }

  /** The message `__call` throws for a name it cannot dispatch. */
  function MethodNotFound(methodName: string): Exception
  {
    MethodNotFoundException("Method Webklex\\PHPIMAP\\Attachment::" + methodName + "() is not supported")
  }
}
