/** The PHP vocabulary the attachment model is written in: the values an
    attribute can hold, the library's two exceptions, string conversion,
    truthiness, loose comparison with null, and `strtolower`.
    PHP strings are byte strings; here each byte is one `char`. */
module Php {

  datatype Option<+T> = None | Some(value: T)

  /** The exceptions the attachment can throw, with the messages it builds. */
  datatype Exception =
    | MethodNotFoundException(message: string)
    | MaskNotFoundException(message: string)

  datatype Result<+T> = Ok(value: T) | Err(error: Exception)

  /** What an attribute slot holds: PHP `null`, a string or an integer. */
  datatype Value = Null | Str(s: string) | Int(i: int)

  /** A `string|null` read from a part, as an attribute value. */
  function Nullable(o: Option<string>): (v: Value)
    ensures v == Null <==> o.None?
    ensures o.Some? ==> v == Str(o.value)
  {
    match o
    case None => Null
    case Some(s) => Str(s)
  }

  /** The decimal digits of `n`, as PHP prints an integer. */
  function NatText(n: nat): (r: string)
    ensures |r| > 0
    ensures forall i :: 0 <= i < |r| ==> '0' <= r[i] <= '9'
    decreases n
  {
    if n < 10 then ["0123456789"[n]]
    else NatText(n / 10) + ["0123456789"[n % 10]]
  }

  /** PHP's conversion of a value to string (`.` concatenation):
      null becomes "", an integer its decimal form. */
  function Text(v: Value): string
  {
    match v
    case Null => ""
    case Str(s) => s
    case Int(i) => if i < 0 then "-" + NatText(-i) else NatText(i)
  }

  /** `$x != null` for a `string|null`: null compares to a string as "". */
  predicate LooselyNonNull(o: Option<string>)
  {
    o.Some? && o.value != ""
  }

  /** Truthiness of a `string|null`, as `?:` tests it: "" and "0" are false. */
  predicate Truthy(o: Option<string>)
  {
    o.Some? && o.value != "" && o.value != "0"
  }

  predicate IsUpper(c: char)
  {
    'A' <= c <= 'Z'
  }

  /** `strtolower` on one byte: only ASCII capitals change. */
  function LowerChar(c: char): (d: char)
    ensures !IsUpper(d)
    ensures !IsUpper(c) ==> d == c
  {
    if IsUpper(c) then (c as int + 32) as char else c
  }

  /** `strtolower`, byte by byte. */
  function AsciiLower(s: string): (r: string)
    ensures |r| == |s|
    ensures forall i :: 0 <= i < |s| ==> r[i] == LowerChar(s[i])
  {
    if s == [] then [] else [LowerChar(s[0])] + AsciiLower(s[1..])
  }

  predicate IsLowerLetter(c: char)
  {
    'a' <= c <= 'z'
  }

  /** The capital that `strtolower` maps to the lower-case letter `c`. */
  function UpperOf(c: char): (u: char)
    requires IsLowerLetter(c)
    ensures IsUpper(u) && LowerChar(u) == c
  {
    (c as int - 32) as char
  }

  /** `m` begins with `word` up to the case of each letter: an account of a
      case-insensitive prefix that does not go through `strtolower`. */
  predicate StartsCaseInsensitive(m: string, word: string)
    requires forall i :: 0 <= i < |word| ==> IsLowerLetter(word[i])
  {
    |m| >= |word| &&
    forall i :: 0 <= i < |word| ==> m[i] == word[i] || m[i] == UpperOf(word[i])
  }

  /** `substr($m, 0, 3)`: the first three bytes, or all of a shorter string. */
  function Prefix3(m: string): (p: string)
    ensures |p| <= 3
  {
    if |m| < 3 then m else m[..3]
  }

  /** `strtolower(substr($m, 0, 3)) === word` holds exactly when `m` starts with
      the three letters of `word` in any mix of cases. */
  lemma LowerPrefixMatches(m: string, word: string)
    requires |word| == 3
    requires forall i :: 0 <= i < |word| ==> IsLowerLetter(word[i])
    ensures AsciiLower(Prefix3(m)) == word <==> StartsCaseInsensitive(m, word)
  {
  }
}
