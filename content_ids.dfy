/** The Content-ID clean-up of `fetch`: `str_replace(['<', '>'], '', $id)`
    removes every angle bracket of the msg-id form (section 7 of RFC 2045),
    wherever it occurs. */
module ContentIds {

  predicate IsDelimiter(c: char)
  {
    c == '<' || c == '>'
  }

  predicate NoDelimiters(s: string)
  {
    forall i :: 0 <= i < |s| ==> !IsDelimiter(s[i])
  }

  /** `s` without any '<' or '>'. The result never holds a delimiter, and a
      string without delimiters is left exactly as it is. */
  function StripDelimiters(s: string): (r: string)
    ensures NoDelimiters(r)
    ensures |r| <= |s|
    ensures r == s <==> NoDelimiters(s)
  {
    if s == [] then []
    else (if IsDelimiter(s[0]) then [] else [s[0]]) + StripDelimiters(s[1..])
  }

  /** Stripping twice is stripping once. */
  lemma StripIdempotent(s: string)
    ensures StripDelimiters(StripDelimiters(s)) == StripDelimiters(s)
  {
  }

  /** Stripping works piece by piece: the characters that stay keep their
      order, whatever surrounds them. */
  lemma {:induction false} StripConcat(a: string, b: string)
    ensures StripDelimiters(a + b) == StripDelimiters(a) + StripDelimiters(b)
  {
    if a == [] {
      assert a + b == b;
    } else {
      assert (a + b)[0] == a[0];
      assert (a + b)[1..] == a[1..] + b;
      StripConcat(a[1..], b);
    }
  }

  /** Every character other than '<' and '>' survives as often as it occurs;
      the delimiters are all gone. */
  lemma {:induction false} StripCounts(s: string, c: char)
    ensures multiset(StripDelimiters(s))[c] == if IsDelimiter(c) then 0 else multiset(s)[c]
  {
    if s != [] {
      StripCounts(s[1..], c);
      assert s == [s[0]] + s[1..];
      assert multiset(s) == multiset([s[0]]) + multiset(s[1..]);
    }
  }

  /** The usual header form `<id>` gives back the bare id. */
  lemma StripWrapped(x: string)
    requires NoDelimiters(x)
    ensures StripDelimiters("<" + x + ">") == x
  {
    StripConcat("<" + x, ">");
    StripConcat("<", x);
  }

  /** Brackets placed anywhere among the pieces of an id all go, and the
      stripped pieces stay in order. */
  lemma StripAround(u: string, v: string, w: string)
    ensures StripDelimiters(u + "<" + v + ">" + w) ==
              StripDelimiters(u) + StripDelimiters(v) + StripDelimiters(w)
  {
    var open := u + "<";
    var inner := open + v;
    var closed := inner + ">";
    assert StripDelimiters("<") == [] by { assert IsDelimiter("<"[0]); }
    assert StripDelimiters(">") == [] by { assert IsDelimiter(">"[0]); }
    StripConcat(u, "<");
    assert StripDelimiters(open) == StripDelimiters(u);
    StripConcat(open, v);
    assert StripDelimiters(inner) == StripDelimiters(u) + StripDelimiters(v);
    StripConcat(inner, ">");
    assert StripDelimiters(closed) == StripDelimiters(u) + StripDelimiters(v);
    StripConcat(closed, w);
    assert u + "<" + v + ">" + w == closed + w;
  }
}
