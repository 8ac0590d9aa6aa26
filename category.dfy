/**
 * Shaping of the category the user types: `str.strip()` and the
 * `replace(" ", "%20")` that puts it into the crawl's start URL.
 */
module Category {

  /** The characters for which Python's `str.isspace()` holds, which `strip()` removes. */
  predicate IsSpace(c: char)
  {
    ('\t' <= c <= '\r') || ('\U{1C}' <= c <= '\U{20}') || c == '\U{85}' || c == '\U{A0}'
    || c == '\U{1680}' || ('\U{2000}' <= c <= '\U{200A}') || c == '\U{2028}' || c == '\U{2029}'
    || c == '\U{202F}' || c == '\U{205F}' || c == '\U{3000}'
  }

  /** The index of the first non-whitespace character of `s` at or after `i`, or `|s|`. */
  function SkipSpaces(s: string, i: nat): (j: nat)
    requires i <= |s|
    ensures i <= j <= |s|
    ensures forall k :: i <= k < j ==> IsSpace(s[k])
    ensures j == |s| || !IsSpace(s[j])
    decreases |s| - i
  {
    if i < |s| && IsSpace(s[i]) then SkipSpaces(s, i + 1) else i
  }

  /** The index just after the last non-whitespace character of `s[lo..hi]`, or `lo`. */
  function SkipSpacesBack(s: string, lo: nat, hi: nat): (j: nat)
    requires lo <= hi <= |s|
    ensures lo <= j <= hi
    ensures forall k :: j <= k < hi ==> IsSpace(s[k])
    ensures j == lo || !IsSpace(s[j - 1])
    decreases hi - lo
  {
    if lo < hi && IsSpace(s[hi - 1]) then SkipSpacesBack(s, lo, hi - 1) else hi
  }

  /** The number of leading whitespace characters of `s`. */
  function Leading(s: string): (n: nat)
    ensures n <= |s|
  {
    SkipSpaces(s, 0)
  }

  /**
   * `s.strip()`: the result is the slice of `s` that starts after the
   * leading whitespace, only whitespace follows it, and it neither starts
   * nor ends with whitespace.
   */
  function Strip(s: string): (r: string)
    ensures var i := Leading(s);
      && i + |r| <= |s| && r == s[i..i + |r|]
      && (forall k :: 0 <= k < i ==> IsSpace(s[k]))
      && (forall k :: i + |r| <= k < |s| ==> IsSpace(s[k]))
    ensures r == [] || (!IsSpace(r[0]) && !IsSpace(r[|r| - 1]))
  {
    var i := SkipSpaces(s, 0);
    s[i..SkipSpacesBack(s, i, |s|)]
  }

  /** Stripping twice is stripping once. */
  lemma StripIdempotent(s: string)
    ensures Strip(Strip(s)) == Strip(s)
  {
    var r := Strip(s);
    if r != [] {
      assert SkipSpaces(r, 0) == 0;
      assert SkipSpacesBack(r, 0, |r|) == |r|;
    }
  }

  /** The start URL's category part: every space becomes `%20`, nothing else changes. */
  function EncodeSpaces(s: string): (r: string)
    ensures ' ' !in r
    ensures ' ' !in s ==> r == s
  {
    if s == [] then [] else EncodeChar(s[0]) + EncodeSpaces(s[1..])
  }

  /** What `replace(" ", "%20")` makes of one character. */
  function EncodeChar(c: char): (e: string)
  {
    if c == ' ' then "%20" else [c]
  }

  /**
   * Encoding works character by character, for every input, `%` included:
   * a one-character text becomes `EncodeChar` of it, and the encoding of a
   * concatenation is the concatenation of the encodings.
   */
  lemma {:induction false} EncodeSpacesAppend(a: string, b: string)
    ensures EncodeSpaces(a + b) == EncodeSpaces(a) + EncodeSpaces(b)
    ensures |a| == 1 ==> EncodeSpaces(a) == EncodeChar(a[0])
    decreases |a|
  {
    if a == [] {
      assert [] + b == b;
    } else {
      assert (a + b)[0] == a[0] && (a + b)[1..] == a[1..] + b;
      EncodeSpacesAppend(a[1..], b);
      if |a| == 1 {
        assert a[1..] == [];
      }
    }
  }

  /** A category with a `%`: the `%` is kept and only the space changes. */
  lemma EncodeExample()
    ensures EncodeSpaces("% a") == "%%20a"
  {
    assert "% a" == "%" + (" " + "a");
    EncodeSpacesAppend("%", " " + "a");
    EncodeSpacesAppend(" ", "a");
    EncodeSpacesAppend("a", "");
    assert "a" + "" == "a";
  }

  /** The inverse a server applies to the `%20` escapes of the path. */
  function DecodeSpaces(s: string): (d: string)
  {
    if |s| >= 3 && s[..3] == "%20" then " " + DecodeSpaces(s[3..])
    else if s == [] then []
    else [s[0]] + DecodeSpaces(s[1..])
  }

  /**
   * A category without `%` comes back unchanged from the server's decoding,
   * so the site sees exactly the stripped text the user typed.
   */
  lemma {:induction false} DecodeEncodeSpaces(s: string)
    requires '%' !in s
    ensures DecodeSpaces(EncodeSpaces(s)) == s
  {
    if s != [] {
      var rest := EncodeSpaces(s[1..]);
      assert s == [s[0]] + s[1..];
      DecodeEncodeSpaces(s[1..]);
      if s[0] == ' ' {
        DecodeEscape(rest);
      } else {
        DecodeOther(s[0], rest);
      }
    }
  }

  /** An escape at the front decodes to one space. */
  lemma DecodeEscape(rest: string)
    ensures DecodeSpaces("%20" + rest) == " " + DecodeSpaces(rest)
  {
    assert ("%20" + rest)[..3] == "%20" && ("%20" + rest)[3..] == rest;
  }

  /** Any other character at the front is kept as it is. */
  lemma DecodeOther(c: char, rest: string)
    requires c != '%'
    ensures DecodeSpaces([c] + rest) == [c] + DecodeSpaces(rest)
  {
    var x := [c] + rest;
    assert x[0] == c && x[1..] == rest;
    assert |x| >= 3 ==> x[..3][0] == c;
  }

  /** The address the crawl starts from: `https://panoramafirm.pl/{category}`. */
  const BaseUrl: string := "https://panoramafirm.pl/"

  function StartUrl(encoded: string): (u: string)
    ensures |u| == |BaseUrl| + |encoded|
    ensures u[..|BaseUrl|] == BaseUrl && u[|BaseUrl|..] == encoded
    ensures u != ""
  {
    BaseUrl + encoded
  }
}
