/** ASCII case folding and a case-insensitive prefix test, as used by the
    advisory signer warning of the Widevine flag validator. */
module AsciiText {

  /** Maps 'A'..'Z' to 'a'..'z' and leaves every other character as it is. */
  function ToLowerAscii(ch: char): char
  {
    if 'A' <= ch <= 'Z' then (ch as int + ('a' as int - 'A' as int)) as char else ch
  }

  /** True when two characters are equal after ASCII lower-casing. */
  predicate EqualIgnoringAsciiCase(a: char, b: char)
  {
    ToLowerAscii(a) == ToLowerAscii(b)
  }

  /** Whether `s` begins with `prefix`, comparing characters without regard
      to ASCII case. */
  function StartsWithIgnoringAsciiCase(s: string, prefix: string): (r: bool)
    ensures r <==> |prefix| <= |s| &&
                   forall i :: 0 <= i < |prefix| ==> EqualIgnoringAsciiCase(s[i], prefix[i])
  {
    if prefix == [] then true
    else if s == [] then false
    else if !EqualIgnoringAsciiCase(s[0], prefix[0]) then false
    else
      StartsWithIgnoringAsciiCase(s[1..], prefix[1..])
  }

  /** Upper-case and lower-case spellings of "http" are all recognised. */
  lemma HttpSpellingsMatch(rest: string)
    ensures StartsWithIgnoringAsciiCase("http" + rest, "http")
    ensures StartsWithIgnoringAsciiCase("HTTP" + rest, "http")
    ensures StartsWithIgnoringAsciiCase("Http" + rest, "http")
    ensures !StartsWithIgnoringAsciiCase("ftp" + rest, "http")
  {
    var a, b, c, d := "http" + rest, "HTTP" + rest, "Http" + rest, "ftp" + rest;
    assert a[0] == 'h' && a[1] == 't' && a[2] == 't' && a[3] == 'p';
    assert b[0] == 'H' && b[1] == 'T' && b[2] == 'T' && b[3] == 'P';
    assert c[0] == 'H' && c[1] == 't' && c[2] == 't' && c[3] == 'p';
    assert d[0] == 'f';
  }
}
