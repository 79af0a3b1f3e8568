/**
 * `getCsrfToken`: the token the upload adapter sends with its requests. A
 * `<meta name="csrf-token">` tag wins; otherwise the `_csrf_token` cookie is looked up with
 * the pattern `(?:^|; )_csrf_token=([^;]*)` and its value is percent-decoded.
 */
module CsrfToken {
  import opened Wrappers

  /** The first `<meta name="csrf-token">` element, with its `content` attribute. */
  datatype MetaTag = MetaTag(content: Option<string>)

  const CookieName: string := "_csrf_token="
  const Separator: string := "; "

  predicate StartsWith(s: string, prefix: string)
  {
    |prefix| <= |s| && s[..|prefix|] == prefix
  }

  /** The pattern matches at `p`: the cookie name at the start of the string, or after "; ". */
  predicate MatchesAt(cookie: string, p: nat)
  {
    p <= |cookie| && ((p == 0 && StartsWith(cookie, CookieName)) || StartsWith(cookie[p..], Separator + CookieName))
  }

  /** Where the captured value of a match at `p` begins (the `^` alternative is tried first). */
  function ValueStart(cookie: string, p: nat): (i: nat)
    requires MatchesAt(cookie, p)
    ensures i <= |cookie|
  {
    if p == 0 && StartsWith(cookie, CookieName) then |CookieName| else p + |Separator| + |CookieName|
  }

  /** The leftmost match at or after `from`. */
  function FirstMatchFrom(cookie: string, from: nat): (r: Option<nat>)
    requires from <= |cookie|
    ensures r.Some? ==> from <= r.value <= |cookie| && MatchesAt(cookie, r.value)
    ensures forall q: nat :: from <= q <= |cookie| && (r.None? || q < r.value) ==> !MatchesAt(cookie, q)
    decreases |cookie| - from
  {
    if MatchesAt(cookie, from) then Some(from)
    else if from == |cookie| then None
    else FirstMatchFrom(cookie, from + 1)
  }

  /** `[^;]*`: the longest prefix without a semicolon. */
  function TakeUntilSemicolon(s: string): (r: string)
    ensures r <= s
    ensures ';' !in r
    ensures |r| < |s| ==> s[|r|] == ';'
    decreases |s|
  {
    if s == [] || s[0] == ';' then "" else [s[0]] + TakeUntilSemicolon(s[1..])
  }

  /** The captured group of the leftmost match, if the pattern matches. */
  function CookieValue(cookie: string): (r: Option<string>)
    ensures r.None? <==> forall q: nat :: q <= |cookie| ==> !MatchesAt(cookie, q)
    ensures r.Some? ==> ';' !in r.value
  {
    match FirstMatchFrom(cookie, 0)
    case None => None
    case Some(p) => Some(TakeUntilSemicolon(cookie[ValueStart(cookie, p)..]))
  }

  function HexValue(c: char): (r: Option<nat>)
    ensures r.Some? ==> r.value < 16
  {
    if '0' <= c <= '9' then Some(c as nat - '0' as nat)
    else if 'a' <= c <= 'f' then Some(c as nat - 'a' as nat + 10)
    else if 'A' <= c <= 'F' then Some(c as nat - 'A' as nat + 10)
    else None
  }

  /** What `decodeURIComponent` yields. Escapes of bytes from 0x80 up start UTF-8 sequences,
      whose decoding is not part of this model. */
  datatype Decoded = Decoded(text: string) | UriError | MultiByte

  function Prepend(c: char, rest: Decoded): Decoded
  {
    match rest
    case Decoded(t) => Decoded([c] + t)
    case _ => rest
  }

  /** `decodeURIComponent` on escapes of single bytes: `%XY` with two hex digits is the
      character XY; a `%` without two hex digits after it is a URIError. */
  function PercentDecode(s: string): (r: Decoded)
    ensures r.Decoded? ==> |r.text| <= |s|
    decreases |s|
  {
    if s == [] then Decoded("")
    else if s[0] != '%' then Prepend(s[0], PercentDecode(s[1..]))
    else if |s| < 3 then UriError
    else
      var byte := EscapedByte(s[1], s[2]);
      if byte.None? then UriError
      else if byte.value >= 0x80 then MultiByte
      else Prepend(byte.value as char, PercentDecode(s[3..]))
  }

  /** The byte `%XY` stands for, if X and Y are hex digits. */
  function EscapedByte(x: char, y: char): (r: Option<nat>)
    ensures r.Some? <==> HexValue(x).Some? && HexValue(y).Some?
    ensures r.Some? ==> r.value == 16 * HexValue(x).value + HexValue(y).value && r.value < 0x100
  {
    match (HexValue(x), HexValue(y))
    case (Some(high), Some(low)) => Some(16 * high + low)
    case _ => None
  }

  /** What `getCsrfToken` returns, or that it throws. */
  datatype TokenResult = Token(value: string) | NoToken | Throws | MultiByteToken

  /** `getCsrfToken`, with the document's meta tag and `document.cookie` as parameters. */
  function GetCsrfToken(meta: Option<MetaTag>, cookie: string): (r: TokenResult)
    ensures meta.Some? && meta.value.content.Some? ==> r == Token(meta.value.content.value)
    ensures meta.Some? && meta.value.content.None? ==> r == NoToken
    ensures meta.None? ==> (r == NoToken <==> CookieValue(cookie).None?)
    ensures meta.None? && r.Token? ==> PercentDecode(CookieValue(cookie).value) == Decoded(r.value)
    ensures meta.None? && r == Throws ==> PercentDecode(CookieValue(cookie).value) == UriError
    ensures meta.None? && CookieValue(cookie).Some? && PercentDecode(CookieValue(cookie).value).Decoded? ==>
              r == Token(PercentDecode(CookieValue(cookie).value).text)
    ensures meta.None? && CookieValue(cookie).Some? && PercentDecode(CookieValue(cookie).value) == UriError ==>
              r == Throws
    ensures r == MultiByteToken <==> meta.None? && CookieValue(cookie).Some? && PercentDecode(CookieValue(cookie).value) == MultiByte
  {
    match meta
    case Some(tag) => if tag.content.Some? then Token(tag.content.value) else NoToken
    case None =>
      match CookieValue(cookie)
      case None => NoToken
      case Some(raw) =>
        match PercentDecode(raw)
        case Decoded(text) => Token(text)
        case UriError => Throws
        case MultiByte => MultiByteToken
  }

  // ---------------------------------------------------------------- the encoding side

  predicate IsAscii(s: string)
  {
    forall i :: 0 <= i < |s| ==> s[i] < 0x80 as char
  }

  /** Characters `encodeURIComponent` leaves as they are. */
  predicate Unreserved(c: char)
  {
    ('A' <= c <= 'Z') || ('a' <= c <= 'z') || ('0' <= c <= '9') || c in "-_.!~*'()"
  }

  function HexDigit(d: nat): char
    requires d < 16
  {
    "0123456789ABCDEF"[d]
  }

  lemma HexDigitValue(d: nat)
    requires d < 16
    ensures HexValue(HexDigit(d)) == Some(d)
  {
  }

  /** `encodeURIComponent` on ASCII text, the way a server writes the cookie. */
  function PercentEncode(s: string): (r: string)
    requires IsAscii(s)
    ensures ';' !in r
    decreases |s|
  {
    if s == [] then ""
    else
      var rest := PercentEncode(s[1..]);
      if Unreserved(s[0]) then [s[0]] + rest
      else
        var b := s[0] as nat;
        ['%', HexDigit(b / 16), HexDigit(b % 16)] + rest
  }

  /** A character other than `%` decodes to itself. */
  lemma DecodePlain(c: char, rest: string)
    requires c != '%'
    ensures PercentDecode([c] + rest) == Prepend(c, PercentDecode(rest))
  {
    assert ([c] + rest)[1..] == rest;
  }

  /** The escape of an ASCII byte decodes to that byte's character. */
  lemma DecodeEscape(b: nat, rest: string)
    requires b < 0x80
    ensures PercentDecode(['%', HexDigit(b / 16), HexDigit(b % 16)] + rest) == Prepend(b as char, PercentDecode(rest))
  {
    var e := ['%', HexDigit(b / 16), HexDigit(b % 16)] + rest;
    HexDigitValue(b / 16);
    HexDigitValue(b % 16);
    assert e[1] == HexDigit(b / 16) && e[2] == HexDigit(b % 16);
    assert e[3..] == rest;
  }

  /** Decoding undoes encoding on ASCII text. */
  lemma {:induction false} DecodeEncode(s: string)
    requires IsAscii(s)
    ensures PercentDecode(PercentEncode(s)) == Decoded(s)
    decreases |s|
  {
    if s != [] {
      var rest := PercentEncode(s[1..]);
      assert IsAscii(s[1..]) by {
        forall i | 0 <= i < |s[1..]| ensures s[1..][i] < 0x80 as char {
          assert s[1..][i] == s[i + 1];
        }
      }
      DecodeEncode(s[1..]);
      assert [s[0]] + s[1..] == s;
      if Unreserved(s[0]) {
        DecodePlain(s[0], rest);
      } else {
        DecodeEscape(s[0] as nat, rest);
      }
    }
  }

  /** A cookie written first yields its raw value, up to the next semicolon. */
  lemma CookieAtStart(value: string, others: string)
    requires ';' !in value
    requires others == [] || others[0] == ';'
    ensures CookieValue(CookieName + value + others) == Some(value)
  {
    var cookie := CookieName + value + others;
    assert cookie[..|CookieName|] == CookieName;
    assert MatchesAt(cookie, 0);
    assert cookie[|CookieName|..] == value + others;
    TakeUntilPrefix(value, others);
  }

  /** Inside a first pair that is not the token, the pattern does not match. */
  lemma NoMatchInside(pair: string, cookie: string)
    requires ';' !in pair && !StartsWith(pair, CookieName)
    requires |pair| < |cookie| && cookie[..|pair|] == pair && cookie[|pair|] == ';'
    ensures !StartsWith(cookie, CookieName)
    ensures forall q: nat :: q < |pair| ==> !MatchesAt(cookie, q)
  {
    var p := |pair|;
    assert !StartsWith(cookie, CookieName) by {
      if |CookieName| <= |cookie| {
        if p >= |CookieName| {
          assert cookie[..|CookieName|] == pair[..|CookieName|];
        } else {
          assert cookie[..|CookieName|][p] == ';';
        }
      }
    }
    forall q: nat | q < p ensures !MatchesAt(cookie, q) {
      assert cookie[q] == pair[q];
      assert cookie[q..][0] == cookie[q];
    }
  }

  /** The leftmost match is the one at `p` when nothing matches before it. */
  lemma FirstMatchIs(cookie: string, p: nat)
    requires MatchesAt(cookie, p)
    requires forall q: nat :: q < p ==> !MatchesAt(cookie, q)
    ensures FirstMatchFrom(cookie, 0) == Some(p)
  {
  }

  /** After a first pair that is not the token, the pattern matches at the separator. */
  lemma SeparatorMatch(pair: string, rest: string)
    requires ';' !in pair && !StartsWith(pair, CookieName)
    ensures var cookie := pair + (Separator + CookieName + rest);
            && MatchesAt(cookie, |pair|)
            && ValueStart(cookie, |pair|) == |pair| + |Separator| + |CookieName|
            && cookie[|pair| + |Separator| + |CookieName|..] == rest
            && forall q: nat :: q < |pair| ==> !MatchesAt(cookie, q)
  {
    var tail := Separator + CookieName + rest;
    var cookie := pair + tail;
    assert cookie[..|pair|] == pair && cookie[|pair|..] == tail;
    assert tail[..|Separator + CookieName|] == Separator + CookieName;
    NoMatchInside(pair, cookie);
    assert cookie[|pair| + |Separator| + |CookieName|..] == tail[|Separator| + |CookieName|..];
  }

  /** A cookie written after another one (`<pair>; _csrf_token=...`) is found after the
      separator, provided the earlier pair is not itself the token. */
  lemma CookieAfterAnother(pair: string, value: string, others: string)
    requires ';' !in pair && !StartsWith(pair, CookieName)
    requires ';' !in value
    requires others == [] || others[0] == ';'
    ensures CookieValue(pair + Separator + CookieName + value + others) == Some(value)
  {
    var cookie := pair + (Separator + CookieName + (value + others));
    assert pair + Separator + CookieName + value + others == cookie;
    SeparatorMatch(pair, value + others);
    FirstMatchIs(cookie, |pair|);
    TakeUntilPrefix(value, others);
  }

  /** A cookie written first, followed by nothing or by further cookies, yields its token. */
  lemma CookieTokenRoundTrip(token: string, others: string)
    requires IsAscii(token)
    requires others == [] || others[0] == ';'
    ensures GetCsrfToken(None, CookieName + PercentEncode(token) + others) == Token(token)
  {
    CookieAtStart(PercentEncode(token), others);
    DecodeEncode(token);
  }

  /** `[^;]*` stops exactly at the end of a semicolon-free part followed by a semicolon. */
  lemma {:induction false} TakeUntilPrefix(s: string, others: string)
    requires ';' !in s
    requires others == [] || others[0] == ';'
    ensures TakeUntilSemicolon(s + others) == s
    decreases |s|
  {
    if s != [] {
      assert (s + others)[1..] == s[1..] + others;
      TakeUntilPrefix(s[1..], others);
    } else {
      assert s + others == others;
    }
  }

  /** The meta tag wins over any cookie. */
  lemma MetaTagWins(content: string, cookie: string)
    ensures GetCsrfToken(Some(MetaTag(Some(content))), cookie) == Token(content)
  {
  }

  /** A cookie whose name merely ends in `_csrf_token` is not the token. */
  lemma LongerNameIsNotTheToken()
    ensures GetCsrfToken(None, "x_csrf_token=abc") == NoToken
  {
    var cookie := "x_csrf_token=abc";
    assert ';' !in cookie;
    forall q: nat | q <= |cookie| ensures !MatchesAt(cookie, q) {
      if q == 0 {
        assert cookie[0] != CookieName[0];
      } else if q < |cookie| {
        assert cookie[q..][0] == cookie[q];
      }
    }
  }

  function PrependText(a: string, d: Decoded): Decoded
  {
    match d
    case Decoded(t) => Decoded(a + t)
    case _ => d
  }

  /** Text without `%` decodes to itself in front of whatever follows. */
  lemma {:induction false} DecodeLiteralPrefix(a: string, b: string)
    requires '%' !in a
    ensures PercentDecode(a + b) == PrependText(a, PercentDecode(b))
    decreases |a|
  {
    if a == [] {
      assert a + b == b;
    } else {
      var tail := a[1..];
      assert '%' !in tail by { assert forall c :: c in tail ==> c in a; }
      assert a + b == [a[0]] + (tail + b);
      DecodePlain(a[0], tail + b);
      DecodeLiteralPrefix(tail, b);
      var d := PercentDecode(b);
      if d.Decoded? {
        assert [a[0]] + (tail + d.text) == a + d.text;
      }
    }
  }

  /** An escaped space after text without `%` decodes to that text and a space. */
  lemma DecodeSpaceAfter(a: string, rest: string)
    requires '%' !in a
    ensures PercentDecode(a + "%20" + rest) == PrependText(a + " ", PercentDecode(rest))
  {
    assert "%20" == ['%', HexDigit(32 / 16), HexDigit(32 % 16)];
    DecodeEscape(32, rest);
    assert a + "%20" + rest == a + ("%20" + rest);
    DecodeLiteralPrefix(a, "%20" + rest);
    var d := PercentDecode(rest);
    if d.Decoded? {
      assert a + ([' '] + d.text) == a + " " + d.text;
    }
  }

  /** Words separated by escaped spaces decode to the words separated by spaces. */
  lemma DecodesEscapedSpaces(first: string, second: string, third: string)
    requires '%' !in first && '%' !in second && '%' !in third
    ensures PercentDecode(first + "%20" + second + "%20" + third) == Decoded(first + " " + second + " " + third)
  {
    DecodeLiteralPrefix(third, "");
    assert third + "" == third;
    DecodeSpaceAfter(second, third);
    var tail := second + "%20" + third;
    DecodeSpaceAfter(first, tail);
    assert first + "%20" + second + "%20" + third == first + "%20" + tail;
    assert first + " " + (second + " " + third) == first + " " + second + " " + third;
  }

  /** Text without `%` decodes to itself. */
  lemma DecodeWithoutEscapes(s: string)
    requires '%' !in s
    ensures PercentDecode(s) == Decoded(s)
  {
    DecodeLiteralPrefix(s, "");
    assert s + "" == s;
  }

  /** A lower-case escape of `/` after text without `%` decodes to that text and a slash. */
  lemma DecodeSlashAfter(a: string, rest: string)
    requires '%' !in a
    ensures PercentDecode(a + "%2f" + rest) == PrependText(a + "/", PercentDecode(rest))
  {
    var e := "%2f" + rest;
    assert e[1] == '2' && e[2] == 'f' && e[3..] == rest;
    assert EscapedByte('2', 'f') == Some(47);
    assert PercentDecode(e) == Prepend('/', PercentDecode(rest));
    assert a + "%2f" + rest == a + e;
    DecodeLiteralPrefix(a, e);
    var d := PercentDecode(rest);
    if d.Decoded? {
      assert a + (['/'] + d.text) == a + "/" + d.text;
    }
  }

  /** A cookie holding `first%2fsecond` yields `first/second`: lower-case hex digits decode too. */
  lemma EscapedSlashIsDecoded(first: string, second: string)
    requires '%' !in first && '%' !in second
    requires ';' !in first && ';' !in second
    ensures GetCsrfToken(None, CookieName + first + "%2f" + second) == Token(first + "/" + second)
  {
    var value := first + "%2f" + second;
    assert ';' !in value;
    CookieAtStart(value, "");
    assert CookieName + value + "" == CookieName + first + "%2f" + second;
    DecodeSlashAfter(first, second);
    DecodeWithoutEscapes(second);
  }

  /** Escaped spaces in the cookie are decoded. */
  lemma EncodedSpacesAreDecoded(first: string, second: string, third: string)
    requires '%' !in first && '%' !in second && '%' !in third
    requires ';' !in first && ';' !in second && ';' !in third
    ensures GetCsrfToken(None, CookieName + first + "%20" + second + "%20" + third)
            == Token(first + " " + second + " " + third)
  {
    var value := first + "%20" + second + "%20" + third;
    assert ';' !in value;
    CookieAtStart(value, "");
    assert CookieName + value + "" == CookieName + first + "%20" + second + "%20" + third;
    DecodesEscapedSpaces(first, second, third);
  }
}
