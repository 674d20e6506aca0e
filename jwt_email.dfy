/** `getEmailFromAuthMethod` (Home.jsx): the `email` claim of the JWT access
    token of an OAuth auth method. The token's payload segment (the second
    '.'-separated part, section 3 of RFC 7519) is turned from the base64url
    alphabet into the base64 alphabet (section 5 vs section 4 of RFC 4648),
    decoded with `atob`, percent-encoded byte by byte (section 2.1 of
    RFC 3986), decoded with `decodeURIComponent` and parsed as JSON. */
module JwtEmail {
  import opened Common
  import opened Js

  // ---------------------------------------------------------------------
  // String.prototype.split with a one-character separator, and its inverse

  /** `s.split(sep)`: never empty; "" splits into [""]. */
  function Split(s: string, sep: char): (parts: seq<string>)
    ensures |parts| >= 1
    decreases |s|
  {
    if s == [] then [""]
    else
      var rest := Split(s[1..], sep);
      if s[0] == sep then [""] + rest
      else [[s[0]] + rest[0]] + rest[1..]
  }

  /** `parts.join(sep)` */
  function Join(parts: seq<string>, sep: char): string
    requires |parts| >= 1
  {
    if |parts| == 1 then parts[0] else parts[0] + [sep] + Join(parts[1..], sep)
  }

  /** No part that `Split` returns contains the separator. */
  lemma {:induction false} SplitPartsFreeOfSeparator(s: string, sep: char)
    ensures forall i :: 0 <= i < |Split(s, sep)| ==> sep !in Split(s, sep)[i]
    decreases |s|
  {
    if s != [] {
      SplitPartsFreeOfSeparator(s[1..], sep);
    }
  }

  /** Prefixing a character to the first part prefixes it to the join. */
  lemma JoinPrependChar(c: char, parts: seq<string>, sep: char)
    requires |parts| >= 1
    ensures Join([[c] + parts[0]] + parts[1..], sep) == [c] + Join(parts, sep)
  {
    var longer := [[c] + parts[0]] + parts[1..];
    assert longer[1..] == parts[1..];
    if |parts| > 1 {
      assert Join(longer, sep) == ([c] + parts[0]) + [sep] + Join(parts[1..], sep);
      assert Join(parts, sep) == parts[0] + [sep] + Join(parts[1..], sep);
    }
  }

  /** Joining the parts with the separator gives back the string. */
  lemma {:induction false} JoinSplit(s: string, sep: char)
    ensures Join(Split(s, sep), sep) == s
    decreases |s|
  {
    if s != [] {
      var rest := Split(s[1..], sep);
      JoinSplit(s[1..], sep);
      if s[0] == sep {
        assert Split(s, sep) == [""] + rest;
        assert ([""] + rest)[1..] == rest;
        assert Join(Split(s, sep), sep) == [sep] + s[1..];
      } else {
        assert Split(s, sep) == [[s[0]] + rest[0]] + rest[1..];
        JoinPrependChar(s[0], rest, sep);
      }
      assert [s[0]] + s[1..] == s;
    }
  }

  /** A leading separator-free part splits off whole. */
  lemma {:induction false} SplitAfterPart(a: string, sep: char, t: string)
    requires sep !in a
    ensures Split(a + [sep] + t, sep) == [a] + Split(t, sep)
    decreases |a|
  {
    var s := a + [sep] + t;
    if a == [] {
      assert s[1..] == t;
    } else {
      assert s[1..] == a[1..] + [sep] + t;
      SplitAfterPart(a[1..], sep, t);
      assert [a[0]] + a[1..] == a;
    }
  }

  /** A string without the separator is a single part. */
  lemma {:induction false} SplitWithoutSeparator(s: string, sep: char)
    requires sep !in s
    ensures Split(s, sep) == [s]
    decreases |s|
  {
    if s != [] {
      SplitWithoutSeparator(s[1..], sep);
      assert [s[0]] + s[1..] == s;
    }
  }

  /** Splitting the join of separator-free parts gives back the parts. */
  lemma {:induction false} SplitJoin(parts: seq<string>, sep: char)
    requires |parts| >= 1
    requires forall i :: 0 <= i < |parts| ==> sep !in parts[i]
    ensures Split(Join(parts, sep), sep) == parts
    decreases |parts|
  {
    if |parts| == 1 {
      SplitWithoutSeparator(parts[0], sep);
    } else {
      SplitJoin(parts[1..], sep);
      SplitAfterPart(parts[0], sep, Join(parts[1..], sep));
      assert [parts[0]] + parts[1..] == parts;
    }
  }

  /** `token.split(".")[1]`: the payload segment, absent (`undefined`) when
      the token has no '.'. */
  function PayloadSegment(token: string): (r: Option<string>)
    ensures r.Some? <==> '.' in token
  {
    var parts := Split(token, '.');
    if |parts| >= 2 then
      assert '.' in token by {
        if '.' !in token {
          SplitWithoutSeparator(token, '.');
        }
      }
      Some(parts[1])
    else
      assert '.' !in token by {
        JoinSplit(token, '.');
        SplitPartsFreeOfSeparator(token, '.');
      }
      None
  }

  /** The segment after the first '.' and before the second is the payload,
      whatever the header and the rest of the token hold. */
  lemma PayloadOfThreeSegments(header: string, payload: string, signature: string)
    requires '.' !in header && '.' !in payload
    ensures PayloadSegment(header + "." + payload + "." + signature) == Some(payload)
  {
    SplitAfterPart(header, '.', payload + "." + signature);
    SplitAfterPart(payload, '.', signature);
    assert header + "." + payload + "." + signature == header + ['.'] + (payload + ['.'] + signature);
  }

  // ---------------------------------------------------------------------
  // base64url alphabet to base64 alphabet

  /** `s.replace(/from/g, to)` for a single-character pattern. */
  function ReplaceChar(s: string, from: char, to: char): (r: string)
    ensures |r| == |s|
  {
    if s == [] then [] else [if s[0] == from then to else s[0]] + ReplaceChar(s[1..], from, to)
  }

  /** Every occurrence of `from` becomes `to`; every other character stays. */
  lemma {:induction false} ReplaceCharAt(s: string, from: char, to: char, i: int)
    requires 0 <= i < |s|
    ensures ReplaceChar(s, from, to)[i] == if s[i] == from then to else s[i]
    decreases |s|
  {
    if i > 0 {
      ReplaceCharAt(s[1..], from, to, i - 1);
    }
  }

  /** `base64Url.replace(/-/g, "+").replace(/_/g, "/")` */
  function Base64UrlToBase64(s: string): (r: string)
    ensures |r| == |s|
  {
    ReplaceChar(ReplaceChar(s, '-', '+'), '_', '/')
  }

  /** The reference inverse, which the application itself never performs:
      section 5 of RFC 4648 derives the URL-safe alphabet from the standard
      one by writing '-' for '+' and '_' for '/'. */
  function Base64ToBase64Url(s: string): (r: string)
    ensures |r| == |s|
  {
    seq(|s|, i requires 0 <= i < |s| => if s[i] == '+' then '-' else if s[i] == '/' then '_' else s[i])
  }

  /** The translation character by character: '-' to '+', '_' to '/'. */
  lemma Base64UrlToBase64At(s: string, i: int)
    requires 0 <= i < |s|
    ensures Base64UrlToBase64(s)[i] == if s[i] == '-' then '+' else if s[i] == '_' then '/' else s[i]
  {
    ReplaceCharAt(s, '-', '+', i);
    ReplaceCharAt(ReplaceChar(s, '-', '+'), '_', '/', i);
  }

  /** The result uses the base64 alphabet: neither '-' nor '_' remains. */
  lemma Base64UrlToBase64Alphabet(s: string)
    ensures '-' !in Base64UrlToBase64(s) && '_' !in Base64UrlToBase64(s)
  {
    var r := Base64UrlToBase64(s);
    forall i | 0 <= i < |r|
      ensures r[i] != '-' && r[i] != '_'
    {
      Base64UrlToBase64At(s, i);
    }
  }

  /** On a base64url text (no '+' and no '/'), translating to base64 and back
      is the identity. */
  lemma Base64UrlRoundTrip(s: string)
    requires '+' !in s && '/' !in s
    ensures Base64ToBase64Url(Base64UrlToBase64(s)) == s
  {
    var b := Base64UrlToBase64(s);
    var back := Base64ToBase64Url(b);
    forall i | 0 <= i < |s|
      ensures back[i] == s[i]
    {
      Base64UrlToBase64At(s, i);
    }
  }

  // ---------------------------------------------------------------------
  // Per-character percent encoding, and decoding of the triples

  /** `d.toString(16)` for one hex digit: lowercase. */
  function HexDigit(d: nat): (c: char)
    requires d < 16
    ensures '0' <= c <= '9' || 'a' <= c <= 'f'
    ensures HexValue(c) == Some(d)
  {
    if d < 10 then ('0' as int + d) as char else ('a' as int + d - 10) as char
  }

  /** The value of a hex digit in either case. */
  function HexValue(c: char): (v: Option<nat>)
    ensures v.Some? <==> '0' <= c <= '9' || 'a' <= c <= 'f' || 'A' <= c <= 'F'
    ensures v.Some? ==> v.value < 16
  {
    if '0' <= c <= '9' then Some(c as int - '0' as int)
    else if 'a' <= c <= 'f' then Some(c as int - 'a' as int + 10)
    else if 'A' <= c <= 'F' then Some(c as int - 'A' as int + 10)
    else None
  }

  /** `"%" + ("00" + c.charCodeAt(0).toString(16)).slice(-2)`: the last two
      hex digits of the code, zero-padded, are those of the code mod 256. */
  function PercentEncodeChar(c: char): (e: string)
    ensures |e| == 3 && e[0] == '%'
    ensures HexValue(e[1]).Some? && HexValue(e[2]).Some?
    ensures forall i :: 1 <= i < 3 ==> '0' <= e[i] <= '9' || 'a' <= e[i] <= 'f'
    ensures HexValue(e[1]).value * 16 + HexValue(e[2]).value == (c as int) % 256
  {
    var code := (c as int) % 256;
    ['%', HexDigit(code / 16), HexDigit(code % 16)]
  }

  /** `s.split("").map(PercentEncodeChar).join("")` */
  function PercentEncode(s: string): (e: string)
    ensures |e| == 3 * |s|
  {
    if s == [] then [] else PercentEncodeChar(s[0]) + PercentEncode(s[1..])
  }

  /** Percent-decoding of escapes that stand for single characters: a '%'
      must be followed by two hex digits; other characters stand for
      themselves. */
  function PercentDecode(e: string): Option<string>
    decreases |e|
  {
    if e == [] then Some("")
    else if e[0] != '%' then
      match PercentDecode(e[1..])
      case None => None
      case Some(rest) => Some([e[0]] + rest)
    else if |e| >= 3 && HexValue(e[1]).Some? && HexValue(e[2]).Some? then
      match PercentDecode(e[3..])
      case None => None
      case Some(rest) => Some([(HexValue(e[1]).value * 16 + HexValue(e[2]).value) as char] + rest)
    else None
  }

  /** Every character of a binary string (what `atob` returns) has a code
      below 256. */
  predicate IsBinary(s: string)
  {
    forall i :: 0 <= i < |s| ==> (s[i] as int) < 256
  }

  /** The triples parse back to the original codes. */
  lemma {:induction false} PercentRoundTrip(s: string)
    requires IsBinary(s)
    ensures PercentDecode(PercentEncode(s)) == Some(s)
    decreases |s|
  {
    if s != [] {
      var e := PercentEncode(s);
      var head := PercentEncodeChar(s[0]);
      assert e == head + PercentEncode(s[1..]);
      assert e[0] == '%' && e[1] == head[1] && e[2] == head[2];
      assert e[3..] == PercentEncode(s[1..]);
      assert IsBinary(s[1..]) by {
        forall i | 0 <= i < |s[1..]|
          ensures (s[1..][i] as int) < 256
        {
          assert s[1..][i] == s[i + 1];
        }
      }
      PercentRoundTrip(s[1..]);
      assert (s[0] as int) % 256 == s[0] as int;
      assert [s[0]] + s[1..] == s;
    }
  }

  /** Percent-encoding is injective on binary strings. */
  lemma PercentEncodeInjective(s: string, t: string)
    requires IsBinary(s) && IsBinary(t)
    requires PercentEncode(s) == PercentEncode(t)
    ensures s == t
  {
    PercentRoundTrip(s);
    PercentRoundTrip(t);
  }

  // ---------------------------------------------------------------------
  // The extraction

  /** The browser built-ins the extraction calls: `atob` (a Failure is the
      InvalidCharacterError it throws), `decodeURIComponent` (a Failure is the
      URIError) and JSON. */
  datatype Builtins = Builtins(
    atob: string -> Result<string>,
    decodeUriComponent: string -> Result<string>,
    json: JsonCodec)

  /** The property of `decodeURIComponent` the extraction relies on: escapes
      of ASCII characters decode to those characters. */
  ghost predicate DecodesAsciiEscapes(decode: string -> Result<string>)
  {
    forall e :: PercentDecode(e).Some? && IsAscii(PercentDecode(e).value) ==>
      decode(e) == Success(PercentDecode(e).value)
  }

  predicate IsAscii(s: string)
  {
    forall i :: 0 <= i < |s| ==> (s[i] as int) < 128
  }

  /** What the function returns: `null`, `undefined` (a payload without an
      `email` claim) or the claim's value. */
  datatype Email = NullEmail | UndefinedEmail | EmailValue(value: JsonValue)

  /** The token that reaches `.split(".")`: `authMethod?.accessToken` when it
      is truthy; a truthy value that is not a string has no `split` method, so
      it throws and yields null like a falsy one. */
  function AccessToken(authMethod: JsonValue): (t: Option<string>)
    ensures t.Some? ==> t.value != "" && GetProperty(authMethod, "accessToken") == Defined(JString(t.value))
  {
    match GetProperty(authMethod, "accessToken")
    case Defined(JString(token)) => if token != "" then Some(token) else None
    case _ => None
  }

  /** Decoding and parsing one payload segment. */
  function EmailFromPayload(segment: string, b: Builtins): Email
  {
    match b.atob(Base64UrlToBase64(segment))
    case Failure(_) => NullEmail
    case Success(bin) =>
      match b.decodeUriComponent(PercentEncode(bin))
      case Failure(_) => NullEmail
      case Success(text) =>
        match b.json.parse(text)
        case Failure(_) => NullEmail
        case Success(payload) =>
          match GetProperty(payload, "email")
          case TypeError => NullEmail
          case Undefined => UndefinedEmail
          case Defined(v) => if v.JNull? then NullEmail else EmailValue(v)
  }

  /** `getEmailFromAuthMethod(authMethod)`: every failure (no token, no
      payload segment, a decoding or parse error) yields `null`. */
  function GetEmailFromAuthMethod(authMethod: JsonValue, b: Builtins): (r: Email)
    ensures AccessToken(authMethod).None? ==> r == NullEmail
    ensures authMethod.JNull? ==> r == NullEmail
    ensures AccessToken(authMethod).Some? && '.' !in AccessToken(authMethod).value ==> r == NullEmail
    ensures r != NullEmail ==> (AccessToken(authMethod).Some?
      && r == EmailFromPayload(PayloadSegment(AccessToken(authMethod).value).value, b))
    ensures AccessToken(authMethod).Some? && '.' in AccessToken(authMethod).value ==>
      r == EmailFromPayload(PayloadSegment(AccessToken(authMethod).value).value, b)
  {
    match AccessToken(authMethod)
    case None => NullEmail
    case Some(token) =>
      match PayloadSegment(token)
      case None => NullEmail
      case Some(segment) => EmailFromPayload(segment, b)
  }

  /** Only the payload segment matters: tokens with the same payload give the
      same result. */
  lemma OnlyPayloadMatters(m1: JsonValue, m2: JsonValue, b: Builtins)
    requires AccessToken(m1).Some? && AccessToken(m2).Some?
    requires PayloadSegment(AccessToken(m1).value) == PayloadSegment(AccessToken(m2).value)
    ensures GetEmailFromAuthMethod(m1, b) == GetEmailFromAuthMethod(m2, b)
  {
  }

  /** The success path end to end: for a three-segment token whose payload
      decodes to an ASCII JSON object with a non-null `email` claim, the
      result is that claim. */
  lemma EmailOfWellFormedToken(authMethod: JsonValue, header: string, payload: string, signature: string,
                               bin: string, claims: map<string, JsonValue>, b: Builtins)
    requires GetProperty(authMethod, "accessToken") == Defined(JString(header + "." + payload + "." + signature))
    requires '.' !in header && '.' !in payload
    requires b.atob(Base64UrlToBase64(payload)) == Success(bin)
    requires IsAscii(bin)
    requires DecodesAsciiEscapes(b.decodeUriComponent)
    requires b.json.parse(bin) == Success(JObject(claims))
    requires "email" in claims && !claims["email"].JNull?
    ensures GetEmailFromAuthMethod(authMethod, b) == EmailValue(claims["email"])
  {
    PayloadOfThreeSegments(header, payload, signature);
    assert IsBinary(bin);
    PercentRoundTrip(bin);
    assert b.decodeUriComponent(PercentEncode(bin)) == Success(bin);
  }
}
