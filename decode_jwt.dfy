/** server/src/utils/decodeJWT.ts: read a JWT's payload without verifying
    it. The payload segment is base64url (section 5 of RFC 4648); it is
    mapped to the standard alphabet (section 4), decoded by `window.atob`
    (the WHATWG forgiving-base64 decode), turned into `%xx` escapes and
    passed through `decodeURIComponent` and `JSON.parse`. UTF-8 decoding
    and JSON parsing are parameters; `null` stands for every failure. */
module DecodeJwt {
  import opened Wrappers
  import opened Json
  import opened ServerUtils

  type Byte = x: int | 0 <= x < 256

  /** `token.split('.')[1]`: the text between the first and second dot, or
      after the first dot when there is no second; `None` (`undefined`)
      when the token has no dot. */
  function SecondSegment(token: string): (r: Option<string>)
    ensures r.None? <==> '.' !in token
    ensures r.Some? ==> '.' !in r.value
  {
    var i := IndexOf(token, '.');
    if i < 0 then None
    else
      var rest := token[i + 1..];
      var j := IndexOf(rest, '.');
      Some(if j < 0 then rest else rest[..j])
  }

  /** The first occurrence is where the value sits with none before it. */
  lemma IndexOfAt(s: string, c: char, k: nat)
    requires k < |s| && s[k] == c && c !in s[..k]
    ensures IndexOf(s, c) == k
  {
    assert c in s;
  }

  /** A compact JWT's second segment is its payload. */
  lemma SecondSegmentOfJwt(header: string, payload: string, signature: string)
    requires '.' !in header && '.' !in payload
    ensures SecondSegment(header + "." + payload + "." + signature) == Some(payload)
  {
    var token := header + "." + payload + "." + signature;
    assert token[..|header|] == header;
    IndexOfAt(token, '.', |header|);
    var rest := token[|header| + 1..];
    assert rest == payload + "." + signature;
    assert rest[..|payload|] == payload;
    IndexOfAt(rest, '.', |payload|);
  }

  /** One character of `.replace(/-/g, '+').replace(/_/g, '/')`. */
  function StandardChar(c: char): char {
    if c == '-' then '+' else if c == '_' then '/' else c
  }

  /** The encoder's side of the mapping: `+` to `-` and `/` to `_`. */
  function UrlChar(c: char): char {
    if c == '+' then '-' else if c == '/' then '_' else c
  }

  /** `.replace(/-/g, '+').replace(/_/g, '/')` */
  function ToStandardAlphabet(s: string): (r: string)
    ensures |r| == |s|
    ensures forall i :: 0 <= i < |s| ==> r[i] == StandardChar(s[i])
  {
    seq(|s|, i requires 0 <= i < |s| => StandardChar(s[i]))
  }

  function ToUrlAlphabet(s: string): (r: string)
    ensures |r| == |s|
    ensures forall i :: 0 <= i < |s| ==> r[i] == UrlChar(s[i])
  {
    seq(|s|, i requires 0 <= i < |s| => UrlChar(s[i]))
  }

  /** The two alphabets are inverse on text that uses neither `-` nor `_`,
      which standard base64 never does. */
  lemma AlphabetRoundTrip(s: string)
    requires forall i :: 0 <= i < |s| ==> s[i] != '-' && s[i] != '_'
    ensures ToStandardAlphabet(ToUrlAlphabet(s)) == s
  {
    var u := ToUrlAlphabet(s);
    var r := ToStandardAlphabet(u);
    forall i | 0 <= i < |s|
      ensures r[i] == s[i]
    {
      assert r[i] == StandardChar(UrlChar(s[i]));
    }
  }

  /** The base64 digit for a 6-bit value. */
  function DigitChar(n: nat): (c: char)
    requires n < 64
  {
    if n < 26 then ('A' as int + n) as char
    else if n < 52 then ('a' as int + n - 26) as char
    else if n < 62 then ('0' as int + n - 52) as char
    else if n == 62 then '+'
    else '/'
  }

  /** The 6-bit value of a base64 digit (section 4 of RFC 4648). */
  function DigitValue(c: char): (r: Option<nat>)
    ensures r.Some? ==> r.value < 64
  {
    if 'A' <= c <= 'Z' then Some(c as int - 'A' as int)
    else if 'a' <= c <= 'z' then Some(c as int - 'a' as int + 26)
    else if '0' <= c <= '9' then Some(c as int - '0' as int + 52)
    else if c == '+' then Some(62)
    else if c == '/' then Some(63)
    else None
  }

  lemma DigitRoundTrip(n: nat)
    requires n < 64
    ensures DigitValue(DigitChar(n)) == Some(n)
    ensures DigitChar(n) != '-' && DigitChar(n) != '_' && DigitChar(n) != '=' && DigitChar(n) != '.'
    ensures !IsAsciiWhitespace(DigitChar(n))
  {
  }

  /** The ASCII whitespace the forgiving decode skips. */
  predicate IsAsciiWhitespace(c: char) {
    c == '\t' || c == '\n' || c == '\U{000C}' || c == '\r' || c == ' '
  }

  function RemoveAsciiWhitespace(s: string): (r: string)
    ensures |r| <= |s|
  {
    if s == [] then [] else (if IsAsciiWhitespace(s[0]) then [] else [s[0]]) + RemoveAsciiWhitespace(s[1..])
  }

  predicate AllDigits(s: string) {
    forall i :: 0 <= i < |s| ==> DigitValue(s[i]).Some?
  }

  /** The 6-bit values of a run of base64 digits. */
  function DigitValues(s: string): (v: seq<nat>)
    requires AllDigits(s)
    ensures |v| == |s|
    ensures forall i :: 0 <= i < |v| ==> v[i] == DigitValue(s[i]).value && v[i] < 64
  {
    seq(|s|, i requires 0 <= i < |s| && AllDigits(s) => DigitValue(s[i]).value)
  }

  /** The three bytes a group of four 6-bit values stands for. */
  function Triple(a: nat, b: nat, c: nat, d: nat): (r: seq<Byte>)
    requires a < 64 && b < 64 && c < 64 && d < 64
    ensures |r| == 3
  {
    [a * 4 + b / 16, (b % 16) * 16 + c / 4, (c % 4) * 64 + d]
  }

  /** The bytes of a run of 6-bit values: each group of four gives three
      bytes, a final two or three give one or two; leftover bits drop. */
  function DecodeSextets(v: seq<nat>): (r: seq<Byte>)
    requires forall i :: 0 <= i < |v| ==> v[i] < 64
    requires |v| % 4 != 1
  {
    if |v| < 2 then []
    else if |v| == 2 then Triple(v[0], v[1], 0, 0)[..1]
    else if |v| == 3 then Triple(v[0], v[1], v[2], 0)[..2]
    else Triple(v[0], v[1], v[2], v[3]) + DecodeSextets(v[4..])
  }

  /** `window.atob(data)`, the forgiving-base64 decode: drop whitespace, drop
      one or two trailing `=` from a length divisible by four, refuse a
      length of the form 4k+1 and any other character, then decode. `None`
      is the `InvalidCharacterError` it throws. */
  function Atob(data: string): (r: Option<seq<Byte>>)
  {
    var s := RemoveAsciiWhitespace(data);
    var t :=
      if |s| % 4 == 0 && |s| >= 2 && s[|s| - 2..] == "==" then s[..|s| - 2]
      else if |s| % 4 == 0 && |s| >= 1 && s[|s| - 1] == '=' then s[..|s| - 1]
      else s;
    if |t| % 4 == 1 || !AllDigits(t) then None
    else Some(DecodeSextets(DigitValues(t)))
  }

  /** The four 6-bit values of a group of three bytes. */
  function Quad(b0: Byte, b1: Byte, b2: Byte): (q: seq<nat>)
    ensures |q| == 4 && forall i :: 0 <= i < 4 ==> q[i] < 64
  {
    [b0 / 4, (b0 % 4) * 16 + b1 / 16, (b1 % 16) * 4 + b2 / 64, b2 % 64]
  }

  /** The 6-bit values of the unpadded encoding of `bytes`: a final one or
      two bytes give two or three values, padded with zero bits. */
  function Sextets(bytes: seq<Byte>): (v: seq<nat>)
    ensures forall i :: 0 <= i < |v| ==> v[i] < 64
    ensures |v| % 4 != 1
  {
    if |bytes| == 0 then []
    else if |bytes| == 1 then Quad(bytes[0], 0, 0)[..2]
    else if |bytes| == 2 then Quad(bytes[0], bytes[1], 0)[..3]
    else
      var q, rest := Quad(bytes[0], bytes[1], bytes[2]), Sextets(bytes[3..]);
      assert forall i :: 0 <= i < |q + rest| ==> (q + rest)[i] < 64 by {
        forall i | 0 <= i < |q + rest|
          ensures (q + rest)[i] < 64
        {
          if i >= 4 {
            assert (q + rest)[i] == rest[i - 4];
          }
        }
      }
      q + rest
  }

  /** Unpadded base64 in the standard alphabet, as a JWT encoder produces it
      before switching to the URL alphabet. */
  function EncodeUnpadded(bytes: seq<Byte>): (s: string)
    ensures |s| == |Sextets(bytes)|
    ensures forall i :: 0 <= i < |s| ==> s[i] == DigitChar(Sextets(bytes)[i])
  {
    var v := Sextets(bytes);
    seq(|v|, i requires 0 <= i < |v| => DigitChar(v[i]))
  }

  /** Facts about every character of an encoding. */
  lemma EncodedDigits(bytes: seq<Byte>)
    ensures var s := EncodeUnpadded(bytes);
            && AllDigits(s) && |s| % 4 != 1
            && DigitValues(s) == Sextets(bytes)
            && forall i :: 0 <= i < |s| ==>
                 s[i] != '-' && s[i] != '_' && s[i] != '=' && s[i] != '.' && !IsAsciiWhitespace(s[i])
  {
    var s := EncodeUnpadded(bytes);
    var v := Sextets(bytes);
    forall i | 0 <= i < |s|
      ensures DigitValue(s[i]) == Some(v[i])
      ensures s[i] != '-' && s[i] != '_' && s[i] != '=' && s[i] != '.' && !IsAsciiWhitespace(s[i])
    {
      DigitRoundTrip(v[i]);
    }
  }

  /** Decoding a full group of four values and then the rest. */
  lemma DecodeGroup(g: seq<nat>, w: seq<nat>)
    requires |g| == 4 && forall i :: 0 <= i < 4 ==> g[i] < 64
    requires forall i :: 0 <= i < |w| ==> w[i] < 64
    requires |w| % 4 != 1
    ensures DecodeSextets(g + w) == Triple(g[0], g[1], g[2], g[3]) + DecodeSextets(w)
  {
    var v := g + w;
    assert |v| == |w| + 4 && |v| % 4 == |w| % 4;
    assert v[0] == g[0] && v[1] == g[1] && v[2] == g[2] && v[3] == g[3];
    assert v[4..] == w;
    assert forall i :: 0 <= i < |v| ==> v[i] < 64 by {
      forall i | 0 <= i < |v|
        ensures v[i] < 64
      {
        if i >= 4 {
          assert v[i] == w[i - 4];
        }
      }
    }
  }

  /** The bit arithmetic of one group: the four values of three bytes
      decode back to those bytes. */
  lemma GroupRoundTrip(b0: Byte, b1: Byte, b2: Byte)
    ensures var q := Quad(b0, b1, b2);
            Triple(q[0], q[1], q[2], q[3]) == [b0, b1, b2]
  {
    var q := Quad(b0, b1, b2);
    assert q[0] * 4 + q[1] / 16 == b0;
    assert (q[1] % 16) * 16 + q[2] / 4 == b1;
    assert (q[2] % 4) * 64 + q[3] == b2;
  }

  /** Decoding undoes encoding, group by group. */
  lemma {:induction false} DecodeSextetsOfSextets(bytes: seq<Byte>)
    ensures DecodeSextets(Sextets(bytes)) == bytes
  {
    if |bytes| >= 3 {
      var q, w := Quad(bytes[0], bytes[1], bytes[2]), Sextets(bytes[3..]);
      assert Sextets(bytes) == q + w;
      DecodeGroup(q, w);
      GroupRoundTrip(bytes[0], bytes[1], bytes[2]);
      DecodeSextetsOfSextets(bytes[3..]);
      assert bytes == [bytes[0], bytes[1], bytes[2]] + bytes[3..];
    } else if |bytes| == 2 {
      var q := Quad(bytes[0], bytes[1], 0);
      GroupRoundTrip(bytes[0], bytes[1], 0);
      assert q[3] == 0;
      assert DecodeSextets(Sextets(bytes)) == Triple(q[0], q[1], q[2], q[3])[..2];
    } else if |bytes| == 1 {
      var q := Quad(bytes[0], 0, 0);
      GroupRoundTrip(bytes[0], 0, 0);
      assert q[2] == 0 && q[3] == 0;
      assert DecodeSextets(Sextets(bytes)) == Triple(q[0], q[1], q[2], q[3])[..1];
    }
  }

  lemma {:induction false} RemoveWhitespaceIdentity(s: string)
    requires forall i :: 0 <= i < |s| ==> !IsAsciiWhitespace(s[i])
    ensures RemoveAsciiWhitespace(s) == s
  {
    if s != [] {
      RemoveWhitespaceIdentity(s[1..]);
    }
  }

  /** A string of digits with no padding, no whitespace and a length
      `atob` accepts decodes as its digits' values. */
  lemma AtobOfDigits(s: string)
    requires AllDigits(s) && |s| % 4 != 1
    requires forall i :: 0 <= i < |s| ==> s[i] != '=' && !IsAsciiWhitespace(s[i])
    ensures Atob(s) == Some(DecodeSextets(DigitValues(s)))
  {
    RemoveWhitespaceIdentity(s);
    if |s| >= 2 {
      assert s[|s| - 2..][1] == s[|s| - 1];
    }
  }

  /** `atob` recovers the bytes of any unpadded encoding. */
  lemma AtobEncode(bytes: seq<Byte>)
    ensures Atob(EncodeUnpadded(bytes)) == Some(bytes)
  {
    var s := EncodeUnpadded(bytes);
    EncodedDigits(bytes);
    AtobOfDigits(s);
    DecodeSextetsOfSextets(bytes);
  }

  /** The two lower-case hexadecimal digits `toString(16)` gives after
      `('00' + h).slice(-2)`. */
  function Hex2(b: Byte): (s: string)
    ensures |s| == 2
  {
    [HexChar(b / 16), HexChar(b % 16)]
  }

  function HexChar(n: nat): char
    requires n < 16
  {
    if n < 10 then ('0' as int + n) as char else ('a' as int + n - 10) as char
  }

  lemma HexRoundTrip(n: nat)
    requires n < 16
    ensures HexValue(HexChar(n)) == Some(n)
  {
  }

  function HexValue(c: char): Option<nat> {
    if '0' <= c <= '9' then Some(c as int - '0' as int)
    else if 'a' <= c <= 'f' then Some(c as int - 'a' as int + 10)
    else if 'A' <= c <= 'F' then Some(c as int - 'A' as int + 10)
    else None
  }

  /** `.split('').map(c => '%' + hex).join('')` */
  function PercentEncode(bytes: seq<Byte>): (s: string)
    ensures |s| == 3 * |bytes|
  {
    if bytes == [] then [] else "%" + Hex2(bytes[0]) + PercentEncode(bytes[1..])
  }

  /** The octets of a string made only of `%xx` escapes, which is every
      string `decodeJWT` gives `decodeURIComponent`. */
  function PercentDecode(s: string): Option<seq<Byte>> {
    if s == [] then Some([])
    else if |s| >= 3 && s[0] == '%' && HexValue(s[1]).Some? && HexValue(s[2]).Some? then
      match PercentDecode(s[3..])
      case Some(rest) => Some([HexValue(s[1]).value * 16 + HexValue(s[2]).value] + rest)
      case None => None
    else None
  }

  lemma {:induction false} PercentRoundTrip(bytes: seq<Byte>)
    ensures PercentDecode(PercentEncode(bytes)) == Some(bytes)
  {
    if bytes != [] {
      PercentRoundTrip(bytes[1..]);
      var s := PercentEncode(bytes);
      assert s == "%" + Hex2(bytes[0]) + PercentEncode(bytes[1..]);
      assert s[3..] == PercentEncode(bytes[1..]);
      HexRoundTrip(bytes[0] / 16);
      HexRoundTrip(bytes[0] % 16);
      assert s[0] == '%' && s[1] == HexChar(bytes[0] / 16) && s[2] == HexChar(bytes[0] % 16);
      assert HexValue(s[1]).value * 16 + HexValue(s[2]).value == bytes[0];
      assert PercentDecode(s) == Some([bytes[0]] + bytes[1..]);
      assert [bytes[0]] + bytes[1..] == bytes;
    }
  }

  /** `decodeURIComponent` on such a string: the escaped octets, decoded as
      UTF-8; `None` is the `URIError` for a malformed sequence. */
  function DecodeUriComponent(s: string, utf8: seq<Byte> -> Option<string>): Option<string> {
    match PercentDecode(s)
    case Some(octets) => utf8(octets)
    case None => None
  }

  /** `decodeJWT(token)`. `hasWindow` says whether the global `window`
      exists: on the server it does not, so reading it throws and the
      function returns `null` for every token. */
  function DecodeJWT(token: string, hasWindow: bool, utf8: seq<Byte> -> Option<string>,
                     parse: string -> Option<Value>): (r: Value)
    ensures token == "" || '.' !in token || !hasWindow ==> r == Null
  {
    if token == "" then Null
    else match SecondSegment(token)
      case None => Null
      case Some(base64Url) =>
        var base64 := ToStandardAlphabet(base64Url);
        if !hasWindow then Null
        else match Atob(base64)
          case None => Null
          case Some(bytes) =>
            match DecodeUriComponent(PercentEncode(bytes), utf8)
            case None => Null
            case Some(jsonPayload) =>
              match parse(jsonPayload)
              case None => Null
              case Some(decoded) => decoded
  }

  /** What `decodeJWT` reads from a well-formed compact JWT whose payload
      segment is the base64url encoding of `payload`: exactly the parse of
      the payload's UTF-8 text, or `null` when that text or its parse fails. */
  lemma DecodeJwtRecoversPayload(header: string, payload: seq<Byte>, signature: string,
                                 utf8: seq<Byte> -> Option<string>, parse: string -> Option<Value>)
    requires '.' !in header
    ensures DecodeJWT(header + "." + ToUrlAlphabet(EncodeUnpadded(payload)) + "." + signature, true, utf8, parse)
            == match utf8(payload)
               case None => Null
               case Some(text) => parse(text).GetOr(Null)
  {
    var std := EncodeUnpadded(payload);
    var url := ToUrlAlphabet(std);
    EncodedDigits(payload);
    assert '.' !in url by {
      forall i | 0 <= i < |url|
        ensures url[i] != '.'
      {
        assert url[i] == UrlChar(std[i]);
      }
    }
    SecondSegmentOfJwt(header, url, signature);
    AlphabetRoundTrip(std);
    AtobEncode(payload);
    PercentRoundTrip(payload);
  }
}
