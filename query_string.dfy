/**
 * The PHP built-ins the adapter uses to put a query on the wire:
 * `implode`, `rawurlencode` (section 2.1 and section 2.3 of RFC 3986) and
 * `http_build_query` with `PHP_QUERY_RFC3986`, each with a partial inverse
 * that shows the encoding loses nothing.
 */
module QueryString {
  import opened Wrappers

  /** A PHP string is a sequence of bytes: here each character below U+0100 stands for one byte. */
  predicate IsByteString(s: string) {
    forall i | 0 <= i < |s| :: s[i] as int < 256
  }

  type ByteString = s: string | IsByteString(s)

  /** The unreserved characters of section 2.3 of RFC 3986, which `rawurlencode` leaves as they are. */
  predicate Unreserved(c: char) {
    || 'A' <= c <= 'Z'
    || 'a' <= c <= 'z'
    || '0' <= c <= '9'
    || c == '-' || c == '_' || c == '.' || c == '~'
  }

  /** A character that can appear in an encoded component: unreserved, or the `%` of a percent-encoded octet. */
  predicate UrlSafe(c: char) {
    Unreserved(c) || c == '%'
  }

  /** Upper-case hexadecimal digit, as `rawurlencode` writes it. */
  function HexDigit(n: nat): (c: char)
    requires n < 16
    ensures Unreserved(c)
    ensures HexValue(c) == Some(n)
  {
    if n < 10 then ('0' as int + n) as char else ('A' as int + n - 10) as char
  }

  /** The value of a hexadecimal digit of either case (section 2.1 of RFC 3986). */
  function HexValue(c: char): Option<nat> {
    if '0' <= c <= '9' then Some(c as int - '0' as int)
    else if 'A' <= c <= 'F' then Some(c as int - 'A' as int + 10)
    else if 'a' <= c <= 'f' then Some(c as int - 'a' as int + 10)
    else None
  }

  /** One byte as `rawurlencode` writes it: itself if unreserved, otherwise `%` and two upper-case hex digits. */
  function EncodeByte(c: char): (r: string)
    requires c as int < 256
    ensures forall i | 0 <= i < |r| :: UrlSafe(r[i])
    ensures Unreserved(c) ==> r == [c]
    ensures !Unreserved(c) ==> |r| == 3 && r[0] == '%'
  {
    if Unreserved(c) then [c] else ['%', HexDigit(c as int / 16), HexDigit(c as int % 16)]
  }

  /** PHP's `rawurlencode`: every byte outside the unreserved set becomes a percent-encoded octet. */
  function PercentEncode(s: ByteString): (r: string)
    ensures forall i | 0 <= i < |r| :: UrlSafe(r[i])
    ensures |r| >= |s|
  {
    if s == [] then [] else EncodeByte(s[0]) + PercentEncode(s[1..])
  }

  /** Strict percent-decoding: unreserved characters stand for themselves, `%XY` for the byte 0xXY, anything else fails. */
  function PercentDecode(t: string): (r: Option<string>)
    decreases |t|
  {
    if t == [] then Some([])
    else if t[0] == '%' then
      if |t| >= 3 && HexValue(t[1]).Some? && HexValue(t[2]).Some? && HexValue(t[1]).value < 16 && HexValue(t[2]).value < 16 then
        match PercentDecode(t[3..])
        case None => None
        case Some(rest) => Some([(HexValue(t[1]).value * 16 + HexValue(t[2]).value) as char] + rest)
      else None
    else if Unreserved(t[0]) then
      match PercentDecode(t[1..])
      case None => None
      case Some(rest) => Some([t[0]] + rest)
    else None
  }

  lemma DecodeEncodedByte(c: char, rest: string)
    requires c as int < 256
    ensures PercentDecode(EncodeByte(c) + rest) ==
              match PercentDecode(rest)
              case None => None
              case Some(r) => Some([c] + r)
  {
    var t := EncodeByte(c) + rest;
    if Unreserved(c) {
      assert t[0] == c && t[1..] == rest;
    } else {
      var hi, lo := c as int / 16, c as int % 16;
      assert t[0] == '%' && t[1] == HexDigit(hi) && t[2] == HexDigit(lo) && t[3..] == rest;
      assert (hi * 16 + lo) as char == c;
    }
  }

  /** Decoding undoes `rawurlencode`: distinct byte strings have distinct encodings. */
  lemma {:induction false} DecodeEncode(s: ByteString)
    ensures PercentDecode(PercentEncode(s)) == Some(s)
  {
    if s != [] {
      DecodeEncode(s[1..]);
      DecodeEncodedByte(s[0], PercentEncode(s[1..]));
      assert [s[0]] + s[1..] == s;
    }
  }

  lemma PercentEncodeInjective(s: ByteString, t: ByteString)
    requires PercentEncode(s) == PercentEncode(t)
    ensures s == t
  {
    DecodeEncode(s);
    DecodeEncode(t);
  }

  /** PHP's `implode(sep, parts)`. */
  function Join(parts: seq<string>, sep: char): (r: string)
    ensures (forall k | 0 <= k < |parts| :: IsByteString(parts[k])) && sep as int < 256 ==> IsByteString(r)
  {
    if |parts| == 0 then ""
    else if |parts| == 1 then parts[0]
    else parts[0] + [sep] + Join(parts[1..], sep)
  }

  /** Cutting a string at every `sep`; always at least one piece. */
  function Split(s: string, sep: char): (r: seq<string>)
    ensures |r| >= 1
  {
    if s == [] then [""]
    else
      var rest := Split(s[1..], sep);
      if s[0] == sep then [""] + rest else [[s[0]] + rest[0]] + rest[1..]
  }

  lemma {:induction false} SplitPrefix(a: string, b: string, sep: char)
    requires sep !in a
    ensures Split(a + [sep] + b, sep) == [a] + Split(b, sep)
  {
    if a != [] {
      SplitPrefix(a[1..], b, sep);
      assert (a + [sep] + b)[1..] == a[1..] + [sep] + b;
      assert [a[0]] + a[1..] == a;
    } else {
      assert (a + [sep] + b)[1..] == b;
    }
  }

  lemma {:induction false} SplitNoSep(a: string, sep: char)
    requires sep !in a
    ensures Split(a, sep) == [a]
  {
    if a != [] {
      SplitNoSep(a[1..], sep);
      assert [a[0]] + a[1..] == a;
    }
  }

  /** `Split` undoes `Join` when no part contains the separator. */
  lemma {:induction false} SplitJoin(parts: seq<string>, sep: char)
    requires |parts| >= 1
    requires forall k | 0 <= k < |parts| :: sep !in parts[k]
    ensures Split(Join(parts, sep), sep) == parts
  {
    if |parts| == 1 {
      SplitNoSep(parts[0], sep);
    } else {
      SplitJoin(parts[1..], sep);
      SplitPrefix(parts[0], Join(parts[1..], sep), sep);
      assert [parts[0]] + parts[1..] == parts;
    }
  }

  /** An ordered PHP array of query parameters; `None` is a parameter whose value is `null`. */
  type Query = seq<(ByteString, Option<ByteString>)>

  /** The parameters `http_build_query` keeps: those whose value is not `null`, in order. */
  function Present(q: Query): (r: seq<(ByteString, ByteString)>)
    ensures |r| <= |q|
  {
    if q == [] then []
    else if q[0].1.None? then Present(q[1..])
    else [(q[0].0, q[0].1.value)] + Present(q[1..])
  }

  function EncodePair(p: (ByteString, ByteString)): string {
    PercentEncode(p.0) + "=" + PercentEncode(p.1)
  }

  function EncodePairs(ps: seq<(ByteString, ByteString)>): (r: seq<string>)
    ensures |r| == |ps|
    ensures forall k | 0 <= k < |r| :: r[k] == EncodePair(ps[k])
  {
    if ps == [] then [] else [EncodePair(ps[0])] + EncodePairs(ps[1..])
  }

  /** PHP's `http_build_query($query, encoding_type: PHP_QUERY_RFC3986)` with the default `&` separator. */
  function BuildQuery(q: Query): (r: string)
    ensures '?' !in r
  {
    var pieces := EncodePairs(Present(q));
    JoinAvoids(pieces, '&', '?');
    Join(pieces, '&')
  }

  lemma {:induction false} JoinAvoids(parts: seq<string>, sep: char, c: char)
    requires c != sep
    requires forall k | 0 <= k < |parts| :: c !in parts[k]
    ensures c !in Join(parts, sep)
  {
    if |parts| > 1 {
      JoinAvoids(parts[1..], sep, c);
    }
  }

  function DecodePair(piece: string): Option<(string, string)> {
    var kv := Split(piece, '=');
    if |kv| != 2 then None
    else match (PercentDecode(kv[0]), PercentDecode(kv[1]))
      case (Some(k), Some(v)) => Some((k, v))
      case _ => None
  }

  function DecodePairs(pieces: seq<string>): Option<seq<(string, string)>> {
    if pieces == [] then Some([])
    else match (DecodePair(pieces[0]), DecodePairs(pieces[1..]))
      case (Some(p), Some(ps)) => Some([p] + ps)
      case _ => None
  }

  /** Reads a query string back into its parameters; the empty string holds none. */
  function ParseQuery(s: string): Option<seq<(string, string)>> {
    if s == "" then Some([]) else DecodePairs(Split(s, '&'))
  }

  lemma NoSeparatorInEncoding(s: ByteString, c: char)
    requires !UrlSafe(c)
    ensures c !in PercentEncode(s)
  {
  }

  lemma DecodeEncodedPair(p: (ByteString, ByteString))
    ensures DecodePair(EncodePair(p)) == Some((p.0, p.1))
  {
    var k, v := PercentEncode(p.0), PercentEncode(p.1);
    NoSeparatorInEncoding(p.0, '=');
    NoSeparatorInEncoding(p.1, '=');
    SplitPrefix(k, v, '=');
    SplitNoSep(v, '=');
    assert EncodePair(p) == k + ['='] + v;
    DecodeEncode(p.0);
    DecodeEncode(p.1);
  }

  lemma {:induction false} DecodeEncodedPairs(ps: seq<(ByteString, ByteString)>)
    ensures DecodePairs(EncodePairs(ps)) == Some(ps)
  {
    if ps != [] {
      DecodeEncodedPair(ps[0]);
      DecodeEncodedPairs(ps[1..]);
      assert EncodePairs(ps)[1..] == EncodePairs(ps[1..]);
      assert [ps[0]] + ps[1..] == ps;
    }
  }

  /** `http_build_query` loses nothing: the query string gives back exactly the non-null parameters, in order. */
  lemma ParseBuildQuery(q: Query)
    ensures ParseQuery(BuildQuery(q)) == Some(Present(q))
  {
    var ps := Present(q);
    var pieces := EncodePairs(ps);
    if ps == [] {
    } else {
      forall k | 0 <= k < |pieces| ensures '&' !in pieces[k] {
        NoSeparatorInEncoding(ps[k].0, '&');
        NoSeparatorInEncoding(ps[k].1, '&');
      }
      assert '=' in pieces[0] by { assert pieces[0][|PercentEncode(ps[0].0)|] == '='; }
      SplitJoin(pieces, '&');
      DecodeEncodedPairs(ps);
    }
  }

  lemma {:induction false} PresentAppend(q1: Query, q2: Query)
    ensures Present(q1 + q2) == Present(q1) + Present(q2)
  {
    if q1 != [] {
      PresentAppend(q1[1..], q2);
      var q := q1 + q2;
      assert q[0] == q1[0] && q[1..] == q1[1..] + q2;
      if q1[0].1.Some? {
        var p := (q1[0].0, q1[0].1.value);
        calc {
          Present(q);
          [p] + Present(q[1..]);
          [p] + (Present(q1[1..]) + Present(q2));
          ([p] + Present(q1[1..])) + Present(q2);
          Present(q1) + Present(q2);
        }
      }
    } else {
      assert q1 + q2 == q2;
    }
  }
}
