/**
  The `application/x-www-form-urlencoded` serializer that `URLSearchParams.toString()`
  runs (section 5.2 of the WHATWG URL Standard): every name and value is UTF-8
  encoded (RFC 3629), each byte outside ASCII alphanumerics and `*-._` is written
  `%XX` with upper-case hex digits, a space becomes `+`, and the tuples are written
  `name=value` separated by `&`.

  The parser of section 5.1 of the same standard is given beside it as the
  serializer's inverse, and `ParseSerialize` proves that the serialized query
  string gives back exactly the pairs it was built from.
*/
module FormUrlEncoded {
  import opened Wrappers

  newtype byte = x: int | 0 <= x < 256

  /** A name-value tuple of a URLSearchParams list. */
  type Pair = (string, string)

  // ---------------------------------------------------------------------------
  // UTF-8

  /** The UTF-8 encoding of one scalar value, one to four bytes. */
  function EncodeChar(c: char): (bs: seq<byte>)
    ensures 1 <= |bs| <= 4
    ensures (c as int < 0x80) == (|bs| == 1)
    ensures |bs| == 1 ==> bs[0] as int == c as int
  {
    var cp := c as int;
    var q1, r1 := cp / 64, cp % 64;
    var q2, r2 := q1 / 64, q1 % 64;
    var q3, r3 := q2 / 64, q2 % 64;
    if cp < 0x80 then [cp as byte]
    else if cp < 0x800 then [(0xC0 + q1) as byte, (0x80 + r1) as byte]
    else if cp < 0x10000 then [(0xE0 + q2) as byte, (0x80 + r2) as byte, (0x80 + r1) as byte]
    else [(0xF0 + q3) as byte, (0x80 + r3) as byte, (0x80 + r2) as byte, (0x80 + r1) as byte]
  }

  function Utf8Encode(s: string): seq<byte>
  {
    if s == [] then [] else EncodeChar(s[0]) + Utf8Encode(s[1..])
  }

  predicate IsContinuation(b: byte) {
    0x80 <= b < 0xC0
  }

  /** Decodes the first scalar value of `bs`, with the number of bytes it takes;
      `None` for an ill-formed, overlong or surrogate sequence. */
  function DecodeFirst(bs: seq<byte>): (r: Option<(char, nat)>)
    requires |bs| > 0
    ensures r.Some? ==> 1 <= r.value.1 <= |bs|
  {
    var b0 := bs[0] as int;
    if b0 < 0x80 then
      Some((b0 as char, 1))
    else if 0xC2 <= b0 < 0xE0 && |bs| >= 2 && IsContinuation(bs[1]) then
      var cp := (b0 - 0xC0) * 64 + (bs[1] as int - 0x80);
      Some((cp as char, 2))
    else if 0xE0 <= b0 < 0xF0 && |bs| >= 3 && IsContinuation(bs[1]) && IsContinuation(bs[2]) then
      var cp := ((b0 - 0xE0) * 64 + (bs[1] as int - 0x80)) * 64 + (bs[2] as int - 0x80);
      if 0x800 <= cp && !(0xD800 <= cp < 0xE000) then Some((cp as char, 3)) else None
    else if 0xF0 <= b0 < 0xF5 && |bs| >= 4
            && IsContinuation(bs[1]) && IsContinuation(bs[2]) && IsContinuation(bs[3]) then
      var cp := (((b0 - 0xF0) * 64 + (bs[1] as int - 0x80)) * 64 + (bs[2] as int - 0x80)) * 64
                + (bs[3] as int - 0x80);
      if 0x10000 <= cp < 0x110000 then Some((cp as char, 4)) else None
    else
      None
  }

  function Utf8Decode(bs: seq<byte>): Option<string>
    decreases |bs|
  {
    if bs == [] then Some([])
    else
      match DecodeFirst(bs)
      case None => None
      case Some((c, n)) =>
        match Utf8Decode(bs[n..])
        case None => None
        case Some(s) => Some([c] + s)
  }

  lemma DecodeEncodeChar(c: char, rest: seq<byte>)
    ensures DecodeFirst(EncodeChar(c) + rest) == Some((c, |EncodeChar(c)|))
  {
    var bs := EncodeChar(c) + rest;
    var cp := c as int;
    var q1, r1 := cp / 64, cp % 64;
    var q2, r2 := q1 / 64, q1 % 64;
    var q3, r3 := q2 / 64, q2 % 64;
    assert cp == q1 * 64 + r1 && q1 == q2 * 64 + r2 && q2 == q3 * 64 + r3;
    if cp < 0x80 {
    } else if cp < 0x800 {
      assert bs[0] as int == 0xC0 + q1 && bs[1] as int == 0x80 + r1;
    } else if cp < 0x10000 {
      assert bs[0] as int == 0xE0 + q2 && bs[1] as int == 0x80 + r2 && bs[2] as int == 0x80 + r1;
      assert ((bs[0] as int - 0xE0) * 64 + (bs[1] as int - 0x80)) * 64 + (bs[2] as int - 0x80) == cp;
    } else {
      assert bs[0] as int == 0xF0 + q3 && bs[1] as int == 0x80 + r3;
      assert bs[2] as int == 0x80 + r2 && bs[3] as int == 0x80 + r1;
      assert (((bs[0] as int - 0xF0) * 64 + (bs[1] as int - 0x80)) * 64 + (bs[2] as int - 0x80)) * 64
             + (bs[3] as int - 0x80) == cp;
    }
  }

  /** UTF-8 decoding undoes UTF-8 encoding. */
  lemma {:induction false} Utf8RoundTrip(s: string)
    ensures Utf8Decode(Utf8Encode(s)) == Some(s)
  {
    if s != [] {
      var head, tail := EncodeChar(s[0]), Utf8Encode(s[1..]);
      DecodeEncodeChar(s[0], tail);
      assert (head + tail)[|head|..] == tail;
      Utf8RoundTrip(s[1..]);
      assert [s[0]] + s[1..] == s;
    }
  }

  // ---------------------------------------------------------------------------
  // Percent-encoding with the application/x-www-form-urlencoded percent-encode set

  /** The bytes the serializer writes as they are: ASCII alphanumerics and `*`, `-`, `.`, `_`. */
  predicate IsUnreserved(b: byte) {
    b == 0x2A || b == 0x2D || b == 0x2E || 0x30 <= b <= 0x39
    || 0x41 <= b <= 0x5A || b == 0x5F || 0x61 <= b <= 0x7A
  }

  predicate IsUnreservedChar(c: char) {
    c as int < 0x80 && IsUnreserved(c as int as byte)
  }

  /** The characters a serialized query can contain: neither `&` nor `=` nor `?` is among them. */
  predicate IsSerializedChar(c: char) {
    IsUnreservedChar(c) || c == '+' || c == '%'
  }

  function HexDigit(d: int): (c: char)
    requires 0 <= d < 16
    ensures IsUnreservedChar(c)
  {
    if d < 10 then ('0' as int + d) as char else ('A' as int + d - 10) as char
  }

  /** The value of an ASCII hex digit of either case, as percent-decoding reads it. */
  function HexValue(c: char): (r: Option<int>)
    ensures r.Some? ==> 0 <= r.value < 16
  {
    if '0' <= c <= '9' then Some(c as int - '0' as int)
    else if 'A' <= c <= 'F' then Some(c as int - 'A' as int + 10)
    else if 'a' <= c <= 'f' then Some(c as int - 'a' as int + 10)
    else None
  }

  lemma HexValueOfDigit(d: int)
    requires 0 <= d < 16
    ensures HexValue(HexDigit(d)) == Some(d)
  {
  }

  function EncodeByte(b: byte): (s: string)
    ensures forall i :: 0 <= i < |s| ==> IsSerializedChar(s[i])
  {
    if IsUnreserved(b) then [b as int as char]
    else if b == 0x20 then "+"
    else ['%', HexDigit(b as int / 16), HexDigit(b as int % 16)]
  }

  function PercentEncode(bs: seq<byte>): (s: string)
    ensures forall i :: 0 <= i < |s| ==> IsSerializedChar(s[i])
  {
    if bs == [] then [] else EncodeByte(bs[0]) + PercentEncode(bs[1..])
  }

  /** The encoding of one name or value. */
  function EncodeComponent(s: string): (r: string)
    ensures forall i :: 0 <= i < |r| ==> IsSerializedChar(r[i])
  {
    PercentEncode(Utf8Encode(s))
  }

  /** Replaces `+` by a space and decodes `%XX`; any other character stands for its UTF-8 bytes. */
  function PercentDecode(s: string): seq<byte>
    decreases |s|
  {
    if s == [] then []
    else if s[0] == '%' && |s| >= 3 && HexValue(s[1]).Some? && HexValue(s[2]).Some? then
      [(HexValue(s[1]).value * 16 + HexValue(s[2]).value) as byte] + PercentDecode(s[3..])
    else if s[0] == '+' then [0x20 as byte] + PercentDecode(s[1..])
    else EncodeChar(s[0]) + PercentDecode(s[1..])
  }

  function DecodeComponent(s: string): Option<string> {
    Utf8Decode(PercentDecode(s))
  }

  lemma PercentDecodeEncodeByte(b: byte, rest: string)
    ensures PercentDecode(EncodeByte(b) + rest) == [b] + PercentDecode(rest)
  {
    var s := EncodeByte(b) + rest;
    if IsUnreserved(b) {
      assert s[0] as int == b as int && s[1..] == rest;
    } else if b == 0x20 {
      assert s[0] == '+' && s[1..] == rest;
    } else {
      var hi, lo := b as int / 16, b as int % 16;
      HexValueOfDigit(hi);
      HexValueOfDigit(lo);
      assert s[0] == '%' && s[1] == HexDigit(hi) && s[2] == HexDigit(lo) && s[3..] == rest;
    }
  }

  /** Percent-decoding undoes percent-encoding, byte for byte. */
  lemma {:induction false} PercentRoundTrip(bs: seq<byte>)
    ensures PercentDecode(PercentEncode(bs)) == bs
  {
    if bs != [] {
      PercentDecodeEncodeByte(bs[0], PercentEncode(bs[1..]));
      PercentRoundTrip(bs[1..]);
      assert [bs[0]] + bs[1..] == bs;
    }
  }

  /** Every name and value is recovered from its encoding. */
  lemma ComponentRoundTrip(s: string)
    ensures DecodeComponent(EncodeComponent(s)) == Some(s)
  {
    PercentRoundTrip(Utf8Encode(s));
    Utf8RoundTrip(s);
  }

  /** A name or value made only of unreserved ASCII characters is written as it is. */
  lemma {:induction false} EncodeUnreservedIdentity(s: string)
    requires forall i :: 0 <= i < |s| ==> IsUnreservedChar(s[i])
    ensures EncodeComponent(s) == s
  {
    if s != [] {
      EncodeUnreservedIdentity(s[1..]);
      assert Utf8Encode(s) == EncodeChar(s[0]) + Utf8Encode(s[1..]);
      var b := EncodeChar(s[0]);
      assert |b| == 1 && b[0] as int == s[0] as int;
      assert (b + Utf8Encode(s[1..]))[1..] == Utf8Encode(s[1..]);
      assert [s[0]] + s[1..] == s;
    }
  }

  // ---------------------------------------------------------------------------
  // Serializing and parsing a list of pairs

  /** The characters of a serialized query: `&` and `=` are the only separators, and `?` and `#` never occur. */
  predicate IsQueryChar(c: char) {
    IsSerializedChar(c) || c == '=' || c == '&'
  }

  function PairText(p: Pair): (s: string)
    ensures '&' !in s && '=' in s
    ensures forall i :: 0 <= i < |s| ==> IsQueryChar(s[i])
  {
    var name, value := EncodeComponent(p.0), EncodeComponent(p.1);
    var s := name + "=" + value;
    assert s[|name|] == '=';
    assert forall i :: 0 <= i < |s| ==> IsSerializedChar(s[i]) || s[i] == '=' by {
      forall i | 0 <= i < |s| ensures IsSerializedChar(s[i]) || s[i] == '=' {
        if i < |name| {
          assert s[i] == name[i];
        } else if i > |name| {
          assert s[i] == value[i - |name| - 1];
        }
      }
    }
    s
  }

  /** `URLSearchParams.toString()`: the pairs in list order, `&` between them. */
  function Serialize(ps: seq<Pair>): (r: string)
    ensures (r == "") <==> (ps == [])
    ensures forall i :: 0 <= i < |r| ==> IsQueryChar(r[i])
  {
    if ps == [] then ""
    else if |ps| == 1 then PairText(ps[0])
    else PairText(ps[0]) + "&" + Serialize(ps[1..])
  }

  /** The pieces of `s` between occurrences of `sep`; the empty string is one empty piece. */
  function SplitOn(s: string, sep: char): (pieces: seq<string>)
    ensures |pieces| >= 1
    decreases |s|
  {
    if s == [] then [[]]
    else
      var rest := SplitOn(s[1..], sep);
      if s[0] == sep then [[]] + rest else [[s[0]] + rest[0]] + rest[1..]
  }

  /** Splits at the first `sep`; without one the whole string is the name and the value is empty. */
  function SplitFirst(s: string, sep: char): (string, string)
    decreases |s|
  {
    if s == [] then ([], [])
    else if s[0] == sep then ([], s[1..])
    else
      var (a, b) := SplitFirst(s[1..], sep);
      ([s[0]] + a, b)
  }

  function ParsePiece(piece: string): Option<Pair> {
    var (name, value) := SplitFirst(piece, '=');
    match (DecodeComponent(name), DecodeComponent(value))
    case (Some(n), Some(v)) => Some((n, v))
    case _ => None
  }

  /** Parses the pieces in order, skipping empty ones. */
  function ParsePieces(pieces: seq<string>): Option<seq<Pair>> {
    if pieces == [] then Some([])
    else
      match ParsePieces(pieces[1..])
      case None => None
      case Some(rest) =>
        if pieces[0] == "" then Some(rest)
        else
          match ParsePiece(pieces[0])
          case None => None
          case Some(p) => Some([p] + rest)
  }

  /** The application/x-www-form-urlencoded parser (section 5.1 of the WHATWG URL
      Standard); ill-formed UTF-8 is rejected here rather than replaced. */
  function Parse(q: string): Option<seq<Pair>> {
    ParsePieces(SplitOn(q, '&'))
  }

  lemma {:induction false} SplitOnWithout(x: string, sep: char)
    requires sep !in x
    ensures SplitOn(x, sep) == [x]
  {
    if x != [] {
      SplitOnWithout(x[1..], sep);
      assert [x[0]] + x[1..] == x;
    }
  }

  lemma {:induction false} SplitOnFirst(x: string, sep: char, y: string)
    requires sep !in x
    ensures SplitOn(x + [sep] + y, sep) == [x] + SplitOn(y, sep)
  {
    var s := x + [sep] + y;
    if x == [] {
      assert s[0] == sep && s[1..] == y;
    } else {
      assert s[0] == x[0] && s[1..] == x[1..] + [sep] + y;
      SplitOnFirst(x[1..], sep, y);
      assert [x[0]] + x[1..] == x;
    }
  }

  lemma {:induction false} SplitFirstAt(x: string, sep: char, y: string)
    requires sep !in x
    ensures SplitFirst(x + [sep] + y, sep) == (x, y)
  {
    var s := x + [sep] + y;
    if x == [] {
      assert s[0] == sep && s[1..] == y;
    } else {
      assert s[0] == x[0] && s[1..] == x[1..] + [sep] + y;
      SplitFirstAt(x[1..], sep, y);
      assert [x[0]] + x[1..] == x;
    }
  }

  lemma ParsePieceText(p: Pair)
    ensures ParsePiece(PairText(p)) == Some(p)
  {
    var name, value := EncodeComponent(p.0), EncodeComponent(p.1);
    assert '=' !in name by {
      forall i | 0 <= i < |name| ensures name[i] != '=' {
        assert IsSerializedChar(name[i]);
      }
    }
    assert PairText(p) == name + ['='] + value;
    SplitFirstAt(name, '=', value);
    ComponentRoundTrip(p.0);
    ComponentRoundTrip(p.1);
  }

  function PairTexts(ps: seq<Pair>): (texts: seq<string>)
    ensures |texts| == |ps|
  {
    if ps == [] then [] else [PairText(ps[0])] + PairTexts(ps[1..])
  }

  lemma {:induction false} SplitSerialize(ps: seq<Pair>)
    requires ps != []
    ensures SplitOn(Serialize(ps), '&') == PairTexts(ps)
  {
    if |ps| == 1 {
      SplitOnWithout(PairText(ps[0]), '&');
    } else {
      SplitOnFirst(PairText(ps[0]), '&', Serialize(ps[1..]));
      SplitSerialize(ps[1..]);
    }
  }

  lemma {:induction false} ParsePairTexts(ps: seq<Pair>)
    ensures ParsePieces(PairTexts(ps)) == Some(ps)
  {
    if ps != [] {
      var texts := PairTexts(ps);
      assert texts[1..] == PairTexts(ps[1..]);
      ParsePairTexts(ps[1..]);
      ParsePieceText(ps[0]);
      assert texts[0] == PairText(ps[0]) && texts[0] != "";
      assert [ps[0]] + ps[1..] == ps;
    }
  }

  /** The parser gives back exactly the serialized pairs, in order, duplicates and all. */
  lemma ParseSerialize(ps: seq<Pair>)
    ensures Parse(Serialize(ps)) == Some(ps)
  {
    if ps == [] {
      assert SplitOn("", '&') == [""];
    } else {
      SplitSerialize(ps);
      ParsePairTexts(ps);
    }
  }
}
