/** `URLSearchParams` as the API client uses it: a list of name/value pairs
    serialized in the application/x-www-form-urlencoded format, and the
    matching parser, so that what a query string carries can be stated.

    Serialization keeps ASCII letters, digits and `*-._`, writes a space as
    `+`, and percent-encodes every UTF-8 byte of any other character with
    upper-case hex digits. Parsing splits on `&`, drops empty pieces, splits
    each piece at its first `=`, and turns `+` and `%XX` back into bytes;
    the last step of the parser (UTF-8 decoding of those bytes) is left as
    bytes here. */
module Query {
  import opened Common

  type Byte = b: int | 0 <= b < 256

  type Params = seq<(string, string)>

  // ---------------------------------------------------------------------
  // UTF-8

  /** The UTF-8 encoding of one Unicode scalar value. */
  function Utf8(c: char): (bs: seq<Byte>)
    ensures 1 <= |bs| <= 4
  {
    var n := c as int;
    if n < 0x80 then [n]
    else if n < 0x800 then [0xC0 + n / 64, 0x80 + n % 64]
    else if n < 0x10000 then [0xE0 + n / 4096, 0x80 + (n / 64) % 64, 0x80 + n % 64]
    else [0xF0 + n / 262144, 0x80 + (n / 4096) % 64, 0x80 + (n / 64) % 64, 0x80 + n % 64]
  }

  function Utf8String(s: string): seq<Byte>
    decreases |s|
  {
    if s == [] then [] else Utf8(s[0]) + Utf8String(s[1..])
  }

  // ---------------------------------------------------------------------
  // Serializing

  /** The characters the form encoding leaves as they are. */
  predicate Unreserved(c: char) {
    ('a' <= c <= 'z') || ('A' <= c <= 'Z') || ('0' <= c <= '9') ||
    c == '*' || c == '-' || c == '.' || c == '_'
  }

  function HexDigit(d: nat): char
    requires d < 16
  {
    "0123456789ABCDEF"[d]
  }

  function PercentBytes(bs: seq<Byte>): (r: string)
    ensures |r| == 3 * |bs|
    decreases |bs|
  {
    if bs == [] then []
    else ['%', HexDigit(bs[0] / 16), HexDigit(bs[0] % 16)] + PercentBytes(bs[1..])
  }

  function EncodeChar(c: char): string {
    if c == ' ' then "+"
    else if Unreserved(c) then [c]
    else PercentBytes(Utf8(c))
  }

  /** The form encoding of one name or value. */
  function FormEncode(s: string): string
    decreases |s|
  {
    if s == [] then [] else EncodeChar(s[0]) + FormEncode(s[1..])
  }

  function PairText(p: (string, string)): string {
    FormEncode(p.0) + "=" + FormEncode(p.1)
  }

  /** `params.toString()`: the encoded pairs joined by `&`. */
  function Serialize(ps: Params): string
    decreases |ps|
  {
    if ps == [] then ""
    else if |ps| == 1 then PairText(ps[0])
    else PairText(ps[0]) + "&" + Serialize(ps[1..])
  }

  /** The names of the pairs, in order. */
  function Names(ps: Params): seq<string> {
    seq(|ps|, i requires 0 <= i < |ps| => ps[i].0)
  }

  // ---------------------------------------------------------------------
  // Parsing

  predicate IsHex(c: char) {
    ('0' <= c <= '9') || ('A' <= c <= 'F') || ('a' <= c <= 'f')
  }

  function HexValue(c: char): (v: nat)
    requires IsHex(c)
    ensures v < 16
  {
    if '0' <= c <= '9' then c as int - '0' as int
    else if 'A' <= c <= 'F' then c as int - 'A' as int + 10
    else c as int - 'a' as int + 10
  }

  /** `+` becomes a space byte, a well-formed `%XX` becomes its byte, and
      any other character (a stray `%` included) stands for its own UTF-8
      bytes. */
  function FormDecode(s: string): seq<Byte>
    decreases |s|
  {
    if s == [] then []
    else if s[0] == '+' then [0x20] + FormDecode(s[1..])
    else if s[0] == '%' && |s| >= 3 && IsHex(s[1]) && IsHex(s[2]) then
      [16 * HexValue(s[1]) + HexValue(s[2])] + FormDecode(s[3..])
    else Utf8(s[0]) + FormDecode(s[1..])
  }

  /** The pieces of `s` between occurrences of `sep`. */
  function Split(s: string, sep: char): (r: seq<string>)
    ensures |r| >= 1
    decreases |s|
  {
    if s == [] then [""]
    else if s[0] == sep then [""] + Split(s[1..], sep)
    else var rest := Split(s[1..], sep); [[s[0]] + rest[0]] + rest[1..]
  }

  /** A piece split at its first `=`; without one, the value is empty. */
  function SplitPair(piece: string): (string, string)
    decreases |piece|
  {
    if piece == [] then ("", "")
    else if piece[0] == '=' then ("", piece[1..])
    else var (n, v) := SplitPair(piece[1..]); ([piece[0]] + n, v)
  }

  function NonEmpty(pieces: seq<string>): seq<string>
    decreases |pieces|
  {
    if pieces == [] then []
    else if pieces[0] == "" then NonEmpty(pieces[1..])
    else [pieces[0]] + NonEmpty(pieces[1..])
  }

  function DecodePieces(pieces: seq<string>): seq<(seq<Byte>, seq<Byte>)>
    decreases |pieces|
  {
    if pieces == [] then []
    else
      var (n, v) := SplitPair(pieces[0]);
      [(FormDecode(n), FormDecode(v))] + DecodePieces(pieces[1..])
  }

  /** The pairs a query string carries, names and values as bytes. */
  function Parse(query: string): seq<(seq<Byte>, seq<Byte>)> {
    DecodePieces(NonEmpty(Split(query, '&')))
  }

  /** What `ps` should read as after a round trip. */
  function AsBytes(ps: Params): (r: seq<(seq<Byte>, seq<Byte>)>)
    ensures |r| == |ps|
    decreases |ps|
  {
    if ps == [] then [] else [(Utf8String(ps[0].0), Utf8String(ps[0].1))] + AsBytes(ps[1..])
  }

  // ---------------------------------------------------------------------
  // Round trip

  lemma HexRoundTrip(d: nat)
    requires d < 16
    ensures IsHex(HexDigit(d)) && HexValue(HexDigit(d)) == d
  {
  }

  /** One percent-encoded byte decodes to that byte. */
  lemma DecodeOneByte(b: Byte, tail: string)
    ensures FormDecode(['%', HexDigit(b / 16), HexDigit(b % 16)] + tail) == [b] + FormDecode(tail)
  {
    HexRoundTrip(b / 16);
    HexRoundTrip(b % 16);
    var s := ['%', HexDigit(b / 16), HexDigit(b % 16)] + tail;
    assert s[0] == '%' && s[1] == HexDigit(b / 16) && s[2] == HexDigit(b % 16);
    assert s[3..] == tail;
  }

  lemma {:induction false} DecodePercentBytes(bs: seq<Byte>, rest: string)
    ensures FormDecode(PercentBytes(bs) + rest) == bs + FormDecode(rest)
    decreases |bs|
  {
    if bs != [] {
      var b := bs[0];
      var tail := PercentBytes(bs[1..]) + rest;
      calc {
        FormDecode(PercentBytes(bs) + rest);
      == { assert PercentBytes(bs) + rest == ['%', HexDigit(b / 16), HexDigit(b % 16)] + tail; }
        FormDecode(['%', HexDigit(b / 16), HexDigit(b % 16)] + tail);
      == { DecodeOneByte(b, tail); }
        [b] + FormDecode(tail);
      == { DecodePercentBytes(bs[1..], rest); }
        [b] + (bs[1..] + FormDecode(rest));
      == { assert bs == [b] + bs[1..]; }
        bs + FormDecode(rest);
      }
    } else {
      assert PercentBytes(bs) + rest == rest;
    }
  }

  lemma DecodeEncodeChar(c: char, rest: string)
    ensures FormDecode(EncodeChar(c) + rest) == Utf8(c) + FormDecode(rest)
  {
    if c == ' ' {
      assert ("+" + rest)[1..] == rest;
    } else if Unreserved(c) {
      assert ([c] + rest)[1..] == rest;
    } else {
      DecodePercentBytes(Utf8(c), rest);
    }
  }

  /** Decoding the form encoding of a string gives the string's UTF-8 bytes. */
  lemma {:induction false} DecodeEncode(s: string)
    ensures FormDecode(FormEncode(s)) == Utf8String(s)
    decreases |s|
  {
    if s != [] {
      DecodeEncodeChar(s[0], FormEncode(s[1..]));
      DecodeEncode(s[1..]);
    }
  }

  lemma PercentBytesPlain(bs: seq<Byte>)
    ensures forall i :: 0 <= i < |PercentBytes(bs)| ==> PercentBytes(bs)[i] != '&' && PercentBytes(bs)[i] != '='
    decreases |bs|
  {
    if bs != [] {
      PercentBytesPlain(bs[1..]);
      var r := PercentBytes(bs);
      assert r == ['%', HexDigit(bs[0] / 16), HexDigit(bs[0] % 16)] + PercentBytes(bs[1..]);
    }
  }

  /** The form encoding never produces the separators `&` and `=`. */
  lemma {:induction false} EncodedIsPlain(s: string)
    ensures forall i :: 0 <= i < |FormEncode(s)| ==> FormEncode(s)[i] != '&' && FormEncode(s)[i] != '='
    decreases |s|
  {
    if s != [] {
      EncodedIsPlain(s[1..]);
      PercentBytesPlain(Utf8(s[0]));
      var e := EncodeChar(s[0]);
      assert forall i :: 0 <= i < |e| ==> e[i] != '&' && e[i] != '=';
    }
  }

  lemma {:induction false} SplitPairAtFirst(n: string, v: string)
    requires forall i :: 0 <= i < |n| ==> n[i] != '='
    ensures SplitPair(n + "=" + v) == (n, v)
    decreases |n|
  {
    if n == [] {
      assert n + "=" + v == ['='] + v;
    } else {
      assert (n + "=" + v)[1..] == n[1..] + "=" + v;
      assert (n + "=" + v)[0] == n[0];
      SplitPairAtFirst(n[1..], v);
      assert [n[0]] + n[1..] == n;
    }
  }

  lemma {:induction false} SplitPlain(a: string, b: string)
    requires forall i :: 0 <= i < |a| ==> a[i] != '&'
    ensures Split(a + "&" + b, '&') == [a] + Split(b, '&')
    decreases |a|
  {
    if a == [] {
      assert a + "&" + b == ['&'] + b;
    } else {
      assert (a + "&" + b)[1..] == a[1..] + "&" + b;
      assert (a + "&" + b)[0] == a[0];
      SplitPlain(a[1..], b);
      assert [a[0]] + a[1..] == a;
    }
  }

  lemma {:induction false} SplitWhole(a: string)
    requires forall i :: 0 <= i < |a| ==> a[i] != '&'
    ensures Split(a, '&') == [a]
    decreases |a|
  {
    if a != [] {
      SplitWhole(a[1..]);
      assert [a[0]] + a[1..] == a;
    }
  }

  /** Splitting gives one more piece than there are separators. */
  lemma {:induction false} SplitCount(s: string, sep: char)
    ensures |Split(s, sep)| == 1 + multiset(s)[sep]
    decreases |s|
  {
    if s != [] {
      SplitCount(s[1..], sep);
      assert s == [s[0]] + s[1..];
    }
  }

  lemma PairTextPlain(p: (string, string))
    ensures forall i :: 0 <= i < |PairText(p)| ==> PairText(p)[i] != '&'
    ensures PairText(p) != ""
    ensures SplitPair(PairText(p)) == (FormEncode(p.0), FormEncode(p.1))
  {
    EncodedIsPlain(p.0);
    EncodedIsPlain(p.1);
    SplitPairAtFirst(FormEncode(p.0), FormEncode(p.1));
    assert |PairText(p)| == |FormEncode(p.0)| + 1 + |FormEncode(p.1)|;
  }

  /** The serialized query splits into exactly the encoded pairs. */
  lemma {:induction false} SplitSerialize(ps: Params)
    requires ps != []
    ensures Split(Serialize(ps), '&') == seq(|ps|, i requires 0 <= i < |ps| => PairText(ps[i]))
    decreases |ps|
  {
    PairTextPlain(ps[0]);
    if |ps| == 1 {
      SplitWhole(PairText(ps[0]));
    } else {
      SplitPlain(PairText(ps[0]), Serialize(ps[1..]));
      SplitSerialize(ps[1..]);
    }
  }

  lemma {:induction false} DecodeEncodedPieces(ps: Params)
    ensures NonEmpty(seq(|ps|, i requires 0 <= i < |ps| => PairText(ps[i]))) ==
            seq(|ps|, i requires 0 <= i < |ps| => PairText(ps[i]))
    ensures DecodePieces(seq(|ps|, i requires 0 <= i < |ps| => PairText(ps[i]))) == AsBytes(ps)
    decreases |ps|
  {
    if ps != [] {
      var pieces := seq(|ps|, i requires 0 <= i < |ps| => PairText(ps[i]));
      var tail := seq(|ps| - 1, i requires 0 <= i < |ps| - 1 => PairText(ps[1..][i]));
      assert pieces[1..] == tail;
      PairTextPlain(ps[0]);
      DecodeEncode(ps[0].0);
      DecodeEncode(ps[0].1);
      DecodeEncodedPieces(ps[1..]);
    }
  }

  /** Parsing a serialized parameter list gives back its pairs, in order,
      with names and values as their UTF-8 bytes. */
  lemma ParseSerialize(ps: Params)
    ensures Parse(Serialize(ps)) == AsBytes(ps)
  {
    if ps != [] {
      SplitSerialize(ps);
      DecodeEncodedPieces(ps);
    }
  }
}
