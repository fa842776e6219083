/**
 * Base 64 with the standard alphabet of section 4 of RFC 4648 and no padding
 * (section 3.2 of RFC 4648 allows omitting it), as Go's `base64.RawStdEncoding`.
 *
 * Decoding follows Go's default, non-strict decoder: carriage returns and line feeds
 * are skipped, any other character outside the alphabet (the pad character '=' included)
 * is an error, a final group of a single character is an error, and the unused low bits
 * of a final group of two or three characters are ignored.
 */
module Base64 {
  import opened Outcomes

  type byte = x: int | 0 <= x < 256
  type sextet = x: int | 0 <= x < 64

  /** The alphabet of section 4 of RFC 4648. */
  function CharOf(v: sextet): (c: char)
    ensures c != '\r' && c != '\n'
  {
    if v < 26 then (65 + v) as char
    else if v < 52 then (97 + v - 26) as char
    else if v < 62 then (48 + v - 52) as char
    else if v == 62 then '+'
    else '/'
  }

  /** The value of an alphabet character, or None for any other character. */
  function SextetOf(c: char): (r: Option<sextet>)
    ensures r.Some? ==> CharOf(r.value) == c
  {
    if 'A' <= c <= 'Z' then Some(c as int - 65)
    else if 'a' <= c <= 'z' then Some(c as int - 97 + 26)
    else if '0' <= c <= '9' then Some(c as int - 48 + 52)
    else if c == '+' then Some(62)
    else if c == '/' then Some(63)
    else None
  }

  lemma SextetOfCharOf(v: sextet)
    ensures SextetOf(CharOf(v)) == Some(v)
  {
  }

  function StripNewlines(s: string): (r: string)
    ensures |r| <= |s|
    ensures forall i :: 0 <= i < |r| ==> r[i] != '\r' && r[i] != '\n'
  {
    if s == [] then []
    else if s[0] == '\r' || s[0] == '\n' then StripNewlines(s[1..])
    else [s[0]] + StripNewlines(s[1..])
  }

  function Sextets(s: string): (r: Option<seq<sextet>>)
    ensures r.Some? ==> |r.value| == |s|
  {
    if s == [] then Some([])
    else match SextetOf(s[0])
      case None => None
      case Some(v) =>
        match Sextets(s[1..])
        case None => None
        case Some(rest) => Some([v] + rest)
  }

  /** Three bytes from a full group of four characters. */
  function DecodeQuantum(a: sextet, b: sextet, c: sextet, d: sextet): seq<byte> {
    var x: byte := (a as int) * 4 + (b as int) / 16;
    var y: byte := ((b as int) % 16) * 16 + (c as int) / 4;
    var z: byte := ((c as int) % 4) * 64 + d as int;
    [x, y, z]
  }

  function DecodeSextets(v: seq<sextet>): (r: Option<seq<byte>>)
    decreases |v|
  {
    if |v| == 0 then Some([])
    else if |v| == 1 then None
    else if |v| == 2 then
      var x: byte := (v[0] as int) * 4 + (v[1] as int) / 16;
      Some([x])
    else if |v| == 3 then
      var x: byte := (v[0] as int) * 4 + (v[1] as int) / 16;
      var y: byte := ((v[1] as int) % 16) * 16 + (v[2] as int) / 4;
      Some([x, y])
    else match DecodeSextets(v[4..])
      case None => None
      case Some(rest) => Some(DecodeQuantum(v[0], v[1], v[2], v[3]) + rest)
  }

  /** base64.RawStdEncoding.DecodeString. */
  function RawStdDecode(s: string): Option<seq<byte>> {
    match Sextets(StripNewlines(s))
    case None => None
    case Some(v) => DecodeSextets(v)
  }

  function EncodeSextets(b: seq<byte>): (v: seq<sextet>)
    ensures |v| % 4 != 1
    decreases |b|
  {
    if |b| == 0 then []
    else if |b| == 1 then [b[0] / 4, (b[0] % 4) * 16]
    else if |b| == 2 then [b[0] / 4, (b[0] % 4) * 16 + b[1] / 16, (b[1] % 16) * 4]
    else [b[0] / 4, (b[0] % 4) * 16 + b[1] / 16, (b[1] % 16) * 4 + b[2] / 64, b[2] % 64] + EncodeSextets(b[3..])
  }

  function Chars(v: seq<sextet>): (s: string)
    ensures |s| == |v|
    ensures forall i :: 0 <= i < |s| ==> s[i] == CharOf(v[i])
  {
    if v == [] then [] else [CharOf(v[0])] + Chars(v[1..])
  }

  /** base64.RawStdEncoding.EncodeToString. */
  function RawStdEncode(b: seq<byte>): string {
    Chars(EncodeSextets(b))
  }

  lemma {:induction false} StripNewlinesNoop(s: string)
    requires forall i :: 0 <= i < |s| ==> s[i] != '\r' && s[i] != '\n'
    ensures StripNewlines(s) == s
  {
    if s != [] {
      StripNewlinesNoop(s[1..]);
    }
  }

  lemma {:induction false} SextetsOfChars(v: seq<sextet>)
    ensures Sextets(Chars(v)) == Some(v)
  {
    if v != [] {
      var s := Chars(v);
      SextetsOfChars(v[1..]);
      SextetOfCharOf(v[0]);
      assert s == [CharOf(v[0])] + Chars(v[1..]);
      assert s[1..] == Chars(v[1..]);
      assert SextetOf(s[0]) == Some(v[0]);
      assert [v[0]] + v[1..] == v;
    }
  }

  lemma QuantumRoundTrip(x: byte, y: byte, z: byte)
    ensures DecodeQuantum(x / 4, (x % 4) * 16 + y / 16, (y % 16) * 4 + z / 64, z % 64) == [x, y, z]
  {
  }

  lemma {:induction false} DecodeEncodeSextets(b: seq<byte>)
    ensures DecodeSextets(EncodeSextets(b)) == Some(b)
    decreases |b|
  {
    if |b| >= 3 {
      var v := EncodeSextets(b);
      DecodeEncodeSextets(b[3..]);
      assert |v| >= 4;
      assert v[4..] == EncodeSextets(b[3..]);
      QuantumRoundTrip(b[0], b[1], b[2]);
      assert DecodeQuantum(v[0], v[1], v[2], v[3]) == [b[0], b[1], b[2]];
      assert b == [b[0], b[1], b[2]] + b[3..];
    } else if |b| == 2 {
      var x, y := b[0] as int, b[1] as int;
      assert (x / 4) * 4 + ((x % 4) * 16 + y / 16) / 16 == x;
      assert ((((x % 4) * 16 + y / 16)) % 16) * 16 + ((y % 16) * 4) / 4 == y;
      assert b == [b[0], b[1]];
    } else if |b| == 1 {
      var x := b[0] as int;
      assert (x / 4) * 4 + ((x % 4) * 16) / 16 == x;
      assert b == [b[0]];
    }
  }

  /** Decoding undoes encoding: every byte string survives the round trip. */
  lemma RoundTrip(b: seq<byte>)
    ensures RawStdDecode(RawStdEncode(b)) == Some(b)
  {
    var s := RawStdEncode(b);
    StripNewlinesNoop(s);
    SextetsOfChars(EncodeSextets(b));
    DecodeEncodeSextets(b);
  }

  /** A single character left over after the full groups never decodes. */
  lemma {:induction false} LoneCharacterRejected(v: seq<sextet>)
    requires |v| % 4 == 1
    ensures DecodeSextets(v) == None
    decreases |v|
  {
    if |v| > 4 {
      LoneCharacterRejected(v[4..]);
    }
  }

  /** The pad character '=' is not accepted anywhere in the input. */
  lemma {:induction false} PaddingRejected(s: string, i: nat)
    requires i < |s| && s[i] == '='
    ensures Sextets(s) == None
  {
    if i > 0 {
      PaddingRejected(s[1..], i - 1);
    }
  }

  /** Line breaks are the only characters stripping drops: every other one survives it. */
  lemma {:induction false} StripKeeps(s: string, i: nat) returns (j: nat)
    requires i < |s| && s[i] != '\r' && s[i] != '\n'
    ensures j < |StripNewlines(s)| && StripNewlines(s)[j] == s[i]
  {
    if i == 0 {
      j := 0;
    } else {
      var k := StripKeeps(s[1..], i - 1);
      j := if s[0] == '\r' || s[0] == '\n' then k else k + 1;
    }
  }

  /**
   * RawStdEncoding.DecodeString rejects an input whose length without line breaks leaves a
   * single character after the full groups of four.
   */
  lemma RawLoneCharacterRejected(s: string)
    requires |StripNewlines(s)| % 4 == 1
    ensures RawStdDecode(s) == None
  {
    var v := Sextets(StripNewlines(s));
    if v.Some? {
      LoneCharacterRejected(v.value);
    }
  }

  /** RawStdEncoding.DecodeString rejects a '=' anywhere in its input. */
  lemma RawPaddingRejected(s: string, i: nat)
    requires i < |s| && s[i] == '='
    ensures RawStdDecode(s) == None
  {
    var j := StripKeeps(s, i);
    PaddingRejected(StripNewlines(s), j);
  }
}
