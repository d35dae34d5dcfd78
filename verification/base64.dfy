/** Base64 as PHP's `base64_encode` produces it: the alphabet and padding of
    section 4 of RFC 4648, no line breaks. The decoder is the partner that
    shows the encoding loses nothing. */
module Base64 {
  import opened Optional

  type Byte = b: int | 0 <= b < 256

  /** A 6-bit group, the index of one alphabet character. */
  type Sextet = s: int | 0 <= s < 64

  /** The character for a 6-bit group (Table 1 of RFC 4648). */
  function Char(s: Sextet): char {
    if s < 26 then ('A' as int + s) as char
    else if s < 52 then ('a' as int + (s - 26)) as char
    else if s < 62 then ('0' as int + (s - 52)) as char
    else if s == 62 then '+'
    else '/'
  }

  /** The 6-bit group a character stands for; `=` and anything outside the
      alphabet have none. */
  function Index(c: char): (r: Option<Sextet>)
  {
    if 'A' <= c <= 'Z' then Some(c as int - 'A' as int)
    else if 'a' <= c <= 'z' then Some(c as int - 'a' as int + 26)
    else if '0' <= c <= '9' then Some(c as int - '0' as int + 52)
    else if c == '+' then Some(62)
    else if c == '/' then Some(63)
    else None
  }

  lemma IndexOfChar(s: Sextet)
    ensures Index(Char(s)) == Some(s)
  {
  }

  /** Three bytes, 24 bits, as four characters. */
  function EncodeGroup(a: Byte, b: Byte, c: Byte): string {
    [Char(a / 4), Char((a % 4) * 16 + b / 16), Char((b % 16) * 4 + c / 64), Char(c % 64)]
  }

  /** A final group of two bytes: three characters and one `=`. */
  function EncodeTwo(a: Byte, b: Byte): string {
    [Char(a / 4), Char((a % 4) * 16 + b / 16), Char((b % 16) * 4), '=']
  }

  /** A final group of one byte: two characters and `==`. */
  function EncodeOne(a: Byte): string {
    [Char(a / 4), Char((a % 4) * 16), '=', '=']
  }

  /** `base64_encode($bytes)` */
  function Encode(s: seq<Byte>): (r: string)
    ensures |r| == 4 * ((|s| + 2) / 3)
    decreases |s|
  {
    if |s| == 0 then []
    else if |s| == 1 then EncodeOne(s[0])
    else if |s| == 2 then EncodeTwo(s[0], s[1])
    else EncodeGroup(s[0], s[1], s[2]) + Encode(s[3..])
  }

  /** The byte whose high six bits are `i0` and low two bits the top of `i1`. */
  function First(i0: Sextet, i1: Sextet): Byte {
    i0 * 4 + i1 / 16
  }

  /** The byte made of the low four bits of `i1` and the top four of `i2`. */
  function Second(i1: Sextet, i2: Sextet): Byte {
    (i1 % 16) * 16 + i2 / 4
  }

  /** The byte made of the low two bits of `i2` and all six of `i3`. */
  function Third(i2: Sextet, i3: Sextet): Byte {
    (i2 % 4) * 64 + i3
  }

  /** Four alphabet characters as three bytes. */
  function DecodeGroup(t: string): Option<seq<Byte>>
    requires |t| == 4
  {
    match (Index(t[0]), Index(t[1]), Index(t[2]), Index(t[3]))
    case (Some(i0), Some(i1), Some(i2), Some(i3)) =>
      Some([First(i0, i1), Second(i1, i2), Third(i2, i3)])
    case _ => None
  }

  /** The last four characters, which may end in one or two `=`. */
  function DecodeFinal(t: string): Option<seq<Byte>>
    requires |t| == 4
  {
    if t[2] == '=' && t[3] == '=' then
      match (Index(t[0]), Index(t[1]))
      case (Some(i0), Some(i1)) => Some([First(i0, i1)])
      case _ => None
    else if t[3] == '=' then
      match (Index(t[0]), Index(t[1]), Index(t[2]))
      case (Some(i0), Some(i1), Some(i2)) => Some([First(i0, i1), Second(i1, i2)])
      case _ => None
    else DecodeGroup(t)
  }

  /** Decoding per section 4 of RFC 4648; None for text that is not a
      padded Base64 string. */
  function Decode(t: string): Option<seq<Byte>>
    decreases |t|
  {
    if |t| == 0 then Some([])
    else if |t| % 4 != 0 then None
    else if |t| == 4 then DecodeFinal(t)
    else match DecodeGroup(t[..4])
      case None => None
      case Some(g) =>
        match Decode(t[4..])
        case None => None
        case Some(rest) => Some(g + rest)
  }

  lemma FirstByte(a: Byte, r: int)
    requires 0 <= r < 16
    ensures First(a / 4, (a % 4) * 16 + r) == a
  {
    assert ((a % 4) * 16 + r) / 16 == a % 4;
  }

  lemma SecondByte(b: Byte, high: int, r: int)
    requires 0 <= high < 4 && 0 <= r < 4
    ensures Second(high * 16 + b / 16, (b % 16) * 4 + r) == b
  {
    assert (high * 16 + b / 16) % 16 == b / 16;
    assert ((b % 16) * 4 + r) / 4 == b % 16;
  }

  lemma ThirdByte(c: Byte, high: int)
    requires 0 <= high < 16
    ensures Third(high * 4 + c / 64, c % 64) == c
  {
    assert (high * 4 + c / 64) % 4 == c / 64;
  }

  lemma GroupRoundTrip(a: Byte, b: Byte, c: Byte)
    ensures DecodeGroup(EncodeGroup(a, b, c)) == Some([a, b, c])
    ensures DecodeFinal(EncodeGroup(a, b, c)) == Some([a, b, c])
  {
    var i0, i1, i2, i3 := a / 4, (a % 4) * 16 + b / 16, (b % 16) * 4 + c / 64, c % 64;
    var t := EncodeGroup(a, b, c);
    assert t == [Char(i0), Char(i1), Char(i2), Char(i3)];
    IndexOfChar(i0);
    IndexOfChar(i1);
    IndexOfChar(i2);
    IndexOfChar(i3);
    FirstByte(a, b / 16);
    SecondByte(b, a % 4, c / 64);
    ThirdByte(c, b % 16);
    assert DecodeGroup(t) == Some([First(i0, i1), Second(i1, i2), Third(i2, i3)]);
    assert t[2] != '=' && t[3] != '=';
  }

  lemma TwoRoundTrip(a: Byte, b: Byte)
    ensures DecodeFinal(EncodeTwo(a, b)) == Some([a, b])
  {
    var i0, i1, i2 := a / 4, (a % 4) * 16 + b / 16, (b % 16) * 4;
    IndexOfChar(i0);
    IndexOfChar(i1);
    IndexOfChar(i2);
    FirstByte(a, b / 16);
    SecondByte(b, a % 4, 0);
  }

  lemma OneRoundTrip(a: Byte)
    ensures DecodeFinal(EncodeOne(a)) == Some([a])
  {
    IndexOfChar(a / 4);
    IndexOfChar((a % 4) * 16);
    FirstByte(a, 0);
  }

  /** A full leading group followed by more text decodes group by group. */
  lemma DecodeCons(g: string, rest: string, x: seq<Byte>, y: seq<Byte>)
    requires |g| == 4 && |rest| > 0 && |rest| % 4 == 0
    requires DecodeGroup(g) == Some(x) && Decode(rest) == Some(y)
    ensures Decode(g + rest) == Some(x + y)
  {
    var t := g + rest;
    assert t[..4] == g;
    assert t[4..] == rest;
    var x', y' := DecodeGroup(t[..4]), Decode(t[4..]);
    assert x' == Some(x) && y' == Some(y);
  }

  /** Decoding the encoding gives back exactly the bytes that were encoded. */
  lemma {:induction false} DecodeEncode(s: seq<Byte>)
    ensures Decode(Encode(s)) == Some(s)
    decreases |s|
  {
    if |s| == 0 {
    } else if |s| == 1 {
      OneRoundTrip(s[0]);
      assert s == [s[0]];
    } else if |s| == 2 {
      TwoRoundTrip(s[0], s[1]);
      assert s == [s[0], s[1]];
    } else {
      DecodeEncode(s[3..]);
      DecodeEncodeStep(s);
    }
  }

  lemma EncodeUnfold(s: seq<Byte>)
    requires |s| >= 3
    ensures Encode(s) == EncodeGroup(s[0], s[1], s[2]) + Encode(s[3..])
  {
  }

  /** The inductive step: one group in front of an encoding that decodes. */
  lemma DecodeEncodeStep(s: seq<Byte>)
    requires |s| >= 3
    requires Decode(Encode(s[3..])) == Some(s[3..])
    ensures Decode(Encode(s)) == Some(s)
  {
    EncodeUnfold(s);
    if |s| == 3 {
      LastGroup(s);
    } else {
      var head: seq<Byte> := [s[0], s[1], s[2]];
      GroupRoundTrip(s[0], s[1], s[2]);
      EncodeNonEmpty(s[3..]);
      SplitThree(s);
      DecodeCons(EncodeGroup(s[0], s[1], s[2]), Encode(s[3..]), head, s[3..]);
    }
  }

  lemma EncodeNonEmpty(x: seq<Byte>)
    requires |x| > 0
    ensures |Encode(x)| >= 4
  {
    if |x| >= 3 {
      EncodeUnfold(x);
    }
  }

  lemma SplitThree(s: seq<Byte>)
    requires |s| >= 3
    ensures s == [s[0], s[1], s[2]] + s[3..]
  {
  }

  lemma LastGroup(s: seq<Byte>)
    requires |s| == 3
    ensures Decode(Encode(s)) == Some(s)
  {
    var g := EncodeGroup(s[0], s[1], s[2]);
    EncodeUnfold(s);
    assert Encode(s[3..]) == [];
    assert Encode(s) == g;
    GroupRoundTrip(s[0], s[1], s[2]);
    assert s == [s[0], s[1], s[2]];
  }

  /** The encoding is empty exactly for empty input, and never the one-character
      string "0" that PHP would also treat as false. */
  lemma EncodeFalsy(s: seq<Byte>)
    ensures Encode(s) == "" <==> |s| == 0
    ensures Encode(s) != "0"
  {
  }
}
