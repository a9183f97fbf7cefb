/** `btoa`: the base64 encoding of section 4 of RFC 4648 applied to a string
    whose characters are all at most U+00FF (each taken as one byte), with
    its decoding partner. */
module Base64 {
  import opened Wrappers

  type Byte = x: int | 0 <= x < 256

  type Sextet = x: int | 0 <= x < 64

  /** The alphabet of section 4 of RFC 4648: A-Z, a-z, 0-9, "+" and "/". */
  function CharOf(d: Sextet): char {
    if d < 26 then ('A' as int + d) as char
    else if d < 52 then ('a' as int + d - 26) as char
    else if d < 62 then ('0' as int + d - 52) as char
    else if d == 62 then '+'
    else '/'
  }

  /** Position of a character in the alphabet; `None` for anything else,
      the padding character included. */
  function IndexOf(c: char): (r: Option<Sextet>)
    ensures r.Some? ==> CharOf(r.value) == c
  {
    if 'A' <= c <= 'Z' then Some(c as int - 'A' as int)
    else if 'a' <= c <= 'z' then Some(c as int - 'a' as int + 26)
    else if '0' <= c <= '9' then Some(c as int - '0' as int + 52)
    else if c == '+' then Some(62)
    else if c == '/' then Some(63)
    else None
  }

  lemma IndexOfCharOf(d: Sextet)
    ensures IndexOf(CharOf(d)) == Some(d)
  {
  }

  /** Three bytes as four characters. */
  function EncodeBlock(b0: Byte, b1: Byte, b2: Byte): string {
    [CharOf(b0 / 4), CharOf((b0 % 4) * 16 + b1 / 16), CharOf((b1 % 16) * 4 + b2 / 64), CharOf(b2 % 64)]
  }

  /** The base64 text of a byte sequence, padded with `=` to a multiple of four. */
  function Encode(b: seq<Byte>): string
    decreases |b|
  {
    if |b| >= 3 then EncodeBlock(b[0], b[1], b[2]) + Encode(b[3..])
    else if |b| == 2 then EncodeBlock(b[0], b[1], 0)[..3] + "="
    else if |b| == 1 then EncodeBlock(b[0], 0, 0)[..2] + "=="
    else ""
  }

  /** Four characters back to three bytes. */
  function DecodeBlock(c0: Sextet, c1: Sextet, c2: Sextet, c3: Sextet): seq<Byte> {
    [c0 * 4 + c1 / 16, (c1 % 16) * 16 + c2 / 4, (c2 % 4) * 64 + c3]
  }

  /** `atob` on padded text: `None` when the text is not a valid encoding. */
  function Decode(s: string): Option<seq<Byte>>
    decreases |s|
  {
    if s == [] then Some([])
    else if |s| < 4 then None
    else
      match (IndexOf(s[0]), IndexOf(s[1]), IndexOf(s[2]), IndexOf(s[3]))
      case (Some(c0), Some(c1), Some(c2), Some(c3)) =>
        (match Decode(s[4..])
         case Some(rest) => Some(DecodeBlock(c0, c1, c2, c3) + rest)
         case None => None)
      case (Some(c0), Some(c1), Some(c2), None) =>
        if |s| == 4 && s[3] == '=' then Some(DecodeBlock(c0, c1, c2, 0)[..2]) else None
      case (Some(c0), Some(c1), None, None) =>
        if |s| == 4 && s[2] == '=' && s[3] == '=' then Some(DecodeBlock(c0, c1, 0, 0)[..1]) else None
      case _ => None
  }

  lemma BlockRoundTrip(b0: Byte, b1: Byte, b2: Byte)
    ensures DecodeBlock(b0 / 4, (b0 % 4) * 16 + b1 / 16, (b1 % 16) * 4 + b2 / 64, b2 % 64) == [b0, b1, b2]
  {
    var c1 := (b0 % 4) * 16 + b1 / 16;
    var c2 := (b1 % 16) * 4 + b2 / 64;
    assert c1 / 16 == b0 % 4 && c1 % 16 == b1 / 16;
    assert c2 / 4 == b1 % 16 && c2 % 4 == b2 / 64;
  }

  lemma DecodeFullBlock(b0: Byte, b1: Byte, b2: Byte, t: string)
    ensures Decode(EncodeBlock(b0, b1, b2) + t) ==
      match Decode(t)
      case Some(rest) => Some([b0, b1, b2] + rest)
      case None => None
  {
    var s := EncodeBlock(b0, b1, b2) + t;
    IndexOfCharOf(b0 / 4);
    IndexOfCharOf((b0 % 4) * 16 + b1 / 16);
    IndexOfCharOf((b1 % 16) * 4 + b2 / 64);
    IndexOfCharOf(b2 % 64);
    BlockRoundTrip(b0, b1, b2);
    assert s[4..] == t;
  }

  lemma DecodeTwo(b0: Byte, b1: Byte)
    ensures Decode(Encode([b0, b1])) == Some([b0, b1])
  {
    var c := EncodeBlock(b0, b1, 0);
    var s := Encode([b0, b1]);
    assert s == [c[0], c[1], c[2], '='];
    IndexOfCharOf(b0 / 4);
    IndexOfCharOf((b0 % 4) * 16 + b1 / 16);
    IndexOfCharOf((b1 % 16) * 4);
    BlockRoundTrip(b0, b1, 0);
    assert IndexOf(s[3]) == None;
    var d := DecodeBlock(b0 / 4, (b0 % 4) * 16 + b1 / 16, (b1 % 16) * 4, 0);
    assert d == [b0, b1, 0];
    assert d[..2] == [b0, b1];
  }

  lemma DecodeOne(b0: Byte)
    ensures Decode(Encode([b0])) == Some([b0])
  {
    var c := EncodeBlock(b0, 0, 0);
    var s := Encode([b0]);
    assert s == [c[0], c[1], '=', '='];
    IndexOfCharOf(b0 / 4);
    IndexOfCharOf((b0 % 4) * 16);
    BlockRoundTrip(b0, 0, 0);
    assert IndexOf(s[2]) == None && IndexOf(s[3]) == None;
    var d := DecodeBlock(b0 / 4, (b0 % 4) * 16, 0, 0);
    assert d == [b0, 0, 0];
    assert d[..1] == [b0];
  }

  /** Decoding undoes encoding. */
  lemma {:induction false} DecodeEncode(b: seq<Byte>)
    ensures Decode(Encode(b)) == Some(b)
    decreases |b|
  {
    if |b| >= 3 {
      DecodeFullBlock(b[0], b[1], b[2], Encode(b[3..]));
      DecodeEncode(b[3..]);
      assert [b[0], b[1], b[2]] + b[3..] == b;
    } else if |b| == 2 {
      DecodeTwo(b[0], b[1]);
      assert b == [b[0], b[1]];
    } else if |b| == 1 {
      DecodeOne(b[0]);
      assert b == [b[0]];
    }
  }

  /** The encoding takes four characters for every started group of three bytes. */
  lemma {:induction false} EncodeLength(b: seq<Byte>)
    ensures |Encode(b)| == 4 * ((|b| + 2) / 3)
    decreases |b|
  {
    if |b| >= 3 {
      EncodeLength(b[3..]);
      assert (|b| + 2) / 3 == (|b[3..]| + 2) / 3 + 1;
    }
  }

  /** Every character of an encoding is from the alphabet or padding. */
  lemma {:induction false} EncodeAlphabet(b: seq<Byte>)
    ensures forall i | 0 <= i < |Encode(b)| :: IndexOf(Encode(b)[i]).Some? || Encode(b)[i] == '='
    decreases |b|
  {
    var s := Encode(b);
    if |b| >= 3 {
      var block := EncodeBlock(b[0], b[1], b[2]);
      var rest := Encode(b[3..]);
      BlockAlphabet(b[0], b[1], b[2]);
      EncodeAlphabet(b[3..]);
      assert s == block + rest;
      forall i | 0 <= i < |s| ensures IndexOf(s[i]).Some? || s[i] == '=' {
        if i < 4 { assert s[i] == block[i]; }
        else { assert s[i] == rest[i - 4]; }
      }
    } else if |b| == 2 {
      BlockAlphabet(b[0], b[1], 0);
    } else if |b| == 1 {
      BlockAlphabet(b[0], 0, 0);
    }
  }

  /** The four characters of a block are all from the alphabet. */
  lemma BlockAlphabet(b0: Byte, b1: Byte, b2: Byte)
    ensures forall i | 0 <= i < 4 :: IndexOf(EncodeBlock(b0, b1, b2)[i]).Some?
  {
    IndexOfCharOf(b0 / 4);
    IndexOfCharOf((b0 % 4) * 16 + b1 / 16);
    IndexOfCharOf((b1 % 16) * 4 + b2 / 64);
    IndexOfCharOf(b2 % 64);
  }

  /** The string's characters as bytes, when each fits in one (Latin-1). */
  function Latin1(s: string): Option<seq<Byte>> {
    if forall i | 0 <= i < |s| :: s[i] as int < 256 then
      Some(seq(|s|, i requires 0 <= i < |s| => s[i] as int as Byte))
    else None
  }

  /** Byte sequences back to the string they were read from. */
  function FromLatin1(b: seq<Byte>): string {
    seq(|b|, i requires 0 <= i < |b| => b[i] as char)
  }

  /** `btoa(s)`: `None` where it throws (a character above U+00FF). */
  function Btoa(s: string): (r: Option<string>)
    ensures r.None? <==> exists i | 0 <= i < |s| :: s[i] as int >= 256
  {
    match Latin1(s)
    case Some(b) => Some(Encode(b))
    case None => None
  }

  /** `btoa` writes four characters per started group of three. */
  lemma BtoaLength(s: string)
    requires Btoa(s).Some?
    ensures |Btoa(s).value| == 4 * ((|s| + 2) / 3)
  {
    EncodeLength(Latin1(s).value);
  }

  /** `atob(btoa(s)) == s` whenever `btoa(s)` succeeds. */
  lemma AtobBtoa(s: string)
    requires Btoa(s).Some?
    ensures Decode(Btoa(s).value).Some?
    ensures FromLatin1(Decode(Btoa(s).value).value) == s
  {
    var b := Latin1(s).value;
    DecodeEncode(b);
    assert FromLatin1(b) == s;
  }
}
