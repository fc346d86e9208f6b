/**
 * The text encodings Node's Buffer applies to the cipher token:
 * standard padded base64 for the IV and lower-case hex for the ciphertext,
 * with strict decoders, plus JavaScript's `String.prototype.split` on one
 * character and `toUpperCase` on ASCII.
 */
module Base64 {
  import opened Common

  /** The value of a sextet as a character of the standard alphabet (RFC 4648, section 4). */
  function Char(n: nat): (c: char)
    requires n < 64
    ensures c != '.' && c != '='
  {
    if n < 26 then ('A' as int + n) as char
    else if n < 52 then ('a' as int + (n - 26)) as char
    else if n < 62 then ('0' as int + (n - 52)) as char
    else if n == 62 then '+'
    else '/'
  }

  /** The sextet a character of the alphabet stands for; None for any other character. */
  function Value(c: char): (r: Option<nat>)
    ensures r.Some? ==> r.value < 64
  {
    if 'A' <= c <= 'Z' then Some(c as int - 'A' as int)
    else if 'a' <= c <= 'z' then Some(c as int - 'a' as int + 26)
    else if '0' <= c <= '9' then Some(c as int - '0' as int + 52)
    else if c == '+' then Some(62)
    else if c == '/' then Some(63)
    else None
  }

  lemma ValueOfChar(n: nat)
    requires n < 64
    ensures Value(Char(n)) == Some(n)
  {
  }

  /** Three bytes as four characters. */
  function Full(b0: Byte, b1: Byte, b2: Byte): (q: string)
    ensures |q| == 4 && '.' !in q
  {
    [Char(b0 / 4), Char((b0 % 4) * 16 + b1 / 16), Char((b1 % 16) * 4 + b2 / 64), Char(b2 % 64)]
  }

  /** Two final bytes: three characters and one '='. */
  function PaddedTwo(b0: Byte, b1: Byte): (q: string)
    ensures |q| == 4 && '.' !in q
  {
    [Char(b0 / 4), Char((b0 % 4) * 16 + b1 / 16), Char((b1 % 16) * 4), '=']
  }

  /** One final byte: two characters and "==". */
  function PaddedOne(b0: Byte): (q: string)
    ensures |q| == 4 && '.' !in q
  {
    [Char(b0 / 4), Char((b0 % 4) * 16), '=', '=']
  }

  /** Node's `buf.toString('base64')`: 4 characters per 3 bytes, '=' padding at the end. */
  function Encode(bytes: seq<Byte>): (s: string)
    ensures '.' !in s
    decreases |bytes|
  {
    if |bytes| == 0 then ""
    else if |bytes| == 1 then PaddedOne(bytes[0])
    else if |bytes| == 2 then PaddedTwo(bytes[0], bytes[1])
    else Full(bytes[0], bytes[1], bytes[2]) + Encode(bytes[3..])
  }

  /** One group of four characters: three bytes, or one or two before padding. */
  function DecodeQuad(q: string): (r: Option<seq<Byte>>)
    requires |q| == 4
    ensures r.Some? ==> 1 <= |r.value| <= 3
  {
    match (Value(q[0]), Value(q[1]))
    case (Some(a), Some(b)) =>
      if q[2] == '=' && q[3] == '=' then Some([a * 4 + b / 16])
      else
        (match Value(q[2])
         case None => None
         case Some(c) =>
           if q[3] == '=' then Some([a * 4 + b / 16, (b % 16) * 16 + c / 4])
           else
             (match Value(q[3])
              case None => None
              case Some(d) => Some([a * 4 + b / 16, (b % 16) * 16 + c / 4, (c % 4) * 64 + d]))
        )
    case _ => None
  }

  /** Strict base64 decoding: whole groups of four, padding only in the last group. */
  function Decode(s: string): (r: Option<seq<Byte>>)
    decreases |s|
  {
    if s == [] then Some([])
    else if |s| < 4 then None
    else
      match DecodeQuad(s[..4])
      case None => None
      case Some(head) =>
        if |head| < 3 then (if |s| == 4 then Some(head) else None)
        else
          match Decode(s[4..])
          case None => None
          case Some(tail) => Some(head + tail)
  }

  /** The sextets of three bytes put back together give the bytes. */
  lemma Regroup(b0: Byte, b1: Byte, b2: Byte)
    ensures var b, c := (b0 % 4) * 16 + b1 / 16, (b1 % 16) * 4 + b2 / 64;
      && (b0 / 4) * 4 + b / 16 == b0
      && (b % 16) * 16 + c / 4 == b1
      && (c % 4) * 64 + b2 % 64 == b2
  {
    var b, c := (b0 % 4) * 16 + b1 / 16, (b1 % 16) * 4 + b2 / 64;
    assert b / 16 == b0 % 4 && b % 16 == b1 / 16;
    assert c / 4 == b1 % 16 && c % 4 == b2 / 64;
  }

  lemma DecodeFull(b0: Byte, b1: Byte, b2: Byte)
    ensures DecodeQuad(Full(b0, b1, b2)) == Some([b0, b1, b2])
  {
    var a, b, c, d := b0 / 4, (b0 % 4) * 16 + b1 / 16, (b1 % 16) * 4 + b2 / 64, b2 % 64;
    ValueOfChar(a);
    ValueOfChar(b);
    ValueOfChar(c);
    ValueOfChar(d);
    Regroup(b0, b1, b2);
    var q := Full(b0, b1, b2);
    assert q == [Char(a), Char(b), Char(c), Char(d)];
    assert Value(q[0]) == Some(a) && Value(q[1]) == Some(b);
    assert Value(q[2]) == Some(c) && Value(q[3]) == Some(d);
  }

  lemma DecodeTwo(b0: Byte, b1: Byte)
    ensures DecodeQuad(PaddedTwo(b0, b1)) == Some([b0, b1])
  {
    ValueOfChar(b0 / 4);
    ValueOfChar((b0 % 4) * 16 + b1 / 16);
    ValueOfChar((b1 % 16) * 4);
  }

  lemma DecodeOne(b0: Byte)
    ensures DecodeQuad(PaddedOne(b0)) == Some([b0])
  {
    ValueOfChar(b0 / 4);
    ValueOfChar((b0 % 4) * 16);
  }

  lemma DecodeLast(q: string, bytes: seq<Byte>)
    requires |q| == 4 && DecodeQuad(q) == Some(bytes) && |bytes| < 3
    ensures Decode(q) == Some(bytes)
  {
    assert q[..4] == q;
  }

  lemma DecodeCons(q: string, rest: string, head: seq<Byte>, tail: seq<Byte>)
    requires |q| == 4 && DecodeQuad(q) == Some(head) && |head| == 3
    requires Decode(rest) == Some(tail)
    ensures Decode(q + rest) == Some(head + tail)
  {
    var s := q + rest;
    assert s[..4] == q;
    assert s[4..] == rest;
  }

  lemma RoundTripOne(bytes: seq<Byte>)
    requires |bytes| == 1
    ensures Decode(Encode(bytes)) == Some(bytes)
  {
    DecodeOne(bytes[0]);
    DecodeLast(PaddedOne(bytes[0]), [bytes[0]]);
    assert bytes == [bytes[0]];
  }

  lemma RoundTripTwo(bytes: seq<Byte>)
    requires |bytes| == 2
    ensures Decode(Encode(bytes)) == Some(bytes)
  {
    DecodeTwo(bytes[0], bytes[1]);
    DecodeLast(PaddedTwo(bytes[0], bytes[1]), [bytes[0], bytes[1]]);
    assert bytes == [bytes[0], bytes[1]];
  }

  lemma EncodeUnfold(bytes: seq<Byte>)
    requires |bytes| >= 3
    ensures Encode(bytes) == Full(bytes[0], bytes[1], bytes[2]) + Encode(bytes[3..])
  {
  }

  lemma RoundTripMore(bytes: seq<Byte>)
    requires |bytes| >= 3
    requires Decode(Encode(bytes[3..])) == Some(bytes[3..])
    ensures Decode(Encode(bytes)) == Some(bytes)
  {
    var head, tail := [bytes[0], bytes[1], bytes[2]], bytes[3..];
    var q := Full(bytes[0], bytes[1], bytes[2]);
    EncodeUnfold(bytes);
    DecodeFull(bytes[0], bytes[1], bytes[2]);
    DecodeCons(q, Encode(tail), head, tail);
    SplitThree(bytes);
  }

  lemma SplitThree<T>(s: seq<T>)
    requires |s| >= 3
    ensures [s[0], s[1], s[2]] + s[3..] == s
  {
  }

  /** Decoding undoes encoding, for every byte string. */
  lemma {:induction false} RoundTrip(bytes: seq<Byte>)
    ensures Decode(Encode(bytes)) == Some(bytes)
    decreases |bytes|
  {
    if |bytes| == 1 {
      RoundTripOne(bytes);
    } else if |bytes| == 2 {
      RoundTripTwo(bytes);
    } else if |bytes| >= 3 {
      RoundTrip(bytes[3..]);
      RoundTripMore(bytes);
    }
  }

  /** Every started group of three bytes takes four characters. */
  lemma {:induction false} EncodeLength(bytes: seq<Byte>)
    ensures |Encode(bytes)| == 4 * ((|bytes| + 2) / 3)
    decreases |bytes|
  {
    var n := |bytes|;
    if n >= 3 {
      EncodeLength(bytes[3..]);
      EncodeUnfold(bytes);
      assert (n + 2) / 3 == (n - 3 + 2) / 3 + 1;
    } else {
      assert (n + 2) / 3 == if n == 0 then 0 else 1;
    }
  }

  /** Encoding is injective: distinct byte strings have distinct encodings. */
  lemma Injective(a: seq<Byte>, b: seq<Byte>)
    requires Encode(a) == Encode(b)
    ensures a == b
  {
    RoundTrip(a);
    RoundTrip(b);
  }
}

module Hex {
  import opened Common

  /** A nibble as Node writes it: '0'-'9' then lower-case 'a'-'f'. */
  function Digit(n: nat): (c: char)
    requires n < 16
    ensures c != '.'
  {
    if n < 10 then ('0' as int + n) as char else ('a' as int + (n - 10)) as char
  }

  /** A hex digit in either case, as Node's hex decoder accepts it. */
  function Nibble(c: char): (r: Option<nat>)
    ensures r.Some? ==> r.value < 16
  {
    if '0' <= c <= '9' then Some(c as int - '0' as int)
    else if 'a' <= c <= 'f' then Some(c as int - 'a' as int + 10)
    else if 'A' <= c <= 'F' then Some(c as int - 'A' as int + 10)
    else None
  }

  lemma NibbleOfDigit(n: nat)
    requires n < 16
    ensures Nibble(Digit(n)) == Some(n)
  {
  }

  /** Node's `buf.toString('hex')` / cipher output in 'hex': two digits per byte. */
  function Encode(bytes: seq<Byte>): (s: string)
    ensures |s| == 2 * |bytes|
    ensures '.' !in s
  {
    if bytes == [] then ""
    else [Digit(bytes[0] / 16), Digit(bytes[0] % 16)] + Encode(bytes[1..])
  }

  /** A character Node's hex encoder writes. */
  predicate IsLowerHexDigit(c: char)
  {
    '0' <= c <= '9' || 'a' <= c <= 'f'
  }

  lemma {:induction false} EncodeDigits(bytes: seq<Byte>)
    ensures forall i :: 0 <= i < |Encode(bytes)| ==> IsLowerHexDigit(Encode(bytes)[i])
  {
    if bytes != [] {
      EncodeDigits(bytes[1..]);
      var head := [Digit(bytes[0] / 16), Digit(bytes[0] % 16)];
      assert Encode(bytes) == head + Encode(bytes[1..]);
    }
  }

  /** Strict hex decoding: an even number of hex digits. */
  function Decode(s: string): (r: Option<seq<Byte>>)
    ensures r.Some? ==> 2 * |r.value| == |s|
  {
    if s == [] then Some([])
    else if |s| == 1 then None
    else
      match (Nibble(s[0]), Nibble(s[1]), Decode(s[2..]))
      case (Some(hi), Some(lo), Some(tail)) => Some([hi * 16 + lo] + tail)
      case _ => None
  }

  lemma {:induction false} RoundTrip(bytes: seq<Byte>)
    ensures Decode(Encode(bytes)) == Some(bytes)
  {
    if bytes != [] {
      var s := Encode(bytes);
      assert s[2..] == Encode(bytes[1..]);
      RoundTrip(bytes[1..]);
      NibbleOfDigit(bytes[0] / 16);
      NibbleOfDigit(bytes[0] % 16);
      assert bytes == [bytes[0]] + bytes[1..];
    }
  }
}

module Strings {

  /** JavaScript `s.split(sep)` for a one-character separator: never empty, keeps empty pieces. */
  function Split(s: string, sep: char): (pieces: seq<string>)
    ensures |pieces| >= 1
    ensures forall i :: 0 <= i < |pieces| ==> sep !in pieces[i]
    decreases |s|
  {
    if s == [] then [""]
    else if s[0] == sep then [""] + Split(s[1..], sep)
    else
      var rest := Split(s[1..], sep);
      [[s[0]] + rest[0]] + rest[1..]
  }

  /** Splitting a string without the separator yields that string alone. */
  lemma {:induction false} SplitWithout(s: string, sep: char)
    requires sep !in s
    ensures Split(s, sep) == [s]
    decreases |s|
  {
    if s != [] {
      SplitWithout(s[1..], sep);
      assert [s[0]] + s[1..] == s;
    }
  }

  /** The piece before the first separator comes first; the remainder is split on its own. */
  lemma {:induction false} SplitAt(a: string, sep: char, b: string)
    requires sep !in a
    ensures Split(a + [sep] + b, sep) == [a] + Split(b, sep)
    decreases |a|
  {
    if a == [] {
      assert a + [sep] + b == [sep] + b;
      assert ([sep] + b)[1..] == b;
    } else {
      var s := a + [sep] + b;
      assert s[0] == a[0];
      assert s[1..] == a[1..] + [sep] + b;
      SplitAt(a[1..], sep, b);
      assert [a[0]] + a[1..] == a;
    }
  }

  /** ASCII `toUpperCase`: 'a'-'z' become 'A'-'Z', other characters are kept. */
  function ToUpper(s: string): (r: string)
    ensures |r| == |s|
    ensures forall i :: 0 <= i < |s| ==> r[i] == (if 'a' <= s[i] <= 'z' then (s[i] as int - 32) as char else s[i])
  {
    if s == [] then "" else [if 'a' <= s[0] <= 'z' then (s[0] as int - 32) as char else s[0]] + ToUpper(s[1..])
  }
}
