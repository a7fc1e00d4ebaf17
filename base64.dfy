/**
 * The base 64 encoding of section 4 of RFC 4648 (alphabet A-Z a-z 0-9 + /,
 * '=' padding), which Node.js's `buf.toString('base64')` produces.
 */
module Base64 {
  import opened Common

  type Sextet = x: int | 0 <= x < 64

  /** Table 1 of RFC 4648. */
  function Digit(v: Sextet): char {
    if v < 26 then ('A' as int + v) as char
    else if v < 52 then ('a' as int + (v - 26)) as char
    else if v < 62 then ('0' as int + (v - 52)) as char
    else if v == 62 then '+' else '/'
  }

  /** The inverse of Table 1. */
  function DigitValue(c: char): Option<Sextet> {
    if 'A' <= c <= 'Z' then Some(c as int - 'A' as int)
    else if 'a' <= c <= 'z' then Some(c as int - 'a' as int + 26)
    else if '0' <= c <= '9' then Some(c as int - '0' as int + 52)
    else if c == '+' then Some(62)
    else if c == '/' then Some(63)
    else None
  }

  lemma DigitValueOfDigit(v: Sextet)
    ensures DigitValue(Digit(v)) == Some(v)
  {
  }

  predicate InAlphabet(c: char) {
    DigitValue(c).Some? || c == '='
  }

  /** Encodes 24-bit groups left to right; a final group of one or two octets is padded.
      The output has the length section 4 of RFC 4648 gives: four characters per started group. */
  function Encode(bs: seq<Byte>): (r: string)
    ensures |r| == 4 * ((|bs| + 2) / 3)
    decreases |bs|
  {
    if |bs| == 0 then ""
    else if |bs| == 1 then
      [Digit(bs[0] / 4), Digit((bs[0] % 4) * 16), '=', '=']
    else if |bs| == 2 then
      [Digit(bs[0] / 4), Digit((bs[0] % 4) * 16 + bs[1] / 16), Digit((bs[1] % 16) * 4), '=']
    else
      [Digit(bs[0] / 4), Digit((bs[0] % 4) * 16 + bs[1] / 16), Digit((bs[1] % 16) * 4 + bs[2] / 64), Digit(bs[2] % 64)]
      + Encode(bs[3..])
  }

  /** The three octets that four consecutive sextets carry. */
  function Octet0(c0: Sextet, c1: Sextet): Byte { c0 as int * 4 + c1 as int / 16 }
  function Octet1(c1: Sextet, c2: Sextet): Byte { (c1 as int % 16) * 16 + c2 as int / 4 }
  function Octet2(c2: Sextet, c3: Sextet): Byte { (c2 as int % 4) * 64 + c3 as int }

  /** Decodes one four-character quantum; padding is accepted only in the last one. */
  function DecodeQuantum(q: string, last: bool): (r: Option<seq<Byte>>)
    requires |q| == 4
    ensures r.Some? ==> 1 <= |r.value| <= 3
    ensures r.Some? && !last ==> |r.value| == 3
  {
    match (DigitValue(q[0]), DigitValue(q[1]), DigitValue(q[2]), DigitValue(q[3]))
    case (Some(c0), Some(c1), Some(c2), Some(c3)) =>
      Some([Octet0(c0, c1), Octet1(c1, c2), Octet2(c2, c3)])
    case (Some(c0), Some(c1), Some(c2), None) =>
      if last && q[3] == '=' then Some([Octet0(c0, c1), Octet1(c1, c2)]) else None
    case (Some(c0), Some(c1), None, None) =>
      if last && q[2] == '=' && q[3] == '=' then Some([Octet0(c0, c1)]) else None
    case _ => None
  }

  /** Decodes a base 64 string; None unless it is a sequence of well-formed quanta. */
  function Decode(s: string): Option<seq<Byte>>
    decreases |s|
  {
    if |s| == 0 then Some([])
    else if |s| < 4 then None
    else
      match DecodeQuantum(s[..4], |s| == 4)
      case None => None
      case Some(head) =>
        match Decode(s[4..])
        case None => None
        case Some(tail) => Some(head + tail)
  }

  /** Every output character is in the alphabet of Table 1 or is the pad. */
  lemma {:induction false} EncodeAlphabet(bs: seq<Byte>)
    ensures forall i :: 0 <= i < |Encode(bs)| ==> InAlphabet(Encode(bs)[i])
    decreases |bs|
  {
    if |bs| >= 3 {
      EncodeAlphabet(bs[3..]);
      var q := Encode(bs)[..4];
      assert Encode(bs) == q + Encode(bs[3..]);
      forall i | 0 <= i < 4 ensures InAlphabet(q[i]) {
        DigitValueOfDigit(if i == 0 then bs[0] / 4 else if i == 1 then (bs[0] % 4) * 16 + bs[1] / 16
          else if i == 2 then (bs[1] % 16) * 4 + bs[2] / 64 else bs[2] % 64);
      }
    } else if |bs| > 0 {
      DigitValueOfDigit(bs[0] / 4);
      if |bs| == 1 {
        DigitValueOfDigit((bs[0] % 4) * 16);
      } else {
        DigitValueOfDigit((bs[0] % 4) * 16 + bs[1] / 16);
        DigitValueOfDigit((bs[1] % 16) * 4);
      }
    }
  }

  /** Splitting three octets into four sextets loses nothing. */
  lemma Regroup(b0: Byte, b1: Byte, b2: Byte)
    ensures var c1 := (b0 % 4) * 16 + b1 / 16;
            var c2 := (b1 % 16) * 4 + b2 / 64;
            (b0 / 4) * 4 + c1 / 16 == b0 && (c1 % 16) * 16 + c2 / 4 == b1 && (c2 % 4) * 64 + b2 % 64 == b2
  {
  }

  lemma FullQuantum(b0: Byte, b1: Byte, b2: Byte, last: bool)
    ensures DecodeQuantum(Encode([b0, b1, b2]), last) == Some([b0, b1, b2])
  {
    var c0, c1, c2, c3 := b0 / 4, (b0 % 4) * 16 + b1 / 16, (b1 % 16) * 4 + b2 / 64, b2 % 64;
    assert Encode([b0, b1, b2]) == [Digit(c0), Digit(c1), Digit(c2), Digit(c3)] by {
      assert [b0, b1, b2][3..] == [];
    }
    DigitValueOfDigit(c0);
    DigitValueOfDigit(c1);
    DigitValueOfDigit(c2);
    DigitValueOfDigit(c3);
    Regroup(b0, b1, b2);
  }

  /** Splitting two octets into three sextets (the last one zero-filled) loses nothing. */
  lemma Regroup2(b0: Byte, b1: Byte)
    ensures var c1 := (b0 % 4) * 16 + b1 / 16;
            (b0 / 4) * 4 + c1 / 16 == b0 && (c1 % 16) * 16 + ((b1 % 16) * 4) / 4 == b1
  {
  }

  lemma TwoOctetQuantum(b0: Byte, b1: Byte)
    ensures DecodeQuantum(Encode([b0, b1]), true) == Some([b0, b1])
  {
    var c0, c1, c2 := b0 / 4, (b0 % 4) * 16 + b1 / 16, (b1 % 16) * 4;
    var q := Encode([b0, b1]);
    assert q == [Digit(c0), Digit(c1), Digit(c2), '='];
    DigitValueOfDigit(c0);
    DigitValueOfDigit(c1);
    DigitValueOfDigit(c2);
    assert DigitValue('=') == None;
    Regroup2(b0, b1);
    assert Octet0(c0, c1) == b0 && Octet1(c1, c2) == b1;
  }

  lemma OneOctetQuantum(b0: Byte)
    ensures DecodeQuantum(Encode([b0]), true) == Some([b0])
  {
    var c0, c1 := b0 / 4, (b0 % 4) * 16;
    var q := Encode([b0]);
    assert q == [Digit(c0), Digit(c1), '=', '='];
    DigitValueOfDigit(c0);
    DigitValueOfDigit(c1);
    assert DigitValue('=') == None;
    assert Octet0(c0, c1) == b0;
  }

  lemma QuantumOfEncode(bs: seq<Byte>, rest: string)
    requires 1 <= |bs| <= 3
    requires |bs| < 3 ==> rest == []
    ensures |Encode(bs)| == 4
    ensures DecodeQuantum(Encode(bs), rest == []) == Some(bs)
  {
    if |bs| == 3 {
      assert bs == [bs[0], bs[1], bs[2]];
      assert Encode(bs[3..]) == "";
      FullQuantum(bs[0], bs[1], bs[2], rest == []);
    } else if |bs| == 2 {
      assert bs == [bs[0], bs[1]];
      TwoOctetQuantum(bs[0], bs[1]);
    } else {
      assert bs == [bs[0]];
      OneOctetQuantum(bs[0]);
    }
  }

  /** The decoder inverts the encoder on every octet sequence. */
  lemma {:induction false} DecodeEncode(bs: seq<Byte>)
    ensures Decode(Encode(bs)) == Some(bs)
    decreases |bs|
  {
    if |bs| > 0 {
      var n := if |bs| < 3 then |bs| else 3;
      var tail := Encode(bs[n..]);
      var s := Encode(bs);
      if |bs| >= 3 {
        assert s == Encode(bs[..3]) + tail;
      } else {
        assert bs[n..] == [] && tail == "";
        assert bs[..n] == bs;
      }
      QuantumOfEncode(bs[..n], tail);
      assert s[..4] == Encode(bs[..n]) && s[4..] == tail;
      DecodeEncode(bs[n..]);
      assert bs[..n] + bs[n..] == bs;
    }
  }
}
