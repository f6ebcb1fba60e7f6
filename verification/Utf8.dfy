/** UTF-8: section 3 of RFC 3629 for the encoding, section 4 for which byte sequences are valid. */
module Utf8 {

  type Byte = x: int | 0 <= x < 0x100

  /** A Unicode scalar value. */
  type Char = x: int | 0 <= x < 0xD800 || 0xE000 <= x < 0x11_0000

  // ---------- encoding ----------

  function Encode(c: Char): (b: seq<Byte>)
    ensures 1 <= |b| <= 4
  {
    if c < 0x80 then [c]
    else if c < 0x800 then [0xC0 + c / 0x40, 0x80 + c % 0x40]
    else if c < 0x1_0000 then [0xE0 + c / 0x1000, 0x80 + c / 0x40 % 0x40, 0x80 + c % 0x40]
    else [0xF0 + c / 0x4_0000, 0x80 + c / 0x1000 % 0x40, 0x80 + c / 0x40 % 0x40, 0x80 + c % 0x40]
  }

  function EncodeAll(cs: seq<Char>): seq<Byte> {
    if cs == [] then [] else Encode(cs[0]) + EncodeAll(cs[1..])
  }

  // ---------- validity and decoding ----------

  predicate Tail(b: Byte) { 0x80 <= b <= 0xBF }

  /** The first bytes of `b` are one of UTF8-1 to UTF8-4 of the grammar in RFC 3629. */
  predicate StartsChar(b: seq<Byte>) {
    || (|b| >= 1 && b[0] <= 0x7F)
    || (|b| >= 2 && 0xC2 <= b[0] <= 0xDF && Tail(b[1]))
    || (|b| >= 3 && b[0] == 0xE0 && 0xA0 <= b[1] <= 0xBF && Tail(b[2]))
    || (|b| >= 3 && (0xE1 <= b[0] <= 0xEC || 0xEE <= b[0] <= 0xEF) && Tail(b[1]) && Tail(b[2]))
    || (|b| >= 3 && b[0] == 0xED && 0x80 <= b[1] <= 0x9F && Tail(b[2]))
    || (|b| >= 4 && b[0] == 0xF0 && 0x90 <= b[1] <= 0xBF && Tail(b[2]) && Tail(b[3]))
    || (|b| >= 4 && 0xF1 <= b[0] <= 0xF3 && Tail(b[1]) && Tail(b[2]) && Tail(b[3]))
    || (|b| >= 4 && b[0] == 0xF4 && 0x80 <= b[1] <= 0x8F && Tail(b[2]) && Tail(b[3]))
  }

  function Width(lead: Byte): (n: nat)
    ensures 1 <= n <= 4
  {
    if lead <= 0x7F then 1 else if lead <= 0xDF then 2 else if lead <= 0xEF then 3 else 4
  }

  // The six payload bits of each tail byte, after those of the first byte.

  function Two(a: int, b: int): int { (a - 0xC0) * 0x40 + (b - 0x80) }
  function Three(a: int, b: int, c: int): int { ((a - 0xE0) * 0x40 + (b - 0x80)) * 0x40 + (c - 0x80) }
  function Four(a: int, b: int, c: int, d: int): int {
    (((a - 0xF0) * 0x40 + (b - 0x80)) * 0x40 + (c - 0x80)) * 0x40 + (d - 0x80)
  }

  function DecodeOne(b: seq<Byte>): Char
    requires StartsChar(b)
  {
    if b[0] <= 0x7F then b[0]
    else if b[0] <= 0xDF then Two(b[0], b[1])
    else if b[0] <= 0xEF then Three(b[0], b[1], b[2])
    else Four(b[0], b[1], b[2], b[3])
  }

  predicate Valid(b: seq<Byte>) {
    b == [] || (StartsChar(b) && Valid(b[Width(b[0])..]))
  }

  function DecodeAll(b: seq<Byte>): seq<Char>
    requires Valid(b)
  {
    if b == [] then [] else [DecodeOne(b)] + DecodeAll(b[Width(b[0])..])
  }

  // ---------- one character ----------

  lemma Digits(hi: int, lo: int)
    requires 0 <= lo < 0x40
    ensures (hi * 0x40 + lo) / 0x40 == hi && (hi * 0x40 + lo) % 0x40 == lo
  {
  }

  lemma Split(c: nat)
    ensures c == c / 0x40 * 0x40 + c % 0x40
    ensures c / 0x40 / 0x40 == c / 0x1000 && c / 0x1000 / 0x40 == c / 0x4_0000
    ensures c / 0x40 == c / 0x1000 * 0x40 + c / 0x40 % 0x40
    ensures c / 0x1000 == c / 0x4_0000 * 0x40 + c / 0x1000 % 0x40
  {
  }

  lemma DecodesEncoded(c: Char, rest: seq<Byte>)
    ensures var b := Encode(c) + rest; StartsChar(b) && Width(b[0]) == |Encode(c)| && DecodeOne(b) == c
    ensures (Encode(c) + rest)[|Encode(c)|..] == rest
  {
    Split(c);
    var b := Encode(c) + rest;
    assert b[..|Encode(c)|] == Encode(c);
  }

  lemma EncodesTwo(a: Byte, b: Byte)
    requires 0xC2 <= a <= 0xDF && Tail(b)
    ensures var c := Two(a, b); 0x80 <= c < 0x800 && Encode(c) == [a, b]
  {
    Digits(a - 0xC0, b - 0x80);
  }

  lemma EncodesThree(a: Byte, b: Byte, c: Byte)
    requires StartsChar([a, b, c]) && 0xE0 <= a
    ensures var ch := Three(a, b, c);
            0x800 <= ch < 0x1_0000 && !(0xD800 <= ch < 0xE000) && Encode(ch) == [a, b, c]
  {
    var hi := (a - 0xE0) * 0x40 + (b - 0x80);
    Digits(a as int - 0xE0, b as int - 0x80);
    Digits(hi, c as int - 0x80);
    Split(Three(a, b, c));
  }

  lemma EncodesFour(a: Byte, b: Byte, c: Byte, d: Byte)
    requires StartsChar([a, b, c, d]) && 0xF0 <= a
    ensures var ch := Four(a, b, c, d); 0x1_0000 <= ch < 0x11_0000 && Encode(ch) == [a, b, c, d]
  {
    var hi := (a as int - 0xF0) * 0x40 + (b as int - 0x80);
    var mid := hi * 0x40 + (c as int - 0x80);
    Digits(a as int - 0xF0, b as int - 0x80);
    Digits(hi, c as int - 0x80);
    Digits(mid, d as int - 0x80);
    Split(Four(a, b, c, d));
  }

  lemma EncodesDecoded(b: seq<Byte>)
    requires StartsChar(b)
    ensures Width(b[0]) <= |b| && Encode(DecodeOne(b)) == b[..Width(b[0])]
  {
    hide Encode, Two, Three, Four;
    if b[0] <= 0x7F {
      EncodesOne(b[0]);
    } else if b[0] <= 0xDF {
      EncodesTwo(b[0], b[1]);
    } else if b[0] <= 0xEF {
      EncodesThree(b[0], b[1], b[2]);
    } else {
      EncodesFour(b[0], b[1], b[2], b[3]);
    }
  }

  lemma EncodesOne(a: Byte)
    requires a <= 0x7F
    ensures Encode(a) == [a]
  {
  }

  // ---------- whole strings ----------

  lemma {:induction false} DecodesEncodedAll(cs: seq<Char>)
    ensures Valid(EncodeAll(cs)) && DecodeAll(EncodeAll(cs)) == cs
  {
    if cs != [] {
      DecodesEncodedAll(cs[1..]);
      DecodesEncoded(cs[0], EncodeAll(cs[1..]));
    }
  }

  lemma {:induction false} EncodesDecodedAll(b: seq<Byte>)
    requires Valid(b)
    ensures EncodeAll(DecodeAll(b)) == b
  {
    if b != [] {
      EncodesDecoded(b);
      EncodesDecodedAll(b[Width(b[0])..]);
      assert b == b[..Width(b[0])] + b[Width(b[0])..];
    }
  }

  lemma {:induction false} EncodeAppend(a: seq<Char>, b: seq<Char>)
    ensures EncodeAll(a + b) == EncodeAll(a) + EncodeAll(b)
  {
    hide Encode;
    if a == [] {
      assert a + b == b;
    } else {
      EncodeAppend(a[1..], b);
      assert (a + b)[1..] == a[1..] + b;
    }
  }

  lemma EncodeOne(c: Char)
    ensures EncodeAll([c]) == Encode(c)
  {
    assert EncodeAll([c]) == Encode(c) + EncodeAll([]);
  }

  /** A byte string is the encoding of at most one character string. */
  lemma EncodeInjective(a: seq<Char>, b: seq<Char>)
    requires EncodeAll(a) == EncodeAll(b)
    ensures a == b
  {
    DecodesEncodedAll(a);
    DecodesEncodedAll(b);
  }

  // ---------- the order of the encodings ----------

  /** `a` and `b` agree on their first `k` bytes, and then `a` has the smaller one. */
  predicate BelowAt(a: seq<Byte>, b: seq<Byte>, k: nat) {
    k < |a| && k < |b| && a[..k] == b[..k] && a[k] < b[k]
  }

  lemma Leads(c: Char)
    ensures var b := Encode(c)[0];
            && (c < 0x80 ==> b == c) && (0x80 <= c < 0x800 ==> 0xC2 <= b <= 0xDF)
            && (0x800 <= c < 0x1_0000 ==> 0xE0 <= b <= 0xEF) && (0x1_0000 <= c ==> 0xF0 <= b <= 0xF4)
  {
  }

  /** The bytes of an encoding are the digits of the character: the larger character has the larger digit where
      they first differ. */
  lemma Digit(c: nat, d: nat)
    requires c < d
    ensures c / 0x40 <= d / 0x40 && (c / 0x40 == d / 0x40 ==> c % 0x40 < d % 0x40)
  {
  }

  lemma EncodesInOrderTwo(c: Char, d: Char) returns (k: nat)
    requires 0x80 <= c < d < 0x800
    ensures BelowAt(Encode(c), Encode(d), k)
  {
    Digit(c, d);
    k := if c / 0x40 == d / 0x40 then 1 else 0;
  }

  lemma EncodesInOrderThree(c: Char, d: Char) returns (k: nat)
    requires 0x800 <= c < d < 0x1_0000
    ensures BelowAt(Encode(c), Encode(d), k)
  {
    Digit(c, d);
    Split(c);
    Split(d);
    if c / 0x40 < d / 0x40 {
      Digit(c / 0x40, d / 0x40);
    }
    k := if c / 0x40 == d / 0x40 then 2 else if c / 0x1000 == d / 0x1000 then 1 else 0;
  }

  lemma EncodesInOrderFour(c: Char, d: Char) returns (k: nat)
    requires 0x1_0000 <= c < d
    ensures BelowAt(Encode(c), Encode(d), k)
  {
    Digit(c, d);
    Split(c);
    Split(d);
    if c / 0x40 < d / 0x40 {
      Digit(c / 0x40, d / 0x40);
      if c / 0x1000 < d / 0x1000 {
        Digit(c / 0x1000, d / 0x1000);
      }
    }
    k := if c / 0x40 == d / 0x40 then 3 else if c / 0x1000 == d / 0x1000 then 2
         else if c / 0x4_0000 == d / 0x4_0000 then 1 else 0;
  }

  /** Encoding keeps the order of characters: byte strings compare as the characters do.  Together with the two
      round trips this leaves only one encoding. */
  lemma EncodesInOrder(c: Char, d: Char) returns (k: nat)
    requires c < d
    ensures BelowAt(Encode(c), Encode(d), k)
  {
    hide Encode;
    Leads(c);
    Leads(d);
    if 0x80 <= c && d < 0x800 {
      k := EncodesInOrderTwo(c, d);
    } else if 0x800 <= c && d < 0x1_0000 {
      k := EncodesInOrderThree(c, d);
    } else if 0x1_0000 <= c {
      k := EncodesInOrderFour(c, d);
    } else {
      k := 0;
      assert Encode(c)[..0] == Encode(d)[..0];
    }
  }
}
