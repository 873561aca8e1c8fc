/**
 * What base64 text says, bit by bit: sections 3 and 4 of RFC 4648 without
 * arithmetic on groups of three bytes.
 */
module Base64Meaning {
  import opened Common
  import opened JournalCodec

  const UPPER := "ABCDEFGHIJKLMNOPQRSTUVWXYZ"
  const LOWER := "abcdefghijklmnopqrstuvwxyz"
  const DIGITS := "0123456789"

  /** The table of the standard. */
  const ALPHABET := UPPER + LOWER + DIGITS + "+/"

  lemma UpperRow(v: nat)
    requires v < 26
    ensures UPPER[v] == ('A' as int + v) as char
  {
  }

  lemma LowerRow(v: nat)
    requires v < 26
    ensures LOWER[v] == ('a' as int + v) as char
  {
  }

  lemma DigitRow(v: nat)
    requires v < 10
    ensures DIGITS[v] == ('0' as int + v) as char
  {
  }

  lemma AlphabetRows(v: Sextet)
    ensures |ALPHABET| == 64 && ALPHABET[v] == ToChar(v)
  {
    if v < 26 {
      UpperRow(v);
    } else if v < 52 {
      LowerRow(v - 26);
    } else if v < 62 {
      DigitRow(v - 52);
    }
  }

  lemma PlaceMeans(table: string, c: char, v: Sextet)
    requires |table| == 64 && forall i: Sextet :: table[i] == ToChar(i)
    ensures FromChar(c) == Some(v) <==> c == table[v]
    ensures FromChar(c).Some? <==> c in table
  {
    CharInverse(v);
    if FromChar(c).Some? {
      assert ToChar(FromChar(c).value) == c;
    }
    hide ToChar, FromChar;
    forall i: Sextet ensures FromChar(table[i]) == Some(i) {
      CharInverse(i);
    }
  }

  /** A character stands for the value of its place in the table, and others for none. */
  lemma AlphabetMeans(c: char, v: Sextet)
    ensures |ALPHABET| == 64 && ToChar(v) == ALPHABET[v]
    ensures FromChar(c) == Some(v) <==> c == ALPHABET[v]
    ensures FromChar(c).Some? <==> c in ALPHABET
  {
    hide ToChar, FromChar;
    var table := ALPHABET;
    forall i: Sextet ensures |table| == 64 && table[i] == ToChar(i) {
      AlphabetRows(i);
    }
    PlaceMeans(table, c, v);
  }

  // ---------------------------------------------------------------------
  // Bits
  // ---------------------------------------------------------------------

  /** The lowest `k` bits of a number, the highest of them first. */
  function Bits(n: nat, k: nat): seq<bool> {
    if k == 0 then [] else Bits(n / 2, k - 1) + [n % 2 == 1]
  }

  function Pow2(k: nat): (r: nat)
    ensures r >= 1
  {
    if k == 0 then 1 else 2 * Pow2(k - 1)
  }

  lemma {:induction false} BitsSplit(high: nat, low: nat, k: nat, j: nat)
    requires low < Pow2(j)
    ensures Bits(high * Pow2(j) + low, k + j) == Bits(high, k) + Bits(low, j)
  {
    if j > 0 {
      var n := high * Pow2(j) + low;
      var half := high * Pow2(j - 1);
      assert high * Pow2(j) == 2 * half;
      assert n / 2 == half + low / 2 && n % 2 == low % 2;
      BitsSplit(high, low / 2, k, j - 1);
    }
  }

  /** The bits of the bytes. */
  function DataBits(data: Bytes): seq<bool> {
    if data == [] then [] else Bits(data[0] as int, 8) + DataBits(data[1..])
  }

  lemma BitsJoined(n: nat, high: nat, low: nat, k: nat, j: nat, m: nat)
    requires m == Pow2(j) && n == high * m + low && low < m
    ensures Bits(n, k + j) == Bits(high, k) + Bits(low, j)
  {
    BitsSplit(high, low, k, j);
  }

  lemma Powers()
    ensures Pow2(2) == 4 && Pow2(4) == 16 && Pow2(6) == 64
  {
    assert Pow2(3) == 8 && Pow2(5) == 32;
  }

  lemma ByteBits(p: Sextet, q: Sextet, r: Sextet, s: Sextet)
    ensures Bits(p * 4 + q / 16, 8) == Bits(p, 6) + Bits(q / 16, 2)
    ensures Bits(q % 16 * 16 + r / 4, 8) == Bits(q % 16, 4) + Bits(r / 4, 4)
    ensures Bits(r % 4 * 64 + s, 8) == Bits(r % 4, 2) + Bits(s, 6)
  {
    hide Bits;
    Powers();
    hide Pow2;
    BitsJoined(p * 4 + q / 16, p, q / 16, 6, 2, 4);
    BitsJoined(q % 16 * 16 + r / 4, q % 16, r / 4, 4, 4, 16);
    BitsJoined(r % 4 * 64 + s, r % 4, s, 2, 6, 64);
  }

  lemma SextetBits(q: Sextet, r: Sextet)
    ensures Bits(q, 6) == Bits(q / 16, 2) + Bits(q % 16, 4)
    ensures Bits(r, 6) == Bits(r / 4, 4) + Bits(r % 4, 2)
  {
    hide Bits;
    Powers();
    hide Pow2;
    BitsJoined(q, q / 16, q % 16, 2, 4, 16);
    BitsJoined(r, r / 4, r % 4, 4, 2, 4);
  }

  lemma Regrouped(p: seq<bool>, q: seq<bool>, u: seq<bool>, r: seq<bool>, v: seq<bool>, s: seq<bool>)
    ensures p + (q + u) + (r + v) + s == (p + q) + (u + r) + (v + s)
  {
  }

  lemma ThreeBits(x: byte, y: byte, z: byte)
    ensures DataBits([x, y, z]) == Bits(x as int, 8) + Bits(y as int, 8) + Bits(z as int, 8)
  {
    hide Bits;
    assert [x, y, z][1..] == [y, z] && [y, z][1..] == [z];
    assert DataBits([z]) == Bits(z as int, 8);
  }

  /** Four sextets and the three bytes made of them have the same bits. */
  lemma QuantumBits(p: Sextet, q: Sextet, r: Sextet, s: Sextet)
    ensures Bits(p, 6) + Bits(q, 6) + Bits(r, 6) + Bits(s, 6) == DataBits(Bytes3(p, q, r, s))
  {
    hide Bits, DataBits, Bytes3;
    var x := Bytes3(p, q, r, s);
    BytesAre(p, q, r, s);
    assert x == [x[0], x[1], x[2]];
    ThreeBits(x[0], x[1], x[2]);
    ByteBits(p, q, r, s);
    SextetBits(q, r);
    Regrouped(Bits(p, 6), Bits(q / 16, 2), Bits(q % 16, 4), Bits(r / 4, 4), Bits(r % 4, 2), Bits(s, 6));
  }

  /** The bits of the characters, six each; padding says nothing. */
  function TextBits(text: string): seq<bool> {
    if text == "" then []
    else (if FromChar(text[0]).Some? then Bits(FromChar(text[0]).value, 6) else []) + TextBits(text[1..])
  }

  // ---------------------------------------------------------------------
  // Which text is accepted
  // ---------------------------------------------------------------------

  /** Groups of four characters of the table, the last one ending in at most two signs of padding. */
  predicate Padded(text: string, k: nat) {
    && k <= 2 && |text| % 4 == 0 && k <= |text|
    && (forall i :: 0 <= i < |text| - k ==> FromChar(text[i]).Some?)
    && (forall i :: |text| - k <= i < |text| ==> text[i] == '=')
  }

  ghost predicate Base64Text(text: string) {
    exists k: nat :: Padded(text, k)
  }

  lemma FirstCharacter(c: char, rest: string)
    ensures TextBits([c] + rest) == TextBits([c]) + TextBits(rest)
  {
    OneCharacter(c);
    assert ([c] + rest)[1..] == rest;
  }

  lemma FourCharacters(a: char, b: char, c: char, d: char, rest: string)
    ensures TextBits([a, b, c, d] + rest) == TextBits([a]) + TextBits([b]) + TextBits([c]) + TextBits([d]) + TextBits(rest)
  {
    hide TextBits;
    FirstCharacter(a, [b, c, d] + rest);
    FirstCharacter(b, [c, d] + rest);
    FirstCharacter(c, [d] + rest);
    FirstCharacter(d, rest);
    assert [a] + ([b, c, d] + rest) == [a, b, c, d] + rest;
    assert [b] + ([c, d] + rest) == [b, c, d] + rest && [c] + ([d] + rest) == [c, d] + rest;
  }

  lemma OneCharacter(c: char)
    ensures TextBits([c]) == if FromChar(c).Some? then Bits(FromChar(c).value, 6) else []
  {
    assert TextBits([c][1..]) == [];
  }

  lemma {:induction false} DataBitsConcat(a: Bytes, b: Bytes)
    ensures DataBits(a + b) == DataBits(a) + DataBits(b)
  {
    if a == [] {
      assert a + b == b;
    } else {
      assert (a + b)[1..] == a[1..] + b;
      DataBitsConcat(a[1..], b);
    }
  }

  /** The decoded bytes say what the text says, as far as there are whole bytes. */
  ghost predicate Says(text: string, k: nat, data: Bytes) {
    4 * (|data| + k) == 3 * |text| && DataBits(data) <= TextBits(text)
  }

  lemma FullGroup(text: string, rest: Bytes, k: nat)
    requires |text| >= 4 && forall i :: 0 <= i < 4 ==> FromChar(text[i]).Some?
    requires Says(text[4..], k, rest)
    ensures var p, q, r, s := FromChar(text[0]), FromChar(text[1]), FromChar(text[2]), FromChar(text[3]);
            Says(text, k, Bytes3(p.value, q.value, r.value, s.value) + rest)
  {
    hide Bits, FromChar, Bytes3, DataBits, TextBits;
    var p, q, r, s := FromChar(text[0]).value, FromChar(text[1]).value, FromChar(text[2]).value, FromChar(text[3]).value;
    assert text == [text[0], text[1], text[2], text[3]] + text[4..];
    FourCharacters(text[0], text[1], text[2], text[3], text[4..]);
    OneCharacter(text[0]);
    OneCharacter(text[1]);
    OneCharacter(text[2]);
    OneCharacter(text[3]);
    QuantumBits(p, q, r, s);
    DataBitsConcat(Bytes3(p, q, r, s), rest);
  }

  lemma OneByteBits(p: Sextet, q: Sextet)
    ensures Bits(p, 6) + Bits(q, 6) == DataBits(Bytes3(p, q, 0, 0)[..1]) + Bits(q % 16, 4)
  {
    hide Bits, DataBits, Bytes3;
    BytesAre(p, q, 0, 0);
    var x := Bytes3(p, q, 0, 0);
    assert x[..1] == [x[0]];
    TwoBits(x[0], 0);
    ByteBits(p, q, 0, 0);
    SextetBits(q, 0);
  }

  lemma TwoByteBits(p: Sextet, q: Sextet, r: Sextet)
    ensures Bits(p, 6) + Bits(q, 6) + Bits(r, 6) == DataBits(Bytes3(p, q, r, 0)[..2]) + Bits(r % 4, 2)
  {
    hide Bits, DataBits, Bytes3;
    BytesAre(p, q, r, 0);
    var x := Bytes3(p, q, r, 0);
    assert x[..2] == [x[0], x[1]];
    TwoBits(x[0], x[1]);
    ByteBits(p, q, r, 0);
    SextetBits(q, r);
    RegroupedTwo(Bits(p, 6), Bits(q / 16, 2), Bits(q % 16, 4), Bits(r / 4, 4), Bits(r % 4, 2));
  }

  lemma RegroupedTwo(p: seq<bool>, q: seq<bool>, u: seq<bool>, r: seq<bool>, v: seq<bool>)
    ensures p + (q + u) + (r + v) == (p + q) + (u + r) + v
  {
  }

  lemma BytesAre(p: Sextet, q: Sextet, r: Sextet, s: Sextet)
    ensures var x := Bytes3(p, q, r, s);
            x[0] as int == p * 4 + q / 16 && x[1] as int == q % 16 * 16 + r / 4 && x[2] as int == r % 4 * 64 + s
  {
  }

  lemma TwoBits(x: byte, y: byte)
    ensures DataBits([x]) == Bits(x as int, 8) && DataBits([x, y]) == Bits(x as int, 8) + Bits(y as int, 8)
  {
    hide Bits;
    assert [x, y][1..] == [y];
    assert DataBits([]) == [];
    assert DataBits([y]) == Bits(y as int, 8);
  }

  /** A last group that ends in padding. */
  lemma PaddedGroup(text: string)
    requires |text| == 4 && FromChar(text[0]).Some? && FromChar(text[1]).Some? && text[3] == '='
    ensures text[2] == '=' ==> Says(text, 2, Bytes3(FromChar(text[0]).value, FromChar(text[1]).value, 0, 0)[..1])
    ensures FromChar(text[2]).Some? ==>
              Says(text, 1, Bytes3(FromChar(text[0]).value, FromChar(text[1]).value, FromChar(text[2]).value, 0)[..2])
  {
    assert FromChar('=').None?;
    hide Bits, FromChar, Bytes3, DataBits, TextBits;
    assert text == [text[0], text[1], text[2], text[3]] + "";
    FourCharacters(text[0], text[1], text[2], text[3], "");
    OneCharacter(text[0]);
    OneCharacter(text[1]);
    OneCharacter(text[2]);
    OneCharacter(text[3]);
    OneByteBits(FromChar(text[0]).value, FromChar(text[1]).value);
    if FromChar(text[2]).Some? {
      TwoByteBits(FromChar(text[0]).value, FromChar(text[1]).value, FromChar(text[2]).value);
    }
  }

  lemma PaddedTail(text: string, k: nat)
    requires |text| >= 4 && forall i :: 0 <= i < 4 ==> FromChar(text[i]).Some?
    ensures Padded(text, k) <==> Padded(text[4..], k)
  {
    assert FromChar('=').None?;
    hide FromChar;
    forall i | 4 <= i < |text| ensures text[i] == text[4..][i - 4] {}
    assert Padded(text, k) && k > 0 ==> text[|text| - k] == '=';
  }

  /** Text is decoded exactly when it is well padded, and to the bytes whose bits it spells. */
  lemma {:induction false} DecodeMeans(text: string)
    ensures Decode(text).Some? <==> Base64Text(text)
    ensures forall k: nat :: Padded(text, k) ==> Says(text, k, Decode(text).value)
  {
    assert FromChar('=').None?;
    hide FromChar, Bytes3, Says, Bits;
    if text == "" {
      assert Padded(text, 0);
      forall k: nat | Padded(text, k) ensures Says(text, k, []) {
        Nothing();
      }
    } else if |text| >= 4 {
      if forall i :: 0 <= i < 4 ==> FromChar(text[i]).Some? {
        DecodeMeans(text[4..]);
        WholeGroup(text);
      } else {
        LastGroup(text);
      }
    }
  }

  lemma Nothing()
    ensures Says("", 0, [])
  {
  }

  lemma WholeGroup(text: string)
    requires |text| >= 4 && forall i :: 0 <= i < 4 ==> FromChar(text[i]).Some?
    requires Decode(text[4..]).Some? <==> Base64Text(text[4..])
    requires forall k: nat :: Padded(text[4..], k) ==> Says(text[4..], k, Decode(text[4..]).value)
    ensures Decode(text).Some? <==> Base64Text(text)
    ensures forall k: nat :: Padded(text, k) ==> Says(text, k, Decode(text).value)
  {
    assert FromChar('=').None?;
    assert Decode(text).Some? <==> Decode(text[4..]).Some?;
    hide FromChar, Bytes3, Says, Padded;
    forall k: nat ensures Padded(text, k) <==> Padded(text[4..], k) {
      PaddedTail(text, k);
    }
    forall k: nat | Padded(text, k) ensures Says(text, k, Decode(text).value) {
      FullGroup(text, Decode(text[4..]).value, k);
    }
  }

  lemma FourPadded(text: string)
    requires |text| == 4
    ensures Padded(text, 0) <==> forall i :: 0 <= i < 4 ==> FromChar(text[i]).Some?
    ensures Padded(text, 1) <==> (forall i :: 0 <= i < 3 ==> FromChar(text[i]).Some?) && text[3] == '='
    ensures Padded(text, 2) <==> FromChar(text[0]).Some? && FromChar(text[1]).Some? && text[2] == '=' && text[3] == '='
  {
    hide FromChar;
  }

  lemma NotLast(text: string, k: nat)
    requires |text| >= 5 && exists i :: 0 <= i < 4 && FromChar(text[i]).None?
    ensures !Padded(text, k) && Decode(text).None?
  {
    hide FromChar, Bytes3;
  }

  /** A group with a character outside the table must be the last one and end in padding. */
  lemma LastGroup(text: string)
    requires |text| >= 4 && exists i :: 0 <= i < 4 && FromChar(text[i]).None?
    ensures Decode(text).Some? <==> Base64Text(text)
    ensures forall k: nat :: Padded(text, k) ==> Says(text, k, Decode(text).value)
  {
    hide FromChar, Says, Padded, Decode;
    if |text| > 4 {
      NotLast(text, 0);
      forall k: nat ensures !Padded(text, k) && Decode(text).None? {
        NotLast(text, k);
      }
    } else {
      FourDecoded(text);
      forall k: nat | Padded(text, k) ensures (k == 1 || k == 2) && Says(text, k, Decode(text).value) {
        PaddedFour(text, k);
      }
    }
  }

  lemma PaddedFour(text: string, k: nat)
    requires |text| == 4 && (exists i :: 0 <= i < 4 && FromChar(text[i]).None?) && Padded(text, k)
    ensures (k == 1 || k == 2) && Decode(text).Some? && Says(text, k, Decode(text).value)
  {
    hide FromChar, Bytes3, Says, Decode;
    FourPadded(text);
    FourDecoded(text);
    PaddedGroup(text);
  }

  lemma FourDecoded(text: string)
    requires |text| == 4 && exists i :: 0 <= i < 4 && FromChar(text[i]).None?
    ensures Decode(text).Some? <==> Padded(text, 1) || Padded(text, 2)
    ensures Padded(text, 1) ==> Decode(text) == Some(Bytes3(FromChar(text[0]).value, FromChar(text[1]).value, FromChar(text[2]).value, 0)[..2])
    ensures Padded(text, 2) ==> Decode(text) == Some(Bytes3(FromChar(text[0]).value, FromChar(text[1]).value, 0, 0)[..1])
  {
    assert FromChar('=').None?;
    hide FromChar, Bytes3;
    FourPadded(text);
    hide Padded;
  }

  // ---------------------------------------------------------------------
  // What is written
  // ---------------------------------------------------------------------

  lemma OneByteText(x: byte)
    ensures TextBits(Encode([x])) == DataBits([x]) + Bits(0, 4)
  {
    var a := x as int;
    var p, q := a / 4, a % 4 * 16;
    assert Encode([x]) == [ToChar(p), ToChar(q), '=', '='];
    QuantumInverse(a, 0, 0, p, q, 0, 0);
    assert Bytes3(p, q, 0, 0)[..1] == [x] && q % 16 == 0;
    assert FromChar('=').None?;
    hide Encode, Bytes3, Bits, DataBits, TextBits, FromChar, ToChar;
    GroupBits(ToChar(p), ToChar(q), '=', '=', "");
    CharInverse(p);
    CharInverse(q);
    OneByteBits(p, q);
  }

  lemma TwoByteText(x: byte, y: byte)
    ensures TextBits(Encode([x, y])) == DataBits([x, y]) + Bits(0, 2)
  {
    var a, b := x as int, y as int;
    var p, q, r := a / 4, a % 4 * 16 + b / 16, b % 16 * 4;
    assert Encode([x, y]) == [ToChar(p), ToChar(q), ToChar(r), '='];
    QuantumInverse(a, b, 0, p, q, r, 0);
    assert Bytes3(p, q, r, 0)[..2] == [x, y] && r % 4 == 0;
    assert FromChar('=').None?;
    hide Encode, Bytes3, Bits, DataBits, TextBits, FromChar, ToChar;
    GroupBits(ToChar(p), ToChar(q), ToChar(r), '=', "");
    CharInverse(p);
    CharInverse(q);
    CharInverse(r);
    TwoByteBits(p, q, r);
  }

  function CharBits(c: char): seq<bool> {
    if FromChar(c).Some? then Bits(FromChar(c).value, 6) else []
  }

  lemma GroupBits(a: char, b: char, c: char, d: char, rest: string)
    ensures TextBits([a, b, c, d] + rest) == CharBits(a) + CharBits(b) + CharBits(c) + CharBits(d) + TextBits(rest)
    ensures rest == "" ==> TextBits([a, b, c, d]) == CharBits(a) + CharBits(b) + CharBits(c) + CharBits(d)
  {
    assert TextBits("") == [];
    hide TextBits, FromChar, Bits;
    FourCharacters(a, b, c, d, rest);
    OneCharacter(a);
    OneCharacter(b);
    OneCharacter(c);
    OneCharacter(d);
    assert [a, b, c, d] + "" == [a, b, c, d];
  }

  lemma ThreeByteText(x: byte, y: byte, z: byte, rest: string)
    ensures TextBits(Encode3(x as int, y as int, z as int) + rest) == DataBits([x, y, z]) + TextBits(rest)
  {
    var a, b, c := x as int, y as int, z as int;
    var p, q, r, s := a / 4, a % 4 * 16 + b / 16, b % 16 * 4 + c / 64, c % 64;
    assert Encode3(a, b, c) == [ToChar(p), ToChar(q), ToChar(r), ToChar(s)];
    QuantumInverse(a, b, c, p, q, r, s);
    hide Encode3, Bytes3, Bits, DataBits, TextBits, FromChar, ToChar;
    GroupBits(ToChar(p), ToChar(q), ToChar(r), ToChar(s), rest);
    CharInverse(p);
    CharInverse(q);
    CharInverse(r);
    CharInverse(s);
    QuantumBits(p, q, r, s);
  }

  /** How many signs of padding `n` bytes need. */
  function Fill(n: nat): nat {
    (3 - n % 3) % 3
  }

  lemma FillIs(n: nat, k: nat, m: nat)
    requires k <= 2 && 4 * (n + k) == 3 * m
    ensures k == Fill(n)
  {
  }

  lemma {:induction false} EncodeBits(data: Bytes)
    ensures TextBits(Encode(data)) == DataBits(data) + Bits(0, 2 * Fill(|data|))
  {
    assert Bits(0, 0) == [] && TextBits("") == [] && DataBits([]) == [];
    hide Bits, TextBits, DataBits;
    if data == [] {
      assert Encode(data) == "";
    } else if |data| == 1 {
      assert data == [data[0]];
      OneByteText(data[0]);
    } else if |data| == 2 {
      assert data == [data[0], data[1]];
      TwoByteText(data[0], data[1]);
    } else {
      EncodeBits(data[3..]);
      FillAgain(|data|);
      EncodeBitsMore(data, Bits(0, 2 * Fill(|data|)));
    }
  }

  lemma EncodeStep(data: Bytes)
    requires |data| >= 3
    ensures Encode(data) == Encode3(data[0] as int, data[1] as int, data[2] as int) + Encode(data[3..])
  {
    hide Encode3;
  }

  lemma EncodeBitsMore(data: Bytes, zeros: seq<bool>)
    requires |data| >= 3 && TextBits(Encode(data[3..])) == DataBits(data[3..]) + zeros
    ensures TextBits(Encode(data)) == DataBits(data) + zeros
  {
    hide TextBits, DataBits, Encode3, Encode;
    var first, rest := [data[0], data[1], data[2]], data[3..];
    EncodeStep(data);
    ThreeByteText(data[0], data[1], data[2], Encode(rest));
    assert data == first + rest;
    DataBitsConcat(first, rest);
  }

  lemma FillAgain(n: nat)
    requires n >= 3
    ensures Fill(n) == Fill(n - 3)
  {
    assert n % 3 == (n - 3) % 3;
  }

  /** An encoding is padded as its length asks, and its bits are those of the bytes, filled up with zeros. */
  lemma EncodeMeans(data: Bytes)
    ensures var k := Fill(|data|);
            Padded(Encode(data), k) && TextBits(Encode(data)) == DataBits(data) + Bits(0, 2 * k)
  {
    hide Encode, Decode, Bits, TextBits, DataBits, FromChar, Fill;
    EncodeBits(data);
    Base64RoundTrip(data);
    DecodeMeans(Encode(data));
    var k: nat :| Padded(Encode(data), k);
    FillIs(|data|, k, |Encode(data)|);
  }
}
