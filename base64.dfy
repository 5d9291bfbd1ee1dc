/** The standard base64 alphabet of section 4 of RFC 4648, as CPython's
    `base64.b64encode` and `base64.b64decode(s, validate=True)` apply it.
    Both work on bytes: an encoded text is the sequence of its ASCII codes. */
module Base64 {
  import opened Wrappers
  import opened Json

  /** The padding byte '='. */
  const Pad: Byte := 61

  type Sextet = v: int | 0 <= v < 64

  /** The 6-bit value an alphabet byte stands for, or -1 for a byte outside
      `[A-Za-z0-9+/]`. */
  function SextetOf(c: Byte): (v: int)
    ensures -1 <= v < 64
    ensures c == Pad ==> v == -1
  {
    if 65 <= c <= 90 then c - 65        // 'A'..'Z'
    else if 97 <= c <= 122 then c - 71  // 'a'..'z'
    else if 48 <= c <= 57 then c + 4    // '0'..'9'
    else if c == 43 then 62             // '+'
    else if c == 47 then 63             // '/'
    else -1
  }

  predicate IsAlphabet(c: Byte) {
    SextetOf(c) >= 0
  }

  /** The alphabet byte that encodes a 6-bit value; it is never '='. */
  function CharOf(v: Sextet): (c: Byte)
    ensures SextetOf(c) == v
    ensures c != Pad && c < 128
  {
    if v < 26 then v + 65
    else if v < 52 then v + 71
    else if v < 62 then v - 4
    else if v == 62 then 43
    else 47
  }

  /** Every alphabet byte is the encoding of its own value. */
  lemma CharOfSextetOf(c: Byte)
    requires IsAlphabet(c)
    ensures CharOf(SextetOf(c)) == c
  {
  }

  /** The 6-bit groups of `bs`, most significant first, before padding: four
      per full 3-byte group, then two for a 1-byte tail or three for a 2-byte
      tail whose unused low bits are zero. */
  function Sextets(bs: Bytes): seq<Sextet> {
    if |bs| >= 3 then
      [Sextet0(bs[0]), Sextet1(bs[0], bs[1]), Sextet2(bs[1], bs[2]), Sextet3(bs[2])] + Sextets(bs[3..])
    else if |bs| == 2 then
      [Sextet0(bs[0]), Sextet1(bs[0], bs[1]), Sextet2(bs[1], 0)]
    else if |bs| == 1 then
      [Sextet0(bs[0]), Sextet1(bs[0], 0)]
    else
      []
  }

  /** A full group gives four sextets, a 1-byte tail two and a 2-byte tail three. */
  lemma {:induction false} SextetsLength(bs: Bytes)
    ensures |Sextets(bs)| % 4 == (if |bs| % 3 == 0 then 0 else |bs| % 3 + 1)
    decreases |bs|
  {
    if |bs| >= 3 {
      SextetsLength(bs[3..]);
      assert |Sextets(bs)| == 4 + |Sextets(bs[3..])|;
      assert |bs[3..]| % 3 == |bs| % 3;
    }
  }

  /** The high six bits of the first byte of a group. */
  function Sextet0(b0: Byte): Sextet {
    (b0 as int) / 4
  }

  /** The low two bits of the first byte and the high four of the second. */
  function Sextet1(b0: Byte, b1: Byte): Sextet {
    ((b0 as int) % 4) * 16 + (b1 as int) / 16
  }

  /** The low four bits of the second byte and the high two of the third. */
  function Sextet2(b1: Byte, b2: Byte): Sextet {
    ((b1 as int) % 16) * 4 + (b2 as int) / 64
  }

  /** The low six bits of the third byte. */
  function Sextet3(b2: Byte): Sextet {
    (b2 as int) % 64
  }

  function Chars(v: seq<Sextet>): (cs: Bytes)
    ensures |cs| == |v|
    ensures forall i :: 0 <= i < |v| ==> cs[i] == CharOf(v[i])
  {
    seq(|v|, i requires 0 <= i < |v| => CharOf(v[i]))
  }

  /** The '=' bytes that fill the last quantum up to four characters. */
  function Padding(n: nat): (p: Bytes)
    ensures |p| == (if n % 3 == 0 then 0 else 3 - n % 3)
    ensures forall i :: 0 <= i < |p| ==> p[i] == Pad
  {
    if n % 3 == 1 then [Pad, Pad] else if n % 3 == 2 then [Pad] else []
  }

  /** `base64.b64encode(bs)`. */
  function Encode(bs: Bytes): (e: Bytes)
    ensures |e| % 4 == 0
    ensures forall i :: 0 <= i < |e| ==> IsAlphabet(e[i]) || e[i] == Pad
    ensures forall i :: 0 <= i < |e| ==> e[i] < 128
  {
    SextetsLength(bs);
    Chars(Sextets(bs)) + Padding(|bs|)
  }

  /** The bytes a run of 6-bit groups decodes to, as CPython's non-strict
      `binascii.a2b_base64` computes them: every full quantum gives three
      bytes, a 2-group tail one and a 3-group tail two; the tail's leftover
      low bits are dropped, whatever their value. A single group over, which
      `Decode` rejects before it gets here, gives nothing. */
  function Unsextets(v: seq<Sextet>): Bytes {
    if |v| >= 4 then
      [First(v[0], v[1]), Second(v[1], v[2]), Third(v[2], v[3])] + Unsextets(v[4..])
    else if |v| == 3 then
      [First(v[0], v[1]), Second(v[1], v[2])]
    else if |v| == 2 then
      [First(v[0], v[1])]
    else
      []
  }

  /** The byte made of all six bits of `a` and the high two of `b`. */
  function First(a: Sextet, b: Sextet): Byte {
    (a as int) * 4 + (b as int) / 16
  }

  /** The byte made of the low four bits of `a` and the high four of `b`. */
  function Second(a: Sextet, b: Sextet): Byte {
    ((a as int) % 16) * 16 + (b as int) / 4
  }

  /** The byte made of the low two bits of `a` and all six of `b`. */
  function Third(a: Sextet, b: Sextet): Byte {
    ((a as int) % 4) * 64 + (b as int)
  }

  function ValuesOf(data: Bytes): (v: seq<Sextet>)
    requires forall i :: 0 <= i < |data| ==> IsAlphabet(data[i])
    ensures |v| == |data|
    ensures forall i :: 0 <= i < |data| ==> v[i] == SextetOf(data[i])
  {
    seq(|data|, i requires 0 <= i < |data| && IsAlphabet(data[i]) => SextetOf(data[i]) as Sextet)
  }

  /** How many '=' end `s`, counting at most two. */
  function TrailingPads(s: Bytes): (p: nat)
    ensures p <= 2 && p <= |s|
    ensures forall i :: |s| - p <= i < |s| ==> s[i] == Pad
  {
    if |s| >= 2 && s[|s| - 2] == Pad && s[|s| - 1] == Pad then 2
    else if |s| >= 1 && s[|s| - 1] == Pad then 1
    else 0
  }

  /** The data bytes of `s`, padding stripped. */
  function DataPart(s: Bytes): Bytes {
    s[..|s| - TrailingPads(s)]
  }

  /** Whether the data length and the padding fit together, as the
      non-strict decoder checks them once the text is known to match
      `[A-Za-z0-9+/]*={0,2}`. A whole number of quanta accepts any
      padding; two groups over need both '='; three groups over need at
      least one (decoding stops at it). */
  predicate PaddingAccepted(dataLength: nat, pads: nat) {
    || dataLength % 4 == 0
    || (dataLength % 4 == 2 && pads == 2)
    || (dataLength % 4 == 3 && pads >= 1)
  }

  /** `base64.b64decode(s, validate=True)`: `None` where CPython raises
      `binascii.Error` (a byte outside the alphabet before the padding, more
      than two '=', or a padding the decoder rejects). */
  function Decode(s: Bytes): (r: Option<Bytes>)
    ensures r.Some? <==>
      (forall i :: 0 <= i < |DataPart(s)| ==> IsAlphabet(DataPart(s)[i]))
      && PaddingAccepted(|DataPart(s)|, TrailingPads(s))
  {
    var data := DataPart(s);
    if forall i :: 0 <= i < |data| ==> IsAlphabet(data[i]) then
      if PaddingAccepted(|data|, TrailingPads(s)) then Some(Unsextets(ValuesOf(data)))
      else None
    else None
  }

  /** The three bytes of a full group come back from its four sextets. */
  lemma FullGroup(b0: Byte, b1: Byte, b2: Byte)
    ensures First(Sextet0(b0), Sextet1(b0, b1)) == b0
    ensures Second(Sextet1(b0, b1), Sextet2(b1, b2)) == b1
    ensures Third(Sextet2(b1, b2), Sextet3(b2)) == b2
  {
    assert ((b0 % 4) * 16 + b1 / 16) / 16 == b0 % 4;
    assert ((b0 % 4) * 16 + b1 / 16) % 16 == b1 / 16;
    assert ((b1 % 16) * 4 + b2 / 64) / 4 == b1 % 16;
    assert ((b1 % 16) * 4 + b2 / 64) % 4 == b2 / 64;
  }

  /** The sextets of a full group come before those of the rest. */
  lemma SextetsSplit(bs: Bytes)
    requires |bs| >= 3
    ensures Sextets(bs) == Sextets(bs[..3]) + Sextets(bs[3..])
  {
    assert bs[..3][3..] == [];
  }

  /** A full quantum in front decodes on its own. */
  lemma UnsextetsSplit(g: seq<Sextet>, rest: seq<Sextet>)
    requires |g| == 4
    ensures Unsextets(g + rest) == Unsextets(g) + Unsextets(rest)
  {
    assert (g + rest)[4..] == rest;
    assert g[4..] == [];
  }

  lemma SextetsOfGroup(b0: Byte, b1: Byte, b2: Byte)
    ensures Sextets([b0, b1, b2]) == [Sextet0(b0), Sextet1(b0, b1), Sextet2(b1, b2), Sextet3(b2)]
    ensures Sextets([b0, b1]) == [Sextet0(b0), Sextet1(b0, b1), Sextet2(b1, 0)]
    ensures Sextets([b0]) == [Sextet0(b0), Sextet1(b0, 0)]
  {
    assert [b0, b1, b2][3..] == [];
  }

  lemma UnsextetsOfGroup(v0: Sextet, v1: Sextet, v2: Sextet, v3: Sextet)
    ensures Unsextets([v0, v1, v2, v3]) == [First(v0, v1), Second(v1, v2), Third(v2, v3)]
    ensures Unsextets([v0, v1, v2]) == [First(v0, v1), Second(v1, v2)]
    ensures Unsextets([v0, v1]) == [First(v0, v1)]
  {
    assert [v0, v1, v2, v3][4..] == [];
  }

  lemma UnsextetsSextets3(b0: Byte, b1: Byte, b2: Byte)
    ensures Unsextets(Sextets([b0, b1, b2])) == [b0, b1, b2]
  {
    SextetsOfGroup(b0, b1, b2);
    UnsextetsOfGroup(Sextet0(b0), Sextet1(b0, b1), Sextet2(b1, b2), Sextet3(b2));
    FullGroup(b0, b1, b2);
  }

  lemma UnsextetsSextets2(b0: Byte, b1: Byte)
    ensures Unsextets(Sextets([b0, b1])) == [b0, b1]
  {
    SextetsOfGroup(b0, b1, 0);
    UnsextetsOfGroup(Sextet0(b0), Sextet1(b0, b1), Sextet2(b1, 0), 0);
    FullGroup(b0, b1, 0);
  }

  lemma UnsextetsSextets1(b0: Byte)
    ensures Unsextets(Sextets([b0])) == [b0]
  {
    SextetsOfGroup(b0, 0, 0);
    UnsextetsOfGroup(Sextet0(b0), Sextet1(b0, 0), 0, 0);
    FullGroup(b0, 0, 0);
  }

  /** Grouping bytes into sextets and back is the identity. */
  lemma {:induction false} UnsextetsSextets(bs: Bytes)
    ensures Unsextets(Sextets(bs)) == bs
    decreases |bs|
  {
    if |bs| > 3 {
      SextetsSplit(bs);
      UnsextetsSplit(Sextets(bs[..3]), Sextets(bs[3..]));
      assert bs[..3] == [bs[0], bs[1], bs[2]];
      UnsextetsSextets3(bs[0], bs[1], bs[2]);
      UnsextetsSextets(bs[3..]);
      assert bs[..3] + bs[3..] == bs;
    } else if |bs| == 3 {
      assert bs == [bs[0], bs[1], bs[2]];
      UnsextetsSextets3(bs[0], bs[1], bs[2]);
    } else if |bs| == 2 {
      assert bs == [bs[0], bs[1]];
      UnsextetsSextets2(bs[0], bs[1]);
    } else if |bs| == 1 {
      assert bs == [bs[0]];
      UnsextetsSextets1(bs[0]);
    }
  }

  /** Only the empty input encodes to the empty text. */
  lemma EncodeEmpty(bs: Bytes)
    ensures Encode(bs) == [] <==> bs == []
  {
    if bs != [] {
      assert |Sextets(bs)| >= 2;
    }
  }

  /** The padding `Encode` appends is exactly what `TrailingPads` counts. */
  lemma TrailingPadsOfEncode(bs: Bytes)
    ensures TrailingPads(Encode(bs)) == |Padding(|bs|)|
    ensures DataPart(Encode(bs)) == Chars(Sextets(bs))
  {
    var e := Encode(bs);
    var v := Sextets(bs);
    var n := |v|;
    assert e[..n] == Chars(v);
    if |bs| % 3 == 0 {
      if |e| > 0 {
        assert e[|e| - 1] == CharOf(v[n - 1]);
      }
    } else if |bs| % 3 == 2 {
      assert e[|e| - 2] == CharOf(v[n - 1]);
    }
  }

  lemma ValuesOfChars(v: seq<Sextet>)
    ensures ValuesOf(Chars(v)) == v
  {
  }

  /** Decoding what `b64encode` produced gives back the original bytes
      (section 4 of RFC 4648). */
  lemma DecodeEncode(bs: Bytes)
    ensures Decode(Encode(bs)) == Some(bs)
  {
    var v := Sextets(bs);
    SextetsLength(bs);
    TrailingPadsOfEncode(bs);
    ValuesOfChars(v);
    UnsextetsSextets(bs);
    assert PaddingAccepted(|Chars(v)|, |Padding(|bs|)|);
  }
}
