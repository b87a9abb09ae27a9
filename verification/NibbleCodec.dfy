/** Packing 4-bit values two to a byte, and eight to a 32-bit word. */
module NibbleCodec {

  type Byte = bv8

  function Masked(values: seq<Byte>): seq<Byte> {
    seq(|values|, i requires 0 <= i < |values| => values[i] & 0x0F)
  }

  function PackedByte(values: seq<Byte>, i: nat): Byte
    requires 2 * i < |values|
  {
    if 2 * i + 1 < |values| then (values[2 * i] & 0x0F) | ((values[2 * i + 1] & 0x0F) << 4)
    else values[2 * i] & 0x0F
  }

  function Packed(values: seq<Byte>): (packed: seq<Byte>)
    ensures |packed| == (|values| + 1) / 2
  {
    seq((|values| + 1) / 2, i requires 0 <= i < (|values| + 1) / 2 => PackedByte(values, i))
  }

  /** Nibble `j` of a byte string, low nibbles first. */
  function Nibble(packed: seq<Byte>, j: nat): Byte
    requires j < 2 * |packed|
  {
    if j % 2 == 0 then packed[j / 2] & 0x0F else (packed[j / 2] >> 4) & 0x0F
  }

  function Nibbles(packed: seq<Byte>, n: nat): (values: seq<Byte>)
    requires n <= 2 * |packed|
    ensures |values| == n
  {
    seq(n, j requires 0 <= j < n => Nibble(packed, j))
  }

  function Unpacked(packed: seq<Byte>, numValues: nat): seq<Byte> {
    Nibbles(packed, if numValues <= 2 * |packed| then numValues else 2 * |packed|)
  }

  method PackI4(values: seq<Byte>) returns (packed: array<Byte>)
    ensures fresh(packed) && packed[..] == Packed(values)
  {
    var packedLen := (|values| + 1) / 2;
    packed := new Byte[packedLen](_ => 0);
    for i := 0 to |values| / 2
      invariant forall k | 0 <= k < i :: packed[k] == PackedByte(values, k)
    {
      packed[i] := (values[i * 2] & 0x0F) | ((values[i * 2 + 1] & 0x0F) << 4);
    }
    if |values| % 2 == 1 {
      packed[packedLen - 1] := values[|values| - 1] & 0x0F;
    }
    assert forall k | 0 <= k < packedLen :: packed[k] == PackedByte(values, k);
  }

  /** Unpacks byte by byte; values pushed beyond the requested number are cut off at the end. */
  method UnpackI4(packed: seq<Byte>, numValues: nat) returns (values: seq<Byte>)
    ensures values == Unpacked(packed, numValues)
  {
    values := [];
    for i := 0 to |packed|
      invariant |values| >= (if numValues <= 2 * i then numValues else 2 * i)
      invariant |values| <= 2 * i
      invariant |values| < 2 * i ==> |values| >= numValues
      invariant forall j | 0 <= j < |values| && j < numValues :: values[j] == Nibble(packed, j)
    {
      values := values + [packed[i] & 0x0F];
      if |values| < numValues {
        values := values + [(packed[i] >> 4) & 0x0F];
      }
    }
    if numValues < |values| {
      values := values[..numValues];
    }
  }

  lemma LowOfPair(a: Byte, b: Byte)
    ensures ((a & 0x0F) | ((b & 0x0F) << 4)) & 0x0F == a & 0x0F
    ensures (((a & 0x0F) | ((b & 0x0F) << 4)) >> 4) & 0x0F == b & 0x0F
    ensures (a & 0x0F) & 0x0F == a & 0x0F
  {
  }

  lemma PairOfHalves(c: Byte)
    ensures ((c & 0x0F) & 0x0F) | ((((c >> 4) & 0x0F) & 0x0F) << 4) == c
  {
  }

  /** Packing then unpacking gives back the low four bits of every value, odd lengths included. */
  lemma UnpackPack(values: seq<Byte>)
    ensures Unpacked(Packed(values), |values|) == Masked(values)
  {
    forall j | 0 <= j < |values|
      ensures Nibble(Packed(values), j) == values[j] & 0x0F
    {
      var i := j / 2;
      if 2 * i + 1 < |values| {
        LowOfPair(values[2 * i], values[2 * i + 1]);
      } else {
        LowOfPair(values[2 * i], 0);
      }
    }
  }

  /** Unpacking a whole byte string and packing it again is the identity. */
  lemma PackUnpack(packed: seq<Byte>)
    ensures Packed(Unpacked(packed, 2 * |packed|)) == packed
  {
    var values := Unpacked(packed, 2 * |packed|);
    forall i | 0 <= i < |packed|
      ensures PackedByte(values, i) == packed[i]
    {
      PairOfHalves(packed[i]);
      assert values[2 * i] == Nibble(packed, 2 * i) && values[2 * i + 1] == Nibble(packed, 2 * i + 1);
    }
  }

  // ---------------------------------------------------------------- eight values per word

  type Word = bv32

  function UnpackWord(w: Word): (digits: seq<Byte>)
    ensures |digits| == 8
  {
    [ (w & 0x0F) as Byte, ((w >> 4) & 0x0F) as Byte, ((w >> 8) & 0x0F) as Byte, ((w >> 12) & 0x0F) as Byte,
      ((w >> 16) & 0x0F) as Byte, ((w >> 20) & 0x0F) as Byte, ((w >> 24) & 0x0F) as Byte, ((w >> 28) & 0x0F) as Byte ]
  }

  /** The word's bytes in little-endian order. */
  function Bytes(w: Word): seq<Byte> {
    [ (w & 0xFF) as Byte, ((w >> 8) & 0xFF) as Byte, ((w >> 16) & 0xFF) as Byte, ((w >> 24) & 0xFF) as Byte ]
  }

  lemma NibbleOfByte(w: Word)
    ensures ((w & 0xFF) as Byte) & 0x0F == (w & 0x0F) as Byte
    ensures (((w & 0xFF) as Byte) >> 4) & 0x0F == ((w >> 4) & 0x0F) as Byte
  {
  }

  lemma DigitsOfBytes(w: Word)
    ensures var d, b := UnpackWord(w), Bytes(w);
      && |b| == 4
      && d[0] == b[0] & 0x0F && d[1] == (b[0] >> 4) & 0x0F && d[2] == b[1] & 0x0F && d[3] == (b[1] >> 4) & 0x0F
      && d[4] == b[2] & 0x0F && d[5] == (b[2] >> 4) & 0x0F && d[6] == b[3] & 0x0F && d[7] == (b[3] >> 4) & 0x0F
  {
    NibbleOfByte(w);
    NibbleOfByte(w >> 8);
    NibbleOfByte(w >> 16);
    NibbleOfByte(w >> 24);
    assert (w >> 8) >> 4 == w >> 12 && (w >> 16) >> 4 == w >> 20 && (w >> 24) >> 4 == w >> 28;
  }

  /** The two layouts agree: a word holds the nibbles of its little-endian bytes. */
  lemma WordIsBytes(w: Word)
    ensures UnpackWord(w) == Unpacked(Bytes(w), 8)
  {
    DigitsOfBytes(w);
    hide UnpackWord, Bytes;
    var d, b := UnpackWord(w), Bytes(w);
    forall j | 0 <= j < 8
      ensures d[j] == Nibble(b, j)
    {
      assert j == 0 || j == 1 || j == 2 || j == 3 || j == 4 || j == 5 || j == 6 || j == 7;
    }
  }

  function Digit(digits: seq<Byte>, k: nat): Word
    requires k < |digits|
  {
    digits[k] as Word
  }

  lemma LowDigits(w: Word)
    ensures var d := UnpackWord(w);
      Digit(d, 0) | (Digit(d, 1) << 4) | (Digit(d, 2) << 8) | (Digit(d, 3) << 12) == w & 0xFFFF
  {
  }

  lemma HighDigits(w: Word)
    ensures var d := UnpackWord(w);
      (Digit(d, 4) << 16) | (Digit(d, 5) << 20) | (Digit(d, 6) << 24) | (Digit(d, 7) << 28) == w & 0xFFFF0000
  {
  }

  lemma Halves(w: Word)
    ensures (w & 0xFFFF) | (w & 0xFFFF0000) == w
  {
  }

  lemma EitherOrder(a: Word, b: Word, c: Word, d: Word, e: Word)
    ensures a | (b | c | d | e) == a | b | c | d | e
  {
  }

  /** The eight digits are below sixteen and rebuild the word. */
  lemma DigitsRebuildWord(w: Word)
    ensures var d := UnpackWord(w);
      && (forall k | 0 <= k < 8 :: d[k] <= 0x0F)
      && Digit(d, 0) | (Digit(d, 1) << 4) | (Digit(d, 2) << 8) | (Digit(d, 3) << 12)
         | (Digit(d, 4) << 16) | (Digit(d, 5) << 20) | (Digit(d, 6) << 24) | (Digit(d, 7) << 28) == w
  {
    LowDigits(w);
    HighDigits(w);
    Halves(w);
    SmallDigits(w);
    hide UnpackWord;
    var d := UnpackWord(w);
    var low := Digit(d, 0) | (Digit(d, 1) << 4) | (Digit(d, 2) << 8) | (Digit(d, 3) << 12);
    EitherOrder(low, Digit(d, 4) << 16, Digit(d, 5) << 20, Digit(d, 6) << 24, Digit(d, 7) << 28);
  }

  lemma SmallDigits(w: Word)
    ensures forall k | 0 <= k < 8 :: UnpackWord(w)[k] <= 0x0F
  {
  }

  /** The four bytes rebuild the word, the lowest first. */
  lemma BytesRebuildWord(w: Word)
    ensures var b := Bytes(w);
      |b| == 4 && (b[0] as Word) | (b[1] as Word << 8) | (b[2] as Word << 16) | (b[3] as Word << 24) == w
  {
  }
}
