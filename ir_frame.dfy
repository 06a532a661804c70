/** The wire format of the IR link: one byte per frame.
    A frame is start bit 1, the eight data bits least significant first,
    an even-parity bit and stop bit 1; the receiver, synchronised on the
    start bit, samples the ten bits after it. */
module IRFrame {
  import opened Bits

  /** NO_VALID_DATA: the receive mailbox holds no byte. */
  const NoValidData: int := -1

  /** uint8_t */
  type Byte = x: nat | x < 256

  /** Even parity of a byte: 1 when it has an odd number of set bits. */
  function Parity(b: Byte): (p: nat)
    ensures p < 2
    ensures (BitsBelow(b, 8) + p) % 2 == 0
  {
    BitsBelow(b, 8) % 2
  }

  /** The parity loop of `sendByte`: adds `(data >> i) & 0x01` for i in 0..7. */
  method TxParity(data: Byte) returns (parity: nat)
    ensures parity == Parity(data)
  {
    parity := 0;
    for i := 0 to 8
      invariant parity == BitsBelow(data, i)
    {
      parity := parity + Shr(data, i) % 2;
    }
    parity := parity % 2;
  }

  /** The parity loop of `receiveData`: counts the i with `(buffer & (1 << i)) != 0`. */
  method RxParity(buffer: Byte) returns (evenParity: nat)
    ensures evenParity == Parity(buffer)
  {
    evenParity := 0;
    for i := 0 to 8
      invariant evenParity == BitsBelow(buffer, i)
    {
      if Bit(buffer, i) {
        evenParity := evenParity + 1;
      }
    }
    evenParity := evenParity % 2;
  }

  /** The transmit shift register built by `sendByte`:
      `1 + (data << 1) + (parity << 9) + 0x0400`, an 11-bit frame. */
  function Frame(b: Byte): (f: nat)
    ensures f < 2048
  {
    1 + b * 2 + Parity(b) * 512 + 0x0400
  }

  /** Bit i of the frame of b: start bit 0, data bits 1 to 8, parity bit 9,
      stop bit 10, nothing above. */
  predicate FrameBit(b: Byte, i: nat)
  {
    i == 0 || (1 <= i <= 8 && Bit(b, i - 1)) || (i == 9 && Parity(b) == 1) || i == 10
  }

  /** Verdict of the receiver on a complete 10-sample accumulator: the low
      byte when bit 8 is its even parity and bit 9 (stop) is 1, else
      NO_VALID_DATA. */
  function Decode(acc: nat): (r: int)
    ensures r == NoValidData || (0 <= r < 256 && r == acc % 256)
  {
    var data := acc % 256;
    if (acc / 256) % 2 != Parity(data) then NoValidData
    else if (acc / 512) % 2 != 1 then NoValidData
    else data
  }

  /** What a receiver aligned on the start bit samples from a clean channel:
      sample i is frame bit i + 1. */
  function CleanSamples(b: Byte): (s: seq<bool>)
    ensures |s| == 10
  {
    seq(10, i requires 0 <= i < 10 => Bit(Frame(b), i + 1))
  }

  /** The bits of `1 + (b << 1) + (p << 9) + 0x0400` for a byte b and a bit p. */
  lemma FrameBitsOf(b: nat, p: nat, i: nat)
    requires b < 256 && p < 2
    ensures Bit(1 + b * 2 + p * 512 + 0x0400, i)
         == (i == 0 || (1 <= i <= 8 && Bit(b, i - 1)) || (i == 9 && p == 1) || i == 10)
  {
    var low := 1 + b * 2;
    var high := p + 2;
    Pow2Values();
    assert 1 + b * 2 + p * 512 + 0x0400 == low + Pow2(9) * high;
    BitOfSum(low, high, 9, i);
    if i < 9 {
      assert low == 1 + Pow2(1) * b;
      BitOfSum(1, b, 1, i);
      if i == 0 {
        assert Bit(1, 0);
      }
    } else if i == 9 {
      assert Bit(high, 0) == (p == 1);
    } else if i == 10 {
      assert Shr(high, 1) == 1;
    } else {
      BitHigh(high, 2, i - 9);
    }
  }

  /** Bit layout of the frame. */
  lemma FrameLayout(b: Byte, i: nat)
    ensures Bit(Frame(b), i) == FrameBit(b, i)
  {
    FrameBitsOf(b, Parity(b), i);
  }

  /** Sample i of a clean channel is frame bit i + 1. */
  lemma CleanSampleBit(b: Byte, i: nat)
    requires i < 10
    ensures CleanSamples(b)[i] == FrameBit(b, i + 1)
  {
    FrameLayout(b, i + 1);
  }

  /** The number of set bits among the nine low bits of `v + (p << 8) + 0x200`
      for a byte v and a bit p. */
  lemma BitsBelowWithParity(v: nat, p: nat)
    requires v < 256 && p < 2
    ensures BitsBelow(v + 256 * p + 512, 9) == BitsBelow(v, 8) + p
  {
    var x := v + 256 * p + 512;
    Pow2Values();
    assert x == v + Pow2(8) * (p + 2);
    forall i | 0 <= i < 8
      ensures Bit(x, i) == Bit(v, i)
    {
      BitOfSum(v, p + 2, 8, i);
    }
    BitsBelowAgree(x, v, 8);
    BitOfSum(v, p + 2, 8, 8);
    assert Bit(p + 2, 0) == (p == 1);
  }

  /** Even parity over the frame: data bits plus parity bit hold an even
      number of ones. */
  lemma FrameHasEvenParity(b: Byte)
    ensures BitsBelow(Frame(b) / 2, 9) % 2 == 0
  {
    var n := BitsBelow(b, 8);
    assert Frame(b) / 2 == b + 256 * Parity(b) + 512;
    BitsBelowWithParity(b, Parity(b));
    assert (n + n % 2) % 2 == 0;
  }

  /** A clean channel delivers the accumulator `(Frame(b) >> 1) & 0x3FF`:
      the byte, its parity bit at bit 8 and the stop bit at bit 9. */
  lemma CleanAccumulator(b: Byte)
    ensures Value(CleanSamples(b)) == b + 256 * Parity(b) + 512
  {
    var s := CleanSamples(b);
    var x := b + 256 * Parity(b) + 512;
    assert Frame(b) / 2 == x;
    forall i | 0 <= i < |s|
      ensures s[i] == Bit(x, i)
    {
      assert Bit(Frame(b), i + 1) == Bit(Frame(b) / 2, i);
    }
    Pow2Values();
    ValueOfBits(s, x);
  }

  /** The three fields of an accumulator: low byte, bit 8 and bit 9. */
  lemma AccumulatorFields(v: nat, q: bool, r: bool)
    requires v < 256
    ensures (v + (if q then 256 else 0) + (if r then 512 else 0)) % 256 == v
    ensures ((v + (if q then 256 else 0) + (if r then 512 else 0)) / 256) % 2 == if q then 1 else 0
    ensures ((v + (if q then 256 else 0) + (if r then 512 else 0)) / 512) % 2 == if r then 1 else 0
  {
  }

  /** Round trip: the receiver commits exactly the byte that was framed,
      a value distinct from NO_VALID_DATA. */
  lemma RoundTrip(b: Byte)
    ensures Decode(Value(CleanSamples(b))) == b
    ensures Decode(Value(CleanSamples(b))) != NoValidData
  {
    CleanAccumulator(b);
    var q := Parity(b) == 1;
    assert 256 * Parity(b) == if q then 256 else 0;
    AccumulatorFields(b, q, true);
  }

  /** The accumulator of ten samples split into data byte, parity and stop. */
  lemma ValueSplit(s: seq<bool>)
    requires |s| == 10
    ensures ValuePrefix(s, 8) < 256
    ensures Value(s) == ValuePrefix(s, 8) + (if s[8] then 256 else 0) + (if s[9] then 512 else 0)
  {
    Pow2Values();
    ValuePrefixBound(s, 8);
    assert ValuePrefix(s, 9) == ValuePrefix(s, 8) + (if s[8] then 256 else 0);
    assert Value(s) == ValuePrefix(s, 9) + (if s[9] then 512 else 0);
  }

  /** What the receiver checks of ten samples it accepts as byte b: the
      first eight accumulate to b, the ninth is b's parity, the tenth is set. */
  lemma AcceptedFields(s: seq<bool>, b: Byte)
    requires |s| == 10 && Decode(Value(s)) == b
    ensures ValuePrefix(s, 8) == b && s[8] == (Parity(b) == 1) && s[9]
  {
    ValueSplit(s);
    AccumulatorFields(ValuePrefix(s, 8), s[8], s[9]);
  }

  /** Ten samples the receiver accepts as byte b are the clean samples of b. */
  lemma DecodeAccepted(s: seq<bool>, b: Byte)
    requires |s| == 10 && Decode(Value(s)) == b
    ensures s == CleanSamples(b)
  {
    AcceptedFields(s, b);
    forall i | 0 <= i < 10
      ensures s[i] == CleanSamples(b)[i]
    {
      CleanSampleBit(b, i);
      if i < 8 {
        BitOfValuePrefix(s, 8, i);
      }
    }
  }

  /** The receiver accepts exactly the clean frames: ten samples decode to
      byte b if and only if they are the clean samples of b. */
  lemma DecodeExact(s: seq<bool>, b: Byte)
    requires |s| == 10
    ensures Decode(Value(s)) == b <==> s == CleanSamples(b)
  {
    if s == CleanSamples(b) {
      RoundTrip(b);
    }
    if Decode(Value(s)) == b {
      DecodeAccepted(s, b);
    }
  }

  /** The clean frames are at Hamming distance at least two: flipping one
      sample of a clean frame never yields another clean frame. */
  lemma NoCleanNeighbour(b: Byte, c: Byte, i: nat)
    requires i < 10
    ensures CleanSamples(b)[i := !CleanSamples(b)[i]] != CleanSamples(c)
  {
    if i == 9 {
      CleanSampleBit(b, 9);
      CleanSampleBit(c, 9);
    } else if i == 8 {
      FlippedParity(b, c);
    } else {
      FlippedData(b, c, i);
    }
  }

  /** Flipping the parity sample of a clean frame never gives a clean frame. */
  lemma FlippedParity(b: Byte, c: Byte)
    ensures CleanSamples(b)[8 := !CleanSamples(b)[8]] != CleanSamples(c)
  {
    var s := CleanSamples(b);
    var f := s[8 := !s[8]];
    if f == CleanSamples(c) {
      forall j | 0 <= j < 8
        ensures Bit(c, j) == Bit(b, j)
      {
        CleanSampleBit(b, j);
        CleanSampleBit(c, j);
        assert f[j] == s[j];
      }
      Pow2Values();
      BitsDetermine(c, b, 8);
      assert false;
    }
  }

  /** Flipping one data sample of a clean frame never gives a clean frame. */
  lemma FlippedData(b: Byte, c: Byte, i: nat)
    requires i < 8
    ensures CleanSamples(b)[i := !CleanSamples(b)[i]] != CleanSamples(c)
  {
    var s := CleanSamples(b);
    var f := s[i := !s[i]];
    if f == CleanSamples(c) {
      assert f[8] == s[8] && f[i] != s[i];
      CleanSampleBit(b, 8);
      CleanSampleBit(c, 8);
      CleanSampleBit(b, i);
      CleanSampleBit(c, i);
      forall j | 0 <= j < 8 && j != i
        ensures Bit(c, j) == Bit(b, j)
      {
        CleanSampleBit(b, j);
        CleanSampleBit(c, j);
        assert f[j] == s[j];
      }
      BitsBelowOneDiff(c, b, i, 8);
      assert false;
    }
  }

  /** Flipping any single sample of a clean frame (a data bit, the parity
      bit or the stop bit) makes the receiver reject it. */
  lemma SingleFlipRejected(b: Byte, i: nat)
    requires i < 10
    ensures Decode(Value(CleanSamples(b)[i := !CleanSamples(b)[i]])) == NoValidData
  {
    var f := CleanSamples(b)[i := !CleanSamples(b)[i]];
    var r := Decode(Value(f));
    if r != NoValidData {
      var c: Byte := r;
      DecodeExact(f, c);
      NoCleanNeighbour(b, c, i);
      assert false;
    }
  }
}
