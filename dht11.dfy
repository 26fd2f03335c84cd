/**
 * read_dht11_dat of Core/Modules/dht11Driver.c with the wire replaced by its
 * pulse-width counters: `counters[i]` is the value `counter` reaches while
 * waiting out transition `i` (255 is the driver's timeout). Every even
 * transition from the fourth on carries one bit, 1 when its counter exceeds
 * 16, packed most significant bit first into `dat[j / 8]`.
 */
module Dht11 {
  import opened Common

  /** MAXTIMINGS of dht11Driver.h. */
  const MaxTimings: nat := 85
  /** The counter value at which the wait for a transition gives up. */
  const Timeout: int := 255
  /** Bits of one reading: humidity and temperature, integral and decimal parts, and the checksum. */
  const FrameBits: nat := 40
  const ErrorValue: int := -2000

  /** A uint8_t counter. */
  type Count = c: int | 0 <= c <= 255

  /** How many transitions the loop gets through before the first timeout. */
  function ExaminedFrom(counters: seq<Count>, k: nat): (n: nat)
    requires k <= |counters|
    ensures k <= n <= |counters|
    ensures forall i | k <= i < n :: counters[i] != Timeout
    ensures n < |counters| ==> counters[n] == Timeout
    decreases |counters| - k
  {
    if k == |counters| || counters[k] == Timeout then k else ExaminedFrom(counters, k + 1)
  }

  function Examined(counters: seq<Count>): (n: nat)
    ensures n <= |counters|
    ensures forall i | 0 <= i < n :: counters[i] != Timeout
    ensures n < |counters| ==> counters[n] == Timeout
  {
    ExaminedFrom(counters, 0)
  }

  predicate CarriesBit(i: nat)
  {
    i >= 4 && i % 2 == 0
  }

  /** The bits transitions 0 .. n-1 carry, in arrival order. */
  function BitsUpTo(counters: seq<Count>, n: nat): (bits: seq<bool>)
    requires n <= |counters|
  {
    if n == 0 then []
    else BitsUpTo(counters, n - 1) + (if CarriesBit(n - 1) then [counters[n - 1] > 16] else [])
  }

  /** Transitions 4, 6, 8, ... below n: one bit each. */
  function StoreCount(n: nat): nat
  {
    if n <= 4 then 0 else (n - 3) / 2
  }

  lemma {:induction false} BitsUpToLength(counters: seq<Count>, n: nat)
    requires n <= |counters|
    ensures |BitsUpTo(counters, n)| == StoreCount(n)
  {
    if n > 0 {
      BitsUpToLength(counters, n - 1);
    }
  }

  /** The bits the driver receives. */
  function Bits(counters: seq<Count>): (bits: seq<bool>)
    ensures |bits| == StoreCount(Examined(counters))
  {
    BitsUpToLength(counters, Examined(counters));
    BitsUpTo(counters, Examined(counters))
  }

  function BitValue(b: bool): int
  {
    if b then 1 else 0
  }

  /** The five ints after shifting `bits` in, starting from all zeros, each bit into element j / 8. */
  function Accumulate(bits: seq<bool>): (d: seq<int>)
    requires |bits| <= FrameBits
    ensures |d| == 5
    ensures forall k | 0 <= k < 5 && |bits| <= 8 * k :: d[k] == 0
  {
    if bits == [] then [0, 0, 0, 0, 0]
    else ShiftIn(Accumulate(bits[..|bits| - 1]), (|bits| - 1) / 8, bits[|bits| - 1])
  }

  /** dat[k] <<= 1, then |= 1 for a one bit. */
  function ShiftIn(d: seq<int>, k: nat, b: bool): (r: seq<int>)
    requires k < |d|
    ensures |r| == |d|
  {
    d[k := d[k] * 2 + BitValue(b)]
  }

  /** Shifting one more bit in changes only element |pre| / 8. */
  lemma AccumulateSnoc(pre: seq<bool>, b: bool)
    requires |pre| < FrameBits
    ensures Accumulate(pre + [b]) == ShiftIn(Accumulate(pre), |pre| / 8, b)
  {
    var s := pre + [b];
    assert s[..|s| - 1] == pre && s[|s| - 1] == b;
  }

  /** A group of bits read most significant first. */
  function BitsValue(bs: seq<bool>): (v: nat)
  {
    if bs == [] then 0 else BitsValue(bs[..|bs| - 1]) * 2 + BitValue(bs[|bs| - 1])
  }

  lemma {:induction false} BitsValueBound(bs: seq<bool>)
    ensures BitsValue(bs) < Pow2(|bs|)
  {
    if bs != [] {
      BitsValueBound(bs[..|bs| - 1]);
    }
  }

  function Pow2(n: nat): (p: nat)
    ensures p >= 1
  {
    if n == 0 then 1 else 2 * Pow2(n - 1)
  }

  /** Bits 8k .. 8k+7 of the received bits, as far as they arrived. */
  function Group(bits: seq<bool>, k: nat): seq<bool>
  {
    bits[Min(8 * k, |bits|)..Min(8 * k + 8, |bits|)]
  }

  /** Element k of the array holds group k of the bits, most significant bit first. */
  lemma {:induction false} AccumulateGroups(bits: seq<bool>)
    requires |bits| <= FrameBits
    ensures forall k | 0 <= k < 5 :: Accumulate(bits)[k] == BitsValue(Group(bits, k))
  {
    if bits != [] {
      var pre := bits[..|bits| - 1];
      AccumulateGroups(pre);
      var n := |bits|;
      var g := (n - 1) / 8;
      forall k | 0 <= k < 5
        ensures Accumulate(bits)[k] == BitsValue(Group(bits, k))
      {
        if k == g {
          var gs := Group(bits, k);
          assert gs == bits[8 * k..n];
          assert Group(pre, k) == bits[8 * k..n - 1];
          assert gs[..|gs| - 1] == Group(pre, k);
        } else {
          assert Group(bits, k) == Group(pre, k);
        }
      }
    }
  }

  /** Every int of a frame is one byte. */
  lemma AccumulateBytes(bits: seq<bool>)
    requires |bits| <= FrameBits
    ensures forall k | 0 <= k < 5 :: 0 <= Accumulate(bits)[k] < 256
  {
    AccumulateGroups(bits);
    forall k | 0 <= k < 5
      ensures 0 <= Accumulate(bits)[k] < 256
    {
      BitsValueBound(Group(bits, k));
      assert |Group(bits, k)| <= 8;
      assert Pow2(|Group(bits, k)|) <= Pow2(8) by {
        Pow2Monotone(|Group(bits, k)|, 8);
      }
    }
  }

  lemma {:induction false} Pow2Monotone(a: nat, b: nat)
    requires a <= b
    ensures Pow2(a) <= Pow2(b)
  {
    if a < b {
      Pow2Monotone(a, b - 1);
    }
  }

  function Checksum(d: seq<int>): (c: int)
    requires |d| == 5
    ensures 0 <= c < 256
    ensures (d[0] + d[1] + d[2] + d[3] - c) % 256 == 0
  {
    (d[0] + d[1] + d[2] + d[3]) % 256
  }

  const ErrorFrame: seq<int> := [ErrorValue, ErrorValue, ErrorValue, ErrorValue, ErrorValue]

  /**
   * What the five ints hold on return: the first 40 bits packed into bytes,
   * or -2000 everywhere when fewer than 40 bits arrived or the checksum byte
   * is not the low byte of the sum of the other four.
   */
  function Decode(counters: seq<Count>): (d: seq<int>)
    ensures |d| == 5
    ensures |Bits(counters)| < FrameBits ==> d == ErrorFrame
    ensures d == ErrorFrame || d[4] == Checksum(d)
    ensures |Bits(counters)| >= FrameBits && Accumulate(Frame(Bits(counters)))[4] == Checksum(Accumulate(Frame(Bits(counters)))) ==>
              d == Accumulate(Frame(Bits(counters)))
  {
    var bits := Bits(counters);
    var frame := Accumulate(Frame(bits));
    if |bits| < FrameBits || frame[4] != Checksum(frame) then ErrorFrame else frame
  }

  /**
   * A reading that is not the error value passed both checks: it holds 40
   * bits, bytes 0-3 are the first 32 of them grouped by 8, and byte 4 is
   * their checksum.
   */
  lemma {:induction false} ValidReading(counters: seq<Count>)
    requires Decode(counters) != ErrorFrame
    ensures |Bits(counters)| >= FrameBits
    ensures Decode(counters)[4] == Checksum(Decode(counters))
    ensures forall k | 0 <= k < 5 :: Decode(counters)[k] == BitsValue(Bits(counters)[8 * k..8 * k + 8])
  {
    var bits := Bits(counters);
    var first := bits[..FrameBits];
    AccumulateGroups(first);
    forall k | 0 <= k < 5
      ensures Group(first, k) == bits[8 * k..8 * k + 8]
    {
    }
  }

  /** The two outcomes are told apart: a good reading holds bytes, never -2000. */
  lemma {:induction false} ReadingIsErrorOrBytes(counters: seq<Count>)
    ensures Decode(counters) == ErrorFrame || forall k | 0 <= k < 5 :: 0 <= Decode(counters)[k] < 256
  {
    var bits := Bits(counters);
    AccumulateBytes(Frame(bits));
  }

  /** A timeout before transition 5 leaves no bits, so the reading is always the error value. */
  lemma EarlyTimeoutIsError(counters: seq<Count>)
    requires exists k | 0 <= k < 5 && k < |counters| :: counters[k] == Timeout
    ensures Decode(counters) == ErrorFrame
  {
    var n := Examined(counters);
    assert n < 5;
    BitsUpToLength(counters, n);
  }

  // ---------------------------------------------------------------------------
  // The 41st store
  // ---------------------------------------------------------------------------

  /**
   * Without a timeout the loop stores a bit at every even i from 4 to 84:
   * 41 bits, and the 41st goes to index 40 / 8 = 5 of the five-int array.
   */
  lemma NoTimeoutStoresFortyOneBits(counters: seq<Count>)
    requires |counters| == MaxTimings
    requires forall i | 0 <= i < MaxTimings :: counters[i] != Timeout
    ensures |Bits(counters)| == FrameBits + 1
    ensures (|Bits(counters)| - 1) / 8 == 5
  {
    assert Examined(counters) == MaxTimings;
    BitsUpToLength(counters, MaxTimings);
  }

  /** The as-written loop stays inside the array exactly when some transition times out. */
  lemma {:induction false} InBoundsIffTimeout(counters: seq<Count>)
    requires |counters| == MaxTimings
    ensures |Bits(counters)| <= FrameBits <==> exists i | 0 <= i < MaxTimings :: counters[i] == Timeout
  {
    var n := Examined(counters);
    BitsUpToLength(counters, n);
    if n < MaxTimings {
      assert counters[n] == Timeout;
    }
  }

  /** Later transitions never take bits away. */
  lemma {:induction false} BitsUpToGrows(counters: seq<Count>, m: nat, n: nat)
    requires m <= n <= |counters|
    ensures |BitsUpTo(counters, m)| <= |BitsUpTo(counters, n)|
    decreases n - m
  {
    if m < n {
      BitsUpToGrows(counters, m, n - 1);
    }
  }

  /** Lines 46-48: shift element j / 8 left and set its low bit for a one. */
  method StoreBit(dat: array<int>, j: nat, bit: bool)
    requires j / 8 < dat.Length
    modifies dat
    ensures dat[..] == ShiftIn(old(dat[..]), j / 8, bit)
  {
    dat[j / 8] := dat[j / 8] * 2;
    if bit {
      dat[j / 8] := dat[j / 8] + 1;
    }
  }

  /**
   * Lines 55-60: with fewer than 40 stores or a checksum byte that is not the
   * low byte of the sum of the other four, every element becomes -2000. The
   * `& 0xFF` of the source is Euclidean `% 256` on two's complement ints.
   */
  method Validate(dat: array<int>, stored: nat)
    requires dat.Length == 5
    modifies dat
    ensures dat[..] == if stored < FrameBits || old(dat[4]) != Checksum(old(dat[..])) then ErrorFrame else old(dat[..])
  {
    if stored < FrameBits || dat[4] != (dat[0] + dat[1] + dat[2] + dat[3]) % 256 {
      dat[0], dat[1], dat[2], dat[3], dat[4] := ErrorValue, ErrorValue, ErrorValue, ErrorValue, ErrorValue;
    }
  }

  /** The bits kept for the frame: at most the first 40. */
  function Frame(bits: seq<bool>): (f: seq<bool>)
    ensures |f| <= FrameBits && f <= bits
    ensures |bits| <= FrameBits ==> f == bits
  {
    bits[..Min(|bits|, FrameBits)]
  }

  lemma FrameStep(pre: seq<bool>, extra: seq<bool>)
    requires |extra| <= 1
    ensures |pre| < FrameBits ==> Frame(pre + extra) == Frame(pre) + extra
    ensures |pre| >= FrameBits ==> Frame(pre + extra) == Frame(pre)
  {
    if |pre| < FrameBits {
      assert Frame(pre) == pre;
    } else {
      assert (pre + extra)[..FrameBits] == pre[..FrameBits];
    }
  }

  /** One more transition extends the frame by its bit while the frame is short and the transition carries one. */
  lemma FrameBitsStep(counters: seq<Count>, i: nat)
    requires i < |counters|
    ensures var frame := Frame(BitsUpTo(counters, i));
            Frame(BitsUpTo(counters, i + 1)) ==
              if CarriesBit(i) && |frame| < FrameBits then frame + [counters[i] > 16] else frame
  {
    var pre := BitsUpTo(counters, i);
    FrameStep(pre, if CarriesBit(i) then [counters[i] > 16] else []);
    if !CarriesBit(i) {
      assert pre + [] == pre;
    }
  }

  /** The same step without the 40-bit limit. */
  lemma BitsStep(counters: seq<Count>, i: nat)
    requires i < |counters|
    ensures var bits := BitsUpTo(counters, i);
            BitsUpTo(counters, i + 1) == if CarriesBit(i) then bits + [counters[i] > 16] else bits
  {
    var bits := BitsUpTo(counters, i);
    if !CarriesBit(i) {
      assert bits + [] == bits;
    }
  }

  /** The loop stops at the first timeout, so every transition it handles came before it. */
  lemma BeforeTimeout(counters: seq<Count>, i: nat)
    requires i <= Examined(counters) && i < |counters| && counters[i] != Timeout
    ensures i < Examined(counters)
  {
  }

  /** Where the loop stops: at the first timeout, or after the last transition. */
  lemma StopsAtExamined(counters: seq<Count>, i: nat)
    requires i <= Examined(counters)
    requires i == |counters| || (i < |counters| && counters[i] == Timeout)
    ensures i == Examined(counters) && BitsUpTo(counters, i) == Bits(counters)
  {
  }

  /**
   * Lines 43-50 as written, for transition `i` before the first timeout: an
   * even transition from the fourth on shifts its bit into the array.
   */
  method StoreAsWritten(dat: array<int>, counters: seq<Count>, i: nat, j: nat) returns (next: nat)
    requires dat.Length == 5 && |counters| == MaxTimings
    requires i < Examined(counters) && |Bits(counters)| <= FrameBits
    requires j == |BitsUpTo(counters, i)| <= FrameBits && dat[..] == Accumulate(BitsUpTo(counters, i))
    modifies dat
    ensures next == |BitsUpTo(counters, i + 1)| <= FrameBits
    ensures dat[..] == Accumulate(BitsUpTo(counters, i + 1))
  {
    BitsStep(counters, i);
    BitsUpToGrows(counters, i + 1, Examined(counters));
    if i >= 4 && i % 2 == 0 {
      AccumulateSnoc(BitsUpTo(counters, i), counters[i] > 16);
      StoreBit(dat, j, counters[i] > 16);
      next := j + 1;
    } else {
      next := j;
    }
  }

  /**
   * The loop of lines 26-51 as written: after it, `j` is the number of bits
   * stored and the array holds them. Its stores are inside the five-int
   * array only when a timeout ends the loop before the 41st bit; that is its
   * precondition.
   */
  method CollectAsWritten(dat: array<int>, counters: seq<Count>) returns (j: nat)
    requires dat.Length == 5 && dat[..] == [0, 0, 0, 0, 0] && |counters| == MaxTimings
    requires |Bits(counters)| <= FrameBits
    modifies dat
    ensures j == |Bits(counters)| && dat[..] == Accumulate(Bits(counters))
  {
    j := 0;
    var i := 0;
    while i < MaxTimings
      invariant 0 <= i <= Examined(counters)
      invariant j == |BitsUpTo(counters, i)| <= FrameBits
      invariant dat[..] == Accumulate(BitsUpTo(counters, i))
    {
      if counters[i] == Timeout {
        break;
      }
      BeforeTimeout(counters, i);
      j := StoreAsWritten(dat, counters, i, j);
      i := i + 1;
    }
    StopsAtExamined(counters, i);
  }

  /** read_dht11_dat as written, under the precondition of its loop. */
  method ReadDht11DatAsWritten(dat: array<int>, counters: seq<Count>)
    requires dat.Length == 5 && |counters| == MaxTimings
    requires |Bits(counters)| <= FrameBits
    modifies dat
    ensures dat[..] == Decode(counters)
  {
    dat[0], dat[1], dat[2], dat[3], dat[4] := 0, 0, 0, 0, 0;
    var j := CollectAsWritten(dat, counters);
    assert Frame(Bits(counters)) == Bits(counters);
    Validate(dat, j);
  }

  /** Lines 43-50 with the store limited to the first 40 bits. */
  method Store(dat: array<int>, counters: seq<Count>, i: nat, j: nat) returns (next: nat)
    requires dat.Length == 5 && i < |counters|
    requires j == |Frame(BitsUpTo(counters, i))| && dat[..] == Accumulate(Frame(BitsUpTo(counters, i)))
    modifies dat
    ensures next == |Frame(BitsUpTo(counters, i + 1))|
    ensures dat[..] == Accumulate(Frame(BitsUpTo(counters, i + 1)))
  {
    FrameBitsStep(counters, i);
    if i >= 4 && i % 2 == 0 && j < FrameBits {
      AccumulateSnoc(Frame(BitsUpTo(counters, i)), counters[i] > 16);
      StoreBit(dat, j, counters[i] > 16);
      next := j + 1;
    } else {
      next := j;
    }
  }

  /**
   * The loop of lines 26-51 with the store limited to the 40 bits of a
   * frame: `j` counts the bits kept and the array holds them.
   */
  method Collect(dat: array<int>, counters: seq<Count>) returns (j: nat)
    requires dat.Length == 5 && dat[..] == [0, 0, 0, 0, 0] && |counters| == MaxTimings
    modifies dat
    ensures j == |Frame(Bits(counters))| && dat[..] == Accumulate(Frame(Bits(counters)))
  {
    j := 0;
    var i := 0;
    while i < MaxTimings
      invariant 0 <= i <= Examined(counters)
      invariant j == |Frame(BitsUpTo(counters, i))|
      invariant dat[..] == Accumulate(Frame(BitsUpTo(counters, i)))
    {
      if counters[i] == Timeout {
        break;
      }
      BeforeTimeout(counters, i);
      j := Store(dat, counters, i, j);
      i := i + 1;
    }
    StopsAtExamined(counters, i);
  }

  /** read_dht11_dat with the store limited to the 40 bits of a frame. */
  method ReadDht11Dat(dat: array<int>, counters: seq<Count>)
    requires dat.Length == 5 && |counters| == MaxTimings
    modifies dat
    ensures dat[..] == Decode(counters)
  {
    dat[0], dat[1], dat[2], dat[3], dat[4] := 0, 0, 0, 0, 0;
    var j := Collect(dat, counters);
    assert j < FrameBits <==> |Bits(counters)| < FrameBits;
    Validate(dat, j);
  }
}
