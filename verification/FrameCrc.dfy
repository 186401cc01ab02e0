// The frame check of both ends of the CAN FD link: a 16-bit CRC with polynomial
// 0x1021 and initial value 0xFFFF, stored little-endian in the last two bytes.
//
// Bytes and 16-bit words are records of bits, so that the C operators `^`, `<<` and
// `& 0x8000` are functions on those bits.
module FrameCrc {
  datatype Byte = Byte(b7: bool, b6: bool, b5: bool, b4: bool, b3: bool, b2: bool, b1: bool, b0: bool)

  datatype Word = Word(
    c15: bool, c14: bool, c13: bool, c12: bool, c11: bool, c10: bool, c9: bool, c8: bool,
    c7: bool, c6: bool, c5: bool, c4: bool, c3: bool, c2: bool, c1: bool, c0: bool)

  const ZERO := Byte(false, false, false, false, false, false, false, false)

  // 0x1021
  const POLYNOMIAL := Word(false, false, false, true, false, false, false, false,
                           false, false, true, false, false, false, false, true)
  // 0xFFFF
  const INITIAL_VALUE := Word(true, true, true, true, true, true, true, true,
                              true, true, true, true, true, true, true, true)

  function XorByte(a: Byte, b: Byte): Byte {
    Byte(a.b7 != b.b7, a.b6 != b.b6, a.b5 != b.b5, a.b4 != b.b4,
         a.b3 != b.b3, a.b2 != b.b2, a.b1 != b.b1, a.b0 != b.b0)
  }

  function Xor(x: Word, y: Word): Word {
    Word(x.c15 != y.c15, x.c14 != y.c14, x.c13 != y.c13, x.c12 != y.c12,
         x.c11 != y.c11, x.c10 != y.c10, x.c9 != y.c9, x.c8 != y.c8,
         x.c7 != y.c7, x.c6 != y.c6, x.c5 != y.c5, x.c4 != y.c4,
         x.c3 != y.c3, x.c2 != y.c2, x.c1 != y.c1, x.c0 != y.c0)
  }

  function ShiftLeft(x: Word): Word {
    Word(x.c14, x.c13, x.c12, x.c11, x.c10, x.c9, x.c8, x.c7,
         x.c6, x.c5, x.c4, x.c3, x.c2, x.c1, x.c0, false)
  }

  // The word with these high and low bytes.
  function Join(h: Byte, l: Byte): Word {
    Word(h.b7, h.b6, h.b5, h.b4, h.b3, h.b2, h.b1, h.b0, l.b7, l.b6, l.b5, l.b4, l.b3, l.b2, l.b1, l.b0)
  }

  // byte << 8
  function HighByte(b: Byte): Word { Join(b, ZERO) }

  function LowByte(b: Byte): Word { Join(ZERO, b) }

  // One step of the shift register: the bit shifted out is fed back at the
  // polynomial's exponents 12, 5 and 0.
  function BitStep(x: Word): Word {
    Word(x.c14, x.c13, x.c12, x.c11 != x.c15, x.c10, x.c9, x.c8, x.c7,
         x.c6, x.c5, x.c4 != x.c15, x.c3, x.c2, x.c1, x.c0, x.c15)
  }

  // The step as the loop takes it.
  function Shifted(crc: Word): Word {
    if crc.c15 then Xor(ShiftLeft(crc), POLYNOMIAL) else ShiftLeft(crc)
  }

  lemma XorPolynomial(x: Word)
    ensures Xor(x, POLYNOMIAL) ==
            Word(x.c15, x.c14, x.c13, !x.c12, x.c11, x.c10, x.c9, x.c8,
                 x.c7, x.c6, !x.c5, x.c4, x.c3, x.c2, x.c1, !x.c0)
  {
  }

  lemma ShiftedIsBitStep(crc: Word)
    ensures Shifted(crc) == BitStep(crc)
  {
    if crc.c15 {
      XorPolynomial(ShiftLeft(crc));
    }
  }

  function BitSteps(crc: Word, n: nat): Word
    decreases n
  {
    if n == 0 then crc else BitSteps(BitStep(crc), n - 1)
  }

  function ByteStep(crc: Word, byte: Byte): Word {
    BitSteps(Xor(crc, HighByte(byte)), 8)
  }

  function CrcFrom(crc: Word, data: seq<Byte>): Word
    decreases |data|
  {
    if data == [] then crc else CrcFrom(ByteStep(crc, data[0]), data[1..])
  }

  function Crc(data: seq<Byte>): Word { CrcFrom(INITIAL_VALUE, data) }

  function ReadU16Le(low: Byte, high: Byte): Word { Join(high, low) }

  // Lengths below two never reach the check: the protocol's fixed lengths are 8 or more.
  predicate CheckFrameCrc(frame: seq<Byte>)
    requires |frame| >= 2
  {
    ReadU16Le(frame[|frame| - 2], frame[|frame| - 1]) == Crc(frame[..|frame| - 2])
  }

  // The data followed by its CRC, low byte first.
  function AppendFrameCrc(data: seq<Byte>): (frame: seq<Byte>)
    ensures |frame| == |data| + 2 && frame[..|data|] == data
  {
    var crc := Crc(data);
    data + [Byte(crc.c7, crc.c6, crc.c5, crc.c4, crc.c3, crc.c2, crc.c1, crc.c0),
            Byte(crc.c15, crc.c14, crc.c13, crc.c12, crc.c11, crc.c10, crc.c9, crc.c8)]
  }

  lemma AppendedCrcChecks(data: seq<Byte>)
    ensures CheckFrameCrc(AppendFrameCrc(data))
  {
    hide Crc;
  }

  method CalculateCrc16(data: seq<Byte>) returns (crc: Word)
    ensures crc == Crc(data)
  {
    hide BitStep, Xor, ShiftLeft, Join;
    crc := INITIAL_VALUE;
    assert data[0..] == data;
    for byteIndex := 0 to |data|
      invariant CrcFrom(crc, data[byteIndex..]) == Crc(data)
    {
      ghost var next := ByteStep(crc, data[byteIndex]);
      assert data[byteIndex..][1..] == data[byteIndex + 1..];
      crc := Xor(crc, HighByte(data[byteIndex]));
      for bitIndex := 0 to 8
        invariant BitSteps(crc, 8 - bitIndex) == next
      {
        ShiftedIsBitStep(crc);
        if crc.c15 {
          crc := Xor(ShiftLeft(crc), POLYNOMIAL);
        } else {
          crc := ShiftLeft(crc);
        }
      }
    }
  }

  // ------------------------------------------------- what the check can detect

  lemma BitStepXor(x: Word, y: Word)
    ensures BitStep(Xor(x, y)) == Xor(BitStep(x), BitStep(y))
  {
  }

  lemma {:induction false} BitStepsXor(x: Word, y: Word, n: nat)
    ensures BitSteps(Xor(x, y), n) == Xor(BitSteps(x, n), BitSteps(y, n))
    decreases n
  {
    if n > 0 {
      BitStepXor(x, y);
      BitStepsXor(BitStep(x), BitStep(y), n - 1);
    }
  }

  // The polynomial's constant term is one, so no step merges two register values.
  lemma BitStepInjective(x: Word, y: Word)
    requires BitStep(x) == BitStep(y)
    ensures x == y
  {
  }

  lemma {:induction false} BitStepsInjective(x: Word, y: Word, n: nat)
    requires BitSteps(x, n) == BitSteps(y, n)
    ensures x == y
    decreases n
  {
    if n > 0 {
      BitStepsInjective(BitStep(x), BitStep(y), n - 1);
      BitStepInjective(x, y);
    }
  }

  lemma XorInjective(m: Word, x: Word, y: Word)
    requires Xor(x, m) == Xor(y, m)
    ensures x == y
  {
  }

  // A byte in the low half moves to the high half in eight steps.
  lemma LowByteMovesUp(b: Byte)
    ensures BitSteps(LowByte(b), 8) == HighByte(b)
  {
    var x1 := BitStep(LowByte(b));
    var x2 := BitStep(x1);
    var x3 := BitStep(x2);
    var x4 := BitStep(x3);
    var x5 := BitStep(x4);
    var x6 := BitStep(x5);
    var x7 := BitStep(x6);
    assert BitSteps(LowByte(b), 8) == BitSteps(x1, 7) == BitSteps(x2, 6) == BitSteps(x3, 5) == BitSteps(x4, 4);
    assert BitSteps(x4, 4) == BitSteps(x5, 3) == BitSteps(x6, 2) == BitSteps(x7, 1) == BitStep(x7);
  }

  lemma {:induction false} SameTailKeepsDifference(c: Word, c': Word, tail: seq<Byte>)
    requires CrcFrom(c, tail) == CrcFrom(c', tail)
    ensures c == c'
    decreases |tail|
  {
    hide BitStep, BitSteps, Xor, Join;
    if tail != [] {
      SameTailKeepsDifference(ByteStep(c, tail[0]), ByteStep(c', tail[0]), tail[1..]);
      BitStepsInjective(Xor(c, HighByte(tail[0])), Xor(c', HighByte(tail[0])), 8);
      XorInjective(HighByte(tail[0]), c, c');
    }
  }

  lemma {:induction false} CrcFromConcat(c: Word, a: seq<Byte>, b: seq<Byte>)
    ensures CrcFrom(c, a + b) == CrcFrom(CrcFrom(c, a), b)
    decreases |a|
  {
    if a == [] {
      assert a + b == b;
    } else {
      assert (a + b)[1..] == a[1..] + b;
      CrcFromConcat(ByteStep(c, a[0]), a[1..], b);
    }
  }

  lemma XorAssociates(x: Word, y: Word, z: Word)
    ensures Xor(Xor(x, y), z) == Xor(x, Xor(y, z))
  {
  }

  lemma XorHighLow(a: Byte, b: Byte)
    ensures Xor(HighByte(a), LowByte(b)) == Join(a, b)
  {
  }

  lemma XorJoinInjective(c: Word, a: Byte, b: Byte, a': Byte, b': Byte)
    requires Xor(c, Join(a, b)) == Xor(c, Join(a', b'))
    ensures a == a' && b == b'
  {
  }

  // Two bytes are absorbed together as one 16-bit word.
  lemma TwoBytesAreOneWord(c: Word, a: Byte, b: Byte)
    ensures ByteStep(ByteStep(c, a), b) == BitSteps(BitSteps(Xor(c, Join(a, b)), 8), 8)
  {
    hide BitStep, BitSteps, Xor, Join;
    var x := Xor(c, HighByte(a));
    BitStepsXor(x, LowByte(b), 8);
    LowByteMovesUp(b);
    XorAssociates(c, HighByte(a), LowByte(b));
    XorHighLow(a, b);
  }

  lemma CrcSplit(p: seq<Byte>, i: nat)
    requires i + 1 < |p|
    ensures Crc(p) ==
            CrcFrom(ByteStep(ByteStep(CrcFrom(INITIAL_VALUE, p[..i]), p[i]), p[i + 1]), p[i + 2..])
  {
    assert p == p[..i] + p[i..];
    CrcFromConcat(INITIAL_VALUE, p[..i], p[i..]);
    assert p[i..][1..] == p[i + 1..];
    assert p[i + 1..][1..] == p[i + 2..];
  }

  predicate DifferOnlyAt(f: seq<Byte>, g: seq<Byte>, i: nat)
    requires |f| == |g| && i + 1 < |f|
  {
    f[..i] == g[..i] && f[i + 2..] == g[i + 2..] && f != g
  }

  lemma DifferentPair(f: seq<Byte>, g: seq<Byte>, i: nat)
    requires |f| == |g| && i + 1 < |f| && DifferOnlyAt(f, g, i)
    ensures f[i] != g[i] || f[i + 1] != g[i + 1]
  {
    assert f == f[..i] + [f[i], f[i + 1]] + f[i + 2..];
    assert g == g[..i] + [g[i], g[i + 1]] + g[i + 2..];
  }

  // Payloads of one length that differ only within two adjacent bytes have
  // different check values.
  lemma AdjacentBytesDetected(p: seq<Byte>, q: seq<Byte>, i: nat)
    requires |p| == |q| && i + 1 < |p| && DifferOnlyAt(p, q, i)
    ensures Crc(p) != Crc(q)
  {
    hide BitStep, BitSteps, Xor, Join;
    if Crc(p) == Crc(q) {
      CrcSplit(p, i);
      CrcSplit(q, i);
      var c := CrcFrom(INITIAL_VALUE, p[..i]);
      SameTailKeepsDifference(ByteStep(ByteStep(c, p[i]), p[i + 1]),
                              ByteStep(ByteStep(c, q[i]), q[i + 1]), p[i + 2..]);
      TwoBytesAreOneWord(c, p[i], p[i + 1]);
      TwoBytesAreOneWord(c, q[i], q[i + 1]);
      var v, w := Xor(c, Join(p[i], p[i + 1])), Xor(c, Join(q[i], q[i + 1]));
      BitStepsInjective(BitSteps(v, 8), BitSteps(w, 8), 8);
      BitStepsInjective(v, w, 8);
      XorJoinInjective(c, p[i], p[i + 1], q[i], q[i + 1]);
      DifferentPair(p, q, i);
    }
  }

  // 0x89 and 0xA1
  const HOLE_IN_PAYLOAD := Byte(true, false, false, false, true, false, false, true)
  const HOLE_IN_CHECK := Byte(true, false, true, false, false, false, false, true)

  // Eight steps in closed form, with t = byte ^ (byte >> 4).
  lemma EightSteps(d: Byte)
    ensures
      var t3, t2, t1, t0 := d.b3 != d.b7, d.b2 != d.b6, d.b1 != d.b5, d.b0 != d.b4;
      BitSteps(HighByte(d), 8) ==
      Word(t3, t2, t1, t0 != d.b7, d.b6, d.b5, d.b4, t3,
           t2 != d.b7, t1 != d.b6, t0 != d.b5, d.b4, t3, t2, t1, t0)
  {
    var x1 := BitStep(HighByte(d));
    var x2 := BitStep(x1);
    var x3 := BitStep(x2);
    var x4 := BitStep(x3);
    var x5 := BitStep(x4);
    var x6 := BitStep(x5);
    var x7 := BitStep(x6);
    assert BitSteps(HighByte(d), 8) == BitSteps(x1, 7) == BitSteps(x2, 6) == BitSteps(x3, 5) == BitSteps(x4, 4);
    assert BitSteps(x4, 4) == BitSteps(x5, 3) == BitSteps(x6, 2) == BitSteps(x7, 1) == BitStep(x7);
  }

  lemma OnlyOneHole(d: Byte, e: Byte)
    ensures BitSteps(HighByte(d), 8) == LowByte(e) <==>
            (d == ZERO && e == ZERO) || (d == HOLE_IN_PAYLOAD && e == HOLE_IN_CHECK)
  {
    hide BitSteps;
    EightSteps(d);
  }

  lemma XorCancel(c: Word, x: Word, y: Word, p: Word, q: Word, r: Word)
    requires p == Xor(c, x) && q == Xor(c, y) && r == Xor(x, y)
    ensures Xor(p, q) == r
  {
  }

  lemma XorOfHighBytes(a: Byte, b: Byte)
    ensures Xor(HighByte(a), HighByte(b)) == HighByte(XorByte(a, b))
  {
  }

  lemma XorByBytes(high: Byte, low: Byte, high': Byte, low': Byte)
    ensures Xor(Join(high, low), Join(high', low')) == Join(XorByte(high, high'), XorByte(low, low'))
  {
  }

  lemma XorSameHigh(low: Byte, low': Byte, high: Byte)
    ensures Xor(Join(high, low), Join(high, low')) == LowByte(XorByte(low, low'))
  {
    XorByBytes(high, low, high, low');
    SameBytes(high, high);
    hide Xor, Join, XorByte;
  }

  lemma XorTakesOut(m: Word, x: Word, y: Word)
    requires Xor(m, x) == Xor(m, y)
    ensures x == y
  {
  }

  lemma XorLowBytes(low: Byte, low': Byte, high: Byte, crc: Word)
    ensures crc == Join(high, low') <==> Xor(Join(high, low), crc) == LowByte(XorByte(low, low'))
  {
    XorSameHigh(low, low', high);
    hide Xor, Join, XorByte, LowByte;
    if Xor(Join(high, low), crc) == Xor(Join(high, low), Join(high, low')) {
      XorTakesOut(Join(high, low), crc, Join(high, low'));
    }
  }

  lemma SameBytes(a: Byte, b: Byte)
    ensures XorByte(a, b) == ZERO <==> a == b
  {
  }

  // The last payload byte is followed by the low check byte, not the high one, so
  // there the 16-bit burst argument does not apply.
  lemma AcrossTheEnd(f: seq<Byte>, g: seq<Byte>)
    requires |f| == |g| && 3 <= |f| && DifferOnlyAt(f, g, |f| - 3) && CheckFrameCrc(f)
    ensures CheckFrameCrc(g) <==>
            && XorByte(f[|f| - 3], g[|f| - 3]) == HOLE_IN_PAYLOAD
            && XorByte(f[|f| - 2], g[|f| - 2]) == HOLE_IN_CHECK
  {
    hide BitStep, BitSteps, Xor, Join, XorByte;
    var n := |f| - 2;
    var c := CrcFrom(INITIAL_VALUE, f[..n - 1]);
    assert f[..n] == f[..n - 1] + [f[n - 1]] && g[..n] == f[..n - 1] + [g[n - 1]];
    CrcFromConcat(INITIAL_VALUE, f[..n - 1], [f[n - 1]]);
    CrcFromConcat(INITIAL_VALUE, f[..n - 1], [g[n - 1]]);
    var d, e := XorByte(f[n - 1], g[n - 1]), XorByte(f[n], g[n]);
    BitStepsXor(Xor(c, HighByte(f[n - 1])), Xor(c, HighByte(g[n - 1])), 8);
    XorCancel(c, HighByte(f[n - 1]), HighByte(g[n - 1]),
              Xor(c, HighByte(f[n - 1])), Xor(c, HighByte(g[n - 1])),
              Xor(HighByte(f[n - 1]), HighByte(g[n - 1])));
    XorOfHighBytes(f[n - 1], g[n - 1]);
    assert Xor(Crc(f[..n]), Crc(g[..n])) == BitSteps(HighByte(d), 8);
    assert f[n + 1] == f[n + 1..][0] && g[n + 1] == g[n + 1..][0];
    XorLowBytes(f[n], g[n], f[n + 1], Crc(g[..n]));
    OnlyOneHole(d, e);
    DifferentPair(f, g, n - 1);
    SameBytes(f[n - 1], g[n - 1]);
    SameBytes(f[n], g[n]);
  }

  // The exact detection result for a whole frame: corruption confined to two adjacent
  // bytes is detected, except for one pattern across the payload's end.
  lemma CorruptionDetected(f: seq<Byte>, g: seq<Byte>, i: nat)
    requires |f| == |g| && i + 1 < |f| && DifferOnlyAt(f, g, i)
    requires CheckFrameCrc(f)
    ensures CheckFrameCrc(g) <==>
            && i == |f| - 3
            && XorByte(f[i], g[i]) == HOLE_IN_PAYLOAD
            && XorByte(f[i + 1], g[i + 1]) == HOLE_IN_CHECK
  {
    hide BitStep, BitSteps, Xor, XorByte, CrcFrom;
    var n := |f| - 2;
    if i + 1 < n {
      var p, q := f[..n], g[..n];
      assert p[..i] == f[..i] && q[..i] == g[..i];
      assert p[i + 2..] == f[i + 2..][..n - i - 2] && q[i + 2..] == g[i + 2..][..n - i - 2];
      DifferentPair(f, g, i);
      assert p[i] != q[i] || p[i + 1] != q[i + 1];
      AdjacentBytesDetected(p, q, i);
      assert f[n] == f[i + 2..][n - i - 2] && f[n + 1] == f[i + 2..][n - i - 1];
      assert g[n] == g[i + 2..][n - i - 2] && g[n + 1] == g[i + 2..][n - i - 1];
    } else if i + 1 == n {
      AcrossTheEnd(f, g);
    } else {
      assert f[..n] == g[..n];
      DifferentPair(f, g, i);
    }
  }
}
