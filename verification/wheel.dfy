/** The wheel accumulator on Windows: fine wheel deltas become whole notches on the wire, and notches
    become deltas again where they are injected. */
module Wheel {

  // internal/input/input_windows.go: what one notch counts for
  const NOTCH: int := 120

  const TWO_15: int := 0x8000
  const TWO_16: int := 0x1_0000
  const TWO_31: int := 0x8000_0000
  const TWO_32: int := 0x1_0000_0000

  type Int16 = x: int | -TWO_15 <= x < TWO_15
  type Int32 = x: int | -TWO_31 <= x < TWO_31
  type UInt32 = x: int | 0 <= x < TWO_32

  function ToInt16(x: int): (r: Int16)
    ensures (x - r) % TWO_16 == 0
  {
    var low := x % TWO_16;
    if low < TWO_15 then low else low - TWO_16
  }

  function ToInt32(x: int): (r: Int32)
    ensures (x - r) % TWO_32 == 0
    ensures -TWO_31 <= x < TWO_31 ==> r == x
  {
    var low := x % TWO_32;
    if low < TWO_31 then low else low - TWO_32
  }

  /** Go's division, which truncates toward zero. */
  function Quotient(x: int, y: int): (q: int)
    requires y > 0
    ensures -y < x - q * y < y
    ensures x >= 0 ==> 0 <= x - q * y
    ensures x <= 0 ==> x - q * y <= 0
  {
    if x >= 0 then x / y else -(-x / y)
  }

  /** The signed wheel delta in the upper half of the hook's mouse data. */
  function Delta(mouseData: UInt32): Int16 {
    ToInt16(mouseData / TWO_16)
  }

  /** The hook's data for a wheel message: the signed delta above, flags of no interest below. */
  lemma DeltaIsUpperHalf(delta: Int16, flags: int)
    requires 0 <= flags < 0x1_0000
    ensures var upper := if delta < 0 then delta + 0x1_0000 else delta;
      var data := upper * 0x1_0000 + flags;
      0 <= data < TWO_32 && Delta(data) == delta
  {}

  class WheelCapture {
    var wheelAccum: Int32
    var notchesOut: seq<int>

    constructor ()
      ensures wheelAccum == 0 && notchesOut == []
    {
      wheelAccum, notchesOut := 0, [];
    }

    /** A wheel message; nothing is sent until whole notches have come together. */
    method OnWheel(mouseData: UInt32)
      requires Small(wheelAccum)
      modifies this
      ensures Small(wheelAccum)
      ensures var next := Captured(old(wheelAccum), Delta(mouseData));
        wheelAccum == next.1 && notchesOut == old(notchesOut) + if next.0 == 0 then [] else [next.0]
    {
      var delta := Delta(mouseData);
      wheelAccum := ToInt32(wheelAccum + delta);
      var notches := Quotient(wheelAccum, NOTCH);
      wheelAccum := ToInt32(wheelAccum - ToInt32(notches * NOTCH));
      if notches != 0 {
        notchesOut := notchesOut + [notches];
      }
    }
  }

  /** What is injected for a wheel event of that many notches, read as a signed number. */
  function Injected(notches: Int32): Int32 {
    ToInt32(notches * NOTCH)
  }

  // ----- the accumulator on unbounded integers -----

  predicate Small(accum: int) {
    -NOTCH < accum < NOTCH
  }

  function Captured(accum: int, delta: int): (int, int) {
    var sum := accum + delta;
    (Quotient(sum, NOTCH), sum - Quotient(sum, NOTCH) * NOTCH)
  }

  function Remainder(accum: int, deltas: seq<Int16>): int
    decreases |deltas|
  {
    if deltas == [] then accum else Remainder(Captured(accum, deltas[0]).1, deltas[1..])
  }

  /** The notches a run of wheel messages sends. */
  function Sent(accum: int, deltas: seq<Int16>): seq<int>
    decreases |deltas|
  {
    if deltas == [] then []
    else
      var next := Captured(accum, deltas[0]);
      (if next.0 == 0 then [] else [next.0]) + Sent(next.1, deltas[1..])
  }

  function Sum(xs: seq<int>): int {
    if xs == [] then 0 else xs[0] + Sum(xs[1..])
  }

  /** What the receiving device injects in all, event by event. */
  function InjectedTotal(sent: seq<int>): int {
    if sent == [] then 0 else Injected(ToInt32(sent[0])) + InjectedTotal(sent[1..])
  }

  lemma {:induction false} SumConcat(a: seq<int>, b: seq<int>)
    ensures Sum(a + b) == Sum(a) + Sum(b)
  {
    if a == [] {
      assert a + b == b;
    } else {
      SumConcat(a[1..], b);
      assert (a + b)[1..] == a[1..] + b;
    }
  }

  lemma CapturedOne(accum: int, delta: int)
    requires Small(accum)
    ensures var (n, r) := Captured(accum, delta); Small(r) && n * NOTCH + r == accum + delta
    ensures var n := Captured(accum, delta).0; Sum(if n == 0 then [] else [n]) == n
  {
    var n := Captured(accum, delta).0;
    assert [n][1..] == [];
  }

  /** No part of a notch is lost or made up, over any run of wheel messages. */
  lemma {:induction false} WheelIsConserved(accum: int, deltas: seq<Int16>)
    requires Small(accum)
    ensures 120 * Sum(Sent(accum, deltas)) + Remainder(accum, deltas) == accum + Sum(deltas)
    ensures Small(Remainder(accum, deltas))
    decreases |deltas|
  {
    if deltas != [] {
      hide Captured, Small;
      var next := Captured(accum, deltas[0]);
      CapturedOne(accum, deltas[0]);
      WheelIsConserved(next.1, deltas[1..]);
      SumConcat(if next.0 == 0 then [] else [next.0], Sent(next.1, deltas[1..]));
    }
  }

  /** Each event sent is scaled back without overflow. */
  lemma {:induction false} NoOverflow(accum: int, deltas: seq<Int16>)
    requires Small(accum)
    ensures forall n | n in Sent(accum, deltas) :: -TWO_31 <= n < TWO_31 && Injected(n) == n * 120
    decreases |deltas|
  {
    if deltas != [] {
      var next := Captured(accum, deltas[0]);
      CapturedOne(accum, deltas[0]);
      NoOverflow(next.1, deltas[1..]);
      var first := if next.0 == 0 then [] else [next.0];
      forall n | n in Sent(accum, deltas) ensures -TWO_31 <= n < TWO_31 && Injected(n) == n * NOTCH {
        assert n in first || n in Sent(next.1, deltas[1..]);
      }
    }
  }

  lemma {:induction false} InjectedSum(sent: seq<int>)
    requires forall n | n in sent :: -TWO_31 <= n < TWO_31 && Injected(n) == n * NOTCH
    ensures InjectedTotal(sent) == NOTCH * Sum(sent)
  {
    if sent != [] {
      assert sent[0] in sent && forall n | n in sent[1..] :: n in sent;
      InjectedSum(sent[1..]);
    }
  }

  /** Over a forwarding session, what is injected differs from what was scrolled by less than two
      notches, whatever the accumulator held before. */
  lemma SessionIsFaithful(accum: int, deltas: seq<Int16>)
    requires Small(accum)
    ensures InjectedTotal(Sent(accum, deltas)) - Sum(deltas) == accum - Remainder(accum, deltas)
    ensures -240 < InjectedTotal(Sent(accum, deltas)) - Sum(deltas) < 240
  {
    WheelIsConserved(accum, deltas);
    NoOverflow(accum, deltas);
    InjectedSum(Sent(accum, deltas));
  }

  /** A scroll in one direction sends the same notches however finely the device splits it. */
  lemma SteadyScroll(accum: int, deltas: seq<Int16>)
    requires 0 <= accum < 120 && forall d | d in deltas :: d >= 0
    ensures Sum(Sent(accum, deltas)) == (accum + Sum(deltas)) / 120
    ensures Remainder(accum, deltas) == (accum + Sum(deltas)) % 120
  {
    WheelIsConserved(accum, deltas);
    StaysNonNegative(accum, deltas);
  }

  lemma {:induction false} StaysNonNegative(accum: int, deltas: seq<Int16>)
    requires 0 <= accum < NOTCH && forall d | d in deltas :: d >= 0
    ensures 0 <= Remainder(accum, deltas) < NOTCH
    decreases |deltas|
  {
    if deltas != [] {
      assert deltas[0] in deltas;
      assert forall d | d in deltas[1..] :: d in deltas;
      StaysNonNegative(Captured(accum, deltas[0]).1, deltas[1..]);
    }
  }
}
