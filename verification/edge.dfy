/** Crossing a screen edge: where the cursor leaves, and where it enters the next screen.

    Ratios are exact rationals here, binary floating point in the source. */
module Edge {

  datatype Side = Left | Right | Center

  datatype Screen = Screen(w: int, h: int)

  function MaxInt(a: int, b: int): int {
    if a > b then a else b
  }

  function Clamp01(f: real): real {
    if f < 0.0 then 0.0 else if f > 1.0 then 1.0 else f
  }

  /** The side whose trigger column holds `x`, Center for none. */
  function Trigger(s: Screen, x: int): Side {
    if x <= 0 then Left else if x >= s.w - 1 then Right else Center
  }

  function Opposite(side: Side): Side {
    match side
    case Left => Right
    case Right => Left
    case Center => Center
  }

  /** How far down the screen the cursor leaves it. */
  function ExitRatio(s: Screen, y: int): real {
    Clamp01(y as real / MaxInt(s.h - 1, 1) as real)
  }

  /** Go's conversion of a float64 to int: towards zero. */
  function Trunc(f: real): int {
    if f >= 0.0 then f.Floor else -((-f).Floor)
  }

  /** Go's integer division: towards zero. */
  function Half(n: int): int {
    if n >= 0 then n / 2 else -((-n) / 2)
  }

  function EntryRow(s: Screen, ratio: real): int {
    Trunc(Clamp01(ratio) * MaxInt(s.h - 1, 1) as real)
  }

  function EntryPoint(s: Screen, side: Side, ratio: real): (int, int) {
    match side
    case Left => (1, EntryRow(s, ratio))
    case Right => (s.w - 2, EntryRow(s, ratio))
    case Center => (Half(s.w), Half(s.h))
  }

  predicate OnScreen(s: Screen, p: (int, int)) {
    0 <= p.0 < s.w && 0 <= p.1 < s.h
  }

  /** Entering lands on the screen and off both trigger columns, from whatever side and ratio,
      exactly on screens at least three wide and two high. */
  lemma EntryIsSafeIff(s: Screen)
    ensures (forall side, ratio ::
               OnScreen(s, EntryPoint(s, side, ratio)) && Trigger(s, EntryPoint(s, side, ratio).0) == Center)
            <==> s.w >= 3 && s.h >= 2
  {
    if s.w >= 3 && s.h >= 2 {
      forall side, ratio
        ensures OnScreen(s, EntryPoint(s, side, ratio)) && Trigger(s, EntryPoint(s, side, ratio).0) == Center
      {
        RowBounds(s, ratio);
      }
    } else {
      var p := EntryPoint(s, Left, 1.0);
      assert EntryRow(s, 1.0) == MaxInt(s.h - 1, 1);
      assert !(OnScreen(s, p) && Trigger(s, p.0) == Center);
    }
  }

  /** A cursor enters one column in from the trigger column of the side it enters by: the column one
      step back out hands it over the same side. Without a side it enters at the centre. */
  lemma EntersBesideTheEdge(s: Screen, ratio: real)
    requires s.w >= 3
    ensures var x := EntryPoint(s, Left, ratio).0; x == 1 && Trigger(s, x - 1) == Left
    ensures var x := EntryPoint(s, Right, ratio).0; x == s.w - 2 && Trigger(s, x + 1) == Right
    ensures s.h >= 0 ==> EntryPoint(s, Center, ratio) == (s.w / 2, s.h / 2)
  {}

  /** A cursor leaves at the share of the screen's height it has come down, however far off the screen
      it is reported. */
  lemma LeavesAtItsHeight(s: Screen, y: int)
    requires s.h >= 2
    ensures ExitRatio(s, y) * (s.h - 1) as real == (if y < 0 then 0 else if y > s.h - 1 then s.h - 1 else y) as real
  {}

  lemma RowBounds(s: Screen, ratio: real)
    ensures 0 <= EntryRow(s, ratio) <= MaxInt(s.h - 1, 1)
  {
    var r, m := Clamp01(ratio), MaxInt(s.h - 1, 1) as real;
    assert 0.0 <= r * m <= m;
  }

  /** The row on `to` that a cursor leaving `from` at row `y` enters at. */
  function Cross(from: Screen, to: Screen, y: int): int {
    EntryRow(to, ExitRatio(from, y))
  }

  /** On-screen rows cross by integer scaling. */
  lemma CrossScales(from: Screen, to: Screen, y: int)
    requires from.h >= 2 && to.h >= 2 && 0 <= y < from.h
    ensures Cross(from, to, y) == y * (to.h - 1) / (from.h - 1)
  {
    var a, b := from.h - 1, to.h - 1;
    RatioScales(y, a, b);
  }

  lemma RatioScales(y: int, a: int, b: int)
    requires 0 <= y <= a && a > 0 && b > 0
    ensures 0.0 <= y as real / a as real <= 1.0
    ensures (y as real / a as real * b as real).Floor == y * b / a
    ensures y as real / a as real * b as real >= 0.0
  {
    var r := y as real / a as real;
    assert r * a as real == y as real;
    UnitRatio(r, y as real, a as real);
    var f := r * b as real;
    assert f >= 0.0;
    MulNonNegative(y, b);
    DivBounds(y * b, a);
    FloorIs(f, r, y, a, b, y * b / a);
  }

  lemma UnitRatio(r: real, y: real, a: real)
    requires a > 0.0 && 0.0 <= y <= a && r * a == y
    ensures 0.0 <= r <= 1.0
  {}

  lemma FloorIs(f: real, r: real, y: int, a: int, b: int, q: int)
    requires a > 0 && r * a as real == y as real && f == r * b as real
    requires q * a <= y * b < (q + 1) * a
    ensures f.Floor == q
  {
    CastMul(y, b);
    CastMul(q, a);
    CastMul(q + 1, a);
    Sandwich(f, r, y as real, a as real, b as real, q as real, (q + 1) as real, (q * a) as real, (y * b) as real,
      ((q + 1) * a) as real);
  }

  lemma Sandwich(f: real, r: real, y: real, a: real, b: real, lo: real, hi: real, la: real, yb: real, ha: real)
    requires a > 0.0 && r * a == y && f == r * b
    requires la == lo * a && yb == y * b && ha == hi * a && la <= yb < ha
    ensures lo <= f < hi
  {
    Regroup(r, a, b);
    CancelFactor(lo, f, hi, a);
  }

  lemma Regroup(r: real, a: real, b: real)
    ensures (r * b) * a == (r * a) * b
  {}

  lemma CastMul(m: int, n: int)
    ensures (m * n) as real == m as real * n as real
  {}

  lemma CancelFactor(lo: real, f: real, hi: real, a: real)
    requires a > 0.0 && lo * a <= f * a < hi * a
    ensures lo <= f < hi
  {}

  lemma DivBounds(m: int, d: int)
    requires m >= 0 && d > 0
    ensures m / d >= 0 && m / d * d <= m < (m / d + 1) * d
  {}

  /** Higher rows never enter below lower ones. */
  lemma CrossMonotone(from: Screen, to: Screen, y: int, y': int)
    requires from.h >= 2 && to.h >= 2 && 0 <= y <= y' < from.h
    ensures Cross(from, to, y) <= Cross(from, to, y')
  {
    hide Cross;
    CrossScales(from, to, y);
    CrossScales(from, to, y');
    ScaleMonotone(y, y', to.h - 1, from.h - 1);
  }

  lemma ScaleMonotone(y: int, y': int, b: int, a: int)
    requires 0 <= y <= y' && b > 0 && a > 0
    ensures 0 <= y * b / a <= y' * b / a
  {
    assert 0 <= y * b <= y' * b;
    DivBounds(y * b, a);
    DivBounds(y' * b, a);
    DivLeast(y * b / a, y' * b / a, a);
  }

  lemma DivLeast(m: int, n: int, d: int)
    requires d > 0 && m * d < (n + 1) * d
    ensures m <= n
  {}

  /** Between screens of equal height the row is kept. */
  lemma CrossExact(from: Screen, to: Screen, y: int)
    requires from.h == to.h && from.h >= 2 && 0 <= y < from.h
    ensures Cross(from, to, y) == y
  {
    hide Cross;
    CrossScales(from, to, y);
    var d := from.h - 1;
    MulNonNegative(y, d);
    DivBounds(y * d, d);
    Distribute(y, d);
    DivLeast(y * d / d, y, d);
    DivLeast(y, y * d / d, d);
  }

  /** There and back never gains a row, and loses at most one when the other screen is at least
      as tall. */
  lemma ThereAndBack(from: Screen, to: Screen, y: int)
    requires from.h >= 2 && to.h >= 2 && 0 <= y < from.h
    ensures var back := Cross(to, from, Cross(from, to, y));
            back <= y && (to.h >= from.h ==> back >= y - 1)
  {
    hide Cross;
    CrossScales(from, to, y);
    ScaleBack(y, from.h - 1, to.h - 1);
    CrossScales(to, from, y * (to.h - 1) / (from.h - 1));
  }

  lemma ScaleBack(y: int, a: int, b: int)
    requires 0 <= y <= a && a > 0 && b > 0
    ensures var r := y * b / a;
            0 <= r <= b && r * a / b <= y && (b >= a ==> r * a / b >= y - 1)
  {
    MulNonNegative(y, b);
    DivBounds(y * b, a);
    var r := y * b / a;
    MulNonNegative(r, a);
    DivBounds(r * a, b);
    ScaleBackBounds(y, a, b, r, r * a / b);
  }

  lemma MulNonNegative(m: int, n: int)
    requires m >= 0 && n >= 0
    ensures m * n >= 0
  {}

  lemma MulMonotone(m: int, n: int, d: int)
    requires m <= n && d > 0
    ensures m * d <= n * d
  {}

  lemma Distribute(m: int, d: int)
    ensures (m + 1) * d == m * d + d && (m - 1) * d == m * d - d
  {}

  lemma ScaleBackBounds(y: int, a: int, b: int, r: int, s: int)
    requires 0 <= y <= a && a > 0 && b > 0
    requires r * a <= y * b < (r + 1) * a && s * b <= r * a < (s + 1) * b
    ensures r <= b && s <= y && (b >= a ==> s >= y - 1)
  {
    Distribute(r, a);
    Distribute(b, a);
    Distribute(y, b);
    MulMonotone(y, a, b);
    DivLeast(r, b, a);
    DivLeast(s, y, b);
    if b >= a { DivLeast(y - 1, s, b); }
  }
}
