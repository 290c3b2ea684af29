/**
 * Scores of the durable delay queue (internal/delay/queue.go). A publish time in nanoseconds becomes a float64, and
 * so does the "now" of ZRANGEBYSCORE: both are rounded to the nearest double, ties to even (section 4.3.1 of
 * IEEE 754-2019).
 */
module DelayScore {

  /** The integers below this are all doubles. */
  const EXACT := 0x20_0000_0000_0000

  /** The distance between neighbouring doubles around x, or 1 where all integers are doubles. */
  function Ulp(x: nat): (u: nat)
    ensures u > 0
  {
    if x < EXACT then 1 else 2 * Ulp(x / 2)
  }

  /** The multiple of u nearest to x; halfway, the even multiple. */
  function RoundTo(x: nat, u: nat): nat
    requires u > 0
  {
    var q, r := x / u, x % u;
    if 2 * r < u || (2 * r == u && q % 2 == 0) then q * u else (q + 1) * u
  }

  /** float64(x) */
  function Float64(x: nat): nat {
    RoundTo(x, Ulp(x))
  }

  /** ZRANGEBYSCORE -inf now returns the item. */
  predicate IsDue(publishAt: nat, now: nat) {
    Float64(publishAt) <= Float64(now)
  }

  lemma Divided(x: nat, u: nat)
    requires u > 0
    ensures x == (x / u) * u + x % u && x % u < u
  {
  }

  lemma MulOrder(a: int, b: int, u: nat)
    requires a <= b
    ensures a * u <= b * u
  {
  }

  lemma MulStrict(a: int, b: int, u: nat)
    requires a * u < b * u
    ensures a < b
  {
    if b <= a { MulOrder(b, a, u); }
  }

  lemma NextMultiple(q: int, u: nat)
    ensures (q + 1) * u == q * u + u
  {
  }

  /** Rounding moves a time by at most half the distance between doubles. */
  lemma RoundToClose(x: nat, u: nat)
    requires u > 0
    ensures 2 * x - u <= 2 * RoundTo(x, u) <= 2 * x + u
  {
    Divided(x, u);
    NextMultiple(x / u, u);
  }

  /** Rounding never crosses a multiple. */
  lemma RoundToWithin(x: nat, u: nat, m: nat)
    requires u > 0
    ensures x <= m * u ==> RoundTo(x, u) <= m * u
    ensures m * u <= x ==> m * u <= RoundTo(x, u)
  {
    var q := x / u;
    Divided(x, u);
    NextMultiple(q, u);
    if x <= m * u {
      if q * u == m * u {
      } else {
        MulStrict(q, m, u);
        MulOrder(q + 1, m, u);
      }
    }
    if m * u <= x {
      MulStrict(m, q + 1, u);
      MulOrder(m, q, u);
    }
  }

  lemma QuotientsOrdered(x: nat, y: nat, u: nat)
    requires x <= y && u > 0
    ensures x / u <= y / u
  {
    Divided(x, u);
    Divided(y, u);
    NextMultiple(y / u, u);
    MulStrict(x / u, y / u + 1, u);
  }

  lemma BelowQuotient(x: nat, q: nat, u: nat)
    requires u > 0 && x / u < q
    ensures x <= q * u
  {
    Divided(x, u);
    NextMultiple(x / u, u);
    MulOrder(x / u + 1, q, u);
  }

  lemma SameQuotient(x: nat, y: nat, u: nat)
    requires x <= y && u > 0 && x / u == y / u
    ensures RoundTo(x, u) <= RoundTo(y, u)
  {
    Divided(x, u);
    Divided(y, u);
    NextMultiple(x / u, u);
  }

  lemma RoundToMonotone(x: nat, y: nat, u: nat)
    requires x <= y && u > 0
    ensures RoundTo(x, u) <= RoundTo(y, u)
  {
    QuotientsOrdered(x, y, u);
    if x / u < y / u {
      BelowQuotient(x, y / u, u);
      RoundToWithin(x, u, y / u);
      Divided(y, u);
      RoundToWithin(y, u, y / u);
    } else {
      SameQuotient(x, y, u);
    }
  }

  /** x lies below EXACT doubles' worth of its spacing and, where the spacing is not 1, at or above half of that. */
  lemma {:induction false} UlpBounds(x: nat)
    ensures x < EXACT * Ulp(x)
    ensures x >= EXACT ==> 2 * x >= EXACT * Ulp(x)
  {
    if x >= EXACT { UlpBounds(x / 2); }
  }

  lemma Twice(m: nat, u: nat)
    ensures 2 * (m * u) == m * (2 * u)
  {
  }

  /** The spacing at a later time is an equal or an even multiple of that at an earlier one. */
  lemma {:induction false} UlpGrows(x: nat, y: nat) returns (m: nat)
    requires x <= y
    ensures Ulp(y) == m * Ulp(x) && (m == 1 || (m >= 2 && m % 2 == 0 && y >= EXACT))
  {
    if y < EXACT {
      m := 1;
    } else if x < EXACT {
      m := Ulp(y);
    } else {
      m := UlpGrows(x / 2, y / 2);
      Twice(m, Ulp(x / 2));
    }
  }

  lemma HalfSpacing(x: nat, m: nat)
    requires m >= 2 && x < EXACT * Ulp(x)
    ensures x <= ((EXACT / 2) * m) * Ulp(x) == (EXACT / 2) * (m * Ulp(x))
  {
    MulOrder(EXACT, (EXACT / 2) * m, Ulp(x));
  }

  /** Across a change of spacing there is a double between the two times, on both grids. */
  lemma AcrossSpacings(x: nat, y: nat, m: nat)
    requires x <= y && y >= EXACT && Ulp(y) == m * Ulp(x) && m >= 2 && m % 2 == 0
    ensures Float64(x) <= Float64(y)
  {
    UlpBounds(x);
    UlpBounds(y);
    var half := m / 2;
    HalfSpacing(x, m);
    RoundToWithin(x, Ulp(x), (EXACT / 2) * m);
    RoundToWithin(y, Ulp(y), EXACT / 2);
  }

  /** Scoring keeps the order of times. */
  lemma ScoreMonotone(x: nat, y: nat)
    requires x <= y
    ensures Float64(x) <= Float64(y)
  {
    var m := UlpGrows(x, y);
    if m == 1 {
      RoundToMonotone(x, y, Ulp(x));
    } else {
      AcrossSpacings(x, y, m);
    }
  }

  /** An item whose time has come is always due. */
  lemma DueWhenReached(publishAt: nat, now: nat)
    requires publishAt <= now
    ensures IsDue(publishAt, now)
  {
    ScoreMonotone(publishAt, now);
  }

  lemma UlpOrder(x: nat, y: nat)
    requires x <= y
    ensures Ulp(x) <= Ulp(y)
  {
    var m := UlpGrows(x, y);
    MulOrder(1, m, Ulp(x));
  }

  lemma ExactBelow(x: nat)
    requires x < EXACT
    ensures Float64(x) == x
  {
    Divided(x, 1);
  }

  /** An item is due at most one spacing early, and never early where all integers are doubles. */
  lemma EarlyBound(publishAt: nat, now: nat)
    requires IsDue(publishAt, now)
    ensures publishAt <= now + Ulp(publishAt)
    ensures publishAt < EXACT ==> publishAt <= now
  {
    if now < publishAt {
      UlpOrder(now, publishAt);
      RoundToClose(now, Ulp(now));
      RoundToClose(publishAt, Ulp(publishAt));
      if publishAt < EXACT {
        ExactBelow(now);
        ExactBelow(publishAt);
      }
    }
  }

  const T60 := 0x1000_0000_0000_0000
  const T61 := 0x2000_0000_0000_0000

  /** From 2006 to 2043 doubles are 256 ns apart. */
  lemma UlpNow(x: nat)
    requires T60 <= x < T61
    ensures Ulp(x) == 256
  {
    var a := x / 2;
    var b := a / 2;
    var d := b / 2;
    var e := d / 2;
    var g := e / 2;
    var h := g / 2;
    var i := h / 2;
    var j := i / 2;
    assert j < EXACT && Ulp(j) == 1;
    assert Ulp(i) == 2 && Ulp(h) == 4;
    assert Ulp(g) == 8 && Ulp(e) == 16;
    assert Ulp(d) == 32 && Ulp(b) == 64;
  }

  /** For present-day times an item is due at most 256 ns before its time. */
  lemma EarlyByAtMost256(publishAt: nat, now: nat)
    requires T60 <= publishAt < T61 && IsDue(publishAt, now)
    ensures publishAt - now <= 256
  {
    UlpNow(publishAt);
    EarlyBound(publishAt, now);
  }

  /** And 256 ns it can be: around every even double there are two times that far apart with the same score. */
  lemma EarlyBy256(q: nat)
    requires q % 2 == 0 && T60 < 256 * q < T61 - 256
    ensures IsDue(256 * q + 128, 256 * q - 128)
  {
    UlpNow(256 * q + 128);
    UlpNow(256 * q - 128);
    assert (256 * q + 128) / 256 == q && (256 * q - 128) / 256 == q - 1;
  }
}
