/** The one number behind every recommendation (app/core/confidence.py), over exact rationals and any rounding that is
    monotone and keeps whole hundredths. */
module Confidence {

  const FLOOR := 0.05
  const CEIL := 0.95

  function Max0(n: int): nat {
    if n < 0 then 0 else n
  }

  function Min(a: nat, b: nat): nat {
    if a < b then a else b
  }

  /** The weighted sum before clamping. */
  function Raw(s: nat, a: nat, g: nat): real {
    0.25 + 0.12 * Min(s, 5) as real + 0.15 * (a as real / (if s == 0 then 1 else s) as real) + 0.10 * Min(g, 3) as real
  }

  function Clamped(x: real): real {
    if x < FLOOR then FLOOR else if x > CEIL then CEIL else x
  }

  function Cents(n: int): real {
    n as real / 100.0
  }

  ghost predicate IsRounding(round: real -> real) {
    && (forall x, y :: x <= y ==> round(x) <= round(y))
    && (forall n: int :: round(Cents(n)) == Cents(n))
  }

  /** `confidence`: the counts are clamped at zero first. */
  function Score(round: real -> real, sources: int, agreeing: int, agents: int): real {
    round(Clamped(Raw(Max0(sources), Max0(agreeing), Max0(agents))))
  }

  /** Half-up rounding is one such rounding. */
  function HalfUp(x: real): real {
    Cents((x * 100.0 + 0.5).Floor)
  }

  lemma HalfUpIsRounding()
    ensures IsRounding(HalfUp)
  {
    forall n: int ensures HalfUp(Cents(n)) == Cents(n) {
      assert Cents(n) * 100.0 == n as real;
      assert (n as real + 0.5).Floor == n;
    }
    forall x: real, y: real | x <= y ensures HalfUp(x) <= HalfUp(y) {
      assert (x * 100.0 + 0.5).Floor <= (y * 100.0 + 0.5).Floor;
    }
  }

  /** Between whole hundredths, rounding stays between them. */
  lemma RoundBetween(round: real -> real, x: real, lo: int, hi: int)
    requires IsRounding(round) && Cents(lo) <= x <= Cents(hi)
    ensures Cents(lo) <= round(x) <= Cents(hi)
  {
    assert round(Cents(lo)) <= round(x) <= round(Cents(hi));
  }

  /** Whatever the counts, even negative ones, the number lies in the range that the report model demands. */
  lemma InRange(round: real -> real, sources: int, agreeing: int, agents: int)
    requires IsRounding(round)
    ensures FLOOR <= Score(round, sources, agreeing, agents) <= CEIL
  {
    RoundBetween(round, Clamped(Raw(Max0(sources), Max0(agreeing), Max0(agents))), 5, 95);
  }

  // ------------------------------------------------------------------ when more evidence lowers the number

  /** The counts are at least as large, one by one. */
  predicate AtLeast(s': nat, a': nat, g': nat, s: nat, a: nat, g: nat) {
    s <= s' && a <= a' && g <= g'
  }

  /** One source that two to four rows of a cluster share, so that the ratio exceeds one, and few enough agents. */
  predicate Inflated(s: nat, a: nat, g: nat) {
    s == 1 && (a == 2 || (a == 3 && g <= 2) || (a == 4 && g == 1))
  }

  lemma Share(a: nat, s: nat)
    requires s > 0
    ensures 0.0 <= a as real / s as real
    ensures a <= s ==> a as real / s as real <= 1.0
  {
  }

  /** Below five sources the sum is linear in the agreeing rows. */
  lemma Linear(s: nat, a: nat, g: nat)
    requires 1 <= s <= 4
    ensures Raw(s, a, g) == Slope(s) * a as real + 0.25 + 0.12 * s as real + 0.10 * Min(g, 3) as real
  {
  }

  function Slope(s: nat): real
    requires 1 <= s <= 4
  {
    if s == 1 then 0.15 else if s == 2 then 0.075 else if s == 3 then 0.05 else 0.0375
  }

  lemma FiveSaturate(s: nat, a: nat, g: nat)
    requires s >= 5 && g >= 1
    ensures Clamped(Raw(s, a, g)) == CEIL
  {
    Share(a, s);
  }

  lemma SlopeGrows(s: nat, a: nat, a': nat)
    requires 1 <= s <= 4 && a <= a'
    ensures Slope(s) * a as real <= Slope(s) * a' as real
  {
  }

  /** From two sources on, the ratio cannot fall far enough to show below the ceiling. */
  lemma MoreSources(s: nat, a: nat, g: nat, s': nat)
    requires 1 <= s <= s' <= 4 && a >= 1 && g >= 1 && !Inflated(s, a, g)
    ensures Clamped(Raw(s, a, g)) <= Clamped(Raw(s', a, g))
  {
    Linear(s, a, g);
    Linear(s', a, g);
    var x := a as real;
    assert x >= 1.0;
    assert a >= 5 ==> x >= 5.0;
    assert a == 4 ==> x == 4.0;
    assert a == 3 ==> x == 3.0;
    assert Min(g, 3) == 1 || Min(g, 3) == 2 || Min(g, 3) == 3;
  }

  lemma RawGrows(s: nat, a: nat, g: nat, s': nat, a': nat, g': nat)
    requires s >= 1 && a >= 1 && g >= 1 && AtLeast(s', a', g', s, a, g) && !Inflated(s, a, g)
    ensures Clamped(Raw(s, a, g)) <= Clamped(Raw(s', a', g'))
  {
    if s' >= 5 {
      FiveSaturate(s', a', g');
    } else {
      MoreSources(s, a, g, s');
      Linear(s', a, g);
      Linear(s', a', g');
      SlopeGrows(s', a, a');
    }
  }

  lemma InflatedFalls(round: real -> real, a: nat, g: nat)
    requires IsRounding(round) && g >= 1 && Inflated(1, a, g)
    ensures Score(round, 2, a, g) < Score(round, 1, a, g)
  {
    var before, after := Clamped(Raw(1, a, g)), Clamped(Raw(2, a, g));
    Linear(1, a, g);
    Linear(2, a, g);
    var lo, hi := if a == 2 then (if g == 1 then 77 else if g == 2 then 87 else 95)
                  else if a == 3 && g == 1 then 92 else 95,
                  if a == 2 then (if g == 1 then 74 else if g == 2 then 84 else 94)
                  else if a == 3 then (if g == 1 then 82 else 92) else 89;
    assert Cents(lo) <= before <= Cents(95);
    assert Cents(0) <= after <= Cents(hi);
    RoundBetween(round, before, lo, 95);
    RoundBetween(round, after, 0, hi);
    assert Cents(hi) < Cents(lo);
  }

  /** Larger counts can lower the number exactly when one shared URL had inflated the ratio: with s sources, a agreeing
      rows and g agents, all at least one, some counts at least as large give less if and only if `Inflated(s, a, g)`. */
  lemma FallsIffInflated(round: real -> real, s: nat, a: nat, g: nat)
    requires IsRounding(round) && s >= 1 && a >= 1 && g >= 1
    ensures (exists s': nat, a': nat, g': nat :: AtLeast(s', a', g', s, a, g) &&
               Score(round, s', a', g') < Score(round, s, a, g))
       <==> Inflated(s, a, g)
  {
    if Inflated(s, a, g) {
      InflatedFalls(round, a, g);
      assert AtLeast(2, a, g, s, a, g);
    } else {
      forall s': nat, a': nat, g': nat | AtLeast(s', a', g', s, a, g)
        ensures Score(round, s, a, g) <= Score(round, s', a', g')
      {
        RawGrows(s, a, g, s', a', g');
      }
    }
  }

  /** No more than as many agreeing rows as sources, as when no two rows share a URL: the number is 0.25 without sources,
      at least 0.62 with one, and 0.95 from five on. */
  lemma Milestones(round: real -> real, s: nat, a: nat, g: nat)
    requires IsRounding(round)
    requires if s == 0 then a == 0 && g == 0 else 1 <= a <= s && g >= 1
    ensures s == 0 ==> Score(round, s, a, g) == 0.25
    ensures s >= 1 ==> Score(round, s, a, g) >= 0.62
    ensures s >= 5 ==> Score(round, s, a, g) == 0.95
  {
    if s == 0 {
      RoundBetween(round, Clamped(Raw(s, a, g)), 25, 25);
    } else if s >= 5 {
      FiveSaturate(s, a, g);
      RoundBetween(round, Clamped(Raw(s, a, g)), 95, 95);
    } else {
      assert s == 1 || s == 2 || s == 3 || s == 4;
      RoundBetween(round, Clamped(Raw(s, a, g)), 62, 95);
    }
  }

  // ------------------------------------------------------------------ when losing sources lowers the number

  /** Rows that count as sources one by one, `a` of them agreeing, whose number falls when fewer sources are counted. */
  predicate Collapses(n: nat, a: nat, g: nat) {
    (n == 2 && a == 1) || (n >= 3 && (a <= 2 || (a == 3 && g <= 2) || (a == 4 && g == 1)))
  }

  lemma Apart(round: real -> real, x: real, y: real, c: int)
    requires IsRounding(round) && x <= Cents(c) && Cents(c + 1) <= y
    ensures round(x) < round(y)
  {
    assert round(x) <= round(Cents(c)) && round(Cents(c + 1)) <= round(y);
  }

  /** The hundredth at which a collapse is seen to fall. */
  function Bottom(a: nat, g: nat): int {
    var m := Min(g, 3);
    if a <= 1 then 52 + 10 * m else if a == 2 then 64 + 10 * m else if a == 3 then 72 + 10 * m else 89
  }

  lemma BottomLow(n: nat, a: nat, g: nat)
    requires 1 <= a <= n && g >= 1 && Collapses(n, a, g)
    ensures var s := if a == 1 then 1 else 2; Clamped(Raw(s, a, g)) <= Cents(Bottom(a, g))
  {
    Linear(if a == 1 then 1 else 2, a, g);
    assert a == 1 || a == 2 || a == 3 || a == 4;
  }

  lemma BottomHigh(n: nat, a: nat, g: nat)
    requires 1 <= a <= n && g >= 1 && Collapses(n, a, g)
    ensures Cents(Bottom(a, g) + 1) <= Clamped(Raw(n, a, g))
  {
    if n >= 5 {
      FiveSaturate(n, a, g);
    } else {
      Linear(n, a, g);
      assert n == 2 || n == 3 || n == 4;
      assert a == 1 || a == 2 || a == 3 || a == 4;
    }
  }

  /** One source, or two, is less than enough by a whole hundredth. */
  lemma CollapseFalls(round: real -> real, n: nat, a: nat, g: nat) returns (s: nat)
    requires IsRounding(round) && 1 <= a <= n && g >= 1 && Collapses(n, a, g)
    ensures 1 <= s <= 2 && Score(round, s, a, g) < Score(round, n, a, g)
  {
    s := if a == 1 then 1 else 2;
    BottomLow(n, a, g);
    BottomHigh(n, a, g);
    Apart(round, Clamped(Raw(s, a, g)), Clamped(Raw(n, a, g)), Bottom(a, g));
  }

  /** From two agreeing rows on, two sources are the worst case. */
  lemma TwoIsWorst(s: nat, a: nat, g: nat)
    requires s >= 2 && a >= 1 && g >= 1
    ensures Clamped(Raw(2, a, g)) <= Clamped(Raw(s, a, g))
  {
    RawGrows(2, a, g, s, a, g);
  }

  lemma NoCollapse(n: nat, a: nat, g: nat, s: nat)
    requires 1 <= a <= n && g >= 1 && s >= 1 && !Collapses(n, a, g)
    ensures Clamped(Raw(n, a, g)) <= Clamped(Raw(s, a, g))
  {
    if n == 1 {
      RawGrows(1, 1, g, s, a, g);
    } else {
      Linear(1, a, g);
      Linear(2, a, g);
      if s >= 2 {
        TwoIsWorst(s, a, g);
      }
      if n >= 3 {
        assert Clamped(Raw(1, a, g)) == CEIL && Clamped(Raw(2, a, g)) == CEIL;
      } else {
        assert n == 2 && a == 2;
      }
    }
  }

  /** With n rows counted one by one, of which a agree, some other number of sources gives less if and only if
      `Collapses(n, a, g)`. */
  lemma CollapsesIff(round: real -> real, n: nat, a: nat, g: nat)
    requires IsRounding(round) && 1 <= a <= n && g >= 1
    ensures (exists s: nat :: s >= 1 && Score(round, s, a, g) < Score(round, n, a, g)) <==> Collapses(n, a, g)
  {
    if Collapses(n, a, g) {
      var s := CollapseFalls(round, n, a, g);
    } else {
      forall s: nat | s >= 1 ensures Score(round, n, a, g) <= Score(round, s, a, g) {
        NoCollapse(n, a, g, s);
      }
    }
  }

  /** For a fixed number of sources, more agreement and more agents never lower the number. */
  lemma MoreAgreement(round: real -> real, s: nat, a: nat, g: nat, a': nat, g': nat)
    requires IsRounding(round) && s >= 1 && a <= a' && 1 <= g <= g'
    ensures Score(round, s, a, g) <= Score(round, s, a', g')
  {
    if s >= 5 {
      FiveSaturate(s, a, g);
      FiveSaturate(s, a', g');
    } else {
      Linear(s, a, g);
      Linear(s, a', g');
      SlopeGrows(s, a, a');
      assert Clamped(Raw(s, a, g)) <= Clamped(Raw(s, a', g'));
    }
  }
}
