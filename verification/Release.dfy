/** The arithmetic of one release.

    `n` matured batches promised `us[0] .. us[n-1]` coins, `t` in total, and `a` coins
    arrived.  The gap `|t - a|` is split over the batches by floored weights, with a
    correction of one unit per batch against the claimants. */
module Release {
  import opened Fixed

  function Total(us: seq<nat>): nat {
    if us == [] then 0 else us[0] + Total(us[1..])
  }

  function Gap(t: nat, a: nat): nat {
    if t >= a then t - a else a - t
  }

  /** A batch's floored fraction of the total. */
  function Weight(u: nat, t: nat): nat
    requires t > 0
  {
    Floor(u * ONE, t)
  }

  /** A batch's floored part of the gap, before the correction. */
  function Share(u: nat, t: nat, gap: nat): nat
    requires t > 0
  {
    Floor(Weight(u, t) * gap, ONE)
  }

  /** What the batch is credited.  In a shortfall the cut is the share plus one, and the
      difference is taken as an absolute value; in a surplus the bonus is the share less
      one. */
  function Credit(u: nat, t: nat, a: nat): int
    requires t > 0
  {
    var share := Share(u, t, Gap(t, a));
    if a > t then u + share - 1
    else if a == t then u
    else if u >= share + 1 then u - (share + 1)
    else share + 1 - u
  }

  function Credits(us: seq<nat>, t: nat, a: nat): int
    requires t > 0
  {
    if us == [] then 0 else Credit(us[0], t, a) + Credits(us[1..], t, a)
  }

  function Shares(us: seq<nat>, t: nat, gap: nat): nat
    requires t > 0
  {
    if us == [] then 0 else Share(us[0], t, gap) + Shares(us[1..], t, gap)
  }

  function Weights(us: seq<nat>, t: nat): nat
    requires t > 0
  {
    if us == [] then 0 else Weight(us[0], t) + Weights(us[1..], t)
  }

  // ----- one batch -----

  /** The share never exceeds the exact proportional part of the gap, and falls short of
      it by less than one unit plus `gap / 10^18`. */
  lemma ShareBounds(u: nat, t: nat, gap: nat)
    requires t > 0
    ensures Share(u, t, gap) * t <= u * gap
    ensures u * gap * ONE < (Share(u, t, gap) + 1) * t * ONE + gap * t || gap == 0
  {
    var w := Weight(u, t);
    var s := Share(u, t, gap);
    assert s * ONE <= w * gap < (s + 1) * ONE;
    assert w * t <= u * ONE < (w + 1) * t;
    MulMono(s * ONE, w * gap, t);
    MulMono(w * t, u * ONE, gap);
    assert (w * gap) * t == (w * t) * gap by { Swap(w, gap, t); }
    assert (s * t) * ONE <= (u * gap) * ONE by {
      Swap(s, ONE, t);
      Swap(u, ONE, gap);
    }
    if gap > 0 {
      ScaleUpStrict(u * ONE, (w + 1) * t, gap);
      ScaleUpStrict(w * gap, (s + 1) * ONE, t);
      Swap(u, ONE, gap);
      Swap(s + 1, ONE, t);
      assert ((w + 1) * t) * gap == (w * gap) * t + gap * t by { Expand(w, t, gap); }
    }
  }

  lemma ScaleUpStrict(a: nat, b: nat, c: nat)
    requires a < b && c > 0
    ensures a * c < b * c
  {
  }

  lemma Swap(a: nat, b: nat, c: nat)
    ensures (a * b) * c == (a * c) * b
  {
  }

  lemma Expand(w: nat, t: nat, g: nat)
    ensures ((w + 1) * t) * g == (w * g) * t + g * t
  {
  }

  /** In a shortfall the cut `share + 1` exceeds the batch's own value -- so that the
      absolute value flips the sign -- exactly when the batch is worth nothing, or nothing
      arrived and the batch's weight is exact. */
  predicate Flips(u: nat, t: nat, a: nat)
    requires t > 0
  {
    a < t && (u == 0 || (a == 0 && (u * ONE) % t == 0))
  }

  lemma FlipsIff(u: nat, t: nat, a: nat)
    requires t > 0 && u <= t && a < t
    ensures Share(u, t, Gap(t, a)) + 1 > u <==> Flips(u, t, a)
    ensures Share(u, t, Gap(t, a)) <= u
  {
    var gap := Gap(t, a);
    var s := Share(u, t, gap);
    ShareBounds(u, t, gap);
    MulMono(gap, t, u);
    assert s * t <= u * t by { assert u * gap <= u * t; }
    MulCancel(s, u, t);
    if u > 0 && s == u {
      assert u * t <= u * gap;
      assert gap == t by {
        if gap < t { ScaleUpStrict(gap, t, u); }
      }
    }
    if u > 0 && a == 0 {
      var w := Weight(u, t);
      assert s == u <==> u * ONE <= w * t by { FloorIsLargest(w * t, ONE, u); }
      ExactIff(u * ONE, t);
    }
  }

  /** A floored quotient loses nothing exactly when the remainder is zero. */
  lemma ExactIff(n: nat, d: nat)
    requires d > 0
    ensures n <= Floor(n, d) * d <==> n % d == 0
  {
    assert n == (n / d) * d + n % d;
  }

  /** Fairness in a shortfall, against the exact part `a * u / t` and scaled by
      `t * 10^18` to stay in the integers: a credit is at most one unit below and less
      than `gap / 10^18` above it, unless it flips, when it is one unit instead of none. */
  lemma ShortfallIsFair(u: nat, t: nat, a: nat)
    requires t > 0 && u <= t && a < t
    ensures Flips(u, t, a) ==> Credit(u, t, a) == 1 && a * u == 0
    ensures !Flips(u, t, a) ==>
      && a * u <= (Credit(u, t, a) + 1) * t
      && (Credit(u, t, a) * t - a * u) * ONE < (t - a) * t
  {
    var gap := Gap(t, a);
    var s := Share(u, t, gap);
    FlipsIff(u, t, a);
    if !Flips(u, t, a) {
      ShareBounds(u, t, gap);
      CutArithmetic(u, t, a, gap, s);
    }
  }

  lemma CutArithmetic(u: nat, t: nat, a: nat, gap: nat, s: nat)
    requires a + gap == t && s + 1 <= u
    requires s * t <= u * gap
    requires u * gap * ONE < (s + 1) * t * ONE + gap * t
    ensures a * u <= (u - (s + 1) + 1) * t
    ensures ((u - (s + 1)) * t - a * u) * ONE < gap * t
  {
    var p, q := u * gap, (s + 1) * t;
    assert a * u == t * u - p by { assert t * u == (a + gap) * u; }
    assert (u - (s + 1)) * t == t * u - q;
    assert (u - (s + 1) + 1) * t == t * u - s * t;
    assert p * ONE < q * ONE + gap * t;
  }

  /** Fairness in a surplus: a credit is at least one unit and less than
      `2 + gap / 10^18` below the exact part. */
  lemma SurplusIsFair(u: nat, t: nat, a: nat)
    requires t > 0 && a > t
    ensures (Credit(u, t, a) + 1) * t <= a * u
    ensures (a * u - (Credit(u, t, a) + 2) * t) * ONE < (a - t) * t
  {
    var gap := Gap(t, a);
    var s := Share(u, t, gap);
    ShareBounds(u, t, gap);
    BonusArithmetic(u, t, a, gap, s);
  }

  lemma BonusArithmetic(u: nat, t: nat, a: nat, gap: nat, s: nat)
    requires a == t + gap
    requires s * t <= u * gap
    requires u * gap * ONE < (s + 1) * t * ONE + gap * t
    ensures (u + s) * t <= a * u
    ensures (a * u - (u + s + 1) * t) * ONE < gap * t
  {
    var p, q := u * gap, (s + 1) * t;
    assert a * u == t * u + p;
    assert (u + s) * t == t * u + s * t;
    assert (u + s + 1) * t == t * u + q;
    assert p * ONE < q * ONE + gap * t;
  }

  /** `credit` is within `2 + gap / 10^18` of `exact / t`. */
  ghost predicate Near(credit: int, exact: nat, t: nat, gap: nat) {
    && (credit * t - exact) * ONE <= (2 * ONE + gap) * t
    && (exact - credit * t) * ONE <= (2 * ONE + gap) * t
  }

  lemma NearAbove(c: int, y: nat, t: nat, gap: nat)
    requires y <= (c + 1) * t && (c * t - y) * ONE < gap * t
    ensures Near(c, y, t, gap)
  {
    assert (c + 1) * t == c * t + t;
    assert (2 * ONE + gap) * t == 2 * t * ONE + gap * t;
  }

  lemma NearBelow(c: int, y: nat, t: nat, gap: nat)
    requires (c + 1) * t <= y && (y - (c + 2) * t) * ONE < gap * t
    ensures Near(c, y, t, gap)
  {
    assert (c + 1) * t == c * t + t && (c + 2) * t == c * t + 2 * t;
    assert (2 * ONE + gap) * t == 2 * t * ONE + gap * t;
  }

  lemma NearUnit(c: int, y: nat, t: nat, gap: nat)
    requires c * t - t <= y <= c * t
    ensures Near(c, y, t, gap)
  {
    assert (2 * ONE + gap) * t == 2 * t * ONE + gap * t;
  }

  /** Proportional fairness for every batch of every release, whatever arrived: a credit
      differs from the exact part `a * u / t` by at most `2 + gap / 10^18`. */
  lemma CreditIsFair(u: nat, t: nat, a: nat)
    requires t > 0 && u <= t
    ensures Near(Credit(u, t, a), a * u, t, Gap(t, a))
  {
    hide Near, Share;
    if a > t {
      SurplusIsFair(u, t, a);
      NearBelow(Credit(u, t, a), a * u, t, a - t);
    } else if a == t {
      NearUnit(u, a * u, t, 0);
    } else {
      ShortfallIsFair(u, t, a);
      if Flips(u, t, a) {
        NearUnit(1, 0, t, t - a);
      } else {
        NearAbove(Credit(u, t, a), a * u, t, t - a);
      }
    }
  }

  // ----- all batches of a release -----

  function FlipCount(us: seq<nat>, t: nat, a: nat): nat
    requires t > 0
  {
    if us == [] then 0
    else (if Flips(us[0], t, a) then 1 else 0) + FlipCount(us[1..], t, a)
  }

  /** A shortfall's credits, from the shares. */
  lemma {:induction false} ShortfallCredits(us: seq<nat>, t: nat, a: nat)
    requires t > 0 && a < t
    requires Total(us) <= t
    ensures Credits(us, t, a)
         == Total(us) - Shares(us, t, t - a) - |us| + 2 * FlipCount(us, t, a)
  {
    if us != [] {
      FlipsIff(us[0], t, a);
      ShortfallCredits(us[1..], t, a);
    }
  }

  lemma {:induction false} SurplusCredits(us: seq<nat>, t: nat, a: nat)
    requires t > 0 && a > t
    ensures Credits(us, t, a) == Total(us) + Shares(us, t, a - t) - |us|
  {
    if us != [] {
      SurplusCredits(us[1..], t, a);
    }
  }

  lemma {:induction false} ExactCredits(us: seq<nat>, t: nat)
    requires t > 0
    ensures Credits(us, t, t) == Total(us)
  {
    if us != [] {
      ExactCredits(us[1..], t);
    }
  }

  lemma AddScaled(a: nat, b: nat, t: nat, c: nat, d: nat, g: nat)
    requires a * t <= c * g && b * t <= d * g
    ensures (a + b) * t <= (c + d) * g
  {
  }

  /** The shares of a whole release stay within the gap. */
  lemma {:induction false} SharesUpper(us: seq<nat>, t: nat, gap: nat)
    requires t > 0
    ensures Shares(us, t, gap) * t <= Total(us) * gap
  {
    if us != [] {
      SharesUpper(us[1..], t, gap);
      ShareBounds(us[0], t, gap);
      AddScaled(Share(us[0], t, gap), Shares(us[1..], t, gap), t, us[0], Total(us[1..]), gap);
    }
  }

  /** Flooring the weights loses less than one atomic per batch. */
  lemma {:induction false} WeightsLower(us: seq<nat>, t: nat)
    requires t > 0
    ensures Total(us) * ONE <= Weights(us, t) * t + |us| * (t - 1)
  {
    if us != [] {
      WeightsLower(us[1..], t);
      LoseOneMore(us[0], Total(us[1..]), t, Weight(us[0], t), Weights(us[1..], t), |us| - 1);
    }
  }

  lemma LoseOneMore(u: nat, rest: nat, t: nat, w: nat, r: nat, n: nat)
    requires t > 0 && u * ONE < (w + 1) * t
    requires rest * ONE <= r * t + n * (t - 1)
    ensures (u + rest) * ONE <= (w + r) * t + (n + 1) * (t - 1)
  {
    assert (w + 1) * t == w * t + t;
    assert (w + r) * t == w * t + r * t;
    assert (n + 1) * (t - 1) == n * (t - 1) + (t - 1);
  }

  /** The weights of a whole release sum to 1.0 less at most one atomic for every batch
      but one. */
  lemma WeightsSum(us: seq<nat>)
    requires Total(us) > 0
    ensures |us| > 0
    ensures Weights(us, Total(us)) + |us| - 1 >= ONE
  {
    WeightsLower(us, Total(us));
    WeightsArithmetic(Total(us), Weights(us, Total(us)), |us|);
  }

  lemma WeightsArithmetic(t: nat, w: nat, n: nat)
    requires t > 0 && n > 0 && t * ONE <= w * t + n * (t - 1)
    ensures ONE < w + n
  {
    assert (w + n) * t == w * t + n * (t - 1) + n;
    assert t * ONE == ONE * t;
    MulCancelStrict(ONE, w + n, t);
  }

  /** What the second floors leave of the weighted gap, batch by batch. */
  function Residues(us: seq<nat>, t: nat, gap: nat): nat
    requires t > 0
  {
    if us == [] then 0 else (Weight(us[0], t) * gap) % ONE + Residues(us[1..], t, gap)
  }

  lemma {:induction false} SharesExactly(us: seq<nat>, t: nat, gap: nat)
    requires t > 0
    ensures Shares(us, t, gap) * ONE == Weights(us, t) * gap - Residues(us, t, gap)
    ensures Residues(us, t, gap) <= |us| * (ONE - 1)
  {
    if us != [] {
      SharesExactly(us[1..], t, gap);
      AddExactly(Weight(us[0], t), gap, Weights(us[1..], t), Shares(us[1..], t, gap), Residues(us[1..], t, gap));
    }
  }

  lemma AddExactly(w: nat, gap: nat, r: nat, shares: nat, residues: nat)
    requires shares * ONE == r * gap - residues
    ensures (Floor(w * gap, ONE) + shares) * ONE == (w + r) * gap - ((w * gap) % ONE + residues)
  {
    assert (w + r) * gap == w * gap + r * gap;
  }

  /** The weight atomics lost to flooring; at most one for every batch but one. */
  function LostWeight(us: seq<nat>): (lost: nat)
    requires Total(us) > 0
    ensures |us| > 0 && lost <= |us| - 1
  {
    WeightsSum(us);
    WeightsUpper(us, Total(us));
    MulCancel(Weights(us, Total(us)), ONE, Total(us));
    ONE - Weights(us, Total(us))
  }

  lemma {:induction false} WeightsUpper(us: seq<nat>, t: nat)
    requires t > 0
    ensures Weights(us, t) * t <= Total(us) * ONE
  {
    if us != [] {
      WeightsUpper(us[1..], t);
      AddScaled(Weight(us[0], t), Weights(us[1..], t), t, us[0], Total(us[1..]), ONE);
    }
  }

  /** How far the credits of a shortfall miss the coins that arrived, in both directions:
      flips apart, by the lost weight times the gap, less more than nothing and at most a
      unit for every batch. */
  lemma ShortfallExcess(us: seq<nat>, a: nat)
    requires a < Total(us)
    ensures var excess := Credits(us, Total(us), a) - a - 2 * FlipCount(us, Total(us), a);
      LostWeight(us) * (Total(us) - a) - |us| * ONE
        <= excess * ONE
        <= LostWeight(us) * (Total(us) - a) - |us|
  {
    var t := Total(us);
    ShortfallCredits(us, t, a);
    SharesExactly(us, t, t - a);
    ExcessArithmetic(LostWeight(us), t - a, Shares(us, t, t - a), Residues(us, t, t - a), |us|);
  }

  lemma ExcessArithmetic(lost: nat, gap: nat, shares: nat, residues: nat, n: nat)
    requires lost <= ONE && residues <= n * (ONE - 1)
    requires shares * ONE == (ONE - lost) * gap - residues
    ensures lost * gap - n * ONE <= (gap - shares - n) * ONE <= lost * gap - n
  {
    assert (ONE - lost) * gap == ONE * gap - lost * gap;
    assert n * (ONE - 1) == n * ONE - n;
  }

  /** The exact condition of a shortfall, from what is known before it: lost weight, residues
      and flips fit a unit for every batch. */
  lemma ShortfallCoveredIff(us: seq<nat>, a: nat)
    requires a < Total(us)
    ensures Credits(us, Total(us), a) <= a <==>
              LostWeight(us) * (Total(us) - a) + Residues(us, Total(us), Total(us) - a)
                + 2 * FlipCount(us, Total(us), a) * ONE <= |us| * ONE
  {
    var t := Total(us);
    ShortfallCredits(us, t, a);
    SharesExactly(us, t, t - a);
    ExactArithmetic(LostWeight(us), t - a, Shares(us, t, t - a), Residues(us, t, t - a), |us|,
                    FlipCount(us, t, a));
  }

  lemma ExactArithmetic(lost: nat, gap: nat, shares: nat, residues: nat, n: nat, flips: nat)
    requires lost <= ONE && shares * ONE == (ONE - lost) * gap - residues
    ensures gap + 2 * flips <= shares + n <==> lost * gap + residues + 2 * flips * ONE <= n * ONE
  {
    assert (ONE - lost) * gap == ONE * gap - lost * gap;
  }

  /** A surplus is never over-credited: a unit for every batch is left. */
  lemma SurplusIsCovered(us: seq<nat>, a: nat)
    requires a > Total(us) > 0
    ensures Credits(us, Total(us), a) <= a - |us|
  {
    var t := Total(us);
    SurplusCredits(us, t, a);
    SharesUpper(us, t, a - t);
    MulCancel(Shares(us, t, a - t), a - t, t);
  }

  lemma {:induction false} NoFlips(us: seq<nat>, t: nat, a: nat)
    requires t > 0 && a > 0
    requires forall i | 0 <= i < |us| :: us[i] > 0
    ensures FlipCount(us, t, a) == 0
  {
    if us != [] {
      NoFlips(us[1..], t, a);
    }
  }

  /** What can be seen before a release: every batch was promised something, and the
      shortfall, times one less than the number of batches, is at most 10^18. */
  predicate Moderate(us: seq<nat>, a: nat) {
    && (forall i | 0 <= i < |us| :: us[i] > 0)
    && (|us| - 1) * (Total(us) - a) <= ONE
  }

  /** The fraction of some batch in the total is a whole number of atomics. */
  predicate SomeExactWeight(us: seq<nat>, t: nat)
    requires t > 0
  {
    exists i | 0 <= i < |us| :: (us[i] * ONE) % t == 0
  }

  /** The credits of a moderate release are within the coins that arrived, exactly unless
      nothing arrived at all and some batch's weight is exact -- as it is for a batch
      released alone. */
  lemma ModerateCoveredIff(us: seq<nat>, a: nat)
    requires Total(us) > 0 && Moderate(us, a)
    ensures Credits(us, Total(us), a) <= a <==> a > 0 || !SomeExactWeight(us, Total(us))
  {
    var t := Total(us);
    if a > t {
      SurplusIsCovered(us, a);
    } else if a == t {
      ExactCredits(us, t);
    } else if a > 0 {
      NoFlips(us, t, a);
      ShortfallExcess(us, a);
      SmallExcess(LostWeight(us), t - a, |us|, Credits(us, t, a) - a);
    } else if |us| == 1 {
      AloneIsExact(us);
    } else {
      assert t <= ONE by { MulMono(1, |us| - 1, t); }
      EmptyCredits(us, t);
      FlipsExact(us, t);
    }
  }

  lemma SmallExcess(lost: nat, gap: nat, n: nat, excess: int)
    requires n > 0 && lost <= n - 1 && (n - 1) * gap <= ONE
    requires excess * ONE <= lost * gap - n
    ensures excess <= 0
  {
    MulMono(lost, n - 1, gap);
  }

  lemma MultipleIsExact(u: nat)
    requires u > 0
    ensures (u * ONE) % u == 0
  {
    assert ONE * u == u * ONE;
    FloorUnique(u * ONE, u, ONE);
    ExactIff(u * ONE, u);
  }

  lemma SingleBatch(u: nat, t: nat, a: nat)
    requires t > 0
    ensures Total([u]) == u && Credits([u], t, a) == Credit(u, t, a)
  {
    assert [u][1..] == [];
  }

  /** A batch released alone with nothing arrived is credited one unit. */
  lemma AloneIsExact(us: seq<nat>)
    requires |us| == 1 && us[0] > 0
    ensures Total(us) == us[0] && Credits(us, us[0], 0) == 1
    ensures SomeExactWeight(us, us[0])
  {
    var u := us[0];
    assert us == [u];
    MultipleIsExact(u);
    ShortfallIsFair(u, u, 0);
    SingleBatch(u, u, 0);
  }

  /** With nothing arrived and at most 10^18 promised, a batch is credited one unit if it
      flips and none otherwise. */
  lemma EmptyCredit(u: nat, t: nat)
    requires 0 < u <= t <= ONE
    ensures Flips(u, t, 0) <==> (u * ONE) % t == 0
    ensures Credit(u, t, 0) == if Flips(u, t, 0) then 1 else 0
  {
    var w := Weight(u, t);
    FlipsIff(u, t, 0);
    ShortfallIsFair(u, t, 0);
    if !Flips(u, t, 0) {
      ExactIff(u * ONE, t);
      assert (w + 1) * t == w * t + t;
      FloorUnique(w * t, ONE, u - 1);
    }
  }

  lemma {:induction false} EmptyCredits(us: seq<nat>, t: nat)
    requires 0 < t <= ONE && Total(us) <= t
    requires forall i | 0 <= i < |us| :: us[i] > 0
    ensures Credits(us, t, 0) == FlipCount(us, t, 0)
  {
    if us != [] {
      EmptyCredit(us[0], t);
      EmptyCredits(us[1..], t);
    }
  }

  lemma {:induction false} FlipsExact(us: seq<nat>, t: nat)
    requires t > 0
    requires forall i | 0 <= i < |us| :: us[i] > 0
    ensures FlipCount(us, t, 0) > 0 <==> SomeExactWeight(us, t)
  {
    if us != [] {
      FlipsExact(us[1..], t);
      if SomeExactWeight(us, t) && !Flips(us[0], t, 0) {
        var i :| 0 <= i < |us| && (us[i] * ONE) % t == 0;
        assert us[1..][i - 1] == us[i];
      }
      if SomeExactWeight(us[1..], t) {
        var i :| 0 <= i < |us| - 1 && (us[1..][i] * ONE) % t == 0;
        assert us[i + 1] == us[1..][i];
      }
      if Flips(us[0], t, 0) {
        assert (us[0] * ONE) % t == 0;
      }
    }
  }

  /** A batch released alone is covered exactly when something arrived for it. */
  lemma SingleBatchCoveredIff(u: nat, a: nat)
    requires u > 0
    ensures Credit(u, u, a) <= a <==> a > 0
  {
    SingleBatch(u, u, a);
    AloneIsExact([u]);
    ModerateCoveredIff([u], a);
  }

  /** Something arrived, and the release is moderate. */
  predicate Ample(us: seq<nat>, a: nat) {
    a > 0 && Moderate(us, a)
  }

  lemma AmpleIsCovered(us: seq<nat>, a: nat)
    requires Ample(us, a) && Total(us) > 0
    ensures Credits(us, Total(us), a) <= a
  {
    ModerateCoveredIff(us, a);
  }

  /** Once the shortfall times the lost weight exceeds 10^18 for every batch, any release credits
      more than arrived, whatever its batches and whether anything arrived or not. */
  lemma LostWeightOverpays(us: seq<nat>, a: nat)
    requires a < Total(us)
    requires LostWeight(us) * (Total(us) - a) > |us| * ONE
    ensures Credits(us, Total(us), a) > a
  {
    ShortfallExcess(us, a);
  }

  /** The bound on a moderate shortfall is all but tight: a shortfall of 10^18 + 3 between
      two batches of 10^18 and 2 * 10^18 is credited one unit more than arrived. */
  lemma LargeShortfallOverpays()
    ensures Total([ONE, 2 * ONE]) == 3 * ONE
    ensures Credit(ONE, 3 * ONE, 2 * ONE - 3) == 666_666_666_666_666_666
    ensures Credit(2 * ONE, 3 * ONE, 2 * ONE - 3) == 1_333_333_333_333_333_332
    ensures Credits([ONE, 2 * ONE], 3 * ONE, 2 * ONE - 3) == 2 * ONE - 3 + 1
  {
    assert [ONE, 2 * ONE][1..] == [2 * ONE];
    SingleBatch(2 * ONE, 3 * ONE, 2 * ONE - 3);
    assert Weight(ONE, 3 * ONE) == 333_333_333_333_333_333;
    assert Weight(2 * ONE, 3 * ONE) == 666_666_666_666_666_666;
  }
}
