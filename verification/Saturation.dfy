/** The day on which the decay rate reaches 100%. */
module Saturation {
  import opened Constants
  import opened Decay

  /** While the rate stays within one hundred it rises by the same amount every day. */
  lemma {:induction false} Climb(n: nat, m: nat, k: nat)
    requires 1 <= m < 99 && 1 <= k && 100 * m <= Rate(n)
    requires Rate(n) + (k - 1) * m < 100 * (m + 1)
    ensures Rate(n + k) == Rate(n) + k * m
    decreases k
  {
    hide Rate;
    if k > 1 {
      SmallerStep(Rate(n), m, k);
      Climb(n, m, k - 1);
    }
    OneClimb(n + k - 1, Rate(n) + (k - 1) * m, m);
    assert Rate(n) + (k - 1) * m + m == Rate(n) + k * m;
  }

  lemma SmallerStep(r: nat, m: nat, k: nat)
    requires k > 1
    ensures r + (k - 2) * m <= r + (k - 1) * m
  {
  }

  lemma OneClimb(n: nat, r: nat, m: nat)
    requires 1 <= m < 99 && Rate(n) == r && 100 * m <= r < 100 * (m + 1)
    ensures Rate(n + 1) == r + m
  {
    assert r * 101 / 100 == r + m;
  }

  // The climb from 1% to 99%, a few steps at a time.

  lemma From100(n: nat)
    requires Rate(n) == 100
    ensures Rate(n + 246) == 704
  {
    hide Rate;
    Climb(n, 1, 100); Climb(n + 100, 2, 50); Climb(n + 150, 3, 34);
    Climb(n + 184, 4, 25); Climb(n + 209, 5, 20); Climb(n + 229, 6, 17);
  }

  lemma From704(n: nat)
    requires Rate(n) == 704
    ensures Rate(n + 65) == 1300
  {
    hide Rate;
    Climb(n, 7, 14); Climb(n + 14, 8, 13); Climb(n + 27, 9, 11);
    Climb(n + 38, 10, 10); Climb(n + 48, 11, 9); Climb(n + 57, 12, 8);
  }

  lemma From1300(n: nat)
    requires Rate(n) == 1300
    ensures Rate(n + 40) == 1913
  {
    hide Rate;
    Climb(n, 13, 8); Climb(n + 8, 14, 7); Climb(n + 15, 15, 7);
    Climb(n + 22, 16, 6); Climb(n + 28, 17, 6); Climb(n + 34, 18, 6);
  }

  lemma From1913(n: nat)
    requires Rate(n) == 1913
    ensures Rate(n + 28) == 2512
  {
    hide Rate;
    Climb(n, 19, 5); Climb(n + 5, 20, 5); Climb(n + 10, 21, 5);
    Climb(n + 15, 22, 4); Climb(n + 19, 23, 5); Climb(n + 24, 24, 4);
  }

  lemma From2512(n: nat)
    requires Rate(n) == 2512
    ensures Rate(n + 22) == 3114
  {
    hide Rate;
    Climb(n, 25, 4); Climb(n + 4, 26, 4); Climb(n + 8, 27, 4);
    Climb(n + 12, 28, 3); Climb(n + 15, 29, 4); Climb(n + 19, 30, 3);
  }

  lemma From3114(n: nat)
    requires Rate(n) == 3114
    ensures Rate(n + 18) == 3717
  {
    hide Rate;
    Climb(n, 31, 3); Climb(n + 3, 32, 3); Climb(n + 6, 33, 3);
    Climb(n + 9, 34, 3); Climb(n + 12, 35, 3); Climb(n + 15, 36, 3);
  }

  lemma From3717(n: nat)
    requires Rate(n) == 3717
    ensures Rate(n + 15) == 4308
  {
    hide Rate;
    Climb(n, 37, 3); Climb(n + 3, 38, 2); Climb(n + 5, 39, 3);
    Climb(n + 8, 40, 2); Climb(n + 10, 41, 3); Climb(n + 13, 42, 2);
  }

  lemma From4308(n: nat)
    requires Rate(n) == 4308
    ensures Rate(n + 14) == 4945
  {
    hide Rate;
    Climb(n, 43, 3); Climb(n + 3, 44, 2); Climb(n + 5, 45, 2);
    Climb(n + 7, 46, 2); Climb(n + 9, 47, 2); Climb(n + 11, 48, 3);
  }

  lemma From4945(n: nat)
    requires Rate(n) == 4945
    ensures Rate(n + 11) == 5510
  {
    hide Rate;
    Climb(n, 49, 2); Climb(n + 2, 50, 2); Climb(n + 4, 51, 2);
    Climb(n + 6, 52, 2); Climb(n + 8, 53, 1); Climb(n + 9, 54, 2);
  }

  lemma From5510(n: nat)
    requires Rate(n) == 5510
    ensures Rate(n + 11) == 6142
  {
    hide Rate;
    Climb(n, 55, 2); Climb(n + 2, 56, 2); Climb(n + 4, 57, 2);
    Climb(n + 6, 58, 1); Climb(n + 7, 59, 2); Climb(n + 9, 60, 2);
  }

  lemma From6142(n: nat)
    requires Rate(n) == 6142
    ensures Rate(n + 9) == 6713
  {
    hide Rate;
    Climb(n, 61, 1); Climb(n + 1, 62, 2); Climb(n + 3, 63, 2);
    Climb(n + 5, 64, 1); Climb(n + 6, 65, 2); Climb(n + 8, 66, 1);
  }

  lemma From6713(n: nat)
    requires Rate(n) == 6713
    ensures Rate(n + 9) == 7337
  {
    hide Rate;
    Climb(n, 67, 2); Climb(n + 2, 68, 1); Climb(n + 3, 69, 2);
    Climb(n + 5, 70, 1); Climb(n + 6, 71, 2); Climb(n + 8, 72, 1);
  }

  lemma From7337(n: nat)
    requires Rate(n) == 7337
    ensures Rate(n + 8) == 7941
  {
    hide Rate;
    Climb(n, 73, 1); Climb(n + 1, 74, 2); Climb(n + 3, 75, 1);
    Climb(n + 4, 76, 1); Climb(n + 5, 77, 2); Climb(n + 7, 78, 1);
  }

  lemma From7941(n: nat)
    requires Rate(n) == 7941
    ensures Rate(n + 7) == 8511
  {
    hide Rate;
    Climb(n, 79, 1); Climb(n + 1, 80, 1); Climb(n + 2, 81, 2);
    Climb(n + 4, 82, 1); Climb(n + 5, 83, 1); Climb(n + 6, 84, 1);
  }

  lemma From8511(n: nat)
    requires Rate(n) == 8511
    ensures Rate(n + 7) == 9121
  {
    hide Rate;
    Climb(n, 85, 2); Climb(n + 2, 86, 1); Climb(n + 3, 87, 1);
    Climb(n + 4, 88, 1); Climb(n + 5, 89, 1); Climb(n + 6, 90, 1);
  }

  lemma From9121(n: nat)
    requires Rate(n) == 9121
    ensures Rate(n + 7) == 9775
  {
    hide Rate;
    Climb(n, 91, 1); Climb(n + 1, 92, 1); Climb(n + 2, 93, 2);
    Climb(n + 4, 94, 1); Climb(n + 5, 95, 1); Climb(n + 6, 96, 1);
  }

  lemma From9775(n: nat)
    requires Rate(n) == 9775
    ensures Rate(n + 2) == 9970
  {
    hide Rate;
    Climb(n, 97, 1); Climb(n + 1, 98, 1);
  }

  lemma RateOnDay0(n: nat)
    requires n == 0
    ensures Rate(n) == 100
  {
  }

  lemma RateOnDay379(n: nat)
    requires n == 379
    ensures Rate(n) == 2512
  {
    hide Rate;
    RateOnDay0(n - 379);
    From100(n - 379); From704(n - 133); From1300(n - 68);
    From1913(n - 28);
  }

  lemma RateOnDay459(n: nat)
    requires n == 459
    ensures Rate(n) == 5510
  {
    hide Rate;
    RateOnDay379(n - 80);
    From2512(n - 80); From3114(n - 58); From3717(n - 40);
    From4308(n - 25); From4945(n - 11);
  }

  lemma RateOnDay462(n: nat)
    requires n == 462
    ensures Rate(n) == 5676
  {
    hide Rate;
    RateOnDay459(n - 3);
    Climb(n - 3, 55, 2); Climb(n - 1, 56, 1);
  }

  lemma RateOnDay496(n: nat)
    requires n == 496
    ensures Rate(n) == 7941
  {
    hide Rate;
    RateOnDay459(n - 37);
    From5510(n - 37); From6142(n - 26); From6713(n - 17);
    From7337(n - 8);
  }

  lemma RateOnDay519(n: nat)
    requires n == 519
    ensures Rate(n) == 9970
  {
    hide Rate;
    RateOnDay496(n - 23);
    From7941(n - 23); From8511(n - 16); From9121(n - 9);
    From9775(n - 2);
  }

  /**
   The documents expect the rate to reach 100% on day 462. Flooring delays
   that: the rate is then 56.76%, and reaches 100% on day 520 and no earlier.
   */
  lemma SaturationDay(n: nat)
    ensures n == 462 ==> Rate(n) == 5676
    ensures Rate(n) == BASIS_POINTS <==> n >= 520
  {
    if n == 462 {
      RateOnDay462(n);
    }
    var last := 519;
    RateOnDay519(last);
    if n <= last {
      RateMonotone(n, last);
    } else {
      RateMonotone(last + 1, n);
      RateRange(n);
    }
  }
}
