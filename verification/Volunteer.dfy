/**
 The meaning of weekly volunteer settlement: each completed week with a
 volunteer day is credited once, which compounds the multiplier and tops up
 the capital honor.
 */
module Volunteer {
  import opened Constants

  datatype WeekState = WeekState(capital: nat, weeks: nat, mult: nat, last: nat)

  predicate Qualified(vol: set<nat>, w: nat) {
    exists d | d in vol :: d / 7 == w
  }

  function Bonus(capital: nat): nat {
    var share := capital * VOLUNTEER_CAPITAL_PCT / BASIS_POINTS;
    if share < VOLUNTEER_CAPITAL_MIN then VOLUNTEER_CAPITAL_MIN else share
  }

  function Credit(mult: nat): nat {
    mult * VOLUNTEER_BONUS_NUM / VOLUNTEER_BONUS_DEN
  }

  /** The capital after k bonuses. */
  function TopUps(capital: nat, k: nat): nat {
    if k == 0 then capital else var c := TopUps(capital, k - 1); c + Bonus(c)
  }

  /** The multiplier after k credited weeks. */
  function Credits(mult: nat, k: nat): nat {
    if k == 0 then mult else Credit(Credits(mult, k - 1))
  }

  /** Settles the week after the last processed one. */
  function WeekStep(vol: set<nat>, s: WeekState): WeekState {
    if Qualified(vol, s.last + 1) then
      WeekState(s.capital + Bonus(s.capital), s.weeks + 1, Credit(s.mult), s.last + 1)
    else
      s.(last := s.last + 1)
  }

  function Weeks(vol: set<nat>, s: WeekState, n: nat): WeekState {
    if n == 0 then s else WeekStep(vol, Weeks(vol, s, n - 1))
  }

  /** The n weeks after the given one that qualify, in order. */
  function QualifiedAfter(vol: set<nat>, last: nat, n: nat): seq<nat> {
    if n == 0 then []
    else QualifiedAfter(vol, last, n - 1) + if Qualified(vol, last + n) then [last + n] else []
  }

  /** How many weeks are due once every day up to the given one has been settled. */
  function WeeksDue(throughDay: nat, last: nat): nat {
    if throughDay >= 6 && (throughDay - 6) / 7 > last then (throughDay - 6) / 7 - last else 0
  }

  /** The arithmetic of the next week stays within max. */
  predicate WeekFits(max: nat, vol: set<nat>, s: WeekState) {
    Qualified(vol, s.last + 1) ==>
      && s.mult * VOLUNTEER_BONUS_NUM <= max
      && s.capital * VOLUNTEER_CAPITAL_PCT <= max
      && s.capital + Bonus(s.capital) <= max
  }

  predicate WeeksFit(max: nat, vol: set<nat>, s: WeekState, n: nat) {
    n == 0 || (WeeksFit(max, vol, s, n - 1) && WeekFits(max, vol, Weeks(vol, s, n - 1)))
  }

  // ---------- what settlement credits ----------

  /** Settling n weeks credits exactly the qualified ones among them. */
  lemma {:induction false} WeeksCredit(vol: set<nat>, s: WeekState, n: nat)
    ensures var k := |QualifiedAfter(vol, s.last, n)|;
            Weeks(vol, s, n) == WeekState(TopUps(s.capital, k), s.weeks + k, Credits(s.mult, k), s.last + n)
  {
    if n > 0 {
      WeeksCredit(vol, s, n - 1);
    }
  }

  lemma {:induction false} QualifiedAfterMembers(vol: set<nat>, last: nat, n: nat)
    ensures forall w :: w in QualifiedAfter(vol, last, n) <==> last < w <= last + n && Qualified(vol, w)
    ensures forall i, j | 0 <= i < j < |QualifiedAfter(vol, last, n)| ::
              QualifiedAfter(vol, last, n)[i] < QualifiedAfter(vol, last, n)[j]
  {
    if n > 0 {
      QualifiedAfterMembers(vol, last, n - 1);
      var before := QualifiedAfter(vol, last, n - 1);
      assert forall i | 0 <= i < |before| :: before[i] in before;
    }
  }

  /** Only the flags of the weeks in question matter. */
  lemma {:induction false} QualifiedAfterAgree(vol: set<nat>, vol': set<nat>, last: nat, n: nat)
    requires forall d: nat | last < d / 7 <= last + n :: d in vol <==> d in vol'
    ensures QualifiedAfter(vol, last, n) == QualifiedAfter(vol', last, n)
  {
    if n > 0 {
      QualifiedAfterAgree(vol, vol', last, n - 1);
      assert Qualified(vol, last + n) <==> Qualified(vol', last + n);
    }
  }

  lemma {:induction false} QualifiedAfterSplit(vol: set<nat>, last: nat, m: nat, n: nat)
    ensures QualifiedAfter(vol, last, m + n) == QualifiedAfter(vol, last, m) + QualifiedAfter(vol, last + m, n)
  {
    if n > 0 {
      QualifiedAfterSplit(vol, last, m, n - 1);
    }
  }

  lemma CreditsCompose(mult: nat, m: nat, n: nat)
    ensures Credits(Credits(mult, m), n) == Credits(mult, m + n)
  {
  }

  // ---------- deposits and bonuses ----------

  /** The bonuses on x and on x + amount agree at each of k consecutive top-ups. */
  predicate SameBonuses(x: nat, amount: nat, k: nat) {
    forall j: nat | j < k :: Bonus(TopUps(x, j) + amount) == Bonus(TopUps(x, j))
  }

  lemma SameBonusesStep(x: nat, amount: nat, k: nat)
    requires k > 0
    ensures SameBonuses(x, amount, k) <==>
            SameBonuses(x, amount, k - 1) && Bonus(TopUps(x, k - 1) + amount) == Bonus(TopUps(x, k - 1))
  {
  }

  lemma BonusMonotone(x: nat, y: nat)
    requires x <= y
    ensures Bonus(x) <= Bonus(y)
  {
  }

  lemma GapStep(x: nat, y: nat, amount: nat)
    requires y >= x + amount
    ensures y + Bonus(y) >= x + Bonus(x) + amount
    ensures y + Bonus(y) == x + Bonus(x) + amount <==> y == x + amount && Bonus(x + amount) == Bonus(x)
  {
    BonusMonotone(x, x + amount);
    BonusMonotone(x + amount, y);
    hide Bonus;
  }

  /** Topping up after a deposit never yields less than topping up before it. */
  lemma {:induction false} TopUpsGap(x: nat, amount: nat, k: nat)
    ensures TopUps(x + amount, k) >= TopUps(x, k) + amount
    ensures TopUps(x + amount, k) == TopUps(x, k) + amount <==> SameBonuses(x, amount, k)
  {
    if k > 0 {
      TopUpsGap(x, amount, k - 1);
      SameBonusesStep(x, amount, k);
      GapStep(TopUps(x, k - 1), TopUps(x + amount, k - 1), amount);
      hide SameBonuses, Bonus;
    }
  }

  lemma {:induction false} TopUpsMonotone(x: nat, y: nat, k: nat)
    requires x <= y
    ensures TopUps(x, k) <= TopUps(y, k)
  {
    TopUpsGap(x, y - x, k);
  }

  lemma {:induction false} TopUpsGrow(x: nat, j: nat, k: nat)
    requires j <= k
    ensures TopUps(x, j) + VOLUNTEER_CAPITAL_MIN * (k - j) <= TopUps(x, k)
  {
    if j < k {
      TopUpsGrow(x, j, k - 1);
    }
  }

  /** For a deposit of at least 100 the bonuses agree exactly while the sum stays under the 1% threshold. */
  lemma LargeDepositSameBonuses(x: nat, amount: nat, k: nat)
    requires amount >= 100 && k > 0
    ensures SameBonuses(x, amount, k) <==> TopUps(x, k - 1) + amount < 10_100
  {
    forall j: nat | j < k
      ensures TopUps(x, j) <= TopUps(x, k - 1)
    {
      TopUpsGrow(x, j, k - 1);
    }
  }

  // ---------- overflow ----------

  lemma {:induction false} WeeksFitMonotone(max: nat, max': nat, vol: set<nat>, s: WeekState, t: WeekState, n: nat)
    requires max <= max' && s.capital <= t.capital && s.(capital := t.capital) == t
    requires WeeksFit(max, vol, t, n)
    ensures WeeksFit(max', vol, s, n)
    ensures Weeks(vol, s, n).capital <= Weeks(vol, t, n).capital
    ensures Weeks(vol, s, n).(capital := Weeks(vol, t, n).capital) == Weeks(vol, t, n)
  {
    if n > 0 {
      WeeksFitMonotone(max, max', vol, s, t, n - 1);
      BonusMonotone(Weeks(vol, s, n - 1).capital, Weeks(vol, t, n - 1).capital);
    }
  }

  lemma {:induction false} CreditsIncrease(mult: nat, j: nat, k: nat)
    requires j <= k && BASIS_POINTS <= mult
    ensures BASIS_POINTS <= Credits(mult, j) <= Credits(mult, k)
  {
    if j < k {
      CreditsIncrease(mult, j, k - 1);
    } else if j > 0 {
      CreditsIncrease(mult, j - 1, k - 1);
    }
  }

  lemma Credits4(mult: nat)
    ensures Credits(mult, 4) * 10_000 <= mult * 10_548
  {
    assert Credits(mult, 0) == mult;
    assert Credits(mult, 1) == Credit(Credits(mult, 0));
    assert Credits(mult, 2) == Credit(Credits(mult, 1));
    assert Credits(mult, 3) == Credit(Credits(mult, 2));
  }

  lemma Credits17(mult: nat)
    ensures Credits(mult, 17) * 10_000 <= mult * 12_599
  {
    var a := Credits(mult, 4);
    var b := Credits(a, 4);
    var c := Credits(b, 4);
    var d := Credits(c, 4);
    Credits4(mult); Credits4(a); Credits4(b); Credits4(c);
    CreditsCompose(mult, 4, 4); CreditsCompose(mult, 8, 4); CreditsCompose(mult, 12, 4);
    assert Credits(mult, 17) == Credit(d);
  }

  /** 51 credited weeks, about a year, at most double the multiplier. */
  lemma Credits51(mult: nat)
    ensures Credits(mult, 51) <= 2 * mult
  {
    var a := Credits(mult, 17);
    var b := Credits(a, 17);
    Credits17(mult); Credits17(a); Credits17(b);
    CreditsCompose(mult, 17, 17); CreditsCompose(mult, 34, 17);
  }

  /** One credited week is worth 1.342%, rounded down. */
  lemma CreditIs(mult: nat)
    ensures Credit(mult) * 100_000 <= mult * 101_342 < (Credit(mult) + 1) * 100_000
  {
  }

  /** Its bonus is 1% of the capital, rounded down, but at least 100. */
  lemma BonusIs(capital: nat)
    ensures capital < 10_100 ==> Bonus(capital) == 100
    ensures capital >= 10_100 ==> Bonus(capital) * 100 <= capital < (Bonus(capital) + 1) * 100
  {
  }

  /** Its arithmetic overflows exactly if one of the products, or the sum, does. */
  lemma WeekFitsIff(max: nat, vol: set<nat>, s: WeekState)
    requires Qualified(vol, s.last + 1)
    ensures WeekFits(max, vol, s) <==>
              s.mult * 101_342 <= max && s.capital * 100 <= max && s.capital + Bonus(s.capital) <= max
  {
  }

  /** Four credited weeks, from below. */
  lemma CreditsGrow4(mult: nat)
    ensures Credits(mult, 4) * 10_000 + 42_000 >= mult * 10_547
  {
    assert Credits(mult, 0) == mult;
    assert Credits(mult, 1) == Credit(Credits(mult, 0));
    assert Credits(mult, 2) == Credit(Credits(mult, 1));
    assert Credits(mult, 3) == Credit(Credits(mult, 2));
  }

  /** The growth over 4j weeks, from its value after 4(j - 1). */
  lemma CreditsGrowOn(mult: nat, j: nat)
    requires j > 0
    ensures Credits(mult, 4 * j) * 10_000 + 42_000 >= Credits(mult, 4 * (j - 1)) * 10_547
  {
    CreditsGrow4(Credits(mult, 4 * (j - 1)));
    CreditsCompose(mult, 4 * (j - 1), 4);
  }

  /** 52 credited weeks, a year, make at least 1.99 of any multiplier that there can be. */
  lemma Credits52(mult: nat)
    requires mult >= 10_000
    ensures Credits(mult, 52) * 100 >= 199 * mult
  {
    CreditsGrowOn(mult, 1); CreditsGrowOn(mult, 2); CreditsGrowOn(mult, 3); CreditsGrowOn(mult, 4);
    CreditsGrowOn(mult, 5); CreditsGrowOn(mult, 6); CreditsGrowOn(mult, 7); CreditsGrowOn(mult, 8);
    CreditsGrowOn(mult, 9); CreditsGrowOn(mult, 10); CreditsGrowOn(mult, 11); CreditsGrowOn(mult, 12);
    CreditsGrowOn(mult, 13);
    assert Credits(mult, 4 * 0) == mult;
    hide Credits;
  }

  lemma FourCredits(k: nat, a: nat, b: nat, c: nat, d: nat, e: nat)
    requires Credits(10_000, k) == a
    requires Credit(a) == b && Credit(b) == c && Credit(c) == d && Credit(d) == e
    ensures Credits(10_000, k + 4) == e
  {
    assert Credits(10_000, k + 1) == b;
    assert Credits(10_000, k + 2) == c;
    assert Credits(10_000, k + 3) == d;
  }

  lemma FirstThird()
    ensures Credits(10_000, 16) == 12_369
  {
    assert Credits(10_000, 0) == 10_000;
    hide Credits;
    FourCredits(0, 10_000, 10_134, 10_269, 10_406, 10_545);
    FourCredits(4, 10_545, 10_686, 10_829, 10_974, 11_121);
    FourCredits(8, 11_121, 11_270, 11_421, 11_574, 11_729);
    FourCredits(12, 11_729, 11_886, 12_045, 12_206, 12_369);
  }

  lemma SecondThird()
    requires Credits(10_000, 16) == 12_369
    ensures Credits(10_000, 32) == 15_301
  {
    hide Credits;
    FourCredits(16, 12_369, 12_534, 12_702, 12_872, 13_044);
    FourCredits(20, 13_044, 13_219, 13_396, 13_575, 13_757);
    FourCredits(24, 13_757, 13_941, 14_128, 14_317, 14_509);
    FourCredits(28, 14_509, 14_703, 14_900, 15_099, 15_301);
  }

  lemma LastThird()
    requires Credits(10_000, 32) == 15_301
    ensures Credits(10_000, 52) == 19_965
  {
    hide Credits;
    FourCredits(32, 15_301, 15_506, 15_714, 15_924, 16_137);
    FourCredits(36, 16_137, 16_353, 16_572, 16_794, 17_019);
    FourCredits(40, 17_019, 17_247, 17_478, 17_712, 17_949);
    FourCredits(44, 17_949, 18_189, 18_433, 18_680, 18_930);
    FourCredits(48, 18_930, 19_184, 19_441, 19_701, 19_965);
  }

  lemma OneWeekCredited()
    ensures Credits(10_000, 1) == 10_134
  {
    assert Credits(10_000, 0) == 10_000;
  }

  /** From the initial multiplier one week makes 10134, and 52 weeks make 19965, just short of twice as much. */
  lemma CreditedYear(k: nat)
    ensures k == 1 ==> Credits(10_000, k) == 10_134
    ensures k == 52 ==> Credits(10_000, k) == 19_965
    ensures k >= 52 ==> Credits(10_000, k) >= 19_965
  {
    hide Credits;
    OneWeekCredited();
    FirstThird();
    SecondThird();
    LastThird();
    if k >= 52 {
      CreditsIncrease(10_000, 52, k);
    }
  }

  function Doubled(x: nat, k: nat): nat {
    if k == 0 then x else 2 * Doubled(x, k - 1)
  }

  lemma {:induction false} CreditsDoubling(k: nat)
    ensures Credits(BASIS_POINTS, 51 * k) <= Doubled(BASIS_POINTS, k)
  {
    if k > 0 {
      CreditsDoubling(k - 1);
      Credits51(Credits(BASIS_POINTS, 51 * (k - 1)));
      CreditsCompose(BASIS_POINTS, 51 * (k - 1), 51);
    }
  }
}
