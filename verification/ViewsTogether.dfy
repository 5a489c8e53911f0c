/** What the two contracts report for the same citizen after the same run. */
module ViewsTogether {
  import opened Constants
  import opened Types
  import opened Decay
  import opened Volunteer
  import opened VotingPower
  import opened Citizens
  import opened Twins
  import opened Views
  import Lockstep
  import R = Cosmwasm
  import S = Solidity

  /** The same honor on labor and verification; on capital CosmWasm may report more, never less. */
  lemma HonorTogether(x: Citizen, y: Citizen, i: nat, active: set<nat>, today: nat)
    requires i < 3 && Close(x, y) && HonorView(U128_MAX, x, i, active, today).Value?
    ensures var h, g := HonorView(U128_MAX, x, i, active, today), HonorView(U256_MAX, y, i, active, today);
            g.Value? && g.value <= h.value && (i > 0 || x == y ==> g.value == h.value)
  {
    hide Days, DaysFit;
    CloseDecay(x, y, i, active, today);
  }

  /** The same multiplier. */
  lemma MultTogether(x: Citizen, y: Citizen, vol: set<nat>, today: nat)
    requires Close(x, y) && MultView(U128_MAX, x, vol, today).Value?
    ensures MultView(U256_MAX, y, vol, today) == MultView(U128_MAX, x, vol, today)
  {
  }

  lemma ProductsFit(b: nat, f: nat, b': nat)
    requires b' <= b && b * f <= U128_MAX
    ensures b' * f <= U256_MAX
  {
    MulMonotone(b', b, f, f);
  }

  lemma {:induction false} PowerTogether(x: Citizen, y: Citizen, active: set<nat>, vol: set<nat>, today: nat)
    requires Close(x, y) && PowerView(U128_MAX, x, active, vol, today).Value?
    ensures var p, q := PowerView(U128_MAX, x, active, vol, today), PowerView(U256_MAX, y, active, vol, today);
            q.Value? && q.value <= p.value && (x == y ==> q.value == p.value)
  {
    hide HonorView, MultView, Isqrt;
    if x.isCitizen {
      HonorTogether(x, y, 0, active, today);
      HonorTogether(x, y, 1, active, today);
      HonorTogether(x, y, 2, active, today);
      MultTogether(x, y, vol, today);
      hide Close;
      var h, l, v := HonorView(U128_MAX, x, 0, active, today).value, HonorView(U128_MAX, x, 1, active, today).value,
                     HonorView(U128_MAX, x, 2, active, today).value;
      var m, g := MultView(U128_MAX, x, vol, today).value, HonorView(U256_MAX, y, 0, active, today).value;
      RootMonotone(g, h);
      ProductsFit(BasePower(h, l, v), Isqrt(m * BASIS_POINTS), BasePower(g, l, v));
      PowerMonotone(g, l, v, m, h, l, v, m);
    }
  }

  /** What each contract answers about an address; CosmWasm has no record of non-citizens. */
  function PowerOnCosmwasm(r: R.Ledger, who: Addr, today: nat): Answer {
    if who !in r.citizens then Value(0)
    else PowerView(U128_MAX, r.citizens[who], DaysOf(r.active, who), DaysOf(r.volunteer, who), today)
  }

  function PowerOnSolidity(s: S.Ledger, who: Addr, today: nat): Answer {
    PowerView(U256_MAX, S.CitizenAt(s.citizens, who), DaysOf(s.active, who), DaysOf(s.volunteer, who), today)
  }

  /**
   After any fair run, whoever is asked about and whenever: where CosmWasm
   answers, Solidity answers with at most the same voting power, and with
   exactly the same unless a deposit has changed a bonus on the way.
   */
  lemma {:induction false} VotingPowerTogether(attester: Addr, governance: Addr, denom: string,
                                                trace: seq<Lockstep.Timed>, who: Addr, today: nat)
    requires Lockstep.Fair(Lockstep.Start(attester, governance, denom), trace)
    ensures var p := Lockstep.RunBoth(Lockstep.Start(attester, governance, denom), trace);
            var x, y := PowerOnCosmwasm(p.r, who, today), PowerOnSolidity(p.s, who, today);
            x.Value? ==>
              && y.Value? && y.value <= x.value
              && (Lockstep.NoneDisturbs(Lockstep.Start(attester, governance, denom), trace) ==> y.value == x.value)
  {
    var start := Lockstep.Start(attester, governance, denom);
    var p := Lockstep.RunBoth(start, trace);
    Lockstep.RunTogether(attester, governance, denom, trace);
    assert Lockstep.Matched(p.r.citizens, p.s.citizens, who);
    if Lockstep.NoneDisturbs(start, trace) {
      Lockstep.RunSame(attester, governance, denom, trace);
      assert Lockstep.SameAt(p.r.citizens, p.s.citizens, who);
    }
    hide Lockstep.RunBoth, Lockstep.NoneDisturbs, Lockstep.Fair, Close;
    if who in p.r.citizens {
      var x, y := p.r.citizens[who], S.CitizenAt(p.s.citizens, who);
      if PowerOnCosmwasm(p.r, who, today).Value? {
        PowerTogether(x, y, DaysOf(p.r.active, who), DaysOf(p.r.volunteer, who), today);
      }
      hide PowerView;
    }
  }
}
