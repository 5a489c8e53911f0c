/** What the honor queries report is what the next settlement stores: proved against the messages that settle. */
module Queries {
  import opened Constants
  import opened Types
  import opened Decay
  import opened Volunteer
  import opened Citizens
  import opened Views
  import Courses
  import R = Cosmwasm
  import S = Solidity

  /** No axis is ahead of today, and the first unprocessed week has not reached its last day. */
  predicate NoWeekDue(c: Citizen, i: nat, today: nat)
    requires i < 3
  {
    c.lastDay[i] <= today < 7 * (c.lastWeek + 1) + 6
  }

  lemma NothingProcessed(max: nat, c: Citizen, i: nat, amount: nat, active: set<nat>, vol: set<nat>, today: nat)
    requires i < 3 && NoWeekDue(c, i, today)
    ensures var d := Earned(Decayed(c, i, active, today), i, amount);
            ProcessFits(max, d, i, vol) && Processed(d, i, vol) == d
  {
    DaysDay(ShieldOf(c, active), AxisOf(c, i), DaysDue(today, c.lastDay[i]));
    hide Days;
    var d := Earned(Decayed(c, i, active, today), i, amount);
    assert WeeksDue(d.lastDay[i], d.lastWeek) == 0;
  }

  lemma EarnedNothing(c: Citizen, i: nat)
    requires i < 3
    ensures Earned(c, i, 0) == c
  {
  }

  lemma DecayedHonor(max: nat, c: Citizen, i: nat, active: set<nat>, today: nat)
    requires i < 3 && c.isCitizen
    ensures HonorView(max, c, i, active, today)
         == if DecayFits(max, c, i, active, today) then Value(Decayed(c, i, active, today).honor[i]) else Aborted
    ensures Decayed(c, i, active, today).locked == c.locked
  {
    hide Days, DecayFits;
  }

  /** Labor and verification on CosmWasm: attested honor is added to exactly what the query reports. */
  lemma HonorStored(l: R.Ledger, now: nat, who: Addr, axis: Axis, delta: nat, id: Id)
    requires who in l.citizens && l.citizens[who].isCitizen && who in l.pop && id !in l.consumed && !axis.Capital?
    ensures var c, i := l.citizens[who], axis.Index();
            var view := HonorView(U128_MAX, c, i, DaysOf(l.active, who), Today(now));
            var o := R.Step(l, now, R.Info(l.attester, map[]), R.AttestHonor(who, axis, delta, id));
            && (o.Done? ==> view.Value? && o.ledger.citizens[who].honor[i] == view.value + delta)
            && (o.Failed? ==> o.error == R.Overflow)
            && (view.Aborted? || view.value + delta > U128_MAX ==> o.Failed?)
            && (NoWeekDue(c, i, Today(now)) ==> (o.Failed? <==> view.Aborted? || view.value + delta > U128_MAX))
  {
    var c, i, active, vol := l.citizens[who], axis.Index(), DaysOf(l.active, who), DaysOf(l.volunteer, who);
    DecayedHonor(U128_MAX, c, i, active, Today(now));
    var d := Earned(Decayed(c, i, active, Today(now)), i, delta);
    Courses.ProcessedAxes(d, i, vol, i);
    if NoWeekDue(c, i, Today(now)) {
      NothingProcessed(U128_MAX, c, i, delta, active, vol, Today(now));
    }
    hide HonorView, Decayed, DecayFits, Processed, ProcessFits, Today, NoWeekDue, DaysOf;
  }

  /** Capital on CosmWasm: a deposit is added to it, and then only bonuses are. */
  lemma DepositStored(l: R.Ledger, now: nat, who: Addr, amount: nat)
    requires who in l.citizens && l.citizens[who].isCitizen && who in l.pop && amount > 0
    ensures var c := l.citizens[who];
            var view := HonorView(U128_MAX, c, 0, DaysOf(l.active, who), Today(now));
            var o := R.Step(l, now, R.Info(who, map[l.denom := amount]), R.ContributeCapital);
            && (o.Done? ==>
                  && view.Value? && o.ledger.citizens[who].honor[0] >= view.value + amount
                  && o.ledger.citizens[who].locked == c.locked + amount
                  && (NoWeekDue(c, 0, Today(now)) ==> o.ledger.citizens[who].honor[0] == view.value + amount))
            && (o.Failed? ==> o.error == R.Overflow)
            && (NoWeekDue(c, 0, Today(now)) ==>
                  (o.Failed? <==> view.Aborted? || view.value + amount > U128_MAX || c.locked + amount > U128_MAX))
  {
    var c, active, vol := l.citizens[who], DaysOf(l.active, who), DaysOf(l.volunteer, who);
    DecayedHonor(U128_MAX, c, 0, active, Today(now));
    var d := Earned(Decayed(c, 0, active, Today(now)), 0, amount);
    Courses.ProcessedAxes(d, 0, vol, 0);
    assert Processed(d, 0, vol).locked == d.locked;
    if NoWeekDue(c, 0, Today(now)) {
      NothingProcessed(U128_MAX, c, 0, amount, active, vol, Today(now));
    }
    hide HonorView, Decayed, DecayFits, Processed, ProcessFits, Today, NoWeekDue, DaysOf;
  }

  /** The same on Solidity, where the honor is added after the weeks. */
  lemma HonorStoredOnSolidity(l: S.Ledger, now: nat, sender: Addr, m: S.Call)
    requires m.AttestHonor? && !m.axis.Capital? && m.worker in l.pop && m.jobId !in l.consumed
    requires S.CitizenAt(l.citizens, m.worker).isCitizen && now <= m.expiry && m.signer == l.attester
    ensures var c, i := S.CitizenAt(l.citizens, m.worker), m.axis.Index();
            var view := HonorView(U256_MAX, c, i, DaysOf(l.active, m.worker), Today(now));
            var o := S.Step(l, now, sender, m);
            && (o.Done? ==> view.Value? && S.CitizenAt(o.ledger.citizens, m.worker).honor[i] == view.value + m.delta)
            && (o.Revert? ==> o.reason == S.Overflow)
            && (view.Aborted? || view.value + m.delta > U256_MAX ==> o.Revert?)
            && (NoWeekDue(c, i, Today(now)) ==> (o.Revert? <==> view.Aborted? || view.value + m.delta > U256_MAX))
  {
    var c, i, active := S.CitizenAt(l.citizens, m.worker), m.axis.Index(), DaysOf(l.active, m.worker);
    var vol, d := DaysOf(l.volunteer, m.worker), Decayed(c, i, active, Today(now));
    DecayedHonor(U256_MAX, c, i, active, Today(now));
    Courses.ProcessedAxes(d, i, vol, i);
    if NoWeekDue(c, i, Today(now)) {
      NothingProcessed(U256_MAX, c, i, 0, active, vol, Today(now));
      EarnedNothing(d, i);
    }
    hide HonorView, Decayed, DecayFits, Processed, ProcessFits, Today, NoWeekDue, DaysOf;
  }

  lemma MintStoredOnSolidity(l: S.Ledger, now: nat, sender: Addr, m: S.Call)
    requires m.BridgeMintCapital? && m.worker in l.pop && m.lockId !in l.consumed && m.amount > 0
    requires S.CitizenAt(l.citizens, m.worker).isCitizen && now <= m.expiry && m.signer == l.attester
    ensures var c := S.CitizenAt(l.citizens, m.worker);
            var view := HonorView(U256_MAX, c, 0, DaysOf(l.active, m.worker), Today(now));
            var o := S.Step(l, now, sender, m);
            && (o.Done? ==>
                  var c' := S.CitizenAt(o.ledger.citizens, m.worker);
                  && view.Value? && c'.honor[0] >= view.value + m.amount && c'.locked == c.locked + m.amount
                  && (NoWeekDue(c, 0, Today(now)) ==> c'.honor[0] == view.value + m.amount))
            && (o.Revert? ==> o.reason == S.Overflow)
            && (NoWeekDue(c, 0, Today(now)) ==>
                  (o.Revert? <==> view.Aborted? || view.value + m.amount > U256_MAX || c.locked + m.amount > U256_MAX))
  {
    var c, active, vol := S.CitizenAt(l.citizens, m.worker), DaysOf(l.active, m.worker), DaysOf(l.volunteer, m.worker);
    var d := Decayed(c, 0, active, Today(now));
    DecayedHonor(U256_MAX, c, 0, active, Today(now));
    Courses.ProcessedAxes(d, 0, vol, 0);
    assert Processed(d, 0, vol).locked == d.locked;
    if NoWeekDue(c, 0, Today(now)) {
      NothingProcessed(U256_MAX, c, 0, 0, active, vol, Today(now));
      EarnedNothing(d, 0);
    }
    hide HonorView, Decayed, DecayFits, Processed, ProcessFits, Today, NoWeekDue, DaysOf;
  }
}
