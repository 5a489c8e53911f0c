# SeumStandard, verified

The SeumStandard is a citizenship ledger with three axes of honor (capital,
labor, verification). Honor decays every day at a rate that itself grows by 1%
a day; sabbaths and attested active days are exempt. Completed weeks with a
volunteer day raise a multiplier and add capital honor. Voting power is
quadratic. The ledger exists twice: as a CosmWasm contract on Zion
(`jjjajh_STD_CW`), which holds the deposits, and as a Solidity contract on an
EVM chain (`jjjajh_STD_SC.sol`, of which `contracts/SeumStandard.sol` is a
copy), which mints capital honor against deposits locked on Zion. A daemon
(`zion1-daemon`) carries events between the chains, and a web page
(`jjjajh_STD_Cal.html`) simulates a citizen's honor day by day.

This project models all four and proves what ties them together. Both
contracts and the daemon are written as classes whose methods carry out the
source's steps in place; each method is proved against a function of the old
state, and the properties are proved about those functions and about whole
runs of them.

## How it is laid out

| files | subject |
|---|---|
| `Constants`, `Types`, `Decay`, `Survival`, `Saturation`, `Volunteer`, `VotingPower` | the arithmetic: daily decay, weekly bonuses, Newton's root, and their bounds from both sides |
| `Words`, `DayBits` | day flags packed 128 to a word (CosmWasm) and 256 to a word (Solidity) |
| `Citizens`, `Account`, `Cosmwasm`, `Solidity`, `Authority` | a citizen's record, the two contracts, and who may do what |
| `Views`, `SolidityViews`, `Queries`, `ViewsTogether` | the queries of both contracts, and what they have to do with settlement |
| `Records`, `Runs`, `RunInvariants`, `SolidityRuns`, `Attestations`, `Replay` | whole runs: custody, rates, weeks, which attestations count, rejoining, one-time identifiers |
| `Twins` and `Lockstep` (one file), `LockstepBounds`, `Divergence`, `Overflow` | both contracts fed the same messages |
| `Simulator` | the eager simulation, and why lazy settlement computes the same (module `LazyIsEager`) |
| `Courses`, `RunCourses`, `SolidityCourses`, `Evasion` | one axis over whole runs of either contract: what the schedule cannot change, the guaranteed turnover, and how to evade it |
| `Keys`, `Dispatch`, `Decoding`, `Watcher`, `DaemonRuns`, `Handling` | the daemon |
| `Bridge`, `RoundTrip`, `DoubleRelease` | locks, signed mints and ragequit requests across both chains, and the way back to Zion |

`dafny verify dfyconfig.toml` checks everything.

## Main results

* **The twins.** Fed the same messages, the two contracts accept the same ones
  and agree on every field of every citizen except capital honor, where
  CosmWasm is never behind (`RunTogether`, and `BoundedRunTogether` with
  overflow excluded by bounds on the amounts). CosmWasm credits a deposit
  before the weeks it settles and Solidity after them, so a deposit that meets
  a qualifying week can earn a larger bonus on CosmWasm: the claim that the two
  are bit identical (`README.md:87`, `README.md:113`) is false on every join day
  and for every deposit from 10100 on, short of overflow (`Diverges`). They stay
  equal all along exactly if no deposit changes a bonus on its way (`StepSame`,
  `RunSame`), in particular while every deposit finds its weeks settled
  (`RunSameWhenQuiet`).
* **Lazy equals eager.** Over any run of either contract in which a citizen
  keeps the sabbath, receives no labor (or verification) honor and gets no new
  active days among those settled, that axis is taken where the day-by-day
  simulation, continued from its present state, takes it, whoever sends what
  and when (`LazyRunEqualsEager`). Catching up takes exactly as many calls as a
  90th of the days, rounded up (`CatchUp`).
* **Daily decay.** One day, in plain numbers (`DayIs`), and bounds from both
  sides over any run: each day that is unprotected when settled takes at least
  1.01% (`RunWearsAnyway`), and at most the share of the rate and one unit of
  rounding (`RunKeeps`).
* **Queries.** What an honor query reports is exactly what the next settling
  message adds to and stores, and it aborts where that message would
  (`HonorStored`, `DepositStored`).
* **Authority.** Exactly the entitled messages take effect
  (`AcceptedIffEntitled`) and only for the one they are about
  (`OnlySubjectTouched`); without the attester and governance no run grants
  anything (`KeylessRunsGrantNothing`), and expired calls do nothing over any
  run (`ExpiredCallsDoNothing`).
* **Turnover.** While a citizen keeps the sabbath, 7k settled days without
  active days leave, apart from what is added meanwhile, at most 98.99% to the
  power 6k of the honor on any axis (`TurnoverOverRun`). However the sabbath
  moves, each day that is unprotected when it is settled takes its 1.01%
  (`RunWearsAnyway`). But changing the sabbath does not settle first, so a
  citizen who moves it to the present day before each daily deposit settles
  protected days only, and never loses a unit (`MovingTheSabbathEvades`).
* **Custody.** In every reachable state the CosmWasm contract holds the locked
  deposits plus what arrived otherwise, and ragequit always succeeds and pays
  back exactly what was deposited (`CustodyAlways`, `RagequitPaysDeposits`).
* **Weeks and rejoining.** The multiplier and the week count reflect exactly
  the weeks with a volunteer day attested in time (`WeekAccounting`), and flags
  left by an earlier citizenship never matter (`RejoinStartsFresh`). In time
  means: before any axis is settled through the last day of the week
  (`WhenWeeksClose`). Settlement includes the present day, so a settlement on
  that last day credits the week before it is over (`CreditedBeforeOver`;
  `CreditedWhileRunning` says exactly when), and volunteering attested later
  the same day is accepted and never credited (`AttestationLost`). An accepted
  attestation counts exactly if its week was still open, or another day has
  earned it (`CountsIffOpen`).
* **Replay.** Over any run no two accepted messages share an identifier
  (`CallsNeverReplayed`, `MsgsNeverReplayed`).
* **The bridge.** Under retries, duplicate deliveries, lost replies, crashes
  and resubmission, each lock is minted at most once, and locked plus requested
  kWR equals minted kWR, within everything ever locked on Zion (`BridgeSafety`).
* **The way back.** The watcher marks a request after its broadcast, so a crash
  in between has it sent again, and nothing in this repository then keeps Zion
  from paying twice, more than was ever locked (`PaidTwice`). Some request is
  open to a second payment exactly after a crash that loses a mark
  (`RepeatableIff`). Without such a loss every request is released at most
  once, and what remains in escrow covers the locked amounts and all requests
  not yet released (`EscrowCovers`). The same holds, whatever crashes, if Zion
  consumes the transaction hash that comes with each request
  (`zion1-daemon/internal/handlers/evm_ragequit.go:105-110`), as is planned for
  its module; then, however, of several requests in one transaction only one is
  ever paid, for the log index is not sent (`RefusalReleasesOnce`).
* **The daemon.** While the store keeps its marks, no handler call follows a
  success or a permanent failure for the same key (`AtMostOneSuccess`), and
  every ragequit event is marked as done or dead-lettered but not both
  (`DoneOrDead`). Over any deliveries whose handlers eventually succeed exactly
  the first event of each transaction and registered type is handled
  (`FirstsHandled`), so all of those types are handled exactly if no two share
  both (`HandledExactlyOnce`).
* **The rate.** The documents let the rate reach 100% on day 462
  (`DEV_SETUP.md:54`). Rounding down each day delays that to day 520; on day
  462 it is 56.76% (`SaturationDay`). Likewise 52 volunteered weeks do not
  quite double the multiplier (`DEV_SETUP.md:56`): they make 1.9965 of it
  (`CreditedYear`).

Where the code and its comments differ, the code is followed: a deposit may be
accompanied by coins of other denominations (`jjjajh_STD_CW/src/contract.rs:151-156`
uses the first match), and a permanently failed event is marked as processed
although the log line says it is not (`zion1-daemon/internal/pipeline/pipeline.go:74-80`).

## Model

| member | source | states |
|---|---|---|
| Decay.DaysCompose | jjjajh_STD_CW/src/contract.rs:414-442 | settling m days and then n days equals settling m + n days |
| Decay.DaysAgree | jjjajh_STD_CW/src/contract.rs:414-431 | only the exemptions of the settled days matter |
| Decay.DaysRate | jjjajh_STD_CW/src/contract.rs:415-419 | the stored rate depends on the days since joining only, whatever the schedule |
| Decay.RateRises | jjjajh_STD_CW/src/contract.rs:415-419 | the rate rises strictly until it is exactly 100%, and then stays |
| Decay.RateBelowFormula | jjjajh_STD_CW/src/contract.rs:415-419 | rate(n) times 100^n is at most 100 times 101^n: flooring never exceeds the documented formula |
| Saturation.SaturationDay | DEV_SETUP.md:54 | the rate is 5676 on day 462 and reaches 10000 exactly from day 520 on |
| Decay.DaysMonotone | jjjajh_STD_CW/src/contract.rs:414-442 | more honor before any number of days means at least as much after them |
| Decay.DaysShrink | jjjajh_STD_CW/src/contract.rs:414-442 | decay never creates honor |
| Decay.CombinedRounding | jjjajh_STD_CW/src/contract.rs:414-442 | settling a joint honor yields at least the sum of settling the parts, and at most 198 units more, over any days |
| Decay.OneSabbathInSeven | jjjajh_STD_CW/src/contract.rs:426-430 | without active days exactly one of any seven consecutive days is exempt |
| Decay.Turnover | jjjajh_STD_CW/src/contract.rs:414-442 | settling k inactive weeks under one sabbath leaves at most (9899/10000)^(6k) of the honor |
| Decay.SaturatedDays | jjjajh_STD_CW/src/contract.rs:436-438 | at a rate of 100% honor survives a window exactly if every day in it was protected |
| Survival.RateIs | jjjajh_STD_CW/src/contract.rs:416-419 | a day grows the rate by 1%, rounded down, and caps it at 10000 |
| Survival.DayIs | jjjajh_STD_CW/src/contract.rs:426-440 | one day: a sabbath or active day takes nothing; at rate r of 10000 any other leaves h' with h' * 10000 <= h * (10000 - r) < (h' + 1) * 10000, and nothing at 10000 |
| Survival.DayFitsIff | jjjajh_STD_CW/src/contract.rs:439 | its arithmetic overflows exactly if the product h * (10000 - r) of such a day does |
| Survival.DaysSurvive | jjjajh_STD_CW/src/contract.rs:414-442 | from below: while the rate stays at most r, u unprotected days leave at least ((10000 - r)/10000)^u of the honor, short of u units |
| Volunteer.WeeksCredit | jjjajh_STD_CW/src/contract.rs:471-505 | settling weeks credits exactly the qualified ones: count, multiplier, top-ups and last week |
| Volunteer.QualifiedAfterMembers | jjjajh_STD_CW/src/contract.rs:471-489 | the credited weeks are the qualified ones in the window, each once and in order |
| Volunteer.TopUpsGap | jjjajh_STD_CW/src/contract.rs:493-499 | topping up after a deposit yields at least as much as before it, and the same exactly if every bonus agrees |
| Volunteer.LargeDepositSameBonuses | jjjajh_STD_CW/src/contract.rs:493-499 | for deposits of 100 and more the bonuses agree exactly while the sum stays below 10100 |
| Volunteer.Credits51 | jjjajh_STD_CW/src/contract.rs:491-492 | 51 credited weeks at most double the multiplier |
| Volunteer.CreditIs | jjjajh_STD_CW/src/contract.rs:492 | one credited week multiplies by 1.01342, rounded down |
| Volunteer.BonusIs | jjjajh_STD_CW/src/contract.rs:493-499 | and its bonus is 100, or 1% of the capital, rounded down, from 10100 on |
| Volunteer.Credits52 | DEV_SETUP.md:56 | 52 credited weeks make at least 1.99 of any multiplier from 10000 on |
| Volunteer.CreditedYear | DEV_SETUP.md:56 | from the initial 10000 one week makes 10134, and 52 weeks make 19965, not quite the documented double |
| VotingPower.IsqrtIsRoot | jjjajh_STD_CW/src/contract.rs:510-524 | the reference root z of y satisfies z^2 <= y < (z+1)^2 |
| VotingPower.NewtonSumFits | jjjajh_STD_CW/src/contract.rs:521 | the sum in a Newton step stays within y, so it cannot overflow |
| VotingPower.IntSqrt | jjjajh_STD_CW/src/contract.rs:510-524 | the Newton loop terminates and returns the floor of the square root, for every y |
| VotingPower.PowerMonotone | jjjajh_STD_CW/src/contract.rs:646-651 | voting power never falls when an honor or the multiplier rises |
| VotingPower.PowerAtLeastBase | jjjajh_STD_CW/src/contract.rs:646-651 | a multiplier of at least 10000 never lowers the power below the base power, and 10000 leaves it as it is |
| VotingPower.PowerBound | jjjajh_STD_CW/src/contract.rs:646-651 | power^2 times 10000 is at most base^2 times the multiplier |
| VotingPower.WeightsAre | DEV_SETUP.md:57 | capital counts once, labor and verification five times each, and the axes add up |
| VotingPower.PowerIs | jjjajh_STD_CW/src/contract.rs:646-651 | the power p of roots x, y, z and f satisfies p * 10000 <= (x + 5y + 5z) * f < (p + 1) * 10000 |
| VotingPower.PowerDoubles | DEV_SETUP.md:57 | four times the initial multiplier doubles the power |
| VotingPower.RootScales | README.md:122 | k^2 times the honor gives k times the root, within k - 1 units |
| VotingPower.QuadraticDamping | README.md:122 | k^2 times the contribution on every axis buys k times the base power, within 11(k - 1) units |
| VotingPower.MergingGainsLittle | jjjajh_STD_CW/src/contract.rs:646-648 | merging two contributors gains at most 11 units of base power |
| DayBits.Set128Adds | jjjajh_STD_CW/src/contract.rs:364-388 | setting a bit in 128-day words adds that day of that address and nothing else |
| DayBits.Set256Adds | jjjajh_STD_SC.sol:387-399 | the same for 256-day words |
| BitPosition.PositionValue | jjjajh_STD_CW/src/contract.rs:368-371 | the binary digits that stand for a shift amount have its value |
| DayBits.PackingsAgree | jjjajh_STD_CW/src/state.rs:64-68 | after any sequence of marks both packings hold exactly the marked days, and every 256-bit word is two 128-bit words joined, bit for bit |
| DayBits.Bits128.SetBit | jjjajh_STD_CW/src/contract.rs:364-376 | the stored words change as specified, and the represented days grow by the one day |
| DayBits.Bits128.GetBit | jjjajh_STD_CW/src/contract.rs:378-388 | reading a bit is membership in the represented days |
| DayBits.Bits256.SetBit | jjjajh_STD_SC.sol:387-392 | as for 128-day words |
| DayBits.Bits256.GetBit | jjjajh_STD_SC.sol:394-399 | as for 128-day words |
| Account.MutCitizen.ApplyDecay | jjjajh_STD_CW/src/contract.rs:391-448 | settles up to 90 days of one axis as the daily meaning says, and fails exactly if 128 bits overflow |
| Account.MutCitizen.ReplayDays | jjjajh_STD_CW/src/contract.rs:413-442 | the day loop computes the meaning of those days, or overflows |
| Account.MutCitizen.ProcessWeeks | jjjajh_STD_CW/src/contract.rs:456-507 | settles the completed weeks of one axis, and fails exactly if 128 bits overflow |
| Account.MutCitizen.ReplayWeeks | jjjajh_STD_CW/src/contract.rs:471-502 | the week loop computes the meaning of those weeks, or overflows |
| DayBits.Bits128.WeekQualifies | jjjajh_STD_CW/src/contract.rs:474-489 | true exactly if some day of the week is flagged |
| DayBits.Bits256.WeekQualifies | jjjajh_STD_SC.sol:361-367 | as for 128-day words |
| Loops.GrowRate | jjjajh_STD_CW/src/contract.rs:416-419 | the capped 1% growth of the rate |
| Cosmwasm.Contract.constructor | jjjajh_STD_CW/src/contract.rs:20-41 | a fresh contract has no citizens, flags, identifiers or coins |
| Cosmwasm.Contract.Settle | jjjajh_STD_CW/src/contract.rs:160-164 | decay, then the new honor, then the weeks, on a working copy |
| Cosmwasm.Contract.ContributeCapital | jjjajh_STD_CW/src/contract.rs:135-170 | every check in order, then the settled citizen with the deposit locked |
| Cosmwasm.Contract.AttestHonor | jjjajh_STD_CW/src/contract.rs:173-217 | every check in order, then the settled citizen and the used job id |
| Cosmwasm.Contract.AttestDay | jjjajh_STD_CW/src/contract.rs:220-265 | every check in order, then the flags of the day |
| Cosmwasm.Contract.LeaveCitizenship | jjjajh_STD_CW/src/contract.rs:268-296 | citizen and badges removed, flags kept, the locked amount paid if the balance covers it |
| Cosmwasm.Contract.Handle | jjjajh_STD_CW/src/contract.rs:45-74 | every message has the outcome its specification gives, or fails and changes nothing |
| Cosmwasm.Contract.Execute | jjjajh_STD_CW/src/contract.rs:45-74 | the same, with attached coins moving in and the payment out |
| Solidity.Contract.Deploy | jjjajh_STD_SC.sol:90-94 | reverts exactly for the zero attester, and otherwise yields a fresh contract |
| Solidity.Contract.ApplyDecay | jjjajh_STD_SC.sol:310-344 | settles one axis and its completed weeks in storage, and reverts exactly if 256 bits overflow |
| Solidity.Contract.ProcessWeeks | jjjajh_STD_SC.sol:349-385 | settles the completed weeks in storage |
| Solidity.Contract.BridgeMintCapital | jjjajh_STD_SC.sol:172-197 | every requirement in order, then settlement, then the mint, its event and the used lock id; all or nothing |
| Solidity.Contract.AttestHonor | jjjajh_STD_SC.sol:204-230 | every requirement in order, then settlement, then the honor; all or nothing |
| Solidity.Contract.AttestDay | jjjajh_STD_SC.sol:232-261 | every requirement in order, then the flags |
| Solidity.Contract.JoinCitizens | jjjajh_STD_SC.sol:135-153 | joining overwrites the fields the source overwrites and keeps the others |
| Solidity.Contract.Execute | jjjajh_STD_SC.sol:105-304 | every call has the outcome its specification gives, or reverts and changes nothing |
| Authority.AcceptedIffEntitled | jjjajh_STD_CW/src/contract.rs:77-352 | exactly the messages whose sender and content meet the stated demands take effect, save for overflow and uncovered payments |
| Authority.JoinIs | jjjajh_STD_CW/src/contract.rs:88-109 | a new citizen's fields in plain numbers |
| Authority.AttestedDayProtects | jjjajh_STD_CW/src/contract.rs:252-258 | an accepted active day is exempt from then on, for that citizen and nobody else |
| Authority.OnlySubjectTouched | jjjajh_STD_CW/src/contract.rs:45-74 | no message changes the record, flags, badges or PoP of anybody but the one it is about |
| Authority.RolesAndBadges | jjjajh_STD_CW/src/contract.rs:299-352 | which message changes which badge, role, PoP or sabbath |
| Authority.KeylessRunsGrantNothing | jjjajh_STD_CW/src/contract.rs:45-74 | runs without the attester and governance grant no PoP, day, badge, role or labor or verification honor |
| SolidityAuthority.AcceptedIffEntitled | jjjajh_STD_SC.sol:105-304 | exactly the calls that meet the stated demands take effect, save for overflow |
| SolidityAuthority.ExpiredCallsDoNothing | jjjajh_STD_SC.sol:105-261 | over any run, dropping all expired signed calls leaves the same final state |
| SolidityAuthority.JoinIs | jjjajh_STD_SC.sol:135-153 | a first-time citizen's fields in plain numbers |
| SolidityAuthority.OnlySubjectTouched | jjjajh_STD_SC.sol:105-304 | as on CosmWasm |
| SolidityAuthority.RolesAndBadges | jjjajh_STD_SC.sol:272-304 | as on CosmWasm |
| SolidityAuthority.KeylessRunsGrantNothing | jjjajh_STD_SC.sol:105-304 | as on CosmWasm; moreover no locked amount grows |
| Views.SimulateCurrentHonor | jjjajh_STD_CW/src/contract.rs:566-603 | despite its early exits the query reports the honor that settling the axis now would store |
| Views.SimulateCurrentMultBp | jjjajh_STD_CW/src/contract.rs:605-631 | the multiplier once the completed qualifying weeks are credited |
| Views.QueryVotingPower | jjjajh_STD_CW/src/contract.rs:633-652 | the weighted roots times the root of the multiplier, or an abort exactly if 128 bits overflow |
| Views.SettlingKeepsMultView | jjjajh_STD_CW/src/contract.rs:605-631 | settling an axis never changes the reported multiplier, and stores it if at most 90 days were unsettled |
| Views.MultViewIs | jjjajh_STD_CW/src/contract.rs:605-631 | with one pending week the query multiplies by 1.01342, rounded down, and aborts exactly if the product overflows |
| Views.PowerViewIs | jjjajh_STD_CW/src/contract.rs:633-652 | the query answers p with p * 10000 <= (x + 5y + 5z) * f < (p + 1) * 10000 for the roots of what the other queries report, and aborts exactly if one of them does or a product overflows |
| SolidityViews.GetCurrentHonor | jjjajh_STD_SC.sol:405-434 | as the CosmWasm query, over 256 bits |
| SolidityViews.ComputeCurrentMultBP | jjjajh_STD_SC.sol:446-469 | as the CosmWasm query, over 256 bits |
| SolidityViews.GetVotingPower | jjjajh_STD_SC.sol:436-444 | as the CosmWasm query, over 256 bits |
| Queries.HonorStored | jjjajh_STD_CW/src/contract.rs:566-603 | attested honor is added to exactly what the query reports; if no week is due the message overflows exactly if the query aborts or the sum does not fit |
| Queries.DepositStored | jjjajh_STD_CW/src/contract.rs:135-170 | so is a deposit, and beyond that only bonuses are; the same for overflow |
| Queries.HonorStoredOnSolidity | jjjajh_STD_SC.sol:405-434 | as on CosmWasm |
| Queries.MintStoredOnSolidity | jjjajh_STD_SC.sol:172-197 | as on CosmWasm |
| ViewsTogether.VotingPowerTogether | jjjajh_STD_SC.sol:436-444 | after any joint run Solidity reports at most the voting power CosmWasm reports, and the same if no deposit changed a bonus |
| Runs.StepConserves | jjjajh_STD_CW/src/contract.rs:135-170 | each message moves as much kWR in and out as it adds to and takes from the locked amounts |
| Runs.CustodyAlways | jjjajh_STD_CW/src/contract.rs:268-296 | always: balance = locked + kWR that arrived otherwise, and per address deposits = payouts + locked |
| Runs.RagequitPaysDeposits | jjjajh_STD_CW/src/contract.rs:268-296 | ragequit of any citizen in any reachable state succeeds and pays exactly the deposits not yet paid back |
| Records.ProcessKeepsWeeks | jjjajh_STD_CW/src/contract.rs:456-507 | processing weeks keeps the week count exact |
| Records.SettleKeepsSound | jjjajh_STD_CW/src/contract.rs:391-507 | settlement keeps every record invariant |
| Records.MarkKeepsSound | jjjajh_STD_CW/src/contract.rs:252-258 | so does marking a day, even one whose week is already processed |
| Records.CreditedWeeksSettled | jjjajh_STD_CW/src/contract.rs:456-469 | credited weeks are settled through their last day on some axis, distinct, after the joining week, and none is missing |
| Records.OpenWeek | jjjajh_STD_CW/src/contract.rs:462-469 | a week after the joining week is unprocessed exactly if no axis has been settled through its last day |
| RunInvariants.SoundAlways | jjjajh_STD_CW/src/contract.rs:45-74 | the record of every citizen is sound and only citizens hold badges, in every reachable state |
| RunInvariants.RateIsScheduleFree | jjjajh_STD_CW/src/contract.rs:400-446 | in every reachable state the stored rate is that of the last settled day, between join day and today |
| RunInvariants.WeekAccounting | jjjajh_STD_CW/src/contract.rs:456-507 | last week, week count and multiplier reflect exactly the processed weeks attested in time; one week makes the multiplier 10134, 52 weeks 19965 |
| Attestations.WhenWeeksClose | jjjajh_STD_CW/src/contract.rs:462-469 | in every reachable state a day is in time exactly if no axis is settled through its week's last day: always before that day, on it exactly while nothing is settled that day |
| Attestations.CreditedWhileRunning | jjjajh_STD_CW/src/contract.rs:398-409 | a credited week is still running exactly if today is its last day, some axis has been settled today, and it has a timely day |
| Attestations.RunOnward | jjjajh_STD_CW/src/contract.rs:456-507 | while a citizen stays, weeks only close, and a closed week gets no more timely days |
| Attestations.CountsIffOpen | jjjajh_STD_CW/src/contract.rs:220-265 | over any continuation, an accepted volunteer attestation's week, once processed, is credited exactly if it was open then or earned by another timely day |
| Attestations.LostOnceClosed | jjjajh_STD_CW/src/contract.rs:220-265 | an attestation for a closed week without a timely day is accepted and never credited, whatever follows |
| Attestations.AttestationLost | jjjajh_STD_CW/src/contract.rs:252-258 | such a run: labor and then volunteering attested on the last day of a week |
| Attestations.CreditedBeforeOver | jjjajh_STD_CW/src/contract.rs:398-409 | in the other order the week is credited while its last day still runs |
| RunInvariants.RejoinStartsFresh | jjjajh_STD_CW/src/contract.rs:280 | every settlement comes out the same without the flags of earlier citizenships |
| RunInvariants.BadgesNeedCitizens | jjjajh_STD_CW/src/contract.rs:299-318 | a badge implies citizenship, and citizenship implies PoP |
| SolidityRuns.ReachableRecords | jjjajh_STD_SC.sol:310-385 | rate and week accounting hold in every reachable Solidity state, and non-citizens have the zero record |
| SolidityRuns.WhenWeeksClose | jjjajh_STD_SC.sol:349-354 | the same condition for a day to be in time |
| Replay.CallsNeverReplayed | jjjajh_STD_SC.sol:73-74 | over any run the consumed identifiers are exactly those of the accepted calls, of all four signed kinds together, and none is accepted twice |
| Replay.MsgsNeverReplayed | jjjajh_STD_CW/src/contract.rs:188-190 | the same for job ids and nonces on CosmWasm |
| Overflow.TopUpsBound | jjjajh_STD_CW/src/contract.rs:493-499 | up to 13 bonuses add at most 2% each and a constant |
| Overflow.FewWeeksPerCall | jjjajh_STD_CW/src/contract.rs:403-407 | one call processes at most 13 weeks |
| Overflow.MultBound | jjjajh_STD_CW/src/contract.rs:492 | 4900 credited weeks keep every product of the multiplier within 128 bits |
| Overflow.WidthsAre | jjjajh_STD_CW/src/contract.rs:439 | the contracts' limits are 2^128 - 1 and 2^256 - 1 |
| Overflow.SettlementNeverOverflows | jjjajh_STD_CW/src/contract.rs:391-507 | honors within (2^128 - 1)/10000 and 4900 weeks never overflow a settlement |
| Overflow.QueriesNeverAbort | jjjajh_STD_CW/src/contract.rs:633-652 | under the same bounds the voting power query always answers |
| Twins.DepositBeforeWeeks | jjjajh_STD_CW/src/contract.rs:160-164 | crediting a deposit before the weeks is never worse than after them, and equal exactly if no bonus changes |
| Lockstep.DepositTogether | jjjajh_STD_SC.sol:194-196 | both contracts accept or reject a deposit alike and stay twinned |
| Lockstep.RagequitTogether | jjjajh_STD_SC.sol:272-283 | a ragequit requests on Solidity exactly what CosmWasm pays |
| Lockstep.StepTogether | jjjajh_STD_SC.sol:310-385 | both contracts accept or reject any message alike and stay twinned |
| Lockstep.StepSame | jjjajh_STD_CW/src/contract.rs:163 | equal citizens stay equal after an accepted message exactly if it is not a deposit that changes a bonus |
| Lockstep.RunTogether | jjjajh_STD_CW/src/contract.rs:450-455 | over whole runs: same verdicts, same citizens but for capital honor, where CosmWasm is never behind |
| Lockstep.RunSame | jjjajh_STD_CW/src/contract.rs:450-455 | the contracts agree on capital honor as well after every message of a trace exactly if no deposit of it changes a bonus |
| Lockstep.RunSameWhenQuiet | jjjajh_STD_CW/src/contract.rs:163 | in particular over runs in which no deposit meets an unprocessed qualifying week |
| Lockstep.LargeDeposit | jjjajh_STD_CW/src/contract.rs:493-499 | for deposits of 100 and more, what "changes a bonus" means as one comparison |
| LockstepBounds.CalmIsFair | jjjajh_STD_CW/src/contract.rs:391-507 | bounded amounts exclude overflow over the whole run |
| LockstepBounds.BoundedRunTogether | jjjajh_STD_CW/src/contract.rs:450-455 | the twin theorem with bounds on amounts in place of the overflow hypothesis |
| Divergence.Diverges | README.md:87 | for every join day and every deposit from 10100 on: four messages both contracts accept leave CosmWasm ahead by the difference of the bonuses |
| Simulator.ActiveShare | jjjajh_STD_Cal.html:387-391 | exactly the given percentage of the first d days is active, rounded down |
| Simulator.ApplyVolBonus | jjjajh_STD_Cal.html:397-402 | the multiplier after that many credits |
| Simulator.ComputeVP | jjjajh_STD_Cal.html:404-408 | the contracts' voting power |
| Simulator.DecayDay | jjjajh_STD_Cal.html:427-438 | rates and honors after one day are those of one settled day on all three axes |
| Simulator.SimulateDay | jjjajh_STD_Cal.html:426-446 | one pass of the loop: the settled day, and every seventh day with volunteering the bonus on capital and multiplier |
| Simulator.CapitalDayIs | jjjajh_STD_Cal.html:439-446 | on every seventh day with volunteering capital gains 100, or 1% from 10100 on, beside its decay, and on no other day |
| Simulator.CapitalBetween | jjjajh_STD_Cal.html:426-446 | over any days simulated capital stays between what decay alone leaves and what the bonuses alone make |
| Simulator.Simulate | jjjajh_STD_Cal.html:411-455 | every entry of the series shows its day: the honors, the rate of that many days, the multiplier of the weeks volunteered so far, and the voting power |
| Simulator.SeriesIs | jjjajh_STD_Cal.html:439-453 | entry d shows the multiplier of the initial weeks and of d / 7 more with volunteering, and the power of what it shows |
| LazyIsEager.ScheduleFree | jjjajh_STD_CW/src/contract.rs:391-448 | labor and verification honor depend on the day reached, not on the calls, with whatever amounts on other axes, that led there |
| LazyIsEager.CatchUp | jjjajh_STD_CW/src/contract.rs:403-407 | k calls catch up t days exactly if k is at least t / 90 rounded up |
| LazyIsEager.LazyEqualsEager | jjjajh_STD_Cal.html:426-438 | from any day after joining, any schedule takes labor and verification where the simulation continued from the present state goes, and agreement with the simulation lasts |
| Courses.MoveRemains | jjjajh_STD_CW/src/contract.rs:414-442 | a settlement that adds honor keeps the decay bound, over the days that even a wider shield leaves unprotected |
| RunCourses.RunWears | jjjajh_STD_CW/src/contract.rs:45-74 | over any run with a fixed sabbath, each unprotected settled day has taken at least 1.01% of all but the gains |
| RunCourses.RunOnlySettles | jjjajh_STD_CW/src/contract.rs:45-74 | over any run that adds nothing to labor or verification, that axis ends where settling the days in one go ends |
| RunCourses.TurnoverOverRun | jjjajh_STD_CW/src/contract.rs:391-448 | from any reachable state and over any run with a fixed sabbath, 7k settled days without active days leave at most (9899/10000)^(6k) of the honor beside the gains |
| RunCourses.LazyRunEqualsEager | jjjajh_STD_CW/src/contract.rs:391-448 | over any such run the axis follows the simulation |
| RunCourses.RunWearsAnyway | jjjajh_STD_CW/src/contract.rs:116-132 | over any run in which the citizen stays, each day unprotected when settled has taken at least 1.01% of all but the gains, however the sabbath moves |
| RunCourses.RunKeeps | jjjajh_STD_CW/src/contract.rs:391-448 | and no more than that: while the rate stays at most r, each such day has taken at most the share r and one unit |
| SolidityCourses.RunWears | jjjajh_STD_SC.sol:105-304 | as on CosmWasm |
| SolidityCourses.RunOnlySettles | jjjajh_STD_SC.sol:105-304 | as on CosmWasm |
| SolidityCourses.TurnoverOverRun | jjjajh_STD_SC.sol:310-344 | as on CosmWasm |
| SolidityCourses.LazyRunEqualsEager | jjjajh_STD_SC.sol:310-344 | as on CosmWasm |
| SolidityCourses.RunWearsAnyway | jjjajh_STD_SC.sol:155-160 | as on CosmWasm |
| SolidityCourses.RunKeeps | jjjajh_STD_SC.sol:310-344 | as on CosmWasm |
| Evasion.MovingTheSabbathEvades | jjjajh_STD_CW/src/contract.rs:116-132 | a run of joining, moving the sabbath and depositing daily keeps every unit for any number of weeks, and so breaks the bound |
| Keys.DispatchKeyInjective | zion1-daemon/internal/handlers/handler.go:51 | two events share a key exactly if transaction and type agree |
| Keys.RagequitKeyInjective | zion1-daemon/internal/handlers/evm_ragequit.go:84-89 | two ragequit logs share a key exactly if transaction and index agree |
| Keys.DecimalParses | zion1-daemon/internal/handlers/evm_ragequit.go:84 | the decimal digits of an index stand for it |
| DaemonRuns.EncodeInjective | zion1-daemon/internal/handlers/handler.go:65-70 | the four kinds of keys never collide |
| Store.MemoryStore.IsConsumed | zion1-daemon/internal/store/store.go:47-51 | true exactly for the marked keys |
| Store.MemoryStore.MarkConsumed | zion1-daemon/internal/store/store.go:53-60 | adds one mark and removes none; the file is rewritten or left as it was, and a restart never remembers more than was marked |
| Store.MemoryStore.Snapshot | zion1-daemon/internal/store/store.go:62-70 | an exact copy |
| Pipelines.Dispatcher.Register | zion1-daemon/internal/handlers/handler.go:38-42 | the last handler registered for a type serves it |
| Pipelines.Dispatcher.Dispatch | zion1-daemon/internal/handlers/handler.go:45-60 | calls the handler at most once, marks on success only |
| Pipelines.Dispatcher.MarkPermanentlyFailed | zion1-daemon/internal/handlers/handler.go:65-70 | marks both the failed key and the dispatch key |
| Pipelines.Pipeline.ProcessWithRetry | zion1-daemon/internal/pipeline/pipeline.go:49-93 | the retry loop: stops on success, permanent failure, shutdown or the limit |
| Pipelines.Pipeline.Run | zion1-daemon/internal/pipeline/pipeline.go:35-47 | one delivery after the other |
| Decoding.AbciEventToTyped | zion1-daemon/internal/zionclient/client.go:106-118 | type, hash and height are kept, and the attributes become a map of exactly the keys that occur |
| Decoding.LastAttributeCounts | zion1-daemon/internal/zionclient/client.go:107-110 | of several attributes with one key the last one counts |
| Decoding.DecodeResultEvent | zion1-daemon/internal/zionclient/client.go:92-104 | one typed event per event, in order, each with its own type and the transaction's hash and height |
| Watchers.EVMRagequitHandler.Handle | zion1-daemon/internal/handlers/evm_ragequit.go:83-115 | skips settled events, otherwise broadcasts once and marks on success |
| Watchers.EVMRagequitHandler.Run | zion1-daemon/internal/handlers/evm_ragequit.go:53-81 | every event in turn; a failed one is dead-lettered |
| Watching.WatchedIs | zion1-daemon/internal/handlers/evm_ragequit.go:83-115 | a new event is sent once and marked under "evm_ragequit:hash:index", or under "failed:evm_ragequit:hash:index" if the broadcast fails |
| DaemonRuns.DeliverySane | zion1-daemon/internal/pipeline/pipeline.go:49-93 | a delivery keeps the books sane, forgets nothing and makes at most one call per attempt left |
| DaemonRuns.DaemonAlwaysSane | zion1-daemon/internal/handlers/handler.go:45-70 | over any run every mark is backed by what happened, and calls and unlocks are not repeated |
| DaemonRuns.NothingUndone | zion1-daemon/internal/store/store.go:53-60 | no mark, call or unlock is ever undone |
| DaemonRuns.AtMostOneSuccess | zion1-daemon/internal/handlers/handler.go:45-60 | a call followed by another for the same key was a transient failure: one success at most, none after it |
| DaemonRuns.AttemptsBounded | zion1-daemon/internal/pipeline/pipeline.go:49-93 | at most maxRetries + 1 calls per delivery, all for its event |
| DaemonRuns.DoneOrDead | zion1-daemon/internal/handlers/evm_ragequit.go:53-115 | every delivered ragequit event is marked either as done or as dead-lettered, and never both |
| Handling.FirstsHandled | zion1-daemon/internal/handlers/handler.go:45-60 | over any run of deliveries and ragequit events: of the registered types exactly the first event of each transaction and type is handled, each once and in order |
| Handling.HandledExactlyOnce | zion1-daemon/internal/zionclient/client.go:92-104 | all events of registered types are handled, each once and in order, exactly if no two share transaction and type |
| Handling.DeliveryConcludes | zion1-daemon/internal/pipeline/pipeline.go:49-93 | a delivery that eventually succeeds leaves exactly one concluding call for its key, whatever other deliveries do |
| Handling.OwnKeyHandledOnce | zion1-daemon/internal/pipeline/pipeline.go:49-93 | an event with a key of its own is handled successfully exactly once |
| Handling.DeliveryEnds | zion1-daemon/internal/pipeline/pipeline.go:49-93 | the first attempt that is not transient is the last, and marks "hash:type", and "failed:hash:type" too if it failed for good |
| Handling.DeliveryGivesUp | zion1-daemon/internal/pipeline/pipeline.go:49-93 | where retries run out or shutdown comes, nothing is marked |
| Handling.SecondLockIsLost | zion1-daemon/internal/handlers/handler.go:50-54 | of two events of one type in one transaction the second is never handled |
| Bridge.MintsPayable | zion1-daemon/internal/handlers/bridge_mint.go:88-98 | in every reachable state no mint has gone to the zero address and none was empty |
| BridgeMint.Handle | zion1-daemon/internal/handlers/bridge_mint.go:40-84 | sends a mint exactly for readable attributes that it can sign and deliver, with exactly their address, amount and lock id, and succeeds exactly if it is also acknowledged |
| BridgeMint.SubmittedCarries | zion1-daemon/internal/handlers/bridge_mint.go:48-77 | the mint that enters the network carries the attributes unchanged |
| BridgeLedger.CallConserves | jjjajh_STD_SC.sol:172-283 | every call changes the locked total by what it mints less what it requests back |
| Bridge.AlwaysSafe | jjjajh_STD_SC.sol:183-196 | signed mints match locks, minted ids are used up, no id is minted twice, the sums agree, in every reachable state |
| Bridge.MintsWithinLocks | jjjajh_STD_SC.sol:183 | mints of different locks sum to at most all locks |
| Bridge.BridgeSafety | zion1-daemon/internal/pipeline/pipeline.go:49-93 | where Zion's events name its locks by their attributes, each lock is minted at most once and exactly; locked + requested = minted <= locks |
| RoundTrip.TravelSafe | zion1-daemon/internal/handlers/evm_ragequit.go:83-115 | bridge safety holds with the watcher at work as well, and only requests are released |
| RoundTrip.SecondReleaseNeedsCrash | zion1-daemon/internal/handlers/evm_ragequit.go:104-113 | where no crash comes between broadcast and mark, or forgets a mark, Zion never pays a released request again |
| RoundTrip.RepeatableIff | zion1-daemon/internal/handlers/evm_ragequit.go:104-113 | over any run no released request is ever open to a second release exactly if no crash loses a mark |
| RoundTrip.CrashReleasesTwice | zion1-daemon/internal/handlers/evm_ragequit.go:104-113 | any unmarked request is paid twice if the watcher crashes between broadcast and mark |
| DoubleRelease.PaidTwice | zion1-daemon/internal/handlers/evm_ragequit.go:104-113 | a run from the start in which a positive amount is paid twice and the escrow no longer covers what is locked and owed |
| RoundTrip.RefusalReleasesOnce | zion1-daemon/internal/handlers/evm_ragequit.go:105-110 | if Zion consumes transaction hashes, no crash has a request released twice, and of the requests in one transaction at most one is released |
| RoundTrip.ReleasedPlusOwed | zion1-daemon/internal/handlers/evm_ragequit.go:83-115 | where nothing is released twice, released and owed amounts make up all requests |
| RoundTrip.RequestSent | zion1-daemon/internal/handlers/evm_ragequit.go:105-110 | what the watcher sends names the citizen, the amount and the transaction of the request |
| RoundTrip.PaidIsReleased | zion1-daemon/internal/handlers/evm_ragequit.go:83-115 | over any travel Zion pays the sum of the released requests |
| RoundTrip.EscrowCovers | zion1-daemon/internal/handlers/evm_ragequit.go:83-115 | without lost marks, or with a Zion that refuses repeats, every request is released at most once, and locks less releases is at least the locked total plus the requests not yet released |

## Left out

- Signatures, hashing and ABI packing: a signed call carries the address recovered from its signature; that the attester's key signs no mint but the daemon's is the hypothesis `Possible` of the bridge.
- Address validation, denominations as anything but names, response attributes, error texts, and Solidity events other than mints and ragequit requests.
- The width of 64-bit day and week counters, which real block times cannot exhaust, and the byte type of the sabbath offset.
- Transactions that abort on overflow in CosmWasm are one error, whether the source reports it or panics.
- Capital honor under different settlement schedules: bonuses are added at settlement, so it does depend on the calls. It is bounded (`RunWears`, `TurnoverOverRun`), but `ScheduleFree` and `LazyRunEqualsEager` are about the other two axes.
- Simulator.Simulate: does not model fractions and loss of precision in browser numbers, whose integers are exact below 2^53.
- The breakdown queries, which only bundle the queries modelled here, and the queries of non-citizens except voting power, where the two contracts report different default multipliers.
- The other attestation handlers of the daemon, which follow the pattern of the mint handler, and the parsing of hex, numbers and booleans.
- RPC, subscriptions, nonces, gas, metrics, logging, configuration, the Vault client and the on-disk stores: over runs the store is a set of marks that a crash may shrink.
- The interleaving of the pipeline and the ragequit watcher inside one event: they share the store but no key, so jobs are taken one at a time.
- The Zion module that releases funds, which exists as a proposal only: Zion is an environment that issues lock ids, each once, and pays or does not pay each unlock it is sent.
- Charts, themes, export and scenarios of the web page.
