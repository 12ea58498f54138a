# USA simulation: a verified model of the engine core

This project models the core of a small political and economic simulation
of the United States. `usa/models.py` holds the engine. One aggregate root,
`UnitedStates`, is advanced month by month in place. Each month it drifts
the national economy and ticks every state's economy. It lets a federal AI
and per-state AIs propose policies, which pass or fail on one random draw.
It may fire a weighted random event and react to it. It holds House, Senate
and presidential elections every November, reverts approvals toward their
baselines, lets the parties shift strategy, collects federal revenue and
rolls the calendar. `usa/config.py` builds event and policy configuration
records from parsed JSON, files them by key and filters them by level.

The model is written in the source's own form:

- **Classes where the source updates fields in place:**
  - `PoliticalParty`, `PublicOpinion`, `State`, `EventManager`,
    `UnitedStates` and `ConfigLoader`.
  - The random generator `Rng`: an abstract stream of draws in [0, 1) and a
    position that every draw advances.
- **Datatypes for small value records:**
  - `President`, `Congress` and `FederalBudget` are reassigned in their
    owner's field.
  - `District`, `VoterCohort`, `Policy`, `Event`, `EventConfig` and
    `PolicyConfig`.
- **Methods with loops where the source loops:**
  - the cumulative-weight walk of `random_event`
  - the district builder and cohort perturbation
  - the seat-counting and race loops of the elections
  - the per-state economy and AI loops
  - the month loop of `advance_turn`
  - the configuration load loops
- **Functions for the pure formulas**, each with lemmas: the signals, the
  passage and win probabilities, the AI decision trees, the strategy shifts
  and the record builders.

The contract of each step that draws (a district, a seat class, a race, an
economy tick, a policy vote, an event pick) ties its result and new state to
the draws it consumes (`rng.stream(old(rng.pos) + k)`), directly or through a
function of the stream such as `BuiltDistricts` or `SeatsAfterRaces`. The
loops over every state and the composed turn steps state the rules their
results follow rather than every draw position; "## Left out" names them.
The properties the engine
promises are stated as ensures clauses and lemmas:

- clamped approvals
- one draw deciding a policy, with the full effects applied on a pass and
  only a log line added on a failure
- the first-covering event pick
- the bounded recent-event history
- the election gates, and the tie going to the Democrats
- idempotent lazy election setup with normalised cohort shares
- the calendar roll-over
- the end-of-tick national bounds
- the configuration defaults, keyed storage and level filter

## Model

| member | source | states |
|---|---|---|
| Basics.Clamp | usa/models.py:57 | `max(lo, min(hi, x))` lies in [lo, hi], is x itself inside the range and the nearer bound outside it |
| Basics.ClampMonotone | usa/models.py:57 | clamping preserves the order of its arguments |
| Basics.Max | usa/models.py:788-789 | the maximum is at least both arguments and equal to one of them |
| Basics.NatToString | usa/models.py:535 | the decimal rendering of a district number is non-empty and made of digits only |
| Basics.NatToStringValue | usa/models.py:535 | the rendering's digits denote exactly n, and it starts with '0' only for n = 0, so there are no leading zeros |
| Basics.NatToStringInjective | usa/models.py:535 | different numbers render differently |
| Draws.Scale | usa/models.py:227 | `uniform(a, b)` built from one draw lies in [a, b] |
| Draws.Bucket | usa/models.py:540-541 | `randrange(0, n)` built from one draw is below n |
| Draws.Rng.constructor | usa/models.py:500 | a new generator starts at the first draw of its stream |
| Draws.Rng.Random | usa/models.py:907 | `random()` returns the next draw of the stream and consumes exactly one |
| Draws.Rng.Uniform | usa/models.py:882-884 | `uniform(a, b)` consumes one draw and stays in [a, b] |
| Draws.Rng.RandRange | usa/models.py:540-541 | `randrange` consumes one draw and returns an index below n |
| OrderedDict.ODict.Get | usa/models.py:763 | `d.get(k)` is None exactly for an absent key and the stored value otherwise |
| OrderedDict.ODict.Put | usa/models.py:448 | `d[k] = v` makes k map to v, leaves every other key alone, keeps keys distinct and keeps existing keys in place |
| OrderedDict.ODict.Values | usa/models.py:455 | `list(d.values())` lists one value per key, in key order |
| OrderedDict.Empty | usa/models.py:445 | an empty dictionary has no keys and answers None for every lookup |
| OrderedDict.PutValues | usa/models.py:448 | overwriting a key changes the value at its old position only; a new key appends its value at the end |
| Entities.PoliticalParty.constructor | usa/models.py:51-53 | a party starts with the given name and approval, 50 by default |
| Entities.PoliticalParty.AdjustApproval | usa/models.py:55-57 | the approval becomes the clamped sum and always ends in [0, 100] |
| Entities.IssueBase | usa/models.py:114 | the starting support is the stored value for the title, or the policy's popularity when the title is absent |
| Entities.IssueUpdated | usa/models.py:113-115 | only the policy title's entry changes; it becomes the clamped base plus delta; every other entry is kept |
| Entities.PublicOpinion.constructor | usa/models.py:108-111 | opinion starts at 50 for the President, 30 for Congress and no issue entries |
| Entities.PublicOpinion.UpdateIssue | usa/models.py:113-115 | the support map becomes `IssueUpdated`; the stored value is in [0, 100]; all-in-range support stays in range |
| Entities.FederalBudget.Charge | usa/models.py:788-789 | a passed policy moves the deficit by exactly its cost: a cost is added to spending with revenue kept, a saving (negative cost) is added to revenue with spending kept |
| Entities.FederalBudget.Deficit | usa/models.py:288-289 | the deficit is what spending exceeds revenue by, positive exactly when spending is larger |
| Entities.StateGdpGrowth | usa/models.py:227 | the state growth rate of one tick lies in [-0.1, 0.1] |
| Entities.StateNextUnemployment | usa/models.py:230-232 | the next state unemployment lies in [2.5, 20] |
| Entities.StateNextInflation | usa/models.py:234 | the next state inflation lies in [0, 20] |
| Entities.State.constructor | usa/models.py:200-223 | a state starts with the given figures and the defaults: approvals 50 and 40, budget 100/100, tax rate 0.06, the default sector mix, no cohorts or districts, two Independent seats of classes 0 and 3 |
| Entities.State.ApplyCampaign | usa/models.py:728-733 | campaigning stores the campaigned districts and nudges governor and legislature approval by 0.2 and 0.1, clamped to [0, 100] |
| Entities.State.AdvanceEconomy | usa/models.py:226-234 | `advance_economy` consumes three draws, multiplies GDP by the clamped growth, and sets unemployment and inflation from their formulas, so both end in range and positive GDP stays positive |
| Events.PickFrom | usa/models.py:457-461 | the walk from k stops at the first index whose cumulative weight reaches the pick, or at the last index |
| Events.PickIndex | usa/models.py:457-461 | the picked index is within the catalog |
| Events.PickIndexIsFirstCovering | usa/models.py:457-461 | any index that is the first to cover the pick, or the last when none covers it, is the picked index |
| Events.PickCovered | usa/models.py:454-461 | a pick no larger than the total weight is covered by the picked entry's cumulative weight, so the fallback never overrides a covering entry |
| Events.NonNegativeTotal | usa/models.py:453 | with non-negative weights every cumulative weight is non-negative |
| Events.Walk | usa/models.py:456-461 | the accumulator loop returns the event at `PickIndex` |
| Events.EventManager.Entries | usa/models.py:452 | the catalog entries in registration order, one per key |
| Events.EventManager.constructor | usa/models.py:443-445 | a new manager has an empty catalog and shares the given generator |
| Events.EventManager.Register | usa/models.py:447-448 | registering files the event and weight under the event's key, replacing an existing entry in place and leaving other keys alone |
| Events.EventManager.RandomEvent | usa/models.py:450-461 | None exactly when the catalog is empty, without a draw; otherwise one draw scaled to [0, total] picks the first covering event in registration order |
| Policies.FederalProposal | usa/models.py:612-641 | a stimulus when growth is negative, else austerity when inflation exceeds 4, else infrastructure, each with its sponsor and the direction of its effects |
| Policies.Stimulus | usa/models.py:613-621 | titled Stimulus, sponsored by the given party; it costs money, raises growth, lowers unemployment, leaves inflation alone and is popular |
| Policies.Austerity | usa/models.py:623-631 | titled Austerity; it saves money, lowers growth and inflation, leaves unemployment alone and is unpopular |
| Policies.Infrastructure | usa/models.py:633-641 | titled Infrastructure; it costs money, raises growth, lowers unemployment and is popular |
| Policies.DisasterRelief | usa/models.py:751-759 | titled Disaster Relief; it costs money, raises growth, lowers unemployment and is popular |
| Policies.StateJobsProgram | usa/models.py:681-689 | titled State Jobs Program; it costs money, raises growth, lowers unemployment and is popular |
| Policies.StateSpendingFreeze | usa/models.py:691-699 | titled State Spending Freeze; it saves money, lowers growth and inflation and is popular |
| Policies.BudgetBalanceAct | usa/models.py:701-709 | titled Budget Balance Act; it saves money, lowers growth, raises unemployment and is unpopular |
| Policies.StateInfrastructure | usa/models.py:712-720 | titled State Infrastructure; it costs money, raises growth, lowers unemployment and is popular |
| Policies.StateProposal | usa/models.py:679-707 | a jobs programme above 6.5% unemployment, else a spending freeze above 5% inflation, else a balance act for a deficit above 5, else nothing dictated |
| Policies.NationalPassProbability | usa/models.py:777-782 | the federal passage probability lies in [0.05, 0.95] |
| Policies.NationalPassMonotone | usa/models.py:777-782 | a more popular policy is never less likely to pass |
| Policies.CourtOnlyWeighsInflationary | usa/models.py:780 | the court's lean matters only for policies raising inflation by more than 0.7 |
| Policies.StatePassProbability | usa/models.py:649-654 | the state passage probability lies in [0.05, 0.95] |
| Policies.StatePassMonotoneInApproval | usa/models.py:652-654 | higher governor approval never lowers the chance of passage |
| Policies.StatePassFavoursControl | usa/models.py:650-654 | a policy sponsored by the governing party is at least as likely to pass as one sponsored by a party controlling nothing |
| Elections.ComputeCohortScore | usa/models.py:555-562 | the cohort loop computes the turnout-weighted lean score |
| Elections.ContributionBound | usa/models.py:557-562 | one cohort's contribution is bounded by its share |
| Elections.CohortScoreBound | usa/models.py:555-562 | the cohort score lies between minus and plus the total share |
| Elections.CohortScoreSign | usa/models.py:555-562 | the partisan score `CohortScore` of an all-Independent electorate is 0; all-Democratic cohorts score at least 0 and all-Republican ones at most 0 |
| Elections.NationalSignalDem | usa/models.py:543-546 | a healthy economy (growth at least 0.2·inflation + 0.3·unemployment) and approval of at least 50 favour the Democrats; the reverse favours the Republicans; with a neutral economy the sign follows approval above 50 |
| Elections.StateSignalDem | usa/models.py:548-551 | approvals at their baselines 50 and 40 give no signal; approvals at or above them favour the Democrats when both offices are Democratic and the Republicans when neither is |
| Elections.StateSignalFollowsGovernor | usa/models.py:548-551 | higher governor approval helps the Democrats exactly when the governor is a Democrat |
| Elections.DistrictDemProbability | usa/models.py:553-574 | the district probability lies in [0.05, 0.95] |
| Elections.DistrictSwingMonotone | usa/models.py:563 | more Democratic swing never lowers the Democratic probability |
| Elections.DistrictIncumbencyOrder | usa/models.py:565-568 | a Democratic incumbent gives at least the probability a Republican one does |
| Elections.StatewideDemProbability | usa/models.py:576-590 | the statewide probability lies in [0.05, 0.95] |
| Elections.SeatWinner | usa/models.py:820 | the winner is the Democrat exactly when the draw is below the probability, and never Independent |
| Elections.DistrictRaceWinner | usa/models.py:819-820 | a district race goes to the Democrat exactly when the win draw is below the district probability, and never to an Independent |
| Elections.ChamberControl | usa/models.py:826 | control is Democratic exactly when Democratic seats are at least Republican seats, so a tie goes to the Democrats |
| Elections.CountSeats | usa/models.py:841-845 | a seat count never exceeds the number of seats |
| Elections.CountIncumbents | usa/models.py:822-825 | an incumbent count never exceeds the number of districts |
| Elections.CountHouse | usa/models.py:815-825 | the counting loop yields the Democratic and Republican incumbent counts, which together cover every district |
| Elections.CountSenate | usa/models.py:841-845 | the counting loop yields the Democratic and Republican seat counts; Independents are counted by neither |
| Elections.MajorPartyCountsCover | usa/models.py:822-825 | when no district is held by an Independent, the two counts add up to the number of districts |
| Elections.CountIncumbentsOnlyIncumbents | usa/models.py:822-825 | the count depends only on who holds each district |
| Elections.ReelectedKeepsBounds | usa/models.py:821 | a House election changes only incumbents, so swing and turnout bias stay in range |
| Elections.Election.Run | usa/models.py:361-380 | the presidential probability lies in [0.05, 0.95]; the winner is the Democrat exactly when the draw is below it, and never Independent |
| Elections.Rescaled | usa/models.py:531-533 | dividing shares by the total keeps every cohort and only rescales its share |
| Elections.RescaledSum | usa/models.py:531-533 | the rescaled shares sum to the old sum over the total |
| Elections.NormalizedSumsToOne | usa/models.py:531-533 | normalised cohort shares sum to exactly 1 |
| Elections.SumSharesPositive | usa/models.py:527-531 | shares clamped to at least 0.05 have a positive total, so normalising never divides by zero |
| Elections.ApprovalsAfterResults | usa/models.py:592-606 | nothing moves when neither chamber changed hands; congressional approval moves only on a House change; changed approvals stay in [0, 100] |
| Elections.AlignmentDirection | usa/models.py:592-606 | flips toward the President's party never lower an approval; flips away from it never raise one |
| Simulation.NextMonth | usa/models.py:930-933 | the next month stays in 1..12 and is exactly one month later, rolling December into January of the next year |
| Simulation.AdvanceMonths | usa/models.py:880-933 | after n ticks the month is in 1..12 and exactly n months have passed |
| Simulation.HouseSeatsOfLists | usa/models.py:817-825 | the national House count equals the count over the per-state district lists |
| Simulation.SenateSeatsOfLists | usa/models.py:833-845 | the national Senate count equals the count over the per-state seat lists |
| Simulation.CampaignPush | usa/models.py:727 | the campaign push favours the Democrats exactly under a Democratic governor |
| Simulation.Campaigned | usa/models.py:729-730 | campaigning changes only swing and turnout bias, which end in [-0.2, 0.2] and [-0.1, 0.1] |
| Simulation.Reverted | usa/models.py:916-919 | monthly reversion ends in [0, 100] and, from inside the range, moves toward the target without passing it |
| Simulation.Opposition | usa/models.py:768 | the opposing party is a major party other than the President's |
| Simulation.ReactionTo | usa/models.py:746-770 | relief is proposed exactly when the last recent event is a hurricane; the scandal campaign exactly when it is a scandal |
| Simulation.StrategyShifts | usa/models.py:737-742 | the Democrats gain exactly when growth is at least the 0.2·inflation + 0.3·unemployment penalty; with a deficit and growth at most 0.02 above the penalty the Republicans gain; with a surplus and growth at least 0.02 above it they lose |
| Simulation.StrategyShiftsDirection | usa/models.py:737-742 | more growth, less inflation, less unemployment or less spending never lowers the Democrats' shift and never raises the Republicans' |
| Simulation.AllStatesBoundedEach | usa/models.py:891-904 | every state is in range exactly when each state is |
| Simulation.FindState | usa/models.py:763 | `states.get(name)` finds a state of that name, or reports that none has it |
| Simulation.OthersDiffer | usa/models.py:496 | with distinct names, no two positions hold the same state |
| Simulation.DistrictIdsDistinct | usa/models.py:535 | two different district numbers of one state give different district identifiers |
| Simulation.DistrictIdParts | usa/models.py:535 | the identifier `DistrictId` is the state name, a dash, and a digit string whose value is the district number i + 1 |
| Simulation.Perturbed | usa/models.py:527-530 | each cohort's share, moved by its own draw, ends in [0.05, 0.9]; there is one result per cohort |
| Simulation.DrawnDistrict | usa/models.py:524-536 | the district carries the given id and no incumbent; its swing and turnout bias are the draws at p and p + 1, scaled; it has one cohort per given cohort (the shares, one draw each from p + 2, are given by `DrawnDistrictFresh` and `Perturbed`) |
| Simulation.DrawnDistrictFresh | usa/models.py:524-535 | a drawn district is unheld, its swing is in [-0.04, 0.04] and its bias in [-0.03, 0.03], and its cohorts keep name, lean and turnout with positive shares summing to 1 |
| Simulation.BuiltDistricts | usa/models.py:521-535 | a state's build yields 6 districts, the i-th drawn after the draws of the ones before it |
| Simulation.BuiltDistrictsFresh | usa/models.py:521-535 | every built district is fresh under its own identifier, and no two built districts share an identifier |
| Simulation.SeatsAfterRaces | usa/models.py:834-840 | seats whose class is the cycle are contested and go to a major party; every other seat keeps its holder |
| Simulation.SeatRace | usa/models.py:836-839 | a statewide race is never won by an Independent |
| Simulation.InitialSeats | usa/models.py:537-538 | the set-up gives exactly two seats, and two existing seats are kept |
| Simulation.PushRecent | usa/models.py:873-875 | below 12 entries the key is appended; at 12 or more the key is appended and the oldest entry dropped |
| Simulation.TickedEconomy | usa/models.py:891-896 | one state's tick ends with unemployment in [2.5, 20] and inflation in [0, 20], and revenue equal to the tax rate times the new GDP |
| Simulation.TickedKeepsGdpSign | usa/models.py:227 | a tick keeps a positive GDP positive |
| Simulation.TickedStatesInRange | usa/models.py:891-896 | states whose figures are ticks have their rates in range, revenue at their tax rate, and GDP positive where it was |
| Simulation.DictatedProposal | usa/models.py:679-709 | no proposal exactly when unemployment is at most 6.5, inflation at most 5 and the deficit at most 5; otherwise the jobs programme, spending freeze or balance act, in that order of precedence, with the governor, House or Senate party as sponsor |
| Simulation.UnitedStates.constructor | usa/models.py:490-508 | the root starts with the given collaborators and figures, growth 0.02, unemployment 5.5, inflation 2.5, and empty log and recent events |
| Simulation.UnitedStates.LogEvent | usa/models.py:510-511 | logging appends one entry stamped with the current year and month |
| Simulation.UnitedStates.PerturbCohorts | usa/models.py:527-530 | the loop returns `Perturbed` of the cohorts at the starting position and consumes one draw per cohort |
| Simulation.UnitedStates.DrawDistrict | usa/models.py:523-535 | the district is `DrawnDistrict` at the starting position, so fresh by `DrawnDistrictFresh`, and two draws plus one per cohort are consumed |
| Simulation.UnitedStates.InitSenateIfMissing | usa/models.py:537-541 | seats are kept when there are two, else both set to the legislature's Senate party; classes are kept without a draw when there are two, else they are `randrange(0, 6)` of the next two draws |
| Simulation.UnitedStates.BuildDistricts | usa/models.py:521-535 | the state's districts become `BuiltDistricts` at the starting position, and 6·(2 + the number of cohorts) draws are consumed |
| Simulation.UnitedStates.InitStateElectionsIfMissing | usa/models.py:514-541 | missing cohorts get the default three; missing districts become `BuiltDistricts`, fresh with distinct identifiers; the Senate classes are the two draws after those; present data is kept and an already-ready state consumes no draw, which makes the setup idempotent |
| Simulation.UnitedStates.DistrictDemProb | usa/models.py:553-574 | one draw, and the district formula over the current signals |
| Simulation.UnitedStates.StatewideDemProb | usa/models.py:576-590 | one draw, and the statewide formula over the current signals |
| Simulation.UnitedStates.HouseRace | usa/models.py:819-821 | one district's incumbent becomes the race winner; two draws are consumed |
| Simulation.UnitedStates.RunHouseRaces | usa/models.py:818-825 | every district of a state is re-elected from its own two draws; the counts match the new incumbents and cover every district |
| Simulation.UnitedStates.SenateSeatRace | usa/models.py:835-839 | the seat becomes `SeatRace` against its holder at the current position; every other seat is kept |
| Simulation.UnitedStates.RunSenateRaces | usa/models.py:834-845 | the seats become `SeatsAfterRaces` at the starting position, two draws per contested seat; the counts match the seats afterwards |
| Simulation.UnitedStates.InitAllStates | usa/models.py:810-811 | every state becomes election-ready with `InitialSeats` as its Senate seats; district bounds are kept; when all are ready already nothing changes |
| Simulation.UnitedStates.HouseElections | usa/models.py:815-825 | every state's districts are re-elected; the national counts are returned |
| Simulation.UnitedStates.SenateElections | usa/models.py:830-845 | every state's seats follow the cycle rule; the national counts are returned |
| Simulation.UnitedStates.UpdateApprovalsAfterCongressResults | usa/models.py:592-606 | the approvals become `ApprovalsAfterResults` of the previous control and the new Congress |
| Simulation.UnitedStates.ElectHouse | usa/models.py:814-827 | every district is re-elected, only its incumbent changing; House control goes to `ChamberControl` of the national counts; the House result line is appended to the log |
| Simulation.UnitedStates.ElectSenate | usa/models.py:830-848 | each state's seats follow the cycle rule; House control is kept; Senate control and the Senate line change only when some seat is held by a major party, control then following `ChamberControl` of the counts |
| Simulation.UnitedStates.MaybeElectHouse | usa/models.py:814-827 | in even years every district is re-elected, House control follows the national seats and the House line is logged; in odd years districts, control, log and draws are untouched; Senate control is kept |
| Simulation.UnitedStates.ElectPresident | usa/models.py:851-854 | the President's party becomes the winner of `Election.run` on the next two draws, never Independent, and one line is logged |
| Simulation.UnitedStates.ElectChambers | usa/models.py:813-848 | House control is kept in odd years and is `ChamberControl` of the national House seats in even years; Senate control is `ChamberControl` of the Senate seats whenever a major party holds any; districts are re-elected in even years and untouched in odd ones; each state's seats follow the cycle rule of `year % 6`; the log gains exactly the House line (even years) and the Senate line (a major party holds a seat) |
| Simulation.UnitedStates.ElectCongress | usa/models.py:809-848 | `CongressElected`: the chamber results of `ElectChambers`; districts that existed before are re-elected in even years and untouched in odd ones; each state's seats follow the cycle rule from their `InitialSeats`; the log gains the chamber result lines |
| Simulation.UnitedStates.PresidentAndApprovals | usa/models.py:850-857 | the President changes only when `year % 4 == 0`, to the `Election.run` winner on the next two draws, and the presidential line is then logged; the chamber results, districts and seats stay as elected; the approvals are adjusted for the chamber results |
| Simulation.UnitedStates.RunElections | usa/models.py:805-857 | `CongressElected` against the state before the elections; when `year % 4 == 0` the President's party is the `Election.run` winner on the last two draws, else the President is kept; the log gains the chamber lines then the presidential line; approvals adjusted against the previous control |
| Simulation.UnitedStates.MaybeRunElections | usa/models.py:801-857 | outside November nothing changes and no draw is consumed; in November `CongressElected`, the presidential result, the result lines and the approval adjustment of `RunElections` hold |
| Simulation.UnitedStates.ShiftIssue | usa/models.py:790 | issue support moves by one uniform draw through `update_issue`, keeping support in range |
| Simulation.UnitedStates.EnactPolicy | usa/models.py:785-793 | growth grows by exactly the effect; unemployment and inflation are clamped to [2.5, 20] and [0, 20]; the budget is charged; the President gains 1 for their own party's policy |
| Simulation.UnitedStates.AttemptPassPolicy | usa/models.py:773-798 | passes exactly when the draw is below the clamped probability; on a pass every effect applies; on a failure nothing but one log line changes |
| Simulation.UnitedStates.EnactStatePolicy | usa/models.py:657-667 | state GDP scales by the growth effect; the rates are clamped; a cost is spent or a saving banked; approvals are nudged |
| Simulation.UnitedStates.AttemptPassStatePolicy | usa/models.py:645-674 | passes exactly when the draw is below the clamped state probability; on a pass the local effects and issue shift apply; on a failure the state is unchanged and one line is logged |
| Simulation.UnitedStates.AiConsiderPolicy | usa/models.py:608-642 | with probability 0.6 (draw below 0.6) the federal proposal of the decision tree, otherwise none |
| Simulation.UnitedStates.StateTurnProposal | usa/models.py:679-720 | a dictated proposal uses no draw; otherwise one draw below 0.35 yields state infrastructure |
| Simulation.UnitedStates.CampaignDistricts | usa/models.py:728-730 | every district is campaigned from its own two draws and ends in range |
| Simulation.UnitedStates.Campaign | usa/models.py:725-733 | a draw of 0.3 or more changes nothing; below it every district is campaigned and both approvals are nudged, all within range |
| Simulation.UnitedStates.AiStateTurn | usa/models.py:677-733 | no incumbent changes; a dictated proposal logs one line; state bounds and issue bounds are preserved |
| Simulation.UnitedStates.AiPartyNationalStrategy | usa/models.py:736-742 | the Democrats and Republicans move by `StrategyShifts`, clamped; other parties are untouched; approvals stay in [0, 100] |
| Simulation.UnitedStates.StateTurnIfPresent | usa/models.py:762-765 | a missing state consumes nothing; bounds are preserved |
| Simulation.UnitedStates.ReactToHurricane | usa/models.py:749-765 | the relief package is put to a vote (a log line is added); national bounds are preserved |
| Simulation.UnitedStates.AiReactToEvents | usa/models.py:744-770 | only a hurricane touches the economy and states; a scandal raises the opposition's approval by 1, clamped; other parties are untouched; bounds are preserved |
| Simulation.UnitedStates.TriggerEvent | usa/models.py:860-876 | None exactly for an empty catalog, with nothing changed; otherwise the picked event's clamped effects, benefit, log line and history push apply |
| Simulation.UnitedStates.ApplyEvent | usa/models.py:864-870 | the event's deltas apply with the clamps; only the benefiting party gains 1 |
| Simulation.UnitedStates.RecordEvent | usa/models.py:871-875 | one log line is appended and the key is pushed onto the bounded history |
| Simulation.UnitedStates.MacroDrift | usa/models.py:882-888 | three draws drift the macro rates, clamped to [-0.05, 0.06], [0, 10] and [2.5, 20]; no state's figures change |
| Simulation.UnitedStates.StateEconomy | usa/models.py:892-896 | `advance_economy`, then revenue is the tax rate times GDP and spending reverts toward it with noise |
| Simulation.UnitedStates.StateEconomyAt | usa/models.py:891-896 | the state's figures become `TickedEconomy` of its old figures on the next four draws, so its rates are in range and revenue tracks GDP; positive GDP stays positive; every other state's GDP, rates, revenue and spending are unchanged |
| Simulation.UnitedStates.StateEconomies | usa/models.py:891-896 | state j's figures become `TickedEconomy` of its old figures on draws from `old(rng.pos) + 4j`; every state's rates end in range, revenue tracks GDP, and positive GDP stays positive |
| Simulation.UnitedStates.PolicyStep | usa/models.py:899-901 | a considered policy is attempted; national and issue bounds are preserved |
| Simulation.UnitedStates.StateTurns | usa/models.py:903-904 | every state takes its AI turn; incumbents are unchanged and bounds are preserved |
| Simulation.UnitedStates.EventStep | usa/models.py:907-910 | a draw of 0.35 or more fires no event and logs nothing |
| Simulation.UnitedStates.RevertApprovals | usa/models.py:916-919 | both approvals revert 5% toward 50 and 40, clamped |
| Simulation.UnitedStates.PartyStrategyStep | usa/models.py:922-923 | one draw; below 0.5 the Democrats and Republicans move by `StrategyShifts`, clamped, and other parties are untouched; at 0.5 or more the parties are left alone; party approvals stay in range |
| Simulation.UnitedStates.CollectRevenue | usa/models.py:926-927 | federal revenue becomes the tax rate times the total state GDP |
| Simulation.UnitedStates.CloseTurn | usa/models.py:915-933 | approvals revert toward 50 and 40; on a draw below 0.5 the two major parties move by `StrategyShifts` of the budget before collection, else parties are untouched; revenue tracks GDP and the calendar advances one month; states are untouched |
| Simulation.UnitedStates.EconomyPhase | usa/models.py:882-896 | the macro rates are drifted on the first three draws; then each state is ticked (`StatesTicked`) from the fourth draw under the new growth and inflation; national and state rates end in range and positive GDP stays positive |
| Simulation.UnitedStates.PolicyPhase | usa/models.py:899-910 | the policy, state and event steps keep national unemployment and inflation in range |
| Simulation.UnitedStates.OpenTurn | usa/models.py:882-910 | the first half of a tick ends with national rates in range |
| Simulation.UnitedStates.FinishTurn | usa/models.py:913-933 | elections and closing steps advance the calendar and leave approvals in [0, 100] |
| Simulation.UnitedStates.Tick | usa/models.py:881-933 | one month passes; national unemployment is in [2.5, 20], inflation in [0, 20], both approvals in [0, 100]; federal revenue tracks GDP |
| Simulation.UnitedStates.AdvanceTurn | usa/models.py:879-933 | `advance_turn(n)` moves the calendar exactly n months (none for n ≤ 0); after at least one tick the national bounds hold |
| Config.Lookup | usa/config.py:40 | `data.get(name, default)` is the given value when present and the default otherwise |
| Config.FirstMissing | usa/config.py:36-39 | the first required field, in argument order, that the data lacks; none exactly when all are present |
| Config.EventFromDict | usa/config.py:35-44 | succeeds exactly when key, name and description are present; a missing key is reported first; required fields are copied; weight, triggers, effects and consequences are each the given value when present and 1.0, an empty object, an empty object or an empty list when absent |
| Config.EventRoundTrip | usa/config.py:35-44 | a record written out in full is read back unchanged |
| Config.EventDefaults | usa/config.py:40-43 | with only required fields the weight is 1.0, triggers and effects are empty objects and consequences an empty list |
| Config.EventIgnoresUnknownFields | usa/config.py:35-44 | fields the record does not know do not affect it |
| Config.PolicyFromDict | usa/config.py:61-72 | succeeds exactly when key, title and description are present; a missing key is reported first; required fields are copied; cost, effects, popularity, level, requirements and consequences are each the given value when present and 0.0, an empty object, 50.0, "federal", an empty object or an empty list when absent |
| Config.PolicyRoundTrip | usa/config.py:61-72 | a record written out in full is read back unchanged |
| Config.PolicyDefaults | usa/config.py:66-71 | with only required fields the cost is 0.0, popularity 50.0, level "federal", and effects, requirements and consequences are empty |
| Config.EventFromJson | usa/config.py:96 | an entry that is not an object fails; an object is built by `from_dict` |
| Config.PolicyFromJson | usa/config.py:106 | an entry that is not an object fails; an object is built by `from_dict` |
| Config.Entries | usa/config.py:95 | `data.get("events", [])` needs an object document; an absent list walks over nothing; a list walks over its items |
| Config.InsertAll | usa/config.py:95-97 | inserting entries only appends keys, keeping the keys already stored in their order, and adds at most one key per entry |
| Config.LoadFrom | usa/config.py:89-107 | an absent file loads nothing; a document that is not an object is reported as such; a load never drops or reorders a stored key |
| Config.InsertAllFiled | usa/config.py:95-97 | loading keeps the store well formed with every record filed under its own key, even when the walk stops early |
| Config.InsertAllNoError | usa/config.py:95-97 | a load without an error parsed every entry and met only hashable keys |
| Config.InsertAllKeepsOthers | usa/config.py:95-97 | a key no entry carries keeps its previous record |
| Config.InsertAllLastWins | usa/config.py:95-97 | after a load without an error, each entry whose key no later entry repeats is the record filed under that key, so a later duplicate overwrites an earlier one |
| Config.FilterLevel | usa/config.py:127 | the filter keeps exactly the policies whose level is the given string |
| Config.FilterLevelAppend | usa/config.py:127 | filtering a concatenation filters each part in turn, so stored order is kept |
| Config.ConfigLoader.constructor | usa/config.py:78-81 | a new loader has the directory and empty stores |
| Config.ConfigLoader.LoadEvents | usa/config.py:89-97 | the loop leaves the store and error that `LoadFrom` specifies: nothing for an absent file, else each entry inserted in order until the first error |
| Config.ConfigLoader.LoadPolicies | usa/config.py:99-107 | the same for the policies list |
| Config.ConfigLoader.LoadConfigurations | usa/config.py:84-87 | events are loaded first; an error there leaves the policies unread |
| Config.ConfigLoader.GetEvent | usa/config.py:109-111 | None exactly for an unregistered key; otherwise the stored record, whose own key is the one asked for |
| Config.ConfigLoader.GetPolicy | usa/config.py:113-115 | None exactly for an unregistered key; otherwise the stored record, whose own key is the one asked for |
| Config.ConfigLoader.AllEvents | usa/config.py:117-119 | one record per stored key, in stored order: the i-th is the record stored under the i-th key, and carries that key |
| Config.ConfigLoader.AllPolicies | usa/config.py:121-123 | one record per stored key, in stored order: the i-th is the record stored under the i-th key, and carries that key |
| Config.ConfigLoader.PoliciesByLevel | usa/config.py:125-127 | exactly the stored policies whose level equals the argument |

## Left out

- **User interfaces and entry points are not part of this model.** This
  covers `main_menu.py`, `cli.py`, `usa/main.py` and the demo scripts, which
  are I/O.
- **File access in `ConfigLoader` is a parameter.** `os.path.exists`,
  `open` and `json.load` become an `Option<Json>` document, with None for an
  absent file. Malformed JSON text is not modelled.
- **Random numbers are an abstract stream of draws in [0, 1).**
  - `uniform(a, b)` is `a + (b - a)·u`, one draw, as in CPython.
  - `randrange(n)` is `floor(n·u)`. CPython uses rejection sampling on
    random bits, so the model fixes only its range and its single step.
  - Seeding, `getstate`/`setstate` and bit-exact replay are not modelled.
- **Floats are `real`.** Rounding is not modelled, and no result claims to
  be bit-identical.
- **Serialisation is not modelled.** This covers every `to_dict`/`from_dict`
  of the engine's records, `snapshot` and `new_default`.
- **Log strings are data.** Each entry is `LogEntry(year, month, Message)`;
  the f-string text and its zero-padded month are not modelled.
- **States are a sequence with distinct names.** `states: Dict[str, State]`
  becomes that sequence, whose order is the dict's iteration order.
  `parties` is a map, because its order is never observed.
- Simulation.UnitedStates.constructor: requires three things the dataclass
  does not check.
  - Both major parties are present. A root built without the Democrats or
    the Republicans raises `KeyError` in the national strategy
    (usa/models.py:741-742) and in the scandal reaction (usa/models.py:769).
    The model keeps that error path out instead of modelling it.
  - Each party is filed under its own identifier, `parties[p].name == p`.
  - The event manager shares the simulation's generator. Both factories
    build it that way (usa/models.py:1021, 1123), and the model's draw
    positions depend on the single shared stream.
- **Chained events are not modelled.** `pending_events` and
  `process_event_consequences` exist in no engine file.
- **JSON objects in configuration records are maps.** Their key order is
  not kept.
- **JSON numbers and booleans collide as Python dict keys.** In Python
  `True == 1 == 1.0`, so such keys share a slot. The model keeps them
  apart.
- Simulation.UnitedStates.Tick: states only the end-of-tick bounds the code
  guarantees (unemployment in [2.5, 20], inflation in [0, 20], approvals in
  [0, 100]), revenue tracking GDP and the calendar step. The full new state
  is stated by the sub-steps it calls.
- Simulation.UnitedStates.AdvanceTurn: the same as `Tick`, for n months.
- Simulation.UnitedStates.OpenTurn: states only the national-rate bounds.
  The sub-step contracts state the rest.
- Simulation.UnitedStates.FinishTurn: states the calendar, approval and
  revenue facts only.
- Simulation.UnitedStates.PolicyPhase: states only that national rate
  bounds are preserved.
- Simulation.UnitedStates.PolicyStep: states only preserved bounds. Its
  parts are `AiConsiderPolicy` and `AttemptPassPolicy`.
- Simulation.UnitedStates.StateTurns: states unchanged incumbents and
  preserved bounds, not each state's new values.
- Simulation.UnitedStates.EventStep: states the no-event case and preserved
  bounds, not the event's effects. Those are stated by `TriggerEvent` and
  `AiReactToEvents`.
- Simulation.UnitedStates.AiStateTurn: states unchanged incumbents, the
  log growth and preserved bounds. The exact effects are stated by
  `StateTurnProposal`, `AttemptPassStatePolicy` and `Campaign`.
- Simulation.UnitedStates.StateTurnIfPresent: states only the missing-state
  case and preserved bounds.
- Simulation.UnitedStates.ReactToHurricane: states the added log line and
  the national bounds, not the vote's effects. Those are stated by
  `AttemptPassPolicy`.
- Simulation.UnitedStates.AiReactToEvents: in the hurricane case, states
  only bounds and the log.
- Simulation.UnitedStates.HouseElections: states that each state's
  districts are re-elected and the national counts, not the draw position of
  each state's races. `RunHouseRaces` states those per state.
- Simulation.UnitedStates.SenateElections: states each state's cycle rule
  and the national counts, not the draw position of each state's races.
  `RunSenateRaces` states those per state.
- Simulation.UnitedStates.InitAllStates: states readiness and the Senate
  seats, not the draw positions of the districts and classes built.
  `InitStateElectionsIfMissing` states those per state.
- Simulation.UnitedStates.ElectCongress: states the chamber controls, each
  state's cycle rule and that existing districts are re-elected, not which
  House district went to whom. Those are stated by `RunHouseRaces` per state.

## Notes on the source

- **Senate control follows the code.** It is recomputed, with a log line,
  whenever any Senate seat nationwide is held by a Democrat or a
  Republican: `if dem_total or rep_total` at usa/models.py:846. It is not
  tied to whether any seat was contested. A year in which no class is up
  therefore still recomputes control from the standing seats.
- **The seat-counting loops count in two passes.**
  - The House loop at usa/models.py:817-825 counts while it elects. The
    model elects each state's districts first and then counts them. The
    totals are the same, because each district is counted once, after its
    own race.
  - The Senate loop at usa/models.py:833-845 does the same per state.
- **`ai_state_turn` always attempts a proposed policy.** `if pol:` at
  usa/models.py:721 is always true for a `Policy` instance.
