/** The top-level game state (`UnitedStates`): the national economy and
    government, the states, the event catalog and the random stream, with the
    monthly turn loop, the AI hooks, the policy process and the elections. */
module Simulation {
  import opened Basics
  import opened Draws
  import opened Entities
  import opened Events
  import opened Elections
  import opened Policies

  /** Months since January of year 0. */
  function MonthIndex(year: int, month: int): int
  {
    year * 12 + month - 1
  }

  /** The calendar step that ends a turn: the month rolls over to January of
      the next year after December. */
  function NextMonth(year: int, month: int): (r: (int, int))
    ensures 1 <= month <= 12 ==> 1 <= r.1 <= 12 && MonthIndex(r.0, r.1) == MonthIndex(year, month) + 1
  {
    if month + 1 > 12 then (year + 1, 1) else (year, month + 1)
  }

  /** The calendar after `n` turns: exactly `n` months forward, the month
      kept in 1 .. 12. */
  function AdvanceMonths(year: int, month: int, n: nat): (r: (int, int))
    ensures 1 <= month <= 12 ==> 1 <= r.1 <= 12 && MonthIndex(r.0, r.1) == MonthIndex(year, month) + n
  {
    if n == 0 then (year, month)
    else
      var (y, m) := AdvanceMonths(year, month, n - 1);
      NextMonth(y, m)
  }

  /** What a log line reports; each line is stamped with the year and month. */
  datatype Message =
    | PolicyPassed(title: string)
    | PolicyFailed(title: string)
    | StatePolicyPassed(stateName: string, title: string)
    | StatePolicyFailed(stateName: string, title: string)
    | HouseResults(dem: nat, rep: nat)
    | SenateResults(dem: nat, rep: nat)
    | PresidentialResult(winner: PartyID)
    | EventOccurred(description: string)

  datatype LogEntry = LogEntry(year: int, month: int, message: Message)

  /** The cohorts a state without any is given before its first election. */
  const DefaultCohorts: seq<VoterCohort> := [
    VoterCohort("Urban Dem", 0.4, Democrat, 0.62),
    VoterCohort("Suburban Rep", 0.4, Republican, 0.61),
    VoterCohort("Independent", 0.2, Independent, 0.48)
  ]

  /** The identifier of a state's `i`-th district, numbered from 1. */
  function DistrictId(stateName: string, i: nat): string
  {
    stateName + "-" + NatToString(i + 1)
  }

  /** The identifier reads as the state name, a dash, and digits whose value
      is the district number. */
  lemma DistrictIdParts(stateName: string, i: nat)
    ensures var r := DistrictId(stateName, i);
            && |r| > |stateName| + 1 && r[..|stateName|] == stateName && r[|stateName|] == '-'
            && (forall k :: |stateName| < k < |r| ==> '0' <= r[k] <= '9')
            && DigitsValue(r[|stateName| + 1..]) == i + 1
  {
    NatToStringValue(i + 1);
    assert DistrictId(stateName, i)[|stateName| + 1..] == NatToString(i + 1);
  }

  /** A state's districts have distinct identifiers. */
  lemma DistrictIdsDistinct(stateName: string, i: nat, j: nat)
    requires i != j
    ensures DistrictId(stateName, i) != DistrictId(stateName, j)
  {
    NatToStringInjective(i + 1, j + 1);
    assert DistrictId(stateName, i)[|stateName| + 1..] == NatToString(i + 1);
    assert DistrictId(stateName, j)[|stateName| + 1..] == NatToString(j + 1);
  }

  /** A freshly drawn district: unheld, small swing and turnout bias, and the
      state's cohorts with perturbed shares that are positive and sum to 1. */
  ghost predicate FreshDistrict(d: District, id: string, cohorts: seq<VoterCohort>)
  {
    && d.id == id && d.incumbent == Independent
    && -0.04 <= d.swing <= 0.04 && -0.03 <= d.turnoutBias <= 0.03
    && |d.cohorts| == |cohorts|
    && (forall k :: 0 <= k < |cohorts| ==>
          && d.cohorts[k].name == cohorts[k].name && d.cohorts[k].lean == cohorts[k].lean
          && d.cohorts[k].turnout == cohorts[k].turnout && d.cohorts[k].share > 0.0)
    && SumShares(d.cohorts) == 1.0
  }

  /** The cohorts of a new district: each share moved by its own draw in
      [-0.05, 0.05], the k-th taken at position p + k, and clamped to
      [0.05, 0.9]. */
  function Perturbed(stream: nat -> Unit, p: nat, cs: seq<VoterCohort>): (r: seq<VoterCohort>)
    ensures |r| == |cs|
    ensures forall k :: 0 <= k < |cs| ==> 0.05 <= r[k].share <= 0.9
  {
    seq(|cs|, k requires 0 <= k < |cs| =>
      cs[k].(share := Clamp(0.05, 0.9, cs[k].share + Scale(-0.05, 0.05, stream(p + k)))))
  }

  /** Shares of at least 0.05 divided by their total, which is positive. */
  function Normalised(cs: seq<VoterCohort>): seq<VoterCohort>
    requires |cs| > 0 && forall k :: 0 <= k < |cs| ==> cs[k].share >= 0.05
  {
    SumSharesPositive(cs);
    Rescaled(cs, SumShares(cs))
  }

  /** The district drawn from position p of the stream: the swing draw, the
      turnout-bias draw, then one draw per cohort, the perturbed shares
      divided by their total. */
  function DrawnDistrict(stream: nat -> Unit, p: nat, id: string, cs: seq<VoterCohort>): (d: District)
    requires |cs| > 0
    ensures d.id == id && d.incumbent == Independent
    ensures d.swing == Scale(-0.04, 0.04, stream(p)) && d.turnoutBias == Scale(-0.03, 0.03, stream(p + 1))
    ensures |d.cohorts| == |cs|
  {
    District(id, Normalised(Perturbed(stream, p + 2, cs)), Independent,
             Scale(-0.03, 0.03, stream(p + 1)), Scale(-0.04, 0.04, stream(p)))
  }

  /** A drawn district is fresh: unheld, with small swing and turnout bias,
      and positive cohort shares that sum to 1. */
  lemma DrawnDistrictFresh(stream: nat -> Unit, p: nat, id: string, cs: seq<VoterCohort>)
    requires |cs| > 0
    ensures FreshDistrict(DrawnDistrict(stream, p, id, cs), id, cs)
  {
    var perturbed := Perturbed(stream, p + 2, cs);
    SumSharesPositive(perturbed);
    var total := SumShares(perturbed);
    NormalizedSumsToOne(perturbed);
    var normalised := Rescaled(perturbed, total);
    forall k | 0 <= k < |normalised|
      ensures normalised[k].share > 0.0
    {
      PositiveRatio(perturbed[k].share, total);
    }
  }

  /** The six districts of a state, drawn in order from position p: the i-th
      starts after the 2 + |cs| draws of each district before it. */
  function BuiltDistricts(stream: nat -> Unit, p: nat, stateName: string, cs: seq<VoterCohort>): (ds: seq<District>)
    requires |cs| > 0
    ensures |ds| == 6
  {
    seq(6, i requires 0 <= i < 6 => DrawnDistrict(stream, p + DrawsBefore(i, 2 + |cs|), DistrictId(stateName, i), cs))
  }

  /** The draws taken by the first i districts, each taking w. */
  function DrawsBefore(i: nat, w: nat): nat
  {
    if i == 0 then 0 else DrawsBefore(i - 1, w) + w
  }

  lemma {:induction false} DrawsBeforeProduct(i: nat, w: nat)
    ensures DrawsBefore(i, w) == i * w
  {
    if i > 0 {
      DrawsBeforeProduct(i - 1, w);
    }
  }

  /** The built districts are fresh and their identifiers are distinct. */
  lemma BuiltDistrictsFresh(stream: nat -> Unit, p: nat, stateName: string, cs: seq<VoterCohort>)
    requires |cs| > 0
    ensures forall i :: 0 <= i < 6 ==>
              FreshDistrict(BuiltDistricts(stream, p, stateName, cs)[i], DistrictId(stateName, i), cs)
    ensures forall i, j :: 0 <= i < j < 6 ==>
              BuiltDistricts(stream, p, stateName, cs)[i].id != BuiltDistricts(stream, p, stateName, cs)[j].id
  {
    var ds := BuiltDistricts(stream, p, stateName, cs);
    forall i | 0 <= i < 6
      ensures FreshDistrict(ds[i], DistrictId(stateName, i), cs)
    {
      DrawnDistrictFresh(stream, p + DrawsBefore(i, 2 + |cs|), DistrictId(stateName, i), cs);
    }
    forall i, j | 0 <= i < j < 6
      ensures ds[i].id != ds[j].id
    {
      DistrictIdsDistinct(stateName, i, j);
    }
  }

  /** The Senate seats after one state's races: a seat whose class is the
      cycle goes to the winner of the statewide race against its holder,
      drawn at its own position of the stream; any other seat keeps its
      holder. */
  function SeatsAfterRaces(before: seq<PartyID>, classes: seq<int>, cycle: int, score: real, national: real,
                           stateSignal: real, stream: nat -> Unit, p: nat): (after: seq<PartyID>)
    requires |classes| == |before|
    ensures SenateCycleResult(before, after, classes, cycle)
  {
    seq(|before|, j requires 0 <= j < |before| =>
      if classes[j] == cycle then SeatRace(score, before[j], national, stateSignal, stream, p + SeatDrawOffset(classes, cycle, j))
      else before[j])
  }

  /** The winner of a statewide race against `holder` whose noise draw is at
      position `at` of the stream and whose result draw follows it. */
  function SeatRace(score: real, holder: PartyID, national: real, stateSignal: real, stream: nat -> Unit, at: nat): (w: PartyID)
    ensures w != Independent
  {
    SeatWinner(StatewideDemProbability(score, holder, national, stateSignal, stream(at)), stream(at + 1))
  }

  /** A state's Senate seats after the lazy set-up: kept when there are
      exactly two, otherwise two seats held by the state senate's party. */
  function InitialSeats(seats: seq<PartyID>, senateParty: PartyID): (r: seq<PartyID>)
    ensures |r| == 2
    ensures |seats| == 2 ==> r == seats
  {
    if |seats| == 2 then seats else [senateParty, senateParty]
  }

  /** How far into the stream seat j's race draws: two draws for each
      contested seat before it. */
  function SeatDrawOffset(classes: seq<int>, cycle: int, j: nat): nat
    requires j <= |classes|
  {
    if j == 0 then 0 else SeatDrawOffset(classes, cycle, j - 1) + (if classes[j - 1] == cycle then 2 else 0)
  }

  /** The economic figures of one state that a tick changes. */
  datatype Economy = Economy(gdp: real, unemployment: real, inflation: real, revenue: real, spending: real)

  /** A state's economic figures. */
  function EconomyOf(st: State): Economy
    reads st`gdp, st`unemployment, st`inflation, st`budgetRevenue, st`budgetSpending
  {
    Economy(st.gdp, st.unemployment, st.inflation, st.budgetRevenue, st.budgetSpending)
  }

  /** One state's economic tick from position p of the stream:
      `advance_economy` on three draws, the revenue at the tax rate on the
      new GDP, and spending moved 20% of the way toward it plus a fourth
      draw in [-1, 1]. */
  function TickedEconomy(e: Economy, taxRate: real, growth: real, inflation: real, stream: nat -> Unit, p: nat): (r: Economy)
    ensures 2.5 <= r.unemployment <= 20.0 && 0.0 <= r.inflation <= 20.0
    ensures r.revenue == taxRate * r.gdp
  {
    var gdp := e.gdp * (1.0 + StateGdpGrowth(growth, stream(p)));
    var revenue := taxRate * gdp;
    Economy(gdp, StateNextUnemployment(e.unemployment, growth, stream(p + 1)), StateNextInflation(inflation, stream(p + 2)),
            revenue, e.spending + 0.2 * (revenue - e.spending) + Scale(-1.0, 1.0, stream(p + 3)))
  }

  /** A state's tick keeps its GDP positive: the growth factor is at least 0.9. */
  lemma TickedKeepsGdpSign(e: Economy, taxRate: real, growth: real, inflation: real, stream: nat -> Unit, p: nat)
    requires e.gdp > 0.0
    ensures TickedEconomy(e, taxRate, growth, inflation, stream, p).gdp > 0.0
  {
    GrowthKeepsSign(e.gdp, StateGdpGrowth(growth, stream(p)));
  }

  /** States whose figures are the ticks of `before` have their rates in
      range, revenue at their tax rate, and GDP positive where it was. */
  lemma TickedStatesInRange(ss: seq<State>, before: seq<Economy>, growth: real, inflation: real, stream: nat -> Unit, p: nat)
    requires |before| == |ss|
    requires forall j {:trigger before[j]} :: 0 <= j < |ss| ==>
               EconomyOf(ss[j]) == TickedEconomy(before[j], ss[j].taxRate, growth, inflation, stream, p + 4 * j)
    ensures forall j :: 0 <= j < |ss| ==> ss[j].EconBounded() && ss[j].RevenueTracksGdp()
    ensures forall j :: 0 <= j < |ss| && before[j].gdp > 0.0 ==> ss[j].gdp > 0.0
  {
    forall j | 0 <= j < |ss|
      ensures ss[j].EconBounded() && ss[j].RevenueTracksGdp()
      ensures before[j].gdp > 0.0 ==> ss[j].gdp > 0.0
    {
      var t := TickedEconomy(before[j], ss[j].taxRate, growth, inflation, stream, p + 4 * j);
      assert EconomyOf(ss[j]) == t;
      if before[j].gdp > 0.0 {
        TickedKeepsGdpSign(before[j], ss[j].taxRate, growth, inflation, stream, p + 4 * j);
      }
    }
  }

  /** Every state's economic figures, in state order. */
  function EconomiesOf(ss: seq<State>): (es: seq<Economy>)
    reads ss`gdp, ss`unemployment, ss`inflation, ss`budgetRevenue, ss`budgetSpending
    ensures |es| == |ss|
    ensures forall j {:trigger es[j]} :: 0 <= j < |ss| ==> es[j] == EconomyOf(ss[j])
  {
    if ss == [] then [] else EconomiesOf(ss[..|ss| - 1]) + [EconomyOf(ss[|ss| - 1])]
  }

  /** `_state_signal_dem`, read off a state. */
  function StateSignal(st: State): real
    reads st`approvalGovernor, st`approvalLegislature
  {
    StateSignalDem(st.approvalGovernor, st.approvalLegislature, st.governorParty, st.legislature.house)
  }

  /** House seats held by a party across the given states. */
  function HouseSeats(ss: seq<State>, p: PartyID): nat
    reads ss`houseDistricts
  {
    if ss == [] then 0 else HouseSeats(ss[..|ss| - 1], p) + CountIncumbents(ss[|ss| - 1].houseDistricts, p)
  }

  /** Every state's district list, in state order. */
  function DistrictLists(ss: seq<State>): (dss: seq<seq<District>>)
    reads ss`houseDistricts
    ensures |dss| == |ss|
    ensures forall j {:trigger dss[j]} :: 0 <= j < |ss| ==> dss[j] == ss[j].houseDistricts
  {
    if ss == [] then [] else DistrictLists(ss[..|ss| - 1]) + [ss[|ss| - 1].houseDistricts]
  }

  /** Every state's Senate seats, in state order. */
  function SeatLists(ss: seq<State>): (sss: seq<seq<PartyID>>)
    reads ss`senateSeats
    ensures |sss| == |ss|
    ensures forall j {:trigger sss[j]} :: 0 <= j < |ss| ==> sss[j] == ss[j].senateSeats
  {
    if ss == [] then [] else SeatLists(ss[..|ss| - 1]) + [ss[|ss| - 1].senateSeats]
  }

  /** Senate seats held by a party across the given states. */
  function SenateSeats(ss: seq<State>, p: PartyID): nat
    reads ss`senateSeats
  {
    if ss == [] then 0 else SenateSeats(ss[..|ss| - 1], p) + CountSeats(ss[|ss| - 1].senateSeats, p)
  }

  /** House seats held by a party in the given district lists. */
  function ListSeats(dss: seq<seq<District>>, p: PartyID): nat
  {
    if dss == [] then 0 else ListSeats(dss[..|dss| - 1], p) + CountIncumbents(dss[|dss| - 1], p)
  }

  /** Adding one state's districts adds its count. */
  lemma ListSeatsSnoc(dss: seq<seq<District>>, ds: seq<District>, p: PartyID)
    ensures ListSeats(dss + [ds], p) == ListSeats(dss, p) + CountIncumbents(ds, p)
  {
    assert (dss + [ds])[..|dss|] == dss;
  }

  lemma {:induction false} HouseSeatsOfLists(ss: seq<State>, dss: seq<seq<District>>, p: PartyID)
    requires |dss| == |ss| && forall j :: 0 <= j < |ss| ==> dss[j] == ss[j].houseDistricts
    ensures HouseSeats(ss, p) == ListSeats(dss, p)
  {
    if ss != [] {
      HouseSeatsOfLists(ss[..|ss| - 1], dss[..|dss| - 1], p);
    }
  }

  /** Senate seats held by a party in the given seat lists. */
  function ListSenateSeats(sss: seq<seq<PartyID>>, p: PartyID): nat
  {
    if sss == [] then 0 else ListSenateSeats(sss[..|sss| - 1], p) + CountSeats(sss[|sss| - 1], p)
  }

  /** Adding one state's seats adds its count. */
  lemma ListSenateSeatsSnoc(sss: seq<seq<PartyID>>, seats: seq<PartyID>, p: PartyID)
    ensures ListSenateSeats(sss + [seats], p) == ListSenateSeats(sss, p) + CountSeats(seats, p)
  {
    assert (sss + [seats])[..|sss|] == sss;
  }

  lemma {:induction false} SenateSeatsOfLists(ss: seq<State>, sss: seq<seq<PartyID>>, p: PartyID)
    requires |sss| == |ss| && forall j :: 0 <= j < |ss| ==> sss[j] == ss[j].senateSeats
    ensures SenateSeats(ss, p) == ListSenateSeats(sss, p)
  {
    if ss != [] {
      SenateSeatsOfLists(ss[..|ss| - 1], sss[..|sss| - 1], p);
    }
  }

  /** The proposal a state's conditions dictate, read off the state. */
  function DictatedProposal(st: State): (r: Option<Policy>)
    reads st`unemployment, st`inflation, st`budgetSpending, st`budgetRevenue
    ensures r.None? <==> st.unemployment <= 6.5 && st.inflation <= 5.0 && st.budgetSpending - st.budgetRevenue <= 5.0
    ensures st.unemployment > 6.5 ==> r == Some(StateJobsProgram(st.governorParty))
    ensures st.unemployment <= 6.5 && st.inflation > 5.0 ==> r == Some(StateSpendingFreeze(st.legislature.house))
    ensures st.unemployment <= 6.5 && st.inflation <= 5.0 && st.budgetSpending - st.budgetRevenue > 5.0 ==>
              r == Some(BudgetBalanceAct(st.legislature.senate))
  {
    StateProposal(st.unemployment, st.inflation, st.budgetSpending, st.budgetRevenue, st.governorParty, st.legislature)
  }

  /** The swing push of a campaign: toward the Democrats when the governor is
      a Democrat, toward the Republicans otherwise. */
  function CampaignPush(governorParty: PartyID): (adj: real)
    ensures governorParty == Democrat ==> adj > 0.0
    ensures governorParty != Democrat ==> adj < 0.0
  {
    if governorParty == Democrat then 0.004 else -0.004
  }

  /** A campaigned district: the swing gets the push plus noise in
      [-0.002, 0.002], clamped to [-0.2, 0.2]; the turnout bias gets noise in
      [-0.002, 0.002], clamped to [-0.1, 0.1].  Nothing else changes. */
  function Campaigned(d: District, adj: real, u0: Unit, u1: Unit): (r: District)
    ensures r == d.(swing := r.swing, turnoutBias := r.turnoutBias)
    ensures -0.2 <= r.swing <= 0.2 && -0.1 <= r.turnoutBias <= 0.1
  {
    d.(swing := Clamp(-0.2, 0.2, d.swing + adj + Scale(-0.002, 0.002, u0)),
       turnoutBias := Clamp(-0.1, 0.1, d.turnoutBias + Scale(-0.002, 0.002, u1)))
  }

  /** The same districts with the same incumbents: nothing changed hands. */
  ghost predicate SameIncumbents(before: seq<District>, after: seq<District>)
  {
    |after| == |before| && forall k :: 0 <= k < |after| ==> after[k].incumbent == before[k].incumbent
  }

  /** Monthly approval reversion: 5% of the way toward `target`, clamped to
      [0, 100].  From inside the range it moves toward the target and never
      past it. */
  function Reverted(a: real, target: real): (r: real)
    ensures 0.0 <= r <= 100.0
    ensures 0.0 <= a <= 100.0 && 0.0 <= target <= 100.0 ==>
              (a <= target ==> a <= r <= target) && (target <= a ==> target <= r <= a)
  {
    Clamp(0.0, 100.0, a + 0.05 * (target - a))
  }

  /** The party that campaigns against the President's: the Republicans
      against a Democrat, the Democrats otherwise. */
  function Opposition(presidentParty: PartyID): (p: PartyID)
    ensures p != Independent && p != presidentParty
  {
    if presidentParty == Democrat then Republican else Democrat
  }

  /** What `ai_react_to_events` does about the most recent event. */
  datatype Reaction = NoReaction | HurricaneRelief | ScandalCampaign

  function ReactionTo(recentEvents: seq<string>): (r: Reaction)
    ensures r == HurricaneRelief <==> |recentEvents| > 0 && recentEvents[|recentEvents| - 1] == "hurricane"
    ensures r == ScandalCampaign <==> |recentEvents| > 0 && recentEvents[|recentEvents| - 1] == "scandal"
  {
    if recentEvents == [] then NoReaction
    else if recentEvents[|recentEvents| - 1] == "hurricane" then HurricaneRelief
    else if recentEvents[|recentEvents| - 1] == "scandal" then ScandalCampaign
    else NoReaction
  }

  /** The approval changes of `ai_party_national_strategy`.  With
      econ = growth - 0.2 * inflation - 0.3 * unemployment, the Democrats move
      by 0.2 * econ and the Republicans by 0.5 * (0.02 - econ) plus half the
      deficit ratio (the deficit over the revenue, or over 1 when the revenue
      is below 1). */
  function StrategyShifts(budget: FederalBudget, growth: real, inflation: real, unemployment: real): (r: (real, real))
    ensures r.0 >= 0.0 <==> growth >= 0.2 * inflation + 0.3 * unemployment
    ensures budget.spending >= budget.revenue && growth <= 0.2 * inflation + 0.3 * unemployment + 0.02 ==> r.1 >= 0.0
    ensures budget.spending <= budget.revenue && growth >= 0.2 * inflation + 0.3 * unemployment + 0.02 ==> r.1 <= 0.0
  {
    var deficitRatio := (budget.spending - budget.revenue) / Max(1.0, budget.revenue);
    var econ := growth - 0.2 * inflation - 0.3 * unemployment;
    (0.2 * econ, 0.5 * (0.02 - econ) + 0.5 * deficitRatio)
  }

  /** The direction of the strategy shifts: the Democrats gain on growth and
      the Republicans on inflation, unemployment and deficit concerns.  A
      second economy with no less growth, no more inflation and unemployment,
      and no more spending against the same revenue moves the Democrats at
      least as far up and the Republicans at most as far. */
  lemma StrategyShiftsDirection(budget: FederalBudget, growth: real, inflation: real, unemployment: real,
                                budget': FederalBudget, growth': real, inflation': real, unemployment': real)
    requires growth <= growth' && inflation >= inflation' && unemployment >= unemployment'
    requires budget'.revenue == budget.revenue && budget'.spending <= budget.spending
    ensures StrategyShifts(budget, growth, inflation, unemployment).0 <=
            StrategyShifts(budget', growth', inflation', unemployment').0
    ensures StrategyShifts(budget, growth, inflation, unemployment).1 >=
            StrategyShifts(budget', growth', inflation', unemployment').1
  {
    var m := Max(1.0, budget.revenue);
    DivMonotone(budget'.spending - budget.revenue, budget.spending - budget.revenue, m);
  }

  lemma DivMonotone(a: real, b: real, t: real)
    requires a <= b && t > 0.0
    ensures a / t <= b / t
  {
    assert b / t - a / t == (b - a) / t;
  }

  /** Every state's districts keep their campaign bounds. */
  ghost predicate AllDistrictsBounded(ss: seq<State>)
    reads ss`houseDistricts
  {
    forall j :: 0 <= j < |ss| ==> ss[j].DistrictsBounded()
  }

  /** Every state's unemployment and inflation lie within their bounds. */
  ghost predicate AllEconBounded(ss: seq<State>)
    reads ss`unemployment, ss`inflation
  {
    forall j :: 0 <= j < |ss| ==> ss[j].EconBounded()
  }

  /** Every state's governor and legislature approvals lie in [0, 100]. */
  ghost predicate AllApprovalsBounded(ss: seq<State>)
    reads ss`approvalGovernor, ss`approvalLegislature
  {
    forall j :: 0 <= j < |ss| ==> ss[j].ApprovalsBounded()
  }

  /** Every state's rates, approvals and districts lie within their bounds. */
  ghost predicate AllStatesBounded(ss: seq<State>)
    reads ss`unemployment, ss`inflation, ss`approvalGovernor, ss`approvalLegislature, ss`houseDistricts
  {
    AllEconBounded(ss) && AllApprovalsBounded(ss) && AllDistrictsBounded(ss)
  }

  /** The state bounds hold of the union exactly when they hold of each state. */
  lemma AllStatesBoundedEach(ss: seq<State>)
    ensures AllStatesBounded(ss) <==> forall j :: 0 <= j < |ss| ==> ss[j].Bounded()
  {
  }

  /** Every state has its electoral structure. */
  ghost predicate AllElectionsReady(ss: seq<State>)
    reads ss`voterCohorts, ss`houseDistricts, ss`senateSeats, ss`senateClasses
  {
    forall j :: 0 <= j < |ss| ==> ss[j].ElectionsReady()
  }

  /** Every state has both Senate seats and their classes. */
  ghost predicate AllSenateReady(ss: seq<State>)
    reads ss`senateSeats, ss`senateClasses
  {
    forall j :: 0 <= j < |ss| ==> ss[j].SenateReady()
  }

  /** National GDP: the sum of the states' GDP. */
  function TotalGdp(ss: seq<State>): real
    reads ss`gdp
    decreases |ss|
  {
    if ss == [] then 0.0 else TotalGdp(ss[..|ss| - 1]) + ss[|ss| - 1].gdp
  }

  /** `states.get(name)`: states are keyed by their name. */
  function FindState(ss: seq<State>, name: string): (r: Option<State>)
    ensures r.Some? ==> r.value in ss && r.value.name == name
    ensures r.None? ==> forall i :: 0 <= i < |ss| ==> ss[i].name != name
  {
    if ss == [] then None else if ss[0].name == name then Some(ss[0]) else FindState(ss[1..], name)
  }

  /** The name of the `i`-th state. */
  function NameAt(ss: seq<State>, i: nat): string
    requires i < |ss|
  {
    ss[i].name
  }

  /** States are keyed by name in the source, so no two share one. */
  ghost predicate DistinctNames(ss: seq<State>)
  {
    forall i, j :: 0 <= i < j < |ss| ==> NameAt(ss, i) != NameAt(ss, j)
  }

  /** With distinct names, the `i`-th state is a different object from every
      other, so changing it leaves the others alone. */
  lemma OthersDiffer(ss: seq<State>, i: nat)
    requires DistinctNames(ss) && i < |ss|
    ensures forall j :: 0 <= j < |ss| && j != i ==> ss[j] != ss[i]
  {
    forall j | 0 <= j < |ss| && j != i
      ensures ss[j] != ss[i]
    {
      if j < i {
        assert NameAt(ss, j) != NameAt(ss, i);
      } else {
        assert NameAt(ss, i) != NameAt(ss, j);
      }
    }
  }

  /** The list of recent event keys after `key` is appended: the oldest is
      dropped once there are more than 12. */
  function PushRecent(recent: seq<string>, key: string): (r: seq<string>)
    ensures |recent| <= 12 ==> |r| <= 12
    ensures |r| > 0 && r[|r| - 1] == key
    ensures |recent| < 12 ==> r == recent + [key]
    ensures |recent| >= 12 ==> r == (recent + [key])[1..]
  {
    var r := recent + [key];
    if |r| > 12 then r[1..] else r
  }

  class UnitedStates {
    var year: int
    var month: int
    var president: President
    var congress: Congress
    const court: SupremeCourt
    const parties: map<PartyID, PoliticalParty>
    const states: seq<State>
    var budget: FederalBudget
    const opinion: PublicOpinion
    const eventManager: EventManager
    const rng: Rng
    var growth: real
    var unemployment: real
    var inflation: real
    var log: seq<LogEntry>
    var recentEvents: seq<string>

    /** Both major parties are present, each party is filed under its own
        identifier, states are keyed by distinct names, at most the 12 most
        recent event keys are kept, and the event catalog draws from the
        simulation's own random stream. */
    ghost predicate Valid()
      reads this`recentEvents
    {
      && |recentEvents| <= 12
      && Democrat in parties && Republican in parties
      && (forall p :: p in parties ==> parties[p].name == p)
      && DistinctNames(states)
      && eventManager.rng == rng
    }

    /** Each state's figures are the tick of `before[j]` under the current
        national growth and inflation, from draw `p + 4j` of the stream. */
    ghost predicate StatesTicked(before: seq<Economy>, p: nat)
      reads this`growth, this`inflation,
            states`gdp, states`unemployment, states`inflation, states`budgetRevenue, states`budgetSpending
    {
      |before| == |states| &&
      forall j {:trigger before[j]} :: 0 <= j < |states| ==>
        EconomyOf(states[j]) == TickedEconomy(before[j], states[j].taxRate, growth, inflation, rng.stream, p + 4 * j)
    }

    /** National unemployment in [2.5, 20] and inflation in [0, 20]. */
    ghost predicate MacroBounded()
      reads this`unemployment, this`inflation
    {
      2.5 <= unemployment <= 20.0 && 0.0 <= inflation <= 20.0
    }

    /** Federal revenue is the tax rate applied to national GDP. */
    ghost predicate RevenueTracksGdp()
      reads this`budget, states`gdp
    {
      budget.revenue == budget.taxRate * TotalGdp(states)
    }

    ghost predicate PartiesBounded()
      reads parties.Values`nationalApproval
    {
      forall p :: p in parties ==> 0.0 <= parties[p].nationalApproval <= 100.0
    }

    /** The chamber results of the November races: in even years the House
        goes to the party with more seats, a tie to the Democrats, and in odd
        years it keeps its control; the Senate likewise whenever any seat is
        held by a major party, and otherwise keeps its control. */
    ghost predicate ChambersFollowSeats(prev: Congress)
      reads this`year, this`congress, states`houseDistricts, states`senateSeats
    {
      HouseFollowsSeats(prev.houseControl) && SenateFollowsSeats(prev.senateControl)
    }

    /** House control after the races: the majority of the national House
        seats in even years, a tie going to the Democrats; `prev` in odd
        years. */
    ghost predicate HouseFollowsSeats(prev: PartyID)
      reads this`year, this`congress, states`houseDistricts
    {
      && (year % 2 != 0 ==> congress.houseControl == prev)
      && (year % 2 == 0 ==>
            congress.houseControl == ChamberControl(HouseSeats(states, Democrat), HouseSeats(states, Republican)))
    }

    /** Senate control after the races: the majority of the national Senate
        seats, a tie going to the Democrats, when a major party holds any;
        otherwise `prev`. */
    ghost predicate SenateFollowsSeats(prev: PartyID)
      reads this`congress, states`senateSeats
    {
      && (SenateSeats(states, Democrat) + SenateSeats(states, Republican) > 0 ==>
            congress.senateControl == ChamberControl(SenateSeats(states, Democrat), SenateSeats(states, Republican)))
      && (SenateSeats(states, Democrat) + SenateSeats(states, Republican) == 0 ==>
            congress.senateControl == prev)
    }

    /** The result lines the chamber races log: the House line in even
        years, then the Senate line whenever any seat is held by a major
        party. */
    ghost function ChamberLines(): seq<LogEntry>
      reads this`year, this`month, states`houseDistricts, states`senateSeats
    {
      (if year % 2 == 0 then [HouseLine()] else []) + SenateLines()
    }

    /** The House result line, over the national House seats. */
    ghost function HouseLine(): LogEntry
      reads this`year, this`month, states`houseDistricts
    {
      LogEntry(year, month, HouseResults(HouseSeats(states, Democrat), HouseSeats(states, Republican)))
    }

    /** The Senate result line, logged only when a major party holds a seat. */
    ghost function SenateLines(): seq<LogEntry>
      reads this`year, this`month, states`senateSeats
    {
      if SenateSeats(states, Democrat) + SenateSeats(states, Republican) > 0
      then [LogEntry(year, month, SenateResults(SenateSeats(states, Democrat), SenateSeats(states, Republican)))]
      else []
    }

    /** The result line of a presidential race, held when `year % 4 == 0`. */
    ghost function PresidentLines(): seq<LogEntry>
      reads this`year, this`month, this`president
    {
      if year % 4 == 0 then [LogEntry(year, month, PresidentialResult(president.party))] else []
    }

    /** The House districts after the November races, against the lists
        `before` they started from: a state that already had districts has
        them re-elected in even years and untouched in odd years. */
    ghost predicate HouseFollowsYear(before: seq<seq<District>>)
      reads this`year, states`houseDistricts
    {
      && |before| == |states|
      && forall j {:trigger before[j]} :: 0 <= j < |states| && before[j] != [] ==>
           && (year % 2 == 0 ==> Reelected(before[j], states[j].houseDistricts))
           && (year % 2 != 0 ==> states[j].houseDistricts == before[j])
    }

    /** The outcome of the congressional half of the November elections,
        against the control, district lists and Senate seats before it:
        the chambers follow the seats, districts that existed follow the
        year's House rule, and every state's seats, once set up, follow the
        cycle rule of `year % 6`. */
    ghost predicate CongressElected(prev: Congress, prevDistricts: seq<seq<District>>, prevSeats: seq<seq<PartyID>>)
      reads this`year, this`congress, states`houseDistricts, states`senateSeats, states`senateClasses
    {
      && ChambersFollowSeats(prev)
      && HouseFollowsYear(prevDistricts)
      && |prevSeats| == |states|
      && forall j {:trigger InitialSeats(prevSeats[j], states[j].legislature.senate)} :: 0 <= j < |states| ==>
           SenateCycleResult(InitialSeats(prevSeats[j], states[j].legislature.senate),
                             states[j].senateSeats, states[j].senateClasses, year % 6)
    }

    constructor (year: int, month: int, president: President, congress: Congress, court: SupremeCourt,
                 parties: map<PartyID, PoliticalParty>, states: seq<State>, budget: FederalBudget,
                 opinion: PublicOpinion, eventManager: EventManager, rng: Rng,
                 growth: real := 0.02, unemployment: real := 5.5, inflation: real := 2.5)
      requires Democrat in parties && Republican in parties
      requires forall p :: p in parties ==> parties[p].name == p
      requires DistinctNames(states)
      requires eventManager.rng == rng
      ensures Valid()
      ensures this.year == year && this.month == month && this.president == president
      ensures this.congress == congress && this.court == court && this.parties == parties
      ensures this.states == states && this.budget == budget && this.opinion == opinion
      ensures this.eventManager == eventManager && this.rng == rng
      ensures this.growth == growth && this.unemployment == unemployment && this.inflation == inflation
      ensures log == [] && recentEvents == []
    {
      this.year := year;
      this.month := month;
      this.president := president;
      this.congress := congress;
      this.court := court;
      this.parties := parties;
      this.states := states;
      this.budget := budget;
      this.opinion := opinion;
      this.eventManager := eventManager;
      this.rng := rng;
      this.growth := growth;
      this.unemployment := unemployment;
      this.inflation := inflation;
      log := [];
      recentEvents := [];
    }

    /** `log_event`: append a line stamped with the current year and month. */
    method LogEvent(msg: Message)
      modifies this`log
      ensures log == old(log) + [LogEntry(year, month, msg)]
    {
      log := log + [LogEntry(year, month, msg)];
    }

    /** `_national_signal_dem`, read off the current state. */
    function NationalSignal(): real
      reads this`growth, this`inflation, this`unemployment, opinion`approvalPresident
    {
      NationalSignalDem(growth, inflation, unemployment, opinion.approvalPresident)
    }

    /** The cohort-share perturbation of a new district: one draw in
        [-0.05, 0.05] per cohort, the share clamped to [0.05, 0.9]. */
    method PerturbCohorts(cs: seq<VoterCohort>) returns (out: seq<VoterCohort>)
      modifies rng`pos
      ensures rng.pos == old(rng.pos) + |cs|
      ensures |out| == |cs|
      ensures out == Perturbed(rng.stream, old(rng.pos), cs)
    {
      out := [];
      var k := 0;
      while k < |cs|
        invariant 0 <= k <= |cs|
        invariant rng.pos == old(rng.pos) + k
        invariant |out| == k
        invariant forall j :: 0 <= j < k ==>
                    out[j] == cs[j].(share := Clamp(0.05, 0.9, cs[j].share + Scale(-0.05, 0.05, rng.stream(old(rng.pos) + j))))
      {
        var delta := rng.Uniform(-0.05, 0.05);
        var share := Clamp(0.05, 0.9, cs[k].share + delta);
        out := out + [VoterCohort(cs[k].name, share, cs[k].lean, cs[k].turnout)];
        k := k + 1;
      }
      assert forall j :: 0 <= j < |cs| ==> out[j] == Perturbed(rng.stream, old(rng.pos), cs)[j];
    }

    /** One district of the lazy set-up: a swing draw, a turnout-bias draw,
        then the perturbed cohorts, normalised to sum to 1. */
    method DrawDistrict(st: State, i: nat) returns (d: District)
      requires |st.voterCohorts| > 0
      modifies rng`pos
      ensures rng.pos == old(rng.pos) + 2 + |st.voterCohorts|
      ensures d == DrawnDistrict(rng.stream, old(rng.pos), DistrictId(st.name, i), st.voterCohorts)
    {
      var swing := rng.Uniform(-0.04, 0.04);
      var bias := rng.Uniform(-0.03, 0.03);
      var cohorts := PerturbCohorts(st.voterCohorts);
      d := District(DistrictId(st.name, i), Normalised(cohorts), Independent, bias, swing);
    }

    /** The Senate half of the lazy set-up: two seats held by the party of
        the state senate, and two classes drawn from 0..5 (two draws). */
    method InitSenateIfMissing(st: State)
      modifies st`senateSeats, st`senateClasses, rng`pos
      ensures |old(st.senateSeats)| == 2 ==> st.senateSeats == old(st.senateSeats)
      ensures |old(st.senateSeats)| != 2 ==> st.senateSeats == [st.legislature.senate, st.legislature.senate]
      ensures |old(st.senateClasses)| == 2 ==> st.senateClasses == old(st.senateClasses) && rng.pos == old(rng.pos)
      ensures |old(st.senateClasses)| != 2 ==>
                st.senateClasses == [Bucket(6, rng.stream(old(rng.pos))), Bucket(6, rng.stream(old(rng.pos) + 1))] &&
                rng.pos == old(rng.pos) + 2
      ensures st.SenateReady()
    {
      if |st.senateSeats| != 2 {
        st.senateSeats := [st.legislature.senate, st.legislature.senate];
      }
      if |st.senateClasses| != 2 {
        var c0 := rng.RandRange(6);
        var c1 := rng.RandRange(6);
        st.senateClasses := [c0, c1];
      }
    }

    /** The six districts of a state that has none, drawn in order. */
    method BuildDistricts(st: State)
      requires st.houseDistricts == [] && |st.voterCohorts| > 0
      modifies st`houseDistricts, rng`pos
      ensures st.houseDistricts == BuiltDistricts(rng.stream, old(rng.pos), st.name, st.voterCohorts)
      ensures rng.pos == old(rng.pos) + 6 * (2 + |st.voterCohorts|)
    {
      ghost var cs := st.voterCohorts;
      ghost var built := BuiltDistricts(rng.stream, rng.pos, st.name, cs);
      ghost var w := 2 + |cs|;
      var i := 0;
      while i < 6
        invariant 0 <= i <= 6
        invariant rng.pos == old(rng.pos) + DrawsBefore(i, w)
        invariant st.houseDistricts == built[..i]
      {
        var d := DrawDistrict(st, i);
        assert d == built[i];
        st.houseDistricts := st.houseDistricts + [d];
        assert built[..i + 1] == built[..i] + [built[i]];
        i := i + 1;
      }
      assert built[..6] == built;
      DrawsBeforeProduct(6, w);
    }

    /** `_init_state_elections_if_missing`: give a state without cohorts the
        default ones, without districts six fresh districts, without exactly
        two Senate seats two seats held by its legislature's Senate party, and
        without exactly two Senate classes two random classes in 0 .. 5.  What
        exists is left alone. */
    method InitStateElectionsIfMissing(st: State)
      modifies st`voterCohorts, st`houseDistricts, st`senateSeats, st`senateClasses, rng`pos
      ensures st.ElectionsReady()
      ensures old(st.voterCohorts) != [] ==> st.voterCohorts == old(st.voterCohorts)
      ensures old(st.voterCohorts) == [] ==> st.voterCohorts == DefaultCohorts
      ensures old(st.houseDistricts) != [] ==> st.houseDistricts == old(st.houseDistricts)
      ensures old(st.houseDistricts) == [] ==>
                st.houseDistricts == BuiltDistricts(rng.stream, old(rng.pos), st.name, st.voterCohorts) &&
                forall i :: 0 <= i < 6 ==> FreshDistrict(st.houseDistricts[i], DistrictId(st.name, i), st.voterCohorts)
      ensures |old(st.senateSeats)| == 2 ==> st.senateSeats == old(st.senateSeats)
      ensures |old(st.senateSeats)| != 2 ==> st.senateSeats == [st.legislature.senate, st.legislature.senate]
      ensures var q := old(rng.pos) + (if old(st.houseDistricts) == [] then 6 * (2 + |st.voterCohorts|) else 0);
              && (|old(st.senateClasses)| == 2 ==> st.senateClasses == old(st.senateClasses) && rng.pos == q)
              && (|old(st.senateClasses)| != 2 ==>
                    st.senateClasses == [Bucket(6, rng.stream(q)), Bucket(6, rng.stream(q + 1))] && rng.pos == q + 2)
      ensures old(st.ElectionsReady()) ==> rng.pos == old(rng.pos)
      ensures old(st.DistrictsBounded()) ==> st.DistrictsBounded()
    {
      if st.voterCohorts == [] {
        st.voterCohorts := DefaultCohorts;
      }
      if st.houseDistricts == [] {
        BuildDistricts(st);
        BuiltDistrictsFresh(rng.stream, old(rng.pos), st.name, st.voterCohorts);
      }
      InitSenateIfMissing(st);
    }

    /** `_district_dem_probability`: one noise draw. */
    method DistrictDemProb(st: State, d: District) returns (p: real)
      modifies rng`pos
      ensures rng.pos == old(rng.pos) + 1
      ensures p == DistrictDemProbability(CohortScore(d.cohorts), d, NationalSignal(), StateSignal(st),
                                          rng.stream(old(rng.pos)))
    {
      var score := ComputeCohortScore(d.cohorts);
      var base := 0.5 + 0.15 * score + d.swing + d.turnoutBias;
      if d.incumbent == Democrat {
        base := base + 0.02;
      } else if d.incumbent == Republican {
        base := base - 0.02;
      }
      base := base + NationalSignal();
      base := base + 0.5 * StateSignal(st);
      var noise := rng.Uniform(-0.03, 0.03);
      base := base + noise;
      p := Clamp(0.05, 0.95, base);
    }

    /** `_statewide_dem_probability`: one noise draw. */
    method StatewideDemProb(st: State, incumbent: PartyID) returns (p: real)
      modifies rng`pos
      ensures rng.pos == old(rng.pos) + 1
      ensures p == StatewideDemProbability(CohortScore(st.voterCohorts), incumbent, NationalSignal(), StateSignal(st),
                                           rng.stream(old(rng.pos)))
    {
      var score := ComputeCohortScore(st.voterCohorts);
      var base := 0.5 + 0.12 * score + 0.5 * StateSignal(st) + NationalSignal();
      if incumbent == Democrat {
        base := base + 0.02;
      } else if incumbent == Republican {
        base := base - 0.02;
      }
      var noise := rng.Uniform(-0.03, 0.03);
      base := base + noise;
      p := Clamp(0.05, 0.95, base);
    }

    /** The race for one House district: its probability noise, then its
        result draw; only the incumbent changes. */
    method HouseRace(st: State, k: nat)
      requires k < |st.houseDistricts|
      modifies st`houseDistricts, rng`pos
      ensures st.houseDistricts ==
              old(st.houseDistricts)[k := old(st.houseDistricts)[k].(incumbent :=
                DistrictRaceWinner(old(st.houseDistricts)[k], NationalSignal(), StateSignal(st),
                                   rng.stream(old(rng.pos)), rng.stream(old(rng.pos) + 1)))]
      ensures rng.pos == old(rng.pos) + 2
    {
      var d := st.houseDistricts[k];
      var pDem := DistrictDemProb(st, d);
      var u := rng.Random();
      var winner := if u < pDem then Democrat else Republican;
      st.houseDistricts := st.houseDistricts[k := d.(incumbent := winner)];
    }

    /** The House races of one state: every district, in order, draws its
        probability noise and then its result; only incumbents change. */
    method RunHouseRaces(st: State) returns (dem: nat, rep: nat)
      modifies st`houseDistricts, rng`pos
      ensures Reelected(old(st.houseDistricts), st.houseDistricts)
      ensures forall k :: 0 <= k < |st.houseDistricts| ==>
                st.houseDistricts[k].incumbent ==
                DistrictRaceWinner(old(st.houseDistricts)[k], NationalSignal(), StateSignal(st),
                                   rng.stream(old(rng.pos) + 2 * k), rng.stream(old(rng.pos) + 2 * k + 1))
      ensures dem == CountIncumbents(st.houseDistricts, Democrat)
      ensures rep == CountIncumbents(st.houseDistricts, Republican)
      ensures dem + rep == |st.houseDistricts|
      ensures rng.pos == old(rng.pos) + 2 * |st.houseDistricts|
    {
      var ds := st.houseDistricts;
      var k := 0;
      while k < |ds|
        invariant 0 <= k <= |ds|
        invariant |st.houseDistricts| == |ds|
        invariant forall j :: k <= j < |ds| ==> st.houseDistricts[j] == ds[j]
        invariant forall j :: 0 <= j < k ==>
                    st.houseDistricts[j] == ds[j].(incumbent :=
                      DistrictRaceWinner(ds[j], NationalSignal(), StateSignal(st),
                                         rng.stream(old(rng.pos) + 2 * j), rng.stream(old(rng.pos) + 2 * j + 1)))
        invariant rng.pos == old(rng.pos) + 2 * k
      {
        HouseRace(st, k);
        k := k + 1;
      }
      dem, rep := CountHouse(st.houseDistricts);
    }

    /** The race for one Senate seat: the statewide probability against the
        seat's holder, then the result draw. */
    method SenateSeatRace(st: State, i: nat)
      requires i < |st.senateSeats|
      modifies st`senateSeats, rng`pos
      ensures st.senateSeats ==
              old(st.senateSeats)[i := SeatRace(CohortScore(st.voterCohorts), old(st.senateSeats)[i],
                                                NationalSignal(), StateSignal(st), rng.stream, old(rng.pos))]
      ensures rng.pos == old(rng.pos) + 2
    {
      var inc := st.senateSeats[i];
      var pDem := StatewideDemProb(st, inc);
      var u := rng.Random();
      var winner := if u < pDem then Democrat else Republican;
      st.senateSeats := st.senateSeats[i := winner];
    }

    /** The Senate races of one state: each of the two seats whose class is
        this cycle is contested; the others keep their holder.  Then the
        state's seats are counted by party. */
    method RunSenateRaces(st: State, cycle: int) returns (dem: nat, rep: nat)
      requires |st.senateSeats| == 2 && |st.senateClasses| == 2
      modifies st`senateSeats, rng`pos
      ensures st.senateSeats == SeatsAfterRaces(old(st.senateSeats), st.senateClasses, cycle, CohortScore(st.voterCohorts),
                                                NationalSignal(), StateSignal(st), rng.stream, old(rng.pos))
      ensures rng.pos == old(rng.pos) + SeatDrawOffset(st.senateClasses, cycle, 2)
      ensures dem == CountSeats(st.senateSeats, Democrat) && rep == CountSeats(st.senateSeats, Republican)
    {
      ghost var score, national, signal := CohortScore(st.voterCohorts), NationalSignal(), StateSignal(st);
      ghost var after := SeatsAfterRaces(st.senateSeats, st.senateClasses, cycle, score, national, signal, rng.stream, rng.pos);
      var i := 0;
      while i < 2
        invariant 0 <= i <= 2
        invariant CohortScore(st.voterCohorts) == score && NationalSignal() == national && StateSignal(st) == signal
        invariant rng.pos == old(rng.pos) + SeatDrawOffset(st.senateClasses, cycle, i)
        invariant |st.senateSeats| == 2
        invariant forall j :: 0 <= j < 2 ==> st.senateSeats[j] == if j < i then after[j] else old(st.senateSeats)[j]
      {
        if st.senateClasses[i] == cycle {
          SenateSeatRace(st, i);
        }
        i := i + 1;
      }
      assert st.senateSeats == after;
      dem, rep := CountSenate(st.senateSeats);
    }

    /** The set-up step of `maybe_run_elections`: every state gets its
        electoral structure; states that have one are left alone, so once
        every state has one nothing changes and nothing is drawn. */
    method InitAllStates()
      requires Valid()
      modifies states`voterCohorts, states`houseDistricts, states`senateSeats, states`senateClasses, rng`pos
      ensures AllElectionsReady(states) && AllSenateReady(states)
      ensures forall j :: 0 <= j < |states| ==>
                states[j].senateSeats == InitialSeats(old(states[j].senateSeats), states[j].legislature.senate)
      ensures forall j :: 0 <= j < |states| && old(states[j].houseDistricts) != [] ==>
                states[j].houseDistricts == old(states[j].houseDistricts)
      ensures old(AllDistrictsBounded(states)) ==> AllDistrictsBounded(states)
      ensures old(AllElectionsReady(states)) ==>
                rng.pos == old(rng.pos) && forall j :: 0 <= j < |states| ==> unchanged(states[j])
    {
      var i := 0;
      while i < |states|
        invariant 0 <= i <= |states|
        invariant forall j :: 0 <= j < i ==> states[j].ElectionsReady()
        invariant forall j :: 0 <= j < i ==>
                    states[j].senateSeats == InitialSeats(old(states[j].senateSeats), states[j].legislature.senate)
        invariant forall j :: 0 <= j < i && old(states[j].houseDistricts) != [] ==>
                    states[j].houseDistricts == old(states[j].houseDistricts)
        invariant forall j :: 0 <= j < |states| ==> old(states[j].DistrictsBounded()) ==> states[j].DistrictsBounded()
        invariant forall j :: i <= j < |states| ==> unchanged(states[j])
        invariant old(AllElectionsReady(states)) ==>
                    rng.pos == old(rng.pos) && forall j :: 0 <= j < |states| ==> unchanged(states[j])
      {
        OthersDiffer(states, i);
        InitStateElectionsIfMissing(states[i]);
        i := i + 1;
      }
      assert AllSenateReady(states) by {
        forall j | 0 <= j < |states|
          ensures states[j].SenateReady()
        {
          assert states[j].ElectionsReady();
        }
      }
    }

    /** The House races of every state, in order; the totals are the seats
        each party now holds. */
    method HouseElections() returns (dem: nat, rep: nat)
      requires Valid()
      modifies states`houseDistricts, rng`pos
      ensures forall j :: 0 <= j < |states| ==> Reelected(old(states[j].houseDistricts), states[j].houseDistricts)
      ensures old(AllDistrictsBounded(states)) ==> AllDistrictsBounded(states)
      ensures dem == HouseSeats(states, Democrat) && rep == HouseSeats(states, Republican)
    {
      dem, rep := 0, 0;
      ghost var dss: seq<seq<District>> := [];
      var i := 0;
      while i < |states|
        invariant 0 <= i <= |states| && |dss| == i
        invariant forall j :: 0 <= j < i ==> Reelected(old(states[j].houseDistricts), states[j].houseDistricts)
        invariant forall j :: 0 <= j < i ==> dss[j] == states[j].houseDistricts
        invariant forall j :: i <= j < |states| ==> states[j].houseDistricts == old(states[j].houseDistricts)
        invariant dem == ListSeats(dss, Democrat) && rep == ListSeats(dss, Republican)
      {
        var st := states[i];
        OthersDiffer(states, i);
        var d, r := RunHouseRaces(st);
        ListSeatsSnoc(dss, st.houseDistricts, Democrat);
        ListSeatsSnoc(dss, st.houseDistricts, Republican);
        dss := dss + [st.houseDistricts];
        dem, rep := dem + d, rep + r;
        i := i + 1;
      }
      HouseSeatsOfLists(states, dss, Democrat);
      HouseSeatsOfLists(states, dss, Republican);
      forall j | 0 <= j < |states| && old(AllDistrictsBounded(states))
        ensures states[j].DistrictsBounded()
      {
        ReelectedKeepsBounds(old(states[j].houseDistricts), states[j].houseDistricts);
      }
    }

    /** The Senate races of every state, in order, for the seats whose class
        is this cycle; the totals are the seats each party now holds. */
    method SenateElections(cycle: int) returns (dem: nat, rep: nat)
      requires Valid()
      requires AllSenateReady(states)
      modifies states`senateSeats, rng`pos
      ensures forall j :: 0 <= j < |states| ==>
                SenateCycleResult(old(states[j].senateSeats), states[j].senateSeats, states[j].senateClasses, cycle)
      ensures dem == SenateSeats(states, Democrat) && rep == SenateSeats(states, Republican)
    {
      dem, rep := 0, 0;
      ghost var sss: seq<seq<PartyID>> := [];
      var i := 0;
      while i < |states|
        invariant 0 <= i <= |states| && |sss| == i
        invariant forall j :: 0 <= j < i ==>
                    SenateCycleResult(old(states[j].senateSeats), states[j].senateSeats, states[j].senateClasses, cycle)
        invariant forall j :: 0 <= j < i ==> sss[j] == states[j].senateSeats
        invariant forall j :: i <= j < |states| ==> states[j].senateSeats == old(states[j].senateSeats)
        invariant dem == ListSenateSeats(sss, Democrat) && rep == ListSenateSeats(sss, Republican)
      {
        var st := states[i];
        assert old(st.SenateReady());
        OthersDiffer(states, i);
        var d, r := RunSenateRaces(st, cycle);
        ListSenateSeatsSnoc(sss, st.senateSeats, Democrat);
        ListSenateSeatsSnoc(sss, st.senateSeats, Republican);
        sss := sss + [st.senateSeats];
        dem, rep := dem + d, rep + r;
        i := i + 1;
      }
      SenateSeatsOfLists(states, sss, Democrat);
      SenateSeatsOfLists(states, sss, Republican);
    }

    /** `_update_approvals_after_congress_results`, against the chamber
        controls before the elections. */
    method UpdateApprovalsAfterCongressResults(prevHouse: PartyID, prevSenate: PartyID)
      modifies opinion`approvalPresident, opinion`approvalCongress
      ensures ChamberLines() == old(ChamberLines())
      ensures forall c, pd, ps {:trigger CongressElected(c, pd, ps)} :: CongressElected(c, pd, ps) == old(CongressElected(c, pd, ps))
      ensures (opinion.approvalPresident, opinion.approvalCongress) ==
              ApprovalsAfterResults(old(opinion.approvalPresident), old(opinion.approvalCongress),
                                    prevHouse, prevSenate, congress, president.party)
    {
      var r := ApprovalsAfterResults(opinion.approvalPresident, opinion.approvalCongress,
                                     prevHouse, prevSenate, congress, president.party);
      opinion.approvalPresident, opinion.approvalCongress := r.0, r.1;
    }

    /** The House half of `maybe_run_elections`: every district is contested
        and the majority, a tie going to the Democrats, takes control. */
    method ElectHouse() returns (dem: nat, rep: nat)
      requires Valid()
      modifies this`congress, this`log, states`houseDistricts, rng`pos
      ensures forall j :: 0 <= j < |states| ==> Reelected(old(states[j].houseDistricts), states[j].houseDistricts)
      ensures old(AllDistrictsBounded(states)) ==> AllDistrictsBounded(states)
      ensures dem == HouseSeats(states, Democrat) && rep == HouseSeats(states, Republican)
      ensures congress == old(congress).(houseControl := ChamberControl(dem, rep))
      ensures log == old(log) + [LogEntry(year, month, HouseResults(dem, rep))]
    {
      dem, rep := HouseElections();
      congress := congress.(houseControl := ChamberControl(dem, rep));
      LogEvent(HouseResults(dem, rep));
    }

    /** The Senate half: the seats of this cycle's class are contested; when
        any seat is held by a major party the majority, a tie going to the
        Democrats, takes control. */
    method ElectSenate(cycle: int) returns (dem: nat, rep: nat)
      requires Valid()
      requires AllSenateReady(states)
      modifies this`congress, this`log, states`senateSeats, rng`pos
      ensures forall j :: 0 <= j < |states| ==>
                SenateCycleResult(old(states[j].senateSeats), states[j].senateSeats, states[j].senateClasses, cycle)
      ensures dem == SenateSeats(states, Democrat) && rep == SenateSeats(states, Republican)
      ensures dem + rep > 0 ==>
                congress == old(congress).(senateControl := ChamberControl(dem, rep)) &&
                log == old(log) + [LogEntry(year, month, SenateResults(dem, rep))]
      ensures dem + rep == 0 ==> congress == old(congress) && log == old(log)
      ensures SenateFollowsSeats(old(congress.senateControl)) && congress.houseControl == old(congress.houseControl)
      ensures log == old(log) + SenateLines()
    {
      dem, rep := SenateElections(cycle);
      if dem + rep > 0 {
        congress := congress.(senateControl := ChamberControl(dem, rep));
        LogEvent(SenateResults(dem, rep));
      }
    }

    /** The House races of a November, held in even years only. */
    method MaybeElectHouse()
      requires Valid()
      modifies this`congress, this`log, states`houseDistricts, rng`pos
      ensures HouseFollowsSeats(old(congress.houseControl)) && congress.senateControl == old(congress.senateControl)
      ensures log == old(log) + (if year % 2 == 0 then [HouseLine()] else [])
      ensures year % 2 == 0 ==>
                forall j :: 0 <= j < |states| ==> Reelected(old(states[j].houseDistricts), states[j].houseDistricts)
      ensures year % 2 != 0 ==>
                rng.pos == old(rng.pos) && forall j :: 0 <= j < |states| ==> states[j].houseDistricts == old(states[j].houseDistricts)
      ensures old(AllDistrictsBounded(states)) ==> AllDistrictsBounded(states)
    {
      if year % 2 == 0 {
        var _, _ := ElectHouse();
      }
    }

    /** The presidential race: two draws, the winner's party replaces the
        president's. */
    method ElectPresident()
      modifies this`president, this`log, rng`pos
      ensures ChamberLines() == old(ChamberLines())
      ensures forall c, pd, ps {:trigger CongressElected(c, pd, ps)} :: CongressElected(c, pd, ps) == old(CongressElected(c, pd, ps))
      ensures rng.pos == old(rng.pos) + 2
      ensures president == old(president).(party :=
                Election("federal", None, Some("President"), year).Run(
                  growth, inflation, unemployment, opinion.approvalPresident, opinion.approvalCongress,
                  rng.stream(old(rng.pos)), rng.stream(old(rng.pos) + 1)).winnerParty)
      ensures president.party != Independent
      ensures log == old(log) + [LogEntry(year, month, PresidentialResult(president.party))]
    {
      var uNoise := rng.Random();
      var uWin := rng.Random();
      var result := Election("federal", None, Some("President"), year).Run(
        growth, inflation, unemployment, opinion.approvalPresident, opinion.approvalCongress, uNoise, uWin);
      president := president.(party := result.winnerParty);
      LogEvent(PresidentialResult(result.winnerParty));
    }

    /** The chamber races once every state has its electoral structure: the
        House in even years, then the Senate class `year % 6`. */
    method ElectChambers()
      requires Valid()
      requires AllSenateReady(states)
      modifies this`congress, this`log, states`houseDistricts, states`senateSeats, rng`pos
      ensures ChambersFollowSeats(old(congress))
      ensures log == old(log) + ChamberLines()
      ensures year % 2 == 0 ==>
                forall j :: 0 <= j < |states| ==> Reelected(old(states[j].houseDistricts), states[j].houseDistricts)
      ensures year % 2 != 0 ==>
                forall j :: 0 <= j < |states| ==> states[j].houseDistricts == old(states[j].houseDistricts)
      ensures forall j :: 0 <= j < |states| ==>
                SenateCycleResult(old(states[j].senateSeats), states[j].senateSeats, states[j].senateClasses, year % 6)
      ensures old(AllDistrictsBounded(states)) ==> AllDistrictsBounded(states)
    {
      MaybeElectHouse();
      var _, _ := ElectSenate(year % 6);
    }

    /** The congressional half of the November elections: every state gets
        its electoral structure, then the chambers are elected. */
    method ElectCongress()
      requires Valid()
      modifies this`congress, this`log, states`voterCohorts, states`houseDistricts, states`senateSeats, states`senateClasses, rng`pos
      ensures CongressElected(old(congress), old(DistrictLists(states)), old(SeatLists(states)))
      ensures log == old(log) + ChamberLines()
      ensures old(AllDistrictsBounded(states)) ==> AllDistrictsBounded(states)
    {
      InitAllStates();
      ElectChambers();
    }

    /** The end of the November elections: the President when `year % 4 == 0`,
        then the approvals react to chambers that changed hands. */
    method PresidentAndApprovals(prevHouse: PartyID, prevSenate: PartyID,
                                 ghost prevDistricts: seq<seq<District>>, ghost prevSeats: seq<seq<PartyID>>)
      modifies this`president, this`log, opinion`approvalPresident, opinion`approvalCongress, rng`pos
      ensures CongressElected(Congress(prevHouse, prevSenate), prevDistricts, prevSeats) ==
              old(CongressElected(Congress(prevHouse, prevSenate), prevDistricts, prevSeats))
      ensures ChamberLines() == old(ChamberLines())
      ensures year % 4 != 0 ==> president == old(president) && rng.pos == old(rng.pos)
      ensures year % 4 == 0 ==>
                rng.pos == old(rng.pos) + 2 &&
                president == old(president).(party :=
                  Election("federal", None, Some("President"), year).Run(
                    growth, inflation, unemployment, old(opinion.approvalPresident), old(opinion.approvalCongress),
                    rng.stream(old(rng.pos)), rng.stream(old(rng.pos) + 1)).winnerParty)
      ensures log == old(log) + PresidentLines()
      ensures (opinion.approvalPresident, opinion.approvalCongress) ==
              ApprovalsAfterResults(old(opinion.approvalPresident), old(opinion.approvalCongress),
                                    prevHouse, prevSenate, congress, president.party)
    {
      if year % 4 == 0 {
        ElectPresident();
      }
      UpdateApprovalsAfterCongressResults(prevHouse, prevSenate);
    }

    /** The November elections of `maybe_run_elections`: Congress, then the
        President when `year % 4 == 0`, then the approvals react to chambers
        that changed hands. */
    method RunElections()
      requires Valid()
      modifies this`congress, this`president, this`log, opinion`approvalPresident, opinion`approvalCongress,
               states`voterCohorts, states`houseDistricts, states`senateSeats, states`senateClasses, rng`pos
      ensures CongressElected(old(congress), old(DistrictLists(states)), old(SeatLists(states)))
      ensures log == old(log) + ChamberLines() + PresidentLines()
      ensures year % 4 != 0 ==> president == old(president)
      ensures year % 4 == 0 ==>
                rng.pos >= 2 &&
                president == old(president).(party :=
                  Election("federal", None, Some("President"), year).Run(
                    growth, inflation, unemployment, old(opinion.approvalPresident), old(opinion.approvalCongress),
                    rng.stream(rng.pos - 2), rng.stream(rng.pos - 1)).winnerParty)
      ensures (opinion.approvalPresident, opinion.approvalCongress) ==
              ApprovalsAfterResults(old(opinion.approvalPresident), old(opinion.approvalCongress),
                                    old(congress.houseControl), old(congress.senateControl), congress, president.party)
      ensures old(AllDistrictsBounded(states)) ==> AllDistrictsBounded(states)
    {
      var prevHouse := congress.houseControl;
      var prevSenate := congress.senateControl;
      ghost var districts, seats := DistrictLists(states), SeatLists(states);
      ElectCongress();
      PresidentAndApprovals(prevHouse, prevSenate, districts, seats);
    }

    /** `maybe_run_elections`: the elections run in November and nothing
        happens in any other month. */
    method MaybeRunElections()
      requires Valid()
      modifies this`congress, this`president, this`log, opinion`approvalPresident, opinion`approvalCongress,
               states`voterCohorts, states`houseDistricts, states`senateSeats, states`senateClasses, rng`pos
      ensures month != 11 ==>
                congress == old(congress) && president == old(president) && log == old(log) &&
                rng.pos == old(rng.pos) && unchanged(opinion) && forall j :: 0 <= j < |states| ==> unchanged(states[j])
      ensures year % 2 != 0 ==> congress.houseControl == old(congress.houseControl)
      ensures month == 11 ==> CongressElected(old(congress), old(DistrictLists(states)), old(SeatLists(states)))
      ensures month == 11 ==> log == old(log) + ChamberLines() + PresidentLines()
      ensures year % 4 != 0 ==> president == old(president)
      ensures month == 11 && year % 4 == 0 ==>
                rng.pos >= 2 &&
                president == old(president).(party :=
                  Election("federal", None, Some("President"), year).Run(
                    growth, inflation, unemployment, old(opinion.approvalPresident), old(opinion.approvalCongress),
                    rng.stream(rng.pos - 2), rng.stream(rng.pos - 1)).winnerParty)
      ensures month == 11 ==>
                (opinion.approvalPresident, opinion.approvalCongress) ==
                ApprovalsAfterResults(old(opinion.approvalPresident), old(opinion.approvalCongress),
                                      old(congress.houseControl), old(congress.senateControl), congress, president.party)
      ensures old(AllDistrictsBounded(states)) ==> AllDistrictsBounded(states)
    {
      if month == 11 {
        RunElections();
      }
    }

    /** The issue-support step of a passed policy: one draw in
        [-width, width] moves the support of the policy's issue. */
    method ShiftIssue(policy: Policy, width: real)
      modifies opinion`issueSupport, rng`pos
      ensures rng.pos == old(rng.pos) + 1
      ensures opinion.issueSupport ==
              IssueUpdated(old(opinion.issueSupport), policy, Scale(-width, width, rng.stream(old(rng.pos))))
      ensures old(opinion.IssuesBounded()) ==> opinion.IssuesBounded()
    {
      var delta := rng.Uniform(-width, width);
      opinion.UpdateIssue(policy, delta);
    }

    /** The direct effects of a passed federal policy: growth moves by its
        effect, unemployment and inflation by theirs (clamped), the budget is
        charged its cost, and the President gains 1 point of approval when the
        President's party sponsored it. */
    method EnactPolicy(policy: Policy)
      modifies this`growth, this`unemployment, this`inflation, this`budget, opinion`approvalPresident
      ensures growth == old(growth) + policy.effectGrowth
      ensures unemployment == Clamp(2.5, 20.0, old(unemployment) + policy.effectUnemployment)
      ensures inflation == Clamp(0.0, 20.0, old(inflation) + policy.effectInflation)
      ensures budget == old(budget).Charge(policy.cost)
      ensures opinion.approvalPresident ==
              old(if policy.sponsorParty == president.party then Clamp(0.0, 100.0, opinion.approvalPresident + 1.0)
                  else opinion.approvalPresident)
    {
      growth := growth + policy.effectGrowth;
      unemployment := Clamp(2.5, 20.0, unemployment + policy.effectUnemployment);
      inflation := Clamp(0.0, 20.0, inflation + policy.effectInflation);
      budget := budget.Charge(policy.cost);
      if policy.sponsorParty == president.party {
        opinion.approvalPresident := Clamp(0.0, 100.0, opinion.approvalPresident + 1.0);
      }
    }

    /** `attempt_pass_policy`: one draw against the passage probability; a
        passed policy takes effect and then shifts its issue's support by a
        second draw in [-5, 5].  Either outcome is logged. */
    method AttemptPassPolicy(policy: Policy) returns (passed: bool)
      modifies this`growth, this`unemployment, this`inflation, this`budget, this`log,
               opinion`issueSupport, opinion`approvalPresident, rng`pos
      ensures passed <==> old(rng.stream(rng.pos) < NationalPassProbability(policy, congress, president.party, court))
      ensures passed ==>
                && rng.pos == old(rng.pos) + 2
                && growth == old(growth) + policy.effectGrowth
                && unemployment == Clamp(2.5, 20.0, old(unemployment) + policy.effectUnemployment)
                && inflation == Clamp(0.0, 20.0, old(inflation) + policy.effectInflation)
                && budget == old(budget).Charge(policy.cost)
                && opinion.issueSupport ==
                   IssueUpdated(old(opinion.issueSupport), policy, Scale(-5.0, 5.0, rng.stream(old(rng.pos) + 1)))
                && opinion.approvalPresident ==
                   old(if policy.sponsorParty == president.party then Clamp(0.0, 100.0, opinion.approvalPresident + 1.0)
                       else opinion.approvalPresident)
                && log == old(log + [LogEntry(year, month, PolicyPassed(policy.title))])
      ensures !passed ==>
                && rng.pos == old(rng.pos) + 1
                && growth == old(growth) && unemployment == old(unemployment) && inflation == old(inflation)
                && budget == old(budget) && opinion.issueSupport == old(opinion.issueSupport)
                && opinion.approvalPresident == old(opinion.approvalPresident)
                && log == old(log + [LogEntry(year, month, PolicyFailed(policy.title))])
      ensures old(MacroBounded()) ==> MacroBounded()
      ensures old(opinion.ApprovalsBounded()) ==> opinion.ApprovalsBounded()
      ensures old(opinion.IssuesBounded()) ==> opinion.IssuesBounded()
    {
      var prob := NationalPassProbability(policy, congress, president.party, court);
      var u := rng.Random();
      if u < prob {
        EnactPolicy(policy);
        ShiftIssue(policy, 5.0);
        LogEvent(PolicyPassed(policy.title));
        passed := true;
      } else {
        LogEvent(PolicyFailed(policy.title));
        passed := false;
      }
    }

    /** The direct effects of a passed state policy: GDP scales by its growth
        effect, unemployment and inflation move (clamped), a cost is booked as
        spending and a saving as revenue, the governor gains 0.8 points when
        the governor's party sponsored it and the legislature 0.4 points. */
    method EnactStatePolicy(st: State, policy: Policy)
      modifies st`gdp, st`unemployment, st`inflation, st`budgetSpending, st`budgetRevenue,
               st`approvalGovernor, st`approvalLegislature
      ensures st.gdp == old(st.gdp) * (1.0 + policy.effectGrowth)
      ensures st.unemployment == Clamp(2.5, 20.0, old(st.unemployment) + policy.effectUnemployment)
      ensures st.inflation == Clamp(0.0, 20.0, old(st.inflation) + policy.effectInflation)
      ensures policy.cost >= 0.0 ==>
                st.budgetSpending == old(st.budgetSpending) + policy.cost && st.budgetRevenue == old(st.budgetRevenue)
      ensures policy.cost < 0.0 ==>
                st.budgetRevenue == old(st.budgetRevenue) - policy.cost && st.budgetSpending == old(st.budgetSpending)
      ensures st.approvalGovernor ==
              old(if policy.sponsorParty == st.governorParty then Clamp(0.0, 100.0, st.approvalGovernor + 0.8)
                  else st.approvalGovernor)
      ensures st.approvalLegislature == Clamp(0.0, 100.0, old(st.approvalLegislature) + 0.4)
    {
      st.gdp := st.gdp * (1.0 + policy.effectGrowth);
      st.unemployment := Clamp(2.5, 20.0, st.unemployment + policy.effectUnemployment);
      st.inflation := Clamp(0.0, 20.0, st.inflation + policy.effectInflation);
      if policy.cost >= 0.0 {
        st.budgetSpending := st.budgetSpending + policy.cost;
      } else {
        st.budgetRevenue := st.budgetRevenue - policy.cost;
      }
      if policy.sponsorParty == st.governorParty {
        st.approvalGovernor := Clamp(0.0, 100.0, st.approvalGovernor + 0.8);
      }
      st.approvalLegislature := Clamp(0.0, 100.0, st.approvalLegislature + 0.4);
    }

    /** `attempt_pass_state_policy`: one draw against the state passage
        probability; a passed policy takes effect in the state and then shifts
        its issue's national support by a second draw in [-2, 2].  Either
        outcome is logged under the state's name. */
    method AttemptPassStatePolicy(st: State, policy: Policy) returns (passed: bool)
      modifies st`gdp, st`unemployment, st`inflation, st`budgetSpending, st`budgetRevenue,
               st`approvalGovernor, st`approvalLegislature, opinion`issueSupport, this`log, rng`pos
      ensures passed <==>
              old(rng.stream(rng.pos) < StatePassProbability(policy, st.legislature, st.governorParty, st.approvalGovernor))
      ensures passed ==>
                && rng.pos == old(rng.pos) + 2
                && st.gdp == old(st.gdp) * (1.0 + policy.effectGrowth)
                && st.unemployment == Clamp(2.5, 20.0, old(st.unemployment) + policy.effectUnemployment)
                && st.inflation == Clamp(0.0, 20.0, old(st.inflation) + policy.effectInflation)
                && (policy.cost >= 0.0 ==>
                      st.budgetSpending == old(st.budgetSpending) + policy.cost && st.budgetRevenue == old(st.budgetRevenue))
                && (policy.cost < 0.0 ==>
                      st.budgetRevenue == old(st.budgetRevenue) - policy.cost && st.budgetSpending == old(st.budgetSpending))
                && st.approvalGovernor ==
                   old(if policy.sponsorParty == st.governorParty then Clamp(0.0, 100.0, st.approvalGovernor + 0.8)
                       else st.approvalGovernor)
                && st.approvalLegislature == Clamp(0.0, 100.0, old(st.approvalLegislature) + 0.4)
                && opinion.issueSupport ==
                   IssueUpdated(old(opinion.issueSupport), policy, Scale(-2.0, 2.0, rng.stream(old(rng.pos) + 1)))
                && log == old(log + [LogEntry(year, month, StatePolicyPassed(st.name, policy.title))])
      ensures !passed ==>
                && rng.pos == old(rng.pos) + 1 && unchanged(st) && opinion.issueSupport == old(opinion.issueSupport)
                && log == old(log + [LogEntry(year, month, StatePolicyFailed(st.name, policy.title))])
      ensures old(st.EconBounded()) ==> st.EconBounded()
      ensures old(st.ApprovalsBounded()) ==> st.ApprovalsBounded()
      ensures old(opinion.IssuesBounded()) ==> opinion.IssuesBounded()
    {
      var prob := StatePassProbability(policy, st.legislature, st.governorParty, st.approvalGovernor);
      var u := rng.Random();
      if u < prob {
        EnactStatePolicy(st, policy);
        ShiftIssue(policy, 2.0);
        LogEvent(StatePolicyPassed(st.name, policy.title));
        passed := true;
      } else {
        LogEvent(StatePolicyFailed(st.name, policy.title));
        passed := false;
      }
    }

    /** `ai_consider_policy`: with probability 0.6 (one draw) the federal
        proposal for the current economy, otherwise none. */
    method AiConsiderPolicy() returns (p: Option<Policy>)
      modifies rng`pos
      ensures rng.pos == old(rng.pos) + 1
      ensures p.Some? <==> rng.stream(old(rng.pos)) < 0.6
      ensures p.Some? ==> p.value == FederalProposal(growth, inflation, president.party, congress.houseControl)
    {
      var u := rng.Random();
      if u < 0.6 {
        p := Some(FederalProposal(growth, inflation, president.party, congress.houseControl));
      } else {
        p := None;
      }
    }

    /** The proposal step of `ai_state_turn`: the dictated proposal when the
        state's conditions call for one (no draw); otherwise a draw, and State
        Infrastructure with probability 0.35. */
    method StateTurnProposal(st: State) returns (pol: Option<Policy>)
      modifies rng`pos
      ensures DictatedProposal(st).Some? ==> pol == DictatedProposal(st) && rng.pos == old(rng.pos)
      ensures DictatedProposal(st).None? ==>
                && rng.pos == old(rng.pos) + 1
                && (pol.Some? <==> rng.stream(old(rng.pos)) < 0.35)
                && (pol.Some? ==> pol.value == StateInfrastructure(st.governorParty))
    {
      pol := DictatedProposal(st);
      if pol.None? {
        var u := rng.Random();
        if u < 0.35 {
          pol := Some(StateInfrastructure(st.governorParty));
        }
      }
    }

    /** The district loop of a campaign: two draws per district, swing first. */
    method CampaignDistricts(ds: seq<District>, adj: real) returns (out: seq<District>)
      modifies rng`pos
      ensures rng.pos == old(rng.pos) + 2 * |ds|
      ensures |out| == |ds|
      ensures forall k :: 0 <= k < |ds| ==>
                out[k] == Campaigned(ds[k], adj, rng.stream(old(rng.pos) + 2 * k), rng.stream(old(rng.pos) + 2 * k + 1))
      ensures BoundedDistricts(out)
    {
      out := [];
      var k := 0;
      while k < |ds|
        invariant 0 <= k <= |ds|
        invariant rng.pos == old(rng.pos) + 2 * k
        invariant |out| == k
        invariant forall j :: 0 <= j < k ==>
                    out[j] == Campaigned(ds[j], adj, rng.stream(old(rng.pos) + 2 * j), rng.stream(old(rng.pos) + 2 * j + 1))
      {
        var ds0 := rng.Uniform(-0.002, 0.002);
        var dt := rng.Uniform(-0.002, 0.002);
        var d := ds[k].(swing := Clamp(-0.2, 0.2, ds[k].swing + adj + ds0),
                        turnoutBias := Clamp(-0.1, 0.1, ds[k].turnoutBias + dt));
        out := out + [d];
        k := k + 1;
      }
    }

    /** The campaign step of `ai_state_turn`: with probability 0.3 (one draw)
        every district is campaigned for the governor's party and the
        governor's and legislature's approvals rise by 0.2 and 0.1. */
    method Campaign(st: State)
      modifies st`houseDistricts, st`approvalGovernor, st`approvalLegislature, rng`pos
      ensures rng.stream(old(rng.pos)) >= 0.3 ==> rng.pos == old(rng.pos) + 1 && unchanged(st)
      ensures rng.stream(old(rng.pos)) < 0.3 ==>
                && rng.pos == old(rng.pos) + 1 + 2 * |old(st.houseDistricts)|
                && |st.houseDistricts| == |old(st.houseDistricts)|
                && (forall k :: 0 <= k < |st.houseDistricts| ==>
                      st.houseDistricts[k] ==
                      Campaigned(old(st.houseDistricts)[k], CampaignPush(st.governorParty),
                                 rng.stream(old(rng.pos) + 1 + 2 * k), rng.stream(old(rng.pos) + 2 + 2 * k)))
                && st.approvalGovernor == Clamp(0.0, 100.0, old(st.approvalGovernor) + 0.2)
                && st.approvalLegislature == Clamp(0.0, 100.0, old(st.approvalLegislature) + 0.1)
                && st.DistrictsBounded()
      ensures old(st.DistrictsBounded()) ==> st.DistrictsBounded()
      ensures old(st.ApprovalsBounded()) ==> st.ApprovalsBounded()
    {
      var u := rng.Random();
      if u < 0.3 {
        var ds := CampaignDistricts(st.houseDistricts, CampaignPush(st.governorParty));
        st.ApplyCampaign(ds);
      }
    }

    /** `ai_state_turn`: a proposal, when there is one, goes to the state
        legislature; then the campaign step.  The state's rates, approvals and
        districts stay within their bounds, and no district changes hands. */
    method AiStateTurn(st: State)
      modifies st`gdp, st`unemployment, st`inflation, st`budgetSpending, st`budgetRevenue,
               st`approvalGovernor, st`approvalLegislature, st`houseDistricts,
               opinion`issueSupport, this`log, rng`pos
      ensures SameIncumbents(old(st.houseDistricts), st.houseDistricts)
      ensures old(DictatedProposal(st)).Some? ==> |log| == |old(log)| + 1
      ensures |log| >= |old(log)|
      ensures old(st.Bounded()) ==> st.Bounded()
      ensures old(opinion.IssuesBounded()) ==> opinion.IssuesBounded()
    {
      var pol := StateTurnProposal(st);
      if pol.Some? {
        var _ := AttemptPassStatePolicy(st, pol.value);
      }
      Campaign(st);
    }

    /** `ai_party_national_strategy`: both major parties' approvals move by
        the strategy shifts of the current economy and budget, clamped. */
    method AiPartyNationalStrategy()
      requires Valid()
      modifies parties.Values`nationalApproval
      ensures parties[Democrat].nationalApproval ==
              Clamp(0.0, 100.0, old(parties[Democrat].nationalApproval) + StrategyShifts(budget, growth, inflation, unemployment).0)
      ensures parties[Republican].nationalApproval ==
              Clamp(0.0, 100.0, old(parties[Republican].nationalApproval) + StrategyShifts(budget, growth, inflation, unemployment).1)
      ensures forall p :: p in parties && p != Democrat && p != Republican ==>
                parties[p].nationalApproval == old(parties[p].nationalApproval)
      ensures old(PartiesBounded()) ==> PartiesBounded()
    {
      var shifts := StrategyShifts(budget, growth, inflation, unemployment);
      assert parties[Democrat].name != parties[Republican].name;
      parties[Democrat].AdjustApproval(shifts.0);
      parties[Republican].AdjustApproval(shifts.1);
    }

    /** A state turn for the state of that name, when there is one. */
    method StateTurnIfPresent(name: string)
      modifies states`gdp, states`unemployment, states`inflation, states`budgetSpending, states`budgetRevenue,
               states`approvalGovernor, states`approvalLegislature, states`houseDistricts,
               opinion`issueSupport, this`log, rng`pos
      ensures FindState(states, name).None? ==> rng.pos == old(rng.pos) && log == old(log)
      ensures |log| >= |old(log)|
      ensures old(AllStatesBounded(states)) ==> AllStatesBounded(states)
      ensures old(opinion.IssuesBounded()) ==> opinion.IssuesBounded()
    {
      var st := FindState(states, name);
      if st.Some? {
        AiStateTurn(st.value);
      }
    }

    /** The hurricane reaction: Disaster Relief, sponsored by the President's
        party, goes to Congress; then Texas and Florida, where present, take a
        state turn. */
    method ReactToHurricane()
      modifies this`growth, this`unemployment, this`inflation, this`budget, this`log,
               opinion`issueSupport, opinion`approvalPresident, rng`pos,
               states`gdp, states`unemployment, states`inflation, states`budgetSpending, states`budgetRevenue,
               states`approvalGovernor, states`approvalLegislature, states`houseDistricts
      ensures |log| > |old(log)|
      ensures old(MacroBounded()) ==> MacroBounded()
      ensures old(opinion.ApprovalsBounded()) ==> opinion.ApprovalsBounded()
    {
      var _ := AttemptPassPolicy(DisasterRelief(president.party));
      var names := ["Texas", "Florida"];
      for i := 0 to |names|
        invariant |log| > |old(log)|
        invariant old(MacroBounded()) ==> MacroBounded()
        invariant old(opinion.ApprovalsBounded()) ==> opinion.ApprovalsBounded()
      {
        StateTurnIfPresent(names[i]);
      }
    }

    /** `ai_react_to_events`: after a hurricane the relief package and the
        Gulf states' turns; after a scandal the opposition gains 1 point of
        approval; after anything else, or with no recent event, nothing. */
    method AiReactToEvents()
      requires Valid()
      modifies this`growth, this`unemployment, this`inflation, this`budget, this`log,
               opinion`issueSupport, opinion`approvalPresident, rng`pos,
               states`gdp, states`unemployment, states`inflation, states`budgetSpending, states`budgetRevenue,
               states`approvalGovernor, states`approvalLegislature, states`houseDistricts,
               parties.Values`nationalApproval
      ensures ReactionTo(recentEvents) != HurricaneRelief ==>
                && rng.pos == old(rng.pos) && log == old(log) && budget == old(budget)
                && growth == old(growth) && unemployment == old(unemployment) && inflation == old(inflation)
                && unchanged(opinion) && (forall j :: 0 <= j < |states| ==> unchanged(states[j]))
      ensures ReactionTo(recentEvents) == ScandalCampaign ==>
                parties[Opposition(president.party)].nationalApproval ==
                Clamp(0.0, 100.0, old(parties[Opposition(president.party)].nationalApproval) + 1.0)
      ensures forall p :: p in parties && (ReactionTo(recentEvents) != ScandalCampaign || p != Opposition(president.party)) ==>
                parties[p].nationalApproval == old(parties[p].nationalApproval)
      ensures ReactionTo(recentEvents) == HurricaneRelief ==> |log| > |old(log)|
      ensures old(MacroBounded()) ==> MacroBounded()
      ensures old(opinion.ApprovalsBounded()) ==> opinion.ApprovalsBounded()
      ensures old(PartiesBounded()) ==> PartiesBounded()
    {
      match ReactionTo(recentEvents)
      case NoReaction =>
      case HurricaneRelief =>
        ReactToHurricane();
      case ScandalCampaign =>
        parties[Opposition(president.party)].AdjustApproval(1.0);
    }

    /** `trigger_event`: with an empty catalog nothing happens.  Otherwise the
        drawn event takes its national effect, is logged, and its key joins
        the recent events. */
    method TriggerEvent() returns (ev: Option<Event>)
      requires Valid() && eventManager.Valid()
      modifies this`growth, this`unemployment, this`inflation, this`log, this`recentEvents,
               opinion`approvalPresident, opinion`approvalCongress, parties.Values`nationalApproval, rng`pos
      ensures Valid()
      ensures ev.None? <==> eventManager.catalog.keys == []
      ensures ev.None? ==>
                && rng.pos == old(rng.pos) && log == old(log) && recentEvents == old(recentEvents)
                && growth == old(growth) && unemployment == old(unemployment) && inflation == old(inflation)
                && unchanged(opinion) && forall p :: p in parties ==> unchanged(parties[p])
      ensures ev.Some? ==>
                && rng.pos == old(rng.pos) + 1
                && ev.value == old(eventManager.Entries()[PickIndex(eventManager.Entries(),
                                 Scale(0.0, TotalWeight(eventManager.Entries()), rng.stream(rng.pos)))].event)
                && growth == old(growth) + ev.value.impactGrowth
                && unemployment == Clamp(2.5, 20.0, old(unemployment) + ev.value.impactUnemployment)
                && inflation == Clamp(0.0, 20.0, old(inflation) + ev.value.impactInflation)
                && opinion.approvalPresident == Clamp(0.0, 100.0, old(opinion.approvalPresident) + ev.value.impactApprovalPresident)
                && opinion.approvalCongress == Clamp(0.0, 100.0, old(opinion.approvalCongress) + ev.value.impactApprovalCongress)
                && log == old(log + [LogEntry(year, month, EventOccurred(ev.value.description))])
                && recentEvents == old(PushRecent(recentEvents, ev.value.key))
      ensures ev.Some? ==> forall p :: p in parties ==>
                parties[p].nationalApproval ==
                old(if ev.value.partyBenefit == Some(p) then Clamp(0.0, 100.0, parties[p].nationalApproval + 1.0)
                    else parties[p].nationalApproval)
      ensures old(MacroBounded()) ==> MacroBounded()
      ensures old(PartiesBounded()) ==> PartiesBounded()
    {
      ev := eventManager.RandomEvent();
      if ev.Some? {
        ApplyEvent(ev.value);
        RecordEvent(ev.value);
      }
    }

    /** The national effect of an event: growth moves by its impact, and
        unemployment, inflation and both approvals by theirs, clamped; the
        party it benefits, if that party is one of the simulation's, gains 1
        point. */
    method ApplyEvent(e: Event)
      requires Valid()
      modifies this`growth, this`unemployment, this`inflation, opinion`approvalPresident, opinion`approvalCongress,
               parties.Values`nationalApproval
      ensures growth == old(growth) + e.impactGrowth
      ensures unemployment == Clamp(2.5, 20.0, old(unemployment) + e.impactUnemployment)
      ensures inflation == Clamp(0.0, 20.0, old(inflation) + e.impactInflation)
      ensures opinion.approvalPresident == Clamp(0.0, 100.0, old(opinion.approvalPresident) + e.impactApprovalPresident)
      ensures opinion.approvalCongress == Clamp(0.0, 100.0, old(opinion.approvalCongress) + e.impactApprovalCongress)
      ensures forall p :: p in parties ==>
                parties[p].nationalApproval ==
                old(if e.partyBenefit == Some(p) then Clamp(0.0, 100.0, parties[p].nationalApproval + 1.0)
                    else parties[p].nationalApproval)
    {
      growth := growth + e.impactGrowth;
      unemployment := Clamp(2.5, 20.0, unemployment + e.impactUnemployment);
      inflation := Clamp(0.0, 20.0, inflation + e.impactInflation);
      opinion.approvalPresident := Clamp(0.0, 100.0, opinion.approvalPresident + e.impactApprovalPresident);
      opinion.approvalCongress := Clamp(0.0, 100.0, opinion.approvalCongress + e.impactApprovalCongress);
      if e.partyBenefit.Some? && e.partyBenefit.value in parties {
        parties[e.partyBenefit.value].AdjustApproval(1.0);
      }
    }

    /** The record of an event: a log line, and its key pushed onto the
        bounded list of recent events. */
    method RecordEvent(e: Event)
      requires Valid()
      modifies this`log, this`recentEvents
      ensures Valid()
      ensures log == old(log + [LogEntry(year, month, EventOccurred(e.description))])
      ensures recentEvents == old(PushRecent(recentEvents, e.key))
    {
      LogEvent(EventOccurred(e.description));
      recentEvents := PushRecent(recentEvents, e.key);
    }

    /** The macro drift of a turn: growth, inflation and unemployment each
        take a draw, in that order, and are clamped to [-0.05, 0.06], [0, 10]
        and [2.5, 20]. */
    method MacroDrift()
      modifies this`growth, this`inflation, this`unemployment, rng`pos
      ensures rng.pos == old(rng.pos) + 3
      ensures growth == Clamp(-0.05, 0.06, old(growth) + Scale(-0.002, 0.002, rng.stream(old(rng.pos))))
      ensures inflation == Clamp(0.0, 10.0, old(inflation) + Scale(-0.05, 0.05, rng.stream(old(rng.pos) + 1)))
      ensures unemployment == Clamp(2.5, 20.0, old(unemployment) + Scale(-0.05, 0.05, rng.stream(old(rng.pos) + 2)))
      ensures MacroBounded()
      ensures EconomiesOf(states) == old(EconomiesOf(states))
    {
      var dg := rng.Uniform(-0.002, 0.002);
      var di := rng.Uniform(-0.05, 0.05);
      var du := rng.Uniform(-0.05, 0.05);
      growth := Clamp(-0.05, 0.06, growth + dg);
      inflation := Clamp(0.0, 10.0, inflation + di);
      unemployment := Clamp(2.5, 20.0, unemployment + du);
    }

    /** One state's economic tick: `advance_economy` (three draws), then the
        revenue is the tax rate on the new GDP and spending moves 20% of the
        way toward it plus a fourth draw in [-1, 1]. */
    method StateEconomy(st: State)
      modifies st`gdp, st`unemployment, st`inflation, st`budgetRevenue, st`budgetSpending, rng`pos
      ensures rng.pos == old(rng.pos) + 4
      ensures st.gdp == old(st.gdp) * (1.0 + StateGdpGrowth(growth, rng.stream(old(rng.pos))))
      ensures st.unemployment == StateNextUnemployment(old(st.unemployment), growth, rng.stream(old(rng.pos) + 1))
      ensures st.inflation == StateNextInflation(inflation, rng.stream(old(rng.pos) + 2))
      ensures st.RevenueTracksGdp()
      ensures st.budgetSpending ==
              old(st.budgetSpending) + 0.2 * (st.budgetRevenue - old(st.budgetSpending)) + Scale(-1.0, 1.0, rng.stream(old(rng.pos) + 3))
      ensures st.EconBounded()
      ensures old(st.gdp) > 0.0 ==> st.gdp > 0.0
      ensures old(st.Bounded()) ==> st.Bounded()
    {
      st.AdvanceEconomy(growth, inflation, rng);
      st.budgetRevenue := st.taxRate * st.gdp;
      var noise := rng.Uniform(-1.0, 1.0);
      st.budgetSpending := st.budgetSpending + 0.2 * (st.budgetRevenue - st.budgetSpending) + noise;
    }

    /** The state economies of a turn, in order; every state's rates end in
        range and a positive GDP stays positive. */
    method StateEconomies()
      requires Valid()
      modifies states`gdp, states`unemployment, states`inflation, states`budgetRevenue, states`budgetSpending, rng`pos
      ensures rng.pos == old(rng.pos) + 4 * |states|
      ensures StatesTicked(old(EconomiesOf(states)), old(rng.pos))
      ensures forall j :: 0 <= j < |states| ==> states[j].EconBounded()
      ensures forall j :: 0 <= j < |states| ==> states[j].RevenueTracksGdp()
      ensures forall j :: 0 <= j < |states| && old(states[j].gdp) > 0.0 ==> states[j].gdp > 0.0
    {
      ghost var before := EconomiesOf(states);
      for i := 0 to |states|
        invariant rng.pos == old(rng.pos) + 4 * i
        invariant forall j {:trigger before[j]} :: 0 <= j < i ==>
                    EconomyOf(states[j]) == TickedEconomy(before[j], states[j].taxRate, growth, inflation,
                                                          rng.stream, old(rng.pos) + 4 * j)
        invariant forall j :: i <= j < |states| ==>
                    states[j].gdp == old(states[j].gdp) && states[j].unemployment == old(states[j].unemployment)
                    && states[j].inflation == old(states[j].inflation) && states[j].budgetRevenue == old(states[j].budgetRevenue)
                    && states[j].budgetSpending == old(states[j].budgetSpending)
      {
        StateEconomyAt(i);
      }
      TickedStatesInRange(states, before, growth, inflation, rng.stream, old(rng.pos));
    }

    /** The tick of the `i`-th state, seen from the loop over all states: its
        figures become `TickedEconomy` of the old ones, so they end in range,
        and no other state's figures change. */
    method StateEconomyAt(i: nat)
      requires Valid() && i < |states|
      modifies states`gdp, states`unemployment, states`inflation, states`budgetRevenue, states`budgetSpending, rng`pos
      ensures rng.pos == old(rng.pos) + 4
      ensures EconomyOf(states[i]) ==
              TickedEconomy(old(EconomyOf(states[i])), states[i].taxRate, growth, inflation, rng.stream, old(rng.pos))
      ensures states[i].EconBounded() && states[i].RevenueTracksGdp()
      ensures old(states[i].gdp) > 0.0 ==> states[i].gdp > 0.0
      ensures forall j :: 0 <= j < |states| && j != i ==>
                states[j].gdp == old(states[j].gdp) && states[j].unemployment == old(states[j].unemployment)
                && states[j].inflation == old(states[j].inflation) && states[j].budgetRevenue == old(states[j].budgetRevenue)
                && states[j].budgetSpending == old(states[j].budgetSpending)
    {
      OthersDiffer(states, i);
      StateEconomy(states[i]);
    }

    /** The policy step of a turn: the federal AI's proposal, if any, goes to
        Congress. */
    method PolicyStep()
      modifies this`growth, this`unemployment, this`inflation, this`budget, this`log,
               opinion`issueSupport, opinion`approvalPresident, rng`pos
      ensures old(MacroBounded()) ==> MacroBounded()
      ensures old(opinion.ApprovalsBounded()) ==> opinion.ApprovalsBounded()
      ensures old(opinion.IssuesBounded()) ==> opinion.IssuesBounded()
    {
      var pol := AiConsiderPolicy();
      if pol.Some? {
        var _ := AttemptPassPolicy(pol.value);
      }
    }

    /** Every state takes its turn, in order. */
    method StateTurns()
      requires Valid()
      modifies states`gdp, states`unemployment, states`inflation, states`budgetSpending, states`budgetRevenue,
               states`approvalGovernor, states`approvalLegislature, states`houseDistricts,
               opinion`issueSupport, this`log, rng`pos
      ensures forall j :: 0 <= j < |states| ==> SameIncumbents(old(states[j].houseDistricts), states[j].houseDistricts)
      ensures old(AllStatesBounded(states)) ==> AllStatesBounded(states)
      ensures old(opinion.IssuesBounded()) ==> opinion.IssuesBounded()
    {
      for i := 0 to |states|
        invariant forall j :: 0 <= j < |states| ==> SameIncumbents(old(states[j].houseDistricts), states[j].houseDistricts)
        invariant forall j :: 0 <= j < |states| ==> old(states[j].Bounded()) ==> states[j].Bounded()
        invariant old(opinion.IssuesBounded()) ==> opinion.IssuesBounded()
      {
        OthersDiffer(states, i);
        AiStateTurn(states[i]);
      }
      AllStatesBoundedEach(states);
    }

    /** The event step of a turn: with probability 0.35 (one draw) an event
        is triggered and the AIs react to the most recent one. */
    method EventStep()
      requires Valid() && eventManager.Valid()
      modifies this`growth, this`unemployment, this`inflation, this`budget, this`log, this`recentEvents,
               opinion`issueSupport, opinion`approvalPresident, opinion`approvalCongress, rng`pos,
               states`gdp, states`unemployment, states`inflation, states`budgetSpending, states`budgetRevenue,
               states`approvalGovernor, states`approvalLegislature, states`houseDistricts,
               parties.Values`nationalApproval
      ensures Valid()
      ensures rng.stream(old(rng.pos)) >= 0.35 ==>
                rng.pos == old(rng.pos) + 1 && log == old(log) && recentEvents == old(recentEvents)
      ensures old(MacroBounded()) ==> MacroBounded()
    {
      var u := rng.Random();
      if u < 0.35 {
        var _ := TriggerEvent();
        AiReactToEvents();
      }
    }

    /** Approvals revert toward 50 (President) and 40 (Congress). */
    method RevertApprovals()
      modifies opinion`approvalPresident, opinion`approvalCongress
      ensures opinion.approvalPresident == Reverted(old(opinion.approvalPresident), 50.0)
      ensures opinion.approvalCongress == Reverted(old(opinion.approvalCongress), 40.0)
    {
      opinion.approvalPresident := Reverted(opinion.approvalPresident, 50.0);
      opinion.approvalCongress := Reverted(opinion.approvalCongress, 40.0);
    }

    /** With probability 0.5 (one draw) the national party strategy runs. */
    method PartyStrategyStep()
      requires Valid()
      modifies parties.Values`nationalApproval, rng`pos
      ensures rng.pos == old(rng.pos) + 1
      ensures rng.stream(old(rng.pos)) < 0.5 ==>
                parties[Democrat].nationalApproval ==
                Clamp(0.0, 100.0, old(parties[Democrat].nationalApproval) + StrategyShifts(budget, growth, inflation, unemployment).0)
                && parties[Republican].nationalApproval ==
                Clamp(0.0, 100.0, old(parties[Republican].nationalApproval) + StrategyShifts(budget, growth, inflation, unemployment).1)
      ensures rng.stream(old(rng.pos)) < 0.5 ==>
                forall p :: p in parties && p != Democrat && p != Republican ==>
                  parties[p].nationalApproval == old(parties[p].nationalApproval)
      ensures rng.stream(old(rng.pos)) >= 0.5 ==> forall p :: p in parties ==> unchanged(parties[p])
      ensures old(PartiesBounded()) ==> PartiesBounded()
    {
      var u := rng.Random();
      if u < 0.5 {
        AiPartyNationalStrategy();
      }
    }

    /** Federal revenue tracks national GDP through the tax rate. */
    method CollectRevenue()
      modifies this`budget
      ensures budget == old(budget).(revenue := budget.revenue) && RevenueTracksGdp()
    {
      budget := budget.(revenue := budget.taxRate * TotalGdp(states));
    }

    /** The closing step of a turn: approvals revert toward 50 (President)
        and 40 (Congress); with probability 0.5 (one draw) the national party
        strategy runs; federal revenue becomes the tax rate on national GDP;
        and the calendar moves one month on. */
    method CloseTurn()
      requires Valid()
      modifies this`budget, this`year, this`month, opinion`approvalPresident, opinion`approvalCongress,
               parties.Values`nationalApproval, rng`pos
      ensures rng.pos == old(rng.pos) + 1
      ensures opinion.approvalPresident == Reverted(old(opinion.approvalPresident), 50.0)
      ensures opinion.approvalCongress == Reverted(old(opinion.approvalCongress), 40.0)
      ensures rng.stream(old(rng.pos)) < 0.5 ==>
                parties[Democrat].nationalApproval ==
                Clamp(0.0, 100.0, old(parties[Democrat].nationalApproval) + StrategyShifts(old(budget), growth, inflation, unemployment).0)
                && parties[Republican].nationalApproval ==
                Clamp(0.0, 100.0, old(parties[Republican].nationalApproval) + StrategyShifts(old(budget), growth, inflation, unemployment).1)
      ensures rng.stream(old(rng.pos)) < 0.5 ==>
                forall p :: p in parties && p != Democrat && p != Republican ==>
                  parties[p].nationalApproval == old(parties[p].nationalApproval)
      ensures rng.stream(old(rng.pos)) >= 0.5 ==> forall p :: p in parties ==> unchanged(parties[p])
      ensures budget == old(budget).(revenue := budget.revenue) && RevenueTracksGdp()
      ensures (year, month) == old(NextMonth(year, month))
      ensures forall j :: 0 <= j < |states| ==> unchanged(states[j])
      ensures old(PartiesBounded()) ==> PartiesBounded()
    {
      RevertApprovals();
      PartyStrategyStep();
      CollectRevenue();
      year, month := NextMonth(year, month).0, NextMonth(year, month).1;
    }

    /** The economic half of a turn: macro drift, then the state economies. */
    method EconomyPhase()
      requires Valid()
      modifies this`growth, this`inflation, this`unemployment, rng`pos,
               states`gdp, states`unemployment, states`inflation, states`budgetRevenue, states`budgetSpending
      ensures rng.pos == old(rng.pos) + 3 + 4 * |states|
      ensures growth == Clamp(-0.05, 0.06, old(growth) + Scale(-0.002, 0.002, rng.stream(old(rng.pos))))
      ensures inflation == Clamp(0.0, 10.0, old(inflation) + Scale(-0.05, 0.05, rng.stream(old(rng.pos) + 1)))
      ensures unemployment == Clamp(2.5, 20.0, old(unemployment) + Scale(-0.05, 0.05, rng.stream(old(rng.pos) + 2)))
      ensures StatesTicked(old(EconomiesOf(states)), old(rng.pos) + 3)
      ensures MacroBounded()
      ensures AllEconBounded(states)
      ensures forall j :: 0 <= j < |states| && old(states[j].gdp) > 0.0 ==> states[j].gdp > 0.0
    {
      MacroDrift();
      StateEconomies();
    }

    /** The political half of a turn before the elections: the federal
        policy step, the state turns and the event step. */
    method PolicyPhase()
      requires Valid() && eventManager.Valid()
      modifies this`growth, this`unemployment, this`inflation, this`budget, this`log, this`recentEvents,
               opinion`issueSupport, opinion`approvalPresident, opinion`approvalCongress, rng`pos,
               states`gdp, states`unemployment, states`inflation, states`budgetSpending, states`budgetRevenue,
               states`approvalGovernor, states`approvalLegislature, states`houseDistricts,
               parties.Values`nationalApproval
      ensures Valid()
      ensures old(MacroBounded()) ==> MacroBounded()
    {
      PolicyStep();
      StateTurns();
      EventStep();
    }

    /** The first part of a turn: the economy, then the policy process. */
    method OpenTurn()
      requires Valid() && eventManager.Valid()
      modifies this`growth, this`unemployment, this`inflation, this`budget, this`log, this`recentEvents,
               opinion`issueSupport, opinion`approvalPresident, opinion`approvalCongress, rng`pos,
               states`gdp, states`unemployment, states`inflation, states`budgetSpending, states`budgetRevenue,
               states`approvalGovernor, states`approvalLegislature, states`houseDistricts,
               parties.Values`nationalApproval
      ensures Valid()
      ensures MacroBounded()
    {
      EconomyPhase();
      PolicyPhase();
    }

    /** The second part of a turn: the elections, then the closing step. */
    method FinishTurn()
      requires Valid()
      modifies this`congress, this`president, this`log, this`budget, this`year, this`month,
               opinion`approvalPresident, opinion`approvalCongress,
               states`voterCohorts, states`houseDistricts, states`senateSeats, states`senateClasses,
               parties.Values`nationalApproval, rng`pos
      ensures Valid()
      ensures (year, month) == old(NextMonth(year, month))
      ensures old(MacroBounded()) ==> MacroBounded()
      ensures opinion.ApprovalsBounded()
      ensures RevenueTracksGdp()
    {
      MaybeRunElections();
      CloseTurn();
    }

    /** One iteration of `advance_turn`: the economy, the policy process,
        the elections, and the closing step.  The calendar moves one month on,
        the macro rates and approvals end in range, and the bounds on issues,
        states and parties are kept. */
    method Tick()
      requires Valid() && eventManager.Valid()
      modifies this, opinion, parties.Values, rng, states
      ensures Valid()
      ensures (year, month) == old(NextMonth(year, month))
      ensures MacroBounded() && opinion.ApprovalsBounded()
      ensures RevenueTracksGdp()
    {
      OpenTurn();
      FinishTurn();
    }

    /** `advance_turn`: `months` turns in a row (none when `months` is not
        positive). */
    method AdvanceTurn(months: int)
      requires Valid() && eventManager.Valid()
      modifies this, opinion, parties.Values, rng, states
      ensures Valid()
      ensures (year, month) == old(AdvanceMonths(year, month, if months < 0 then 0 else months))
      ensures months > 0 ==> MacroBounded() && opinion.ApprovalsBounded()
    {
      var i := 0;
      while i < months
        invariant 0 <= i && (months < 0 ==> i == 0) && (months >= 0 ==> i <= months)
        invariant Valid()
        invariant (year, month) == old(AdvanceMonths(year, month, i))
        invariant i > 0 ==> MacroBounded() && opinion.ApprovalsBounded()
      {
        Tick();
        i := i + 1;
      }
    }
  }

  /** A positive share over a positive total is positive. */
  lemma PositiveRatio(a: real, t: real)
    requires a > 0.0 && t > 0.0
    ensures a / t > 0.0
  {
  }
}
