/** The policy engine as pure formulas: the proposals the AIs draft, the
    probability that Congress or a state legislature passes one, and the
    bounded effects of a passed policy. */
module Policies {
  import opened Basics
  import opened Entities

  /** The federal proposals of `ai_consider_policy` and `ai_react_to_events`. */
  function Stimulus(sponsor: PartyID): (r: Policy)
    ensures r.title == "Stimulus" && r.sponsorParty == sponsor
    ensures r.cost > 0.0 && r.effectGrowth > 0.0 && r.effectUnemployment < 0.0 && r.effectInflation == 0.0
    ensures r.popularity > 50.0
  {
    Policy("Stimulus", "Counter-cyclical fiscal stimulus", cost := 300.0, effectGrowth := 0.01,
           effectUnemployment := -0.3, popularity := 60.0, sponsorParty := sponsor)
  }

  function Austerity(sponsor: PartyID): (r: Policy)
    ensures r.title == "Austerity" && r.sponsorParty == sponsor
    ensures r.cost < 0.0 && r.effectGrowth < 0.0 && r.effectInflation < 0.0 && r.effectUnemployment == 0.0
    ensures r.popularity < 50.0
  {
    Policy("Austerity", "Spending restraint to curb inflation", cost := -100.0, effectGrowth := -0.005,
           effectInflation := -0.8, popularity := 45.0, sponsorParty := sponsor)
  }

  function Infrastructure(sponsor: PartyID): (r: Policy)
    ensures r.title == "Infrastructure" && r.sponsorParty == sponsor
    ensures r.cost > 0.0 && r.effectGrowth > 0.0 && r.effectUnemployment < 0.0 && r.effectInflation == 0.0
    ensures r.popularity > 50.0
  {
    Policy("Infrastructure", "Invest in infrastructure", cost := 200.0, effectGrowth := 0.005,
           effectUnemployment := -0.2, popularity := 65.0, sponsorParty := sponsor)
  }

  function DisasterRelief(sponsor: PartyID): (r: Policy)
    ensures r.title == "Disaster Relief" && r.sponsorParty == sponsor
    ensures r.cost > 0.0 && r.effectGrowth > 0.0 && r.effectUnemployment < 0.0 && r.effectInflation == 0.0
    ensures r.popularity > 50.0
  {
    Policy("Disaster Relief", "Emergency aid to impacted regions", cost := 50.0, effectGrowth := 0.001,
           effectUnemployment := -0.05, popularity := 70.0, sponsorParty := sponsor)
  }

  /** The state proposals of `ai_state_turn`. */
  function StateJobsProgram(sponsor: PartyID): (r: Policy)
    ensures r.title == "State Jobs Program" && r.sponsorParty == sponsor
    ensures r.cost > 0.0 && r.effectGrowth > 0.0 && r.effectUnemployment < 0.0 && r.effectInflation == 0.0
    ensures r.popularity > 50.0
  {
    Policy("State Jobs Program", "Hire for public works and small biz grants", cost := 10.0,
           effectGrowth := 0.003, effectUnemployment := -0.2, popularity := 62.0, sponsorParty := sponsor)
  }

  function StateSpendingFreeze(sponsor: PartyID): (r: Policy)
    ensures r.title == "State Spending Freeze" && r.sponsorParty == sponsor
    ensures r.cost < 0.0 && r.effectGrowth < 0.0 && r.effectInflation < 0.0 && r.effectUnemployment == 0.0
    ensures r.popularity > 50.0
  {
    Policy("State Spending Freeze", "Temporary restraint on non-essential spending", cost := -5.0,
           effectGrowth := -0.001, effectInflation := -0.2, popularity := 52.0, sponsorParty := sponsor)
  }

  function BudgetBalanceAct(sponsor: PartyID): (r: Policy)
    ensures r.title == "Budget Balance Act" && r.sponsorParty == sponsor
    ensures r.cost < 0.0 && r.effectGrowth < 0.0 && r.effectUnemployment > 0.0 && r.effectInflation == 0.0
    ensures r.popularity < 50.0
  {
    Policy("Budget Balance Act", "Raise fees and cut waste to close gap", cost := -8.0,
           effectGrowth := -0.0005, effectUnemployment := 0.05, popularity := 49.0, sponsorParty := sponsor)
  }

  function StateInfrastructure(sponsor: PartyID): (r: Policy)
    ensures r.title == "State Infrastructure" && r.sponsorParty == sponsor
    ensures r.cost > 0.0 && r.effectGrowth > 0.0 && r.effectUnemployment < 0.0 && r.effectInflation == 0.0
    ensures r.popularity > 50.0
  {
    Policy("State Infrastructure", "Fix roads and bridges", cost := 12.0, effectGrowth := 0.002,
           effectUnemployment := -0.1, popularity := 64.0, sponsorParty := sponsor)
  }

  /** The federal proposal once the 60% draw says to propose one: stimulus in
      a contraction, austerity when inflation runs above 4%, infrastructure
      otherwise. */
  function FederalProposal(growth: real, inflation: real, presidentParty: PartyID, houseControl: PartyID): (p: Policy)
    ensures growth < 0.0 ==> p.title == "Stimulus" && p.sponsorParty == presidentParty
    ensures growth < 0.0 ==> p.effectGrowth > 0.0 && p.effectUnemployment < 0.0 && p.cost > 0.0
    ensures growth >= 0.0 && inflation > 4.0 ==> p.title == "Austerity" && p.sponsorParty == houseControl
    ensures growth >= 0.0 && inflation > 4.0 ==> p.effectInflation < 0.0 && p.cost < 0.0
    ensures growth >= 0.0 && inflation <= 4.0 ==> p.title == "Infrastructure" && p.sponsorParty == presidentParty
    ensures growth >= 0.0 && inflation <= 4.0 ==> p.effectGrowth > 0.0 && p.effectUnemployment < 0.0
  {
    if growth < 0.0 then Stimulus(presidentParty)
    else if inflation > 4.0 then Austerity(houseControl)
    else Infrastructure(presidentParty)
  }

  /** The state proposal dictated by the state's conditions, checked in order:
      unemployment above 6.5, inflation above 5, a deficit above 5.  None means
      conditions are calm and a 35% draw decides on State Infrastructure. */
  function StateProposal(unemployment: real, inflation: real, budgetSpending: real, budgetRevenue: real,
                         governorParty: PartyID, legislature: LegislatureControl): (p: Option<Policy>)
    ensures p.None? <==> unemployment <= 6.5 && inflation <= 5.0 && budgetSpending - budgetRevenue <= 5.0
    ensures unemployment > 6.5 ==>
              p == Some(StateJobsProgram(governorParty)) && p.value.effectUnemployment < 0.0
    ensures unemployment <= 6.5 && inflation > 5.0 ==>
              p.Some? && p.value.title == "State Spending Freeze" && p.value.sponsorParty == legislature.house
              && p.value.effectInflation < 0.0
    ensures unemployment <= 6.5 && inflation <= 5.0 && budgetSpending - budgetRevenue > 5.0 ==>
              p.Some? && p.value.title == "Budget Balance Act" && p.value.sponsorParty == legislature.senate
              && p.value.cost < 0.0
  {
    if unemployment > 6.5 then Some(StateJobsProgram(governorParty))
    else if inflation > 5.0 then Some(StateSpendingFreeze(legislature.house))
    else if budgetSpending - budgetRevenue > 5.0 then Some(BudgetBalanceAct(legislature.senate))
    else None
  }

  /** `attempt_pass_policy`'s probability: popularity above 50 per 100 points,
      +0.15 when the sponsor controls a chamber (-0.05 otherwise), +0.1 for the
      president's party, -0.05 for an inflationary policy (inflation effect
      above 0.7) the court does not lean toward; clamped to [0.05, 0.95]. */
  function NationalPassProbability(policy: Policy, congress: Congress, presidentParty: PartyID, court: SupremeCourt): (p: real)
    ensures 0.05 <= p <= 0.95
  {
    var baseSupport := (policy.popularity - 50.0) / 100.0;
    var alignment := if policy.sponsorParty == congress.houseControl || policy.sponsorParty == congress.senateControl
                     then 0.15 else -0.05;
    var presBonus := if policy.sponsorParty == presidentParty then 0.1 else 0.0;
    var courtRisk := if policy.effectInflation > 0.7 && court.lean != policy.sponsorParty then -0.05 else 0.0;
    Clamp(0.05, 0.95, 0.5 + baseSupport + alignment + presBonus + courtRisk)
  }

  /** A more popular version of a policy is never less likely to pass. */
  lemma NationalPassMonotone(policy: Policy, pop: real, congress: Congress, presidentParty: PartyID, court: SupremeCourt)
    requires policy.popularity <= pop
    ensures NationalPassProbability(policy, congress, presidentParty, court)
            <= NationalPassProbability(policy.(popularity := pop), congress, presidentParty, court)
  {
    var q := policy.(popularity := pop);
    var rest := (if policy.sponsorParty == congress.houseControl || policy.sponsorParty == congress.senateControl
                 then 0.15 else -0.05)
                + (if policy.sponsorParty == presidentParty then 0.1 else 0.0)
                + (if policy.effectInflation > 0.7 && court.lean != policy.sponsorParty then -0.05 else 0.0);
    ClampMonotone(0.05, 0.95, 0.5 + (policy.popularity - 50.0) / 100.0 + rest, 0.5 + (pop - 50.0) / 100.0 + rest);
  }

  /** The court only matters for inflationary policies: a policy whose
      inflation effect is at most 0.7 passes with the same probability
      whatever the court's lean. */
  lemma CourtOnlyWeighsInflationary(policy: Policy, congress: Congress, presidentParty: PartyID, c1: SupremeCourt, c2: SupremeCourt)
    requires policy.effectInflation <= 0.7
    ensures NationalPassProbability(policy, congress, presidentParty, c1)
            == NationalPassProbability(policy, congress, presidentParty, c2)
  {
  }

  /** `attempt_pass_state_policy`'s probability: popularity above 50 per 120
      points, +0.12 when the sponsor controls a legislative chamber (-0.06
      otherwise), +0.08 for the governor's party, plus governor approval above
      50 per 200 points; clamped to [0.05, 0.95]. */
  function StatePassProbability(policy: Policy, legislature: LegislatureControl, governorParty: PartyID,
                                approvalGovernor: real): (p: real)
    ensures 0.05 <= p <= 0.95
  {
    var baseSupport := (policy.popularity - 50.0) / 120.0;
    var align := if policy.sponsorParty == legislature.house || policy.sponsorParty == legislature.senate
                 then 0.12 else -0.06;
    var govBonus := if policy.sponsorParty == governorParty then 0.08 else 0.0;
    var opinionPush := (approvalGovernor - 50.0) / 200.0;
    Clamp(0.05, 0.95, 0.5 + baseSupport + align + govBonus + opinionPush)
  }

  /** A more popular governor never lowers a state policy's chances. */
  lemma StatePassMonotoneInApproval(policy: Policy, legislature: LegislatureControl, governorParty: PartyID,
                                    a1: real, a2: real)
    requires a1 <= a2
    ensures StatePassProbability(policy, legislature, governorParty, a1)
            <= StatePassProbability(policy, legislature, governorParty, a2)
  {
    var rest := 0.5 + (policy.popularity - 50.0) / 120.0
                + (if policy.sponsorParty == legislature.house || policy.sponsorParty == legislature.senate
                   then 0.12 else -0.06)
                + (if policy.sponsorParty == governorParty then 0.08 else 0.0);
    ClampMonotone(0.05, 0.95, rest + (a1 - 50.0) / 200.0, rest + (a2 - 50.0) / 200.0);
  }

  /** A sponsor holding a legislative chamber and the governorship never fares
      worse than one holding neither, other things equal. */
  lemma StatePassFavoursControl(policy: Policy, legislature: LegislatureControl, governorParty: PartyID,
                                approvalGovernor: real, other: PartyID)
    requires policy.sponsorParty == legislature.house && policy.sponsorParty == governorParty
    requires other != legislature.house && other != legislature.senate && other != governorParty
    ensures StatePassProbability(policy.(sponsorParty := other), legislature, governorParty, approvalGovernor)
            <= StatePassProbability(policy, legislature, governorParty, approvalGovernor)
  {
    var rest := 0.5 + (policy.popularity - 50.0) / 120.0 + (approvalGovernor - 50.0) / 200.0;
    ClampMonotone(0.05, 0.95, rest - 0.06, rest + 0.12 + 0.08);
  }
}
