/** The entity model: parties, policies, public opinion, voter cohorts,
    districts, states and the federal apparatus.  Records whose fields the
    engine updates through their own methods are classes; small records that
    their single owner rewrites field by field are datatypes held in a field of
    that owner. */
module Entities {
  import opened Basics
  import opened Draws

  /** A national party and its approval, kept in [0, 100]. */
  class PoliticalParty {
    const name: PartyID
    var nationalApproval: real

    constructor (name: PartyID, nationalApproval: real := 50.0)
      ensures this.name == name && this.nationalApproval == nationalApproval
    {
      this.name := name;
      this.nationalApproval := nationalApproval;
    }

    /** `adjust_approval`: add `delta`, then clamp to [0, 100]. */
    method AdjustApproval(delta: real)
      modifies this`nationalApproval
      ensures nationalApproval == Clamp(0.0, 100.0, old(nationalApproval) + delta)
      ensures 0.0 <= nationalApproval <= 100.0
    {
      nationalApproval := Clamp(0.0, 100.0, nationalApproval + delta);
    }
  }

  /** A policy proposal: a transient input of the policy engine. */
  datatype Policy = Policy(
    title: string,
    description: string,
    cost: real := 0.0,
    effectGrowth: real := 0.0,
    effectUnemployment: real := 0.0,
    effectInflation: real := 0.0,
    popularity: real := 0.0,
    sponsorParty: PartyID := Independent)

  /** The support an issue starts from: its stored support, or the policy's
      baseline popularity when the title has not been seen. */
  function IssueBase(support: map<string, real>, policy: Policy): (b: real)
    ensures policy.title in support ==> b == support[policy.title]
    ensures policy.title !in support ==> b == policy.popularity
  {
    if policy.title in support then support[policy.title] else policy.popularity
  }

  /** The issue support after `update_issue`: only the policy's title changes,
      to its starting support moved by `delta` and clamped to [0, 100]. */
  function IssueUpdated(support: map<string, real>, policy: Policy, delta: real): (r: map<string, real>)
    ensures r.Keys == support.Keys + {policy.title}
    ensures forall t :: t in support && t != policy.title ==> r[t] == support[t]
    ensures r[policy.title] == Clamp(0.0, 100.0, IssueBase(support, policy) + delta)
  {
    support[policy.title := Clamp(0.0, 100.0, IssueBase(support, policy) + delta)]
  }

  /** Presidential and congressional approval and per-issue support, keyed by
      policy title (policies with the same title share one entry). */
  class PublicOpinion {
    var approvalPresident: real
    var approvalCongress: real
    var issueSupport: map<string, real>

    constructor (approvalPresident: real := 50.0, approvalCongress: real := 30.0)
      ensures this.approvalPresident == approvalPresident
      ensures this.approvalCongress == approvalCongress
      ensures issueSupport == map[]
    {
      this.approvalPresident := approvalPresident;
      this.approvalCongress := approvalCongress;
      issueSupport := map[];
    }

    ghost predicate ApprovalsBounded()
      reads this
    {
      0.0 <= approvalPresident <= 100.0 && 0.0 <= approvalCongress <= 100.0
    }

    ghost predicate IssuesBounded()
      reads this
    {
      forall t :: t in issueSupport ==> 0.0 <= issueSupport[t] <= 100.0
    }

    /** `update_issue`: only the entry for the policy's title changes; it starts
        from the stored value or the policy's popularity and ends in [0, 100]. */
    method UpdateIssue(policy: Policy, delta: real)
      modifies this`issueSupport
      ensures issueSupport == IssueUpdated(old(issueSupport), policy, delta)
      ensures 0.0 <= issueSupport[policy.title] <= 100.0
      ensures old(IssuesBounded()) ==> IssuesBounded()
    {
      issueSupport := IssueUpdated(issueSupport, policy, delta);
    }
  }

  datatype LegislatureControl = LegislatureControl(house: PartyID, senate: PartyID)

  /** A slice of an electorate: its share, partisan lean and turnout. */
  datatype VoterCohort = VoterCohort(name: string, share: real, lean: PartyID, turnout: real)

  /** A House district, owned by its state. */
  datatype District = District(
    id: string,
    cohorts: seq<VoterCohort>,
    incumbent: PartyID := Independent,
    turnoutBias: real := 0.0,
    swing: real := 0.0)

  /** Federal revenue and spending, in billions. */
  datatype FederalBudget = FederalBudget(revenue: real, spending: real, taxRate: real := 0.18) {

    /** The deficit is derived, never stored. */
    function Deficit(): (r: real)
      ensures revenue + r == spending
      ensures r > 0.0 <==> spending > revenue
    {
      spending - revenue
    }

    /** The budget after a passed policy: a positive cost is spent, a negative
        cost is saved as revenue.  Either way the deficit moves by exactly the
        cost, and neither side of the budget shrinks. */
    function Charge(cost: real): (b: FederalBudget)
      ensures b.Deficit() == Deficit() + cost
      ensures b.spending >= spending && b.revenue >= revenue
      ensures cost >= 0.0 ==> b.spending == spending + cost && b.revenue == revenue
      ensures cost < 0.0 ==> b.revenue == revenue - cost && b.spending == spending
      ensures b.taxRate == taxRate
    {
      FederalBudget(revenue + Max(0.0, -cost), spending + Max(0.0, cost), taxRate)
    }
  }

  datatype Congress = Congress(houseControl: PartyID, senateControl: PartyID)

  datatype President = President(name: string, party: PartyID)

  datatype SupremeCourt = SupremeCourt(lean: PartyID)

  /** The default sector mix of a state's economy. */
  const DefaultSectors: map<string, real> := map["services" := 0.65, "industry" := 0.27, "agriculture" := 0.08]

  /** The state-level GDP growth rate of one tick: national growth plus noise
      in [-0.01, 0.01], clamped to [-0.1, 0.1]. */
  function StateGdpGrowth(growth: real, u: Unit): (g: real)
    ensures -0.1 <= g <= 0.1
  {
    Clamp(-0.1, 0.1, growth + Scale(-0.01, 0.01, u))
  }

  /** Unemployment after one tick: 20% of the way toward 5.5 - 0.5 * growth,
      plus noise in [-0.1, 0.1], clamped to [2.5, 20]. */
  function StateNextUnemployment(current: real, growth: real, u: Unit): (r: real)
    ensures 2.5 <= r <= 20.0
  {
    var target := 5.5 - 0.5 * growth;
    Clamp(2.5, 20.0, current + 0.2 * (target - current) + Scale(-0.1, 0.1, u))
  }

  /** Inflation after one tick: 60% of national inflation plus noise in
      [-0.2, 0.2], clamped to [0, 20]. */
  function StateNextInflation(nationalInflation: real, u: Unit): (r: real)
    ensures 0.0 <= r <= 20.0
  {
    Clamp(0.0, 20.0, 0.6 * nationalInflation + Scale(-0.2, 0.2, u))
  }

  /** Multiplying by a growth factor of at least 0.9 keeps GDP positive. */
  lemma GrowthKeepsSign(gdp: real, g: real)
    requires gdp > 0.0 && -0.1 <= g <= 0.1
    ensures gdp * (1.0 + g) > 0.0
  {
    var f := 1.0 + g;
    assert f >= 0.9;
    assert gdp * f >= gdp * 0.9;
  }

  /** Every district's swing lies in [-0.2, 0.2] and its turnout bias in
      [-0.1, 0.1]: the ranges campaigning clamps them to. */
  ghost predicate BoundedDistricts(ds: seq<District>)
  {
    forall i :: 0 <= i < |ds| ==> -0.2 <= ds[i].swing <= 0.2 && -0.1 <= ds[i].turnoutBias <= 0.1
  }

  /** A state of the union: economy, government, public finance and its
      electoral structure (cohorts, House districts, two Senate seats). */
  class State {
    const name: string
    const population: int
    var gdp: real
    var unemployment: real
    var inflation: real
    const governorParty: PartyID
    const legislature: LegislatureControl
    var approvalGovernor: real
    var approvalLegislature: real
    var budgetRevenue: real
    var budgetSpending: real
    const taxRate: real
    const gdpSectors: map<string, real>
    var voterCohorts: seq<VoterCohort>
    var houseDistricts: seq<District>
    var senateSeats: seq<PartyID>
    var senateClasses: seq<int>

    constructor (name: string, population: int, gdp: real, unemployment: real, inflation: real,
                 governorParty: PartyID, legislature: LegislatureControl,
                 approvalGovernor: real := 50.0, approvalLegislature: real := 40.0,
                 budgetRevenue: real := 100.0, budgetSpending: real := 100.0, taxRate: real := 0.06)
      ensures this.name == name && this.population == population && this.gdp == gdp
      ensures this.unemployment == unemployment && this.inflation == inflation
      ensures this.governorParty == governorParty && this.legislature == legislature
      ensures this.approvalGovernor == approvalGovernor && this.approvalLegislature == approvalLegislature
      ensures this.budgetRevenue == budgetRevenue && this.budgetSpending == budgetSpending
      ensures this.taxRate == taxRate && gdpSectors == DefaultSectors
      ensures voterCohorts == [] && houseDistricts == []
      ensures senateSeats == [Independent, Independent] && senateClasses == [0, 3]
    {
      this.name := name;
      this.population := population;
      this.gdp := gdp;
      this.unemployment := unemployment;
      this.inflation := inflation;
      this.governorParty := governorParty;
      this.legislature := legislature;
      this.approvalGovernor := approvalGovernor;
      this.approvalLegislature := approvalLegislature;
      this.budgetRevenue := budgetRevenue;
      this.budgetSpending := budgetSpending;
      this.taxRate := taxRate;
      gdpSectors := DefaultSectors;
      voterCohorts := [];
      houseDistricts := [];
      senateSeats := [Independent, Independent];
      senateClasses := [0, 3];
    }

    /** Unemployment in [2.5, 20] and inflation in [0, 20]. */
    ghost predicate EconBounded()
      reads this`unemployment, this`inflation
    {
      2.5 <= unemployment <= 20.0 && 0.0 <= inflation <= 20.0
    }

    ghost predicate ApprovalsBounded()
      reads this`approvalGovernor, this`approvalLegislature
    {
      0.0 <= approvalGovernor <= 100.0 && 0.0 <= approvalLegislature <= 100.0
    }

    /** The effect of a campaign: the campaigned districts replace the old
        ones, and the governor's and legislature's approvals rise by 0.2 and
        0.1, clamped to [0, 100]. */
    method ApplyCampaign(ds: seq<District>)
      modifies this`houseDistricts, this`approvalGovernor, this`approvalLegislature
      ensures houseDistricts == ds
      ensures approvalGovernor == Clamp(0.0, 100.0, old(approvalGovernor) + 0.2)
      ensures approvalLegislature == Clamp(0.0, 100.0, old(approvalLegislature) + 0.1)
      ensures ApprovalsBounded()
    {
      houseDistricts := ds;
      approvalGovernor := Clamp(0.0, 100.0, approvalGovernor + 0.2);
      approvalLegislature := Clamp(0.0, 100.0, approvalLegislature + 0.1);
    }

    /** Both Senate seats and their classes exist. */
    ghost predicate SenateReady()
      reads this`senateSeats, this`senateClasses
    {
      |senateSeats| == 2 && |senateClasses| == 2
    }

    /** The electoral structure exists: the lazy set-up has nothing to do. */
    ghost predicate ElectionsReady()
      reads this`voterCohorts, this`houseDistricts, this`senateSeats, this`senateClasses
    {
      |voterCohorts| > 0 && |houseDistricts| > 0 && SenateReady()
    }

    /** Campaigning keeps every district's swing and turnout bias in range. */
    ghost predicate DistrictsBounded()
      reads this`houseDistricts
    {
      BoundedDistricts(houseDistricts)
    }

    /** The revenue is the tax rate applied to the GDP. */
    ghost predicate RevenueTracksGdp()
      reads this`budgetRevenue, this`gdp
    {
      budgetRevenue == taxRate * gdp
    }

    /** The state's rates, approvals and districts within their bounds. */
    ghost predicate Bounded()
      reads this`unemployment, this`inflation, this`approvalGovernor, this`approvalLegislature, this`houseDistricts
    {
      EconBounded() && ApprovalsBounded() && DistrictsBounded()
    }

    /** `advance_economy`: one tick of the state economy, drawing three values
        (GDP noise, unemployment noise, inflation noise) in that order. */
    method AdvanceEconomy(growth: real, nationalInflation: real, rng: Rng)
      modifies this`gdp, this`unemployment, this`inflation, rng`pos
      ensures rng.pos == old(rng.pos) + 3
      ensures gdp == old(gdp) * (1.0 + StateGdpGrowth(growth, rng.stream(old(rng.pos))))
      ensures unemployment == StateNextUnemployment(old(unemployment), growth, rng.stream(old(rng.pos) + 1))
      ensures inflation == StateNextInflation(nationalInflation, rng.stream(old(rng.pos) + 2))
      ensures EconBounded()
      ensures old(gdp) > 0.0 ==> gdp > 0.0
    {
      var u := rng.Random();
      var g := StateGdpGrowth(growth, u);
      if gdp > 0.0 {
        GrowthKeepsSign(gdp, g);
      }
      gdp := gdp * (1.0 + g);
      u := rng.Random();
      unemployment := StateNextUnemployment(unemployment, growth, u);
      u := rng.Random();
      inflation := StateNextInflation(nationalInflation, u);
    }
  }
}
