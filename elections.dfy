/** The election model as pure formulas: cohort scores, national and state
    signals, the district, statewide and generic win probabilities, seat
    counting with its tie-break, share normalisation, and the approval nudge
    that follows a change of chamber control. */
module Elections {
  import opened Basics
  import opened Draws
  import opened Entities

  /** +1 for a Democratic lean, -1 for a Republican one, 0 otherwise. */
  function LeanSign(p: PartyID): real
  {
    match p
    case Democrat => 1.0
    case Republican => -1.0
    case Independent => 0.0
  }

  function Contribution(c: VoterCohort): real
  {
    c.share * c.turnout * LeanSign(c.lean)
  }

  /** Partisan score of a list of cohorts: the sum of share x turnout x lean
      sign, accumulated from the first cohort to the last. */
  function CohortScore(cs: seq<VoterCohort>): real
  {
    if cs == [] then 0.0 else CohortScore(cs[..|cs| - 1]) + Contribution(cs[|cs| - 1])
  }

  /** The score's sign follows the leans: an all-Independent electorate scores
      0, all-Democratic cohorts at least 0 and all-Republican ones at most 0. */
  lemma {:induction false} CohortScoreSign(cs: seq<VoterCohort>)
    ensures (forall k :: 0 <= k < |cs| ==> cs[k].lean == Independent) ==> CohortScore(cs) == 0.0
    ensures (forall k :: 0 <= k < |cs| ==> cs[k].lean == Democrat && cs[k].share >= 0.0 && cs[k].turnout >= 0.0) ==>
              CohortScore(cs) >= 0.0
    ensures (forall k :: 0 <= k < |cs| ==> cs[k].lean == Republican && cs[k].share >= 0.0 && cs[k].turnout >= 0.0) ==>
              CohortScore(cs) <= 0.0
  {
    if cs != [] {
      CohortScoreSign(cs[..|cs| - 1]);
    }
  }

  /** The partisan score loop of `_district_dem_probability` and
      `_statewide_dem_probability` (an Independent cohort adds nothing). */
  method ComputeCohortScore(cs: seq<VoterCohort>) returns (score: real)
    ensures score == CohortScore(cs)
  {
    score := 0.0;
    var i := 0;
    while i < |cs|
      invariant 0 <= i <= |cs|
      invariant score == CohortScore(cs[..i])
    {
      var c := cs[i];
      assert cs[..i + 1][..i] == cs[..i];
      if c.lean == Democrat {
        score := score + c.share * c.turnout * 1.0;
      } else if c.lean == Republican {
        score := score + c.share * c.turnout * -1.0;
      }
      i := i + 1;
    }
    assert cs[..i] == cs;
  }

  function SumShares(cs: seq<VoterCohort>): real
  {
    if cs == [] then 0.0 else SumShares(cs[..|cs| - 1]) + cs[|cs| - 1].share
  }

  ghost predicate WellFormedCohorts(cs: seq<VoterCohort>)
  {
    forall i :: 0 <= i < |cs| ==> cs[i].share >= 0.0 && 0.0 <= cs[i].turnout <= 1.0
  }

  lemma ContributionBound(c: VoterCohort)
    requires c.share >= 0.0 && 0.0 <= c.turnout <= 1.0
    ensures -c.share <= Contribution(c) <= c.share
  {
    var st := c.share * c.turnout;
    assert 0.0 <= st <= c.share by {
      ScaleDown(c.share, c.turnout);
    }
  }

  lemma ScaleDown(a: real, t: real)
    requires a >= 0.0 && 0.0 <= t <= 1.0
    ensures 0.0 <= a * t <= a
  {
    assert a * (1.0 - t) >= 0.0;
  }

  /** With non-negative shares and turnouts in [0, 1], the partisan score is
      bounded by the total share: for normalised cohorts it lies in [-1, 1]. */
  lemma {:induction false} CohortScoreBound(cs: seq<VoterCohort>)
    requires WellFormedCohorts(cs)
    ensures -SumShares(cs) <= CohortScore(cs) <= SumShares(cs)
  {
    if cs != [] {
      var init := cs[..|cs| - 1];
      assert WellFormedCohorts(init) by {
        forall i | 0 <= i < |init| ensures init[i].share >= 0.0 && 0.0 <= init[i].turnout <= 1.0 {
          assert init[i] == cs[i];
        }
      }
      CohortScoreBound(init);
      ContributionBound(cs[|cs| - 1]);
    }
  }

  /** `_national_signal_dem`: the economy signal (growth - 0.2 inflation -
      0.3 unemployment) weighted 0.02 plus presidential approval above 50
      weighted 0.01. */
  function NationalSignalDem(growth: real, inflation: real, unemployment: real, approvalPresident: real): (r: real)
    ensures growth >= 0.2 * inflation + 0.3 * unemployment && approvalPresident >= 50.0 ==> r >= 0.0
    ensures growth <= 0.2 * inflation + 0.3 * unemployment && approvalPresident <= 50.0 ==> r <= 0.0
    ensures growth == 0.2 * inflation + 0.3 * unemployment ==> (r > 0.0 <==> approvalPresident > 50.0)
  {
    var economySignal := growth - inflation * 0.2 - unemployment * 0.3;
    var approvalSignal := approvalPresident - 50.0;
    0.02 * economySignal + 0.01 * approvalSignal
  }

  function PartySign(p: PartyID): real
  {
    if p == Democrat then 1.0 else -1.0
  }

  /** `_state_signal_dem`: governor approval above 50 and legislature approval
      above 40, each scaled by 1/200 and signed by the controlling party. */
  function StateSignalDem(approvalGovernor: real, approvalLegislature: real,
                          governorParty: PartyID, legislatureHouse: PartyID): (r: real)
    ensures approvalGovernor == 50.0 && approvalLegislature == 40.0 ==> r == 0.0
    ensures (governorParty == Democrat && legislatureHouse == Democrat
             && approvalGovernor >= 50.0 && approvalLegislature >= 40.0) ==> r >= 0.0
    ensures (governorParty != Democrat && legislatureHouse != Democrat
             && approvalGovernor >= 50.0 && approvalLegislature >= 40.0) ==> r <= 0.0
  {
    var gov := (approvalGovernor - 50.0) / 200.0;
    var leg := (approvalLegislature - 40.0) / 200.0;
    gov * PartySign(governorParty) + leg * PartySign(legislatureHouse)
  }

  /** Each signal rises with the approval of a Democratic office holder and
      falls with the approval of a Republican one. */
  lemma StateSignalFollowsGovernor(a1: real, a2: real, leg: real, gp: PartyID, hp: PartyID)
    requires a1 <= a2
    ensures gp == Democrat ==> StateSignalDem(a1, leg, gp, hp) <= StateSignalDem(a2, leg, gp, hp)
    ensures gp != Democrat ==> StateSignalDem(a1, leg, gp, hp) >= StateSignalDem(a2, leg, gp, hp)
  {
  }

  /** The incumbency edge: +0.02 for a Democrat, -0.02 for a Republican. */
  function IncumbencyEdge(p: PartyID): real
  {
    match p
    case Democrat => 0.02
    case Republican => -0.02
    case Independent => 0.0
  }

  /** `_district_dem_probability`, given the district's cohort score, the two
      signals and the noise draw (uniform in [-0.03, 0.03]). */
  function DistrictDemProbability(score: real, d: District, national: real, stateSignal: real, u: Unit): (p: real)
    ensures 0.05 <= p <= 0.95
  {
    var base := 0.5 + 0.15 * score + d.swing + d.turnoutBias + IncumbencyEdge(d.incumbent)
                + national + 0.5 * stateSignal + Scale(-0.03, 0.03, u);
    Clamp(0.05, 0.95, base)
  }

  /** A district that swings further toward the Democrats is never less
      likely to elect one. */
  lemma DistrictSwingMonotone(score: real, d: District, s: real, national: real, stateSignal: real, u: Unit)
    requires d.swing <= s
    ensures DistrictDemProbability(score, d, national, stateSignal, u)
            <= DistrictDemProbability(score, d.(swing := s), national, stateSignal, u)
  {
    var b := 0.5 + 0.15 * score + d.swing + d.turnoutBias + IncumbencyEdge(d.incumbent)
             + national + 0.5 * stateSignal + Scale(-0.03, 0.03, u);
    var b' := 0.5 + 0.15 * score + s + d.turnoutBias + IncumbencyEdge(d.incumbent)
              + national + 0.5 * stateSignal + Scale(-0.03, 0.03, u);
    ClampMonotone(0.05, 0.95, b, b');
  }

  /** A Democratic incumbent never leaves the Democratic probability below
      what a Republican incumbent would. */
  lemma DistrictIncumbencyOrder(score: real, d: District, national: real, stateSignal: real, u: Unit)
    ensures DistrictDemProbability(score, d.(incumbent := Republican), national, stateSignal, u)
            <= DistrictDemProbability(score, d.(incumbent := Democrat), national, stateSignal, u)
  {
    var r := d.(incumbent := Republican);
    var m := d.(incumbent := Democrat);
    var b := 0.5 + 0.15 * score + r.swing + r.turnoutBias + IncumbencyEdge(r.incumbent)
             + national + 0.5 * stateSignal + Scale(-0.03, 0.03, u);
    var b' := 0.5 + 0.15 * score + m.swing + m.turnoutBias + IncumbencyEdge(m.incumbent)
              + national + 0.5 * stateSignal + Scale(-0.03, 0.03, u);
    ClampMonotone(0.05, 0.95, b, b');
  }

  /** `_statewide_dem_probability`: statewide cohorts weighted 0.12, half the
      state signal, the full national signal, incumbency and noise in
      [-0.03, 0.03]; no district swing or turnout terms. */
  function StatewideDemProbability(score: real, incumbent: PartyID, national: real, stateSignal: real, u: Unit): (p: real)
    ensures 0.05 <= p <= 0.95
  {
    var base := 0.5 + 0.12 * score + 0.5 * stateSignal + national + IncumbencyEdge(incumbent)
                + Scale(-0.03, 0.03, u);
    Clamp(0.05, 0.95, base)
  }

  /** One seat: Democrat when the draw falls below the Democratic probability,
      Republican otherwise; never Independent. */
  function SeatWinner(pDem: real, u: Unit): (w: PartyID)
    ensures w == Democrat <==> u < pDem
    ensures w != Independent
  {
    if u < pDem then Democrat else Republican
  }

  /** The winner of a House race: the district probability, then the draw. */
  function DistrictRaceWinner(d: District, national: real, stateSignal: real, uNoise: Unit, uWin: Unit): (w: PartyID)
    ensures w != Independent
    ensures w == Democrat <==> uWin < DistrictDemProbability(CohortScore(d.cohorts), d, national, stateSignal, uNoise)
  {
    SeatWinner(DistrictDemProbability(CohortScore(d.cohorts), d, national, stateSignal, uNoise), uWin)
  }

  /** Control of a chamber from its seat counts; a tie goes to the Democrats. */
  function ChamberControl(dem: nat, rep: nat): (p: PartyID)
    ensures p != Independent
    ensures p == Democrat <==> rep <= dem
  {
    if dem >= rep then Democrat else Republican
  }

  function CountSeats(seats: seq<PartyID>, p: PartyID): (n: nat)
    ensures n <= |seats|
  {
    if seats == [] then 0 else CountSeats(seats[..|seats| - 1], p) + (if seats[|seats| - 1] == p then 1 else 0)
  }

  function CountIncumbents(ds: seq<District>, p: PartyID): (n: nat)
    ensures n <= |ds|
  {
    if ds == [] then 0 else CountIncumbents(ds[..|ds| - 1], p) + (if ds[|ds| - 1].incumbent == p then 1 else 0)
  }

  /** The House tally of `maybe_run_elections`: every winner is a major
      party, so a seat that is not Democratic is Republican. */
  method CountHouse(ds: seq<District>) returns (dem: nat, rep: nat)
    requires forall i :: 0 <= i < |ds| ==> ds[i].incumbent != Independent
    ensures dem == CountIncumbents(ds, Democrat) && rep == CountIncumbents(ds, Republican)
    ensures dem + rep == |ds|
  {
    dem, rep := 0, 0;
    var i := 0;
    while i < |ds|
      invariant 0 <= i <= |ds|
      invariant dem == CountIncumbents(ds[..i], Democrat) && rep == CountIncumbents(ds[..i], Republican)
      invariant dem + rep == i
    {
      assert ds[..i + 1][..i] == ds[..i];
      if ds[i].incumbent == Democrat {
        dem := dem + 1;
      } else {
        rep := rep + 1;
      }
      i := i + 1;
    }
    assert ds[..i] == ds;
  }

  /** The Senate tally of `maybe_run_elections`: Democratic and Republican
      seats are counted, unheld seats are not. */
  method CountSenate(seats: seq<PartyID>) returns (dem: nat, rep: nat)
    ensures dem == CountSeats(seats, Democrat) && rep == CountSeats(seats, Republican)
    ensures dem + rep <= |seats|
  {
    dem, rep := 0, 0;
    var i := 0;
    while i < |seats|
      invariant 0 <= i <= |seats|
      invariant dem == CountSeats(seats[..i], Democrat) && rep == CountSeats(seats[..i], Republican)
      invariant dem + rep <= i
    {
      assert seats[..i + 1][..i] == seats[..i];
      if seats[i] == Democrat {
        dem := dem + 1;
      } else if seats[i] == Republican {
        rep := rep + 1;
      }
      i := i + 1;
    }
    assert seats[..i] == seats;
  }

  /** When every seat is held by a major party, the two counts add up to the
      number of seats. */
  lemma {:induction false} MajorPartyCountsCover(ds: seq<District>)
    requires forall i :: 0 <= i < |ds| ==> ds[i].incumbent != Independent
    ensures CountIncumbents(ds, Democrat) + CountIncumbents(ds, Republican) == |ds|
  {
    if ds != [] {
      MajorPartyCountsCover(ds[..|ds| - 1]);
    }
  }

  /** The count of one party's incumbents depends only on the incumbents. */
  lemma {:induction false} CountIncumbentsOnlyIncumbents(ds: seq<District>, es: seq<District>, p: PartyID)
    requires |ds| == |es|
    requires forall i :: 0 <= i < |ds| ==> ds[i].incumbent == es[i].incumbent
    ensures CountIncumbents(ds, p) == CountIncumbents(es, p)
  {
    if ds != [] {
      CountIncumbentsOnlyIncumbents(ds[..|ds| - 1], es[..|es| - 1], p);
    }
  }

  /** After a House election: the same districts, each now held by a major
      party, with nothing but the incumbent changed. */
  predicate Reelected(before: seq<District>, after: seq<District>)
  {
    && |before| == |after|
    && forall k :: 0 <= k < |after| ==>
         after[k] == before[k].(incumbent := after[k].incumbent) && after[k].incumbent != Independent
  }

  /** A House election moves no district's swing or turnout bias, so it
      keeps them in range. */
  lemma ReelectedKeepsBounds(before: seq<District>, after: seq<District>)
    requires Reelected(before, after) && BoundedDistricts(before)
    ensures BoundedDistricts(after)
  {
    forall k | 0 <= k < |after|
      ensures -0.2 <= after[k].swing <= 0.2 && -0.1 <= after[k].turnoutBias <= 0.1
    {
      assert after[k].swing == before[k].swing && after[k].turnoutBias == before[k].turnoutBias;
    }
  }

  /** After a Senate cycle: each seat whose class is up is held by a major
      party, every other seat keeps its holder. */
  predicate SenateCycleResult(before: seq<PartyID>, after: seq<PartyID>, classes: seq<int>, cycle: int)
  {
    && |after| == |before| && |classes| == |before|
    && forall i :: 0 <= i < |after| ==>
         if classes[i] == cycle then after[i] != Independent else after[i] == before[i]
  }

  datatype Chamber = House | Senate

  datatype ElectionResult = ElectionResult(winnerParty: PartyID, probDem: real, economySignal: real, approvalSignal: real)

  /** A single race (`Election`): level, optional chamber and office, year. */
  datatype Election = Election(level: string, chamber: Option<Chamber> := None, office: Option<string> := None, year: int := 0) {

    /** `run`: a base probability from the economy and the office's approval
        (presidential approval above 50 for the President, congressional
        approval above 30 otherwise), clamped, plus noise in [-0.05, 0.05],
        clamped again; the win draw decides. */
    function Run(growth: real, inflation: real, unemployment: real,
                 approvalPresident: real, approvalCongress: real, uNoise: Unit, uWin: Unit): (r: ElectionResult)
      ensures 0.05 <= r.probDem <= 0.95
      ensures r.winnerParty != Independent
      ensures r.winnerParty == Democrat <==> uWin < r.probDem
    {
      var economySignal := growth - inflation * 0.2 - unemployment * 0.3;
      var approvalSignal := if office == Some("President") then approvalPresident - 50.0 else approvalCongress - 30.0;
      var base := Clamp(0.05, 0.95, 0.5 + 0.02 * economySignal + 0.01 * approvalSignal);
      var probDem := Clamp(0.05, 0.95, base + Scale(-0.05, 0.05, uNoise));
      ElectionResult(SeatWinner(probDem, uWin), probDem, economySignal, approvalSignal)
    }
  }

  /** Rescale every share by `total`. */
  function Rescaled(cs: seq<VoterCohort>, total: real): (r: seq<VoterCohort>)
    requires total != 0.0
    ensures |r| == |cs|
    ensures forall i :: 0 <= i < |cs| ==> r[i] == cs[i].(share := cs[i].share / total)
  {
    seq(|cs|, i requires 0 <= i < |cs| => cs[i].(share := cs[i].share / total))
  }

  lemma DivAdd(a: real, b: real, t: real)
    requires t != 0.0
    ensures a / t + b / t == (a + b) / t
  {
  }

  lemma {:induction false} RescaledSum(cs: seq<VoterCohort>, total: real)
    requires total != 0.0
    ensures SumShares(Rescaled(cs, total)) == SumShares(cs) / total
  {
    if cs != [] {
      var init := cs[..|cs| - 1];
      assert Rescaled(cs, total)[..|cs| - 1] == Rescaled(init, total);
      RescaledSum(init, total);
      DivAdd(SumShares(init), cs[|cs| - 1].share, total);
    }
  }

  lemma DivSelf(t: real)
    requires t != 0.0
    ensures t / t == 1.0
  {
  }

  /** Dividing every share by their total makes the shares sum to exactly 1. */
  lemma NormalizedSumsToOne(cs: seq<VoterCohort>)
    requires SumShares(cs) != 0.0
    ensures SumShares(Rescaled(cs, SumShares(cs))) == 1.0
  {
    var s := SumShares(cs);
    RescaledSum(cs, s);
    DivSelf(s);
  }

  /** Shares that are each at least 0.05 have a positive total. */
  lemma {:induction false} SumSharesPositive(cs: seq<VoterCohort>)
    requires |cs| > 0
    requires forall i :: 0 <= i < |cs| ==> cs[i].share >= 0.05
    ensures SumShares(cs) >= 0.05
  {
    if |cs| > 1 {
      SumSharesPositive(cs[..|cs| - 1]);
    }
  }

  /** The approval nudge after elections: a House that changed hands moves
      presidential approval by 1 and congressional approval by 0.5, a Senate
      that changed hands moves presidential approval by 0.5, upward when the
      new majority is the president's party and downward otherwise; each
      moved value is clamped to [0, 100]. */
  function ApprovalsAfterResults(approvalPresident: real, approvalCongress: real,
                                 prevHouse: PartyID, prevSenate: PartyID,
                                 congress: Congress, presidentParty: PartyID): (r: (real, real))
    ensures congress.houseControl == prevHouse && congress.senateControl == prevSenate ==>
              r == (approvalPresident, approvalCongress)
    ensures congress.houseControl == prevHouse ==> r.1 == approvalCongress
    ensures congress.houseControl != prevHouse || congress.senateControl != prevSenate ==> 0.0 <= r.0 <= 100.0
    ensures congress.houseControl != prevHouse ==> 0.0 <= r.1 <= 100.0
  {
    var (p1, c1) :=
      if congress.houseControl != prevHouse then
        if congress.houseControl == presidentParty then
          (Clamp(0.0, 100.0, approvalPresident + 1.0), Clamp(0.0, 100.0, approvalCongress + 0.5))
        else
          (Clamp(0.0, 100.0, approvalPresident - 1.0), Clamp(0.0, 100.0, approvalCongress - 0.5))
      else (approvalPresident, approvalCongress);
    var p2 :=
      if congress.senateControl != prevSenate then
        if congress.senateControl == presidentParty then Clamp(0.0, 100.0, p1 + 0.5)
        else Clamp(0.0, 100.0, p1 - 0.5)
      else p1;
    (p2, c1)
  }

  /** Results that hand every changed chamber to the president's party never
      lower an in-range approval; results that hand every changed chamber to
      the other party never raise one. */
  lemma AlignmentDirection(approvalPresident: real, approvalCongress: real,
                           prevHouse: PartyID, prevSenate: PartyID,
                           congress: Congress, presidentParty: PartyID)
    requires 0.0 <= approvalPresident <= 100.0 && 0.0 <= approvalCongress <= 100.0
    ensures (congress.houseControl == prevHouse || congress.houseControl == presidentParty) &&
            (congress.senateControl == prevSenate || congress.senateControl == presidentParty) ==>
              var r := ApprovalsAfterResults(approvalPresident, approvalCongress, prevHouse, prevSenate, congress, presidentParty);
              r.0 >= approvalPresident && r.1 >= approvalCongress
    ensures (congress.houseControl == prevHouse || congress.houseControl != presidentParty) &&
            (congress.senateControl == prevSenate || congress.senateControl != presidentParty) ==>
              var r := ApprovalsAfterResults(approvalPresident, approvalCongress, prevHouse, prevSenate, congress, presidentParty);
              r.0 <= approvalPresident && r.1 <= approvalCongress
  {
  }
}
