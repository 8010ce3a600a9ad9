/** `MarketSimulation`: which view the market card shows, the colour band
    of each persona's willingness and the average interest line. */
module MarketView {
  import opened Util
  import opened Store
  import Market
  import Scoring

  datatype Mode = Loading | RunPrompt | Personas

  /** Loading first; then the prompt when there are no personas and a
      handler was supplied; else the persona cards. */
  function ModeFor(isLoading: bool, personaCount: nat, hasHandler: bool): (m: Mode)
    ensures isLoading ==> m == Loading
    ensures m == RunPrompt <==> !isLoading && personaCount == 0 && hasHandler
    ensures m == Personas <==> !isLoading && (personaCount > 0 || !hasHandler)
  {
    if isLoading then Loading
    else if personaCount == 0 && hasHandler then RunPrompt
    else Personas
  }

  datatype Band = High | Medium | Low

  /** The colour band of a willingness percentage: 70 and up, 50 and up,
      below. */
  function WillingnessBand(w: int): (b: Band)
    ensures b == High <==> w >= 70
    ensures b == Medium <==> 50 <= w < 70
    ensures b == Low <==> w < 50
  {
    if w >= 70 then High else if w >= 50 then Medium else Low
  }

  /** The percentage badge and the trend icon of a card are coloured by the
      same band. */
  datatype PersonaCard = PersonaCard(badge: Band, icon: Band)

  function CardFor(p: PersonaRow): (c: PersonaCard)
    ensures c.badge == c.icon
    ensures c.badge == High <==> p.willingness >= 70
    ensures c.badge == Low <==> p.willingness < 50
  {
    PersonaCard(WillingnessBand(p.willingness), WillingnessBand(p.willingness))
  }

  function Willingnesses(ps: seq<PersonaRow>): (ws: seq<int>)
    ensures |ws| == |ps| && forall i :: 0 <= i < |ps| ==> ws[i] == ps[i].willingness
  {
    seq(|ps|, i requires 0 <= i < |ps| => ps[i].willingness)
  }

  /** The least willingness of a non-empty list. */
  function Least(ws: seq<int>): (m: int)
    requires |ws| > 0
    ensures forall i :: 0 <= i < |ws| ==> m <= ws[i]
    ensures exists i :: 0 <= i < |ws| && m == ws[i]
    decreases |ws|
  {
    if |ws| == 1 then ws[0]
    else
      var rest := Least(ws[1..]);
      assert forall i :: 1 <= i < |ws| ==> ws[i] == ws[1..][i - 1];
      if ws[0] <= rest then ws[0] else rest
  }

  /** The greatest willingness of a non-empty list. */
  function Greatest(ws: seq<int>): (m: int)
    requires |ws| > 0
    ensures forall i :: 0 <= i < |ws| ==> ws[i] <= m
    ensures exists i :: 0 <= i < |ws| && m == ws[i]
    decreases |ws|
  {
    if |ws| == 1 then ws[0]
    else
      var rest := Greatest(ws[1..]);
      assert forall i :: 1 <= i < |ws| ==> ws[i] == ws[1..][i - 1];
      if ws[0] >= rest then ws[0] else rest
  }

  /** `Math.round(sum / count)`; an empty list divides zero by zero, which
      is not a number. Otherwise the rounded mean lies between the least
      and the greatest willingness. */
  function AverageInterest(ps: seq<PersonaRow>): (r: Option<int>)
    ensures r.None? <==> |ps| == 0
    ensures r.Some? ==> 2 * |ps| * r.value <= 2 * Sum(Willingnesses(ps)) + |ps| < 2 * |ps| * r.value + 2 * |ps|
    ensures r.Some? ==> Least(Willingnesses(ps)) <= r.value <= Greatest(Willingnesses(ps))
  {
    if |ps| == 0 then None
    else
      var ws := Willingnesses(ps);
      assert AllWithin(ws, Least(ws), Greatest(ws));
      RoundedMeanWithin(ws, Least(ws), Greatest(ws));
      Some(RoundHalfUp(Sum(ws), |ws|))
  }

  /** Three personas, each inside its own segment's willingness range,
      average between 45 and 72 percent: the sum lies in [135, 217]. */
  lemma ThreePersonasAverage(ps: seq<PersonaRow>)
    requires |ps| == 3
    requires forall i :: 0 <= i < 3 ==> Market.RangeMin(i) <= ps[i].willingness < Market.RangeMax(i)
    ensures 45 <= AverageInterest(ps).value <= 72
  {
    var ws := Willingnesses(ps);
    assert Market.RangeMin(0) == 45 && Market.RangeMax(0) == 75;
    assert Market.RangeMin(1) == 30 && Market.RangeMax(1) == 60;
    assert Market.RangeMin(2) == 60 && Market.RangeMax(2) == 85;
    assert Sum(ws[..1]) == ws[0];
    assert ws[..2][..1] == ws[..1];
    assert Sum(ws[..2]) == ws[0] + ws[1];
    assert ws[..3] == ws;
    assert Sum(ws) == ws[0] + ws[1] + ws[2];
    assert 135 <= Sum(ws) <= 217;
  }

  /** The three personas a simulation stores average between 45 and 72
      percent, whatever the idea and the segment texts. */
  lemma SimulatedPersonasAverage(input: Scoring.Idea, segments: seq<Market.SegmentPool>, ps: seq<PersonaRow>)
    requires Market.SegmentsWellFormed(segments)
    requires |ps| == 3
    requires forall i :: 0 <= i < 3 ==> ps[i].willingness == Market.SimulateMarket(input, segments)[i].willingness
    ensures 45 <= AverageInterest(ps).value <= 72
  {
    ThreePersonasAverage(ps);
  }
}
