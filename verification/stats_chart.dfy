/**
 * The statistics charts (`components/StatsChart.jsx`): the ten best run-scorers with their
 * country colours, and the run totals of the five best countries. `countryRuns` is the object
 * the component fills in a loop; JavaScript objects list string keys in insertion order, which
 * decides the order of tied countries.
 */
module StatsChart {
  import opened Wrappers
  import opened Seqs
  import opened Players
  import opened StableSort

  /** `p.stats.runs`; a missing value counts as 0. */
  function RunsOf(p: Player): real {
    OrZero(p.stats.runs)
  }

  function WicketsOf(p: Player): real {
    OrZero(p.stats.wickets)
  }

  // ---------------------------------------------------------------------------------------------
  // Colours

  const Fallback := "rgba(54, 162, 235, 0.6)"

  /** The bar colour of each country with a colour of its own. */
  const Palette: map<string, string> := map[
    "West Indies" := "#800000",
    "New Zealand" := "#808080",
    "Australia" := "#FFD700",
    "South Africa" := "#006400",
    "Pakistan" := "#90EE90",
    "England" := "#f1f0f0ff"]

  /** `countryColor`: the country's own colour, or the fallback for any other country. */
  function CountryColor(country: string): (r: string)
    ensures country !in Palette ==> r == Fallback
    ensures country in Palette ==> r == Palette[country] && r != Fallback
  {
    if country in Palette then Palette[country] else Fallback
  }

  /** `borderForColor`: a darker border for the six coloured countries, the fill colour otherwise. */
  function BorderForColor(color: string, country: string): (r: string)
    ensures country !in Palette ==> r == color
  {
    if country == "England" then "#CC8400"
    else if country == "Australia" then "#CCAC00"
    else if country == "Pakistan" then "#66BB66"
    else if country == "New Zealand" then "#666666"
    else if country == "South Africa" then "#004d00"
    else if country == "West Indies" then "#5c0000"
    else color
  }

  /** Every country with a colour of its own gets a border that differs from its fill. */
  lemma BorderStandsOut(country: string)
    requires country in Palette
    ensures BorderForColor(CountryColor(country), country) != CountryColor(country)
  {
  }

  // ---------------------------------------------------------------------------------------------
  // Top run-scorers

  /** `[...players].sort((a, b) => b.stats.runs - a.stats.runs).slice(0, 10)` on values. */
  function TopRunsOf(players: seq<Player>): seq<Player> {
    Take(SortDesc(players, RunsOf), 10)
  }

  /** `topRuns`: the list is copied into a fresh array, sorted there, and cut to ten. */
  method TopRuns(players: seq<Player>) returns (top: seq<Player>)
    ensures top == TopRunsOf(players)
  {
    var copy := new Player[|players|](i requires 0 <= i < |players| => players[i]);
    assert copy[..] == players;
    SortInPlace(copy, RunsOf);
    top := Take(copy[..], 10);
  }

  /**
   * At most ten players, by non-increasing runs, all from the input; none left out has more
   * runs than any one shown.
   */
  lemma TopRunsCorrect(players: seq<Player>)
    ensures |TopRunsOf(players)| == Min(10, |players|)
    ensures SortedDesc(TopRunsOf(players), RunsOf)
    ensures forall i :: 0 <= i < |TopRunsOf(players)| ==> TopRunsOf(players)[i] in players
    ensures forall i, k :: 0 <= i < |TopRunsOf(players)| && 10 <= k < |SortDesc(players, RunsOf)| ==>
              RunsOf(SortDesc(players, RunsOf)[k]) <= RunsOf(TopRunsOf(players)[i])
  {
    var sorted := SortDesc(players, RunsOf);
    SortDescCorrect(players, RunsOf);
    SortDescMembers(players, RunsOf);
    var top := TopRunsOf(players);
    assert forall i :: 0 <= i < |top| ==> top[i] == sorted[i];
  }

  // ---------------------------------------------------------------------------------------------
  // Runs by country

  /** The `countryRuns` object: its values, and its keys in insertion order. */
  datatype CountryRuns = CountryRuns(totals: map<string, real>, order: seq<string>)

  /** The keys are listed once each, in some order. */
  ghost predicate WellFormed(cr: CountryRuns) {
    (forall c :: c in cr.order <==> c in cr.totals) && NoDuplicates(cr.order)
  }

  /** One step of the `forEach`: a player with a country adds its runs to that country's total. */
  function AddPlayer(cr: CountryRuns, p: Player): CountryRuns {
    if p.country == [] then cr
    else
      var c := p.country;
      CountryRuns(
        cr.totals[c := (if c in cr.totals then cr.totals[c] else 0.0) + RunsOf(p)],
        if c in cr.totals then cr.order else cr.order + [c])
  }

  /** `countryRuns` after the loop over `players`. */
  function Totals(players: seq<Player>): CountryRuns
    decreases |players|
  {
    if players == [] then CountryRuns(map[], [])
    else AddPlayer(Totals(players[..|players| - 1]), players[|players| - 1])
  }

  /** The runs of the players whose country is exactly `c`. */
  function RunsFrom(players: seq<Player>, c: string): real
    decreases |players|
  {
    if players == [] then 0.0
    else RunsFrom(players[..|players| - 1], c) + (if players[|players| - 1].country == c then RunsOf(players[|players| - 1]) else 0.0)
  }

  /** Lines 87-93: the loop that fills `countryRuns`. */
  method CountryRunsOf(players: seq<Player>) returns (cr: CountryRuns)
    ensures cr == Totals(players)
  {
    var totals: map<string, real> := map[];
    var order: seq<string> := [];
    var i := 0;
    while i < |players|
      invariant 0 <= i <= |players|
      invariant CountryRuns(totals, order) == Totals(players[..i])
    {
      var p := players[i];
      assert players[..i + 1][..i] == players[..i];
      if p.country != [] {
        if p.country !in totals {
          order := order + [p.country];
        }
        totals := totals[p.country := (if p.country in totals then totals[p.country] else 0.0) + RunsOf(p)];
      }
      i := i + 1;
    }
    assert players[..i] == players;
    cr := CountryRuns(totals, order);
  }

  /**
   * The keys of `countryRuns` are exactly the non-empty countries of the players, each listed
   * once, and each total is the sum of the runs of that country's players.
   */
  lemma {:induction false} TotalsCorrect(players: seq<Player>)
    ensures WellFormed(Totals(players))
    ensures forall c :: c in Totals(players).totals <==> c != [] && exists i :: 0 <= i < |players| && players[i].country == c
    ensures forall c :: c in Totals(players).totals ==> Totals(players).totals[c] == RunsFrom(players, c)
    decreases |players|
  {
    if players != [] {
      var init := players[..|players| - 1];
      var p := players[|players| - 1];
      TotalsCorrect(init);
      var cr := Totals(init);
      forall c | c in Totals(players).totals ensures Totals(players).totals[c] == RunsFrom(players, c) {
        if c != p.country {
          assert c in cr.totals;
        } else if c !in cr.totals {
          RunsFromAbsent(init, c);
        }
      }
      forall c ensures c in Totals(players).totals <==> c != [] && exists i :: 0 <= i < |players| && players[i].country == c {
        if c != [] && exists i :: 0 <= i < |players| && players[i].country == c {
          var i :| 0 <= i < |players| && players[i].country == c;
          if i < |players| - 1 {
            assert init[i].country == c;
          }
        }
        if c in cr.totals {
          var i :| 0 <= i < |init| && init[i].country == c;
          assert players[i].country == c;
        }
      }
    }
  }

  /** A country no player has contributes nothing. */
  lemma {:induction false} RunsFromAbsent(players: seq<Player>, c: string)
    requires forall i :: 0 <= i < |players| ==> players[i].country != c
    ensures RunsFrom(players, c) == 0.0
    decreases |players|
  {
    if players != [] {
      RunsFromAbsent(players[..|players| - 1], c);
    }
  }

  /** A `[country, total]` pair of `Object.entries(countryRuns)`. */
  datatype CountryTotal = CountryTotal(country: string, runs: real)

  function TotalOf(e: CountryTotal): real {
    e.runs
  }

  /** `Object.entries(countryRuns)`: the pairs in key insertion order. */
  function Entries(cr: CountryRuns): (r: seq<CountryTotal>)
    requires WellFormed(cr)
    ensures |r| == |cr.order|
    ensures forall i :: 0 <= i < |r| ==> r[i].country in cr.totals && r[i].runs == cr.totals[r[i].country]
  {
    seq(|cr.order|, i requires 0 <= i < |cr.order| => CountryTotal(cr.order[i], cr.totals[cr.order[i]]))
  }

  /** Lines 95-97: the five countries with the most runs, ties in insertion order. */
  function TopCountries(cr: CountryRuns): seq<CountryTotal>
    requires WellFormed(cr)
  {
    Take(SortDesc(Entries(cr), TotalOf), 5)
  }

  /** At most five entries, by non-increasing total, each a key of `countryRuns` with its total. */
  lemma TopCountriesCorrect(players: seq<Player>)
    ensures WellFormed(Totals(players))
    ensures |TopCountries(Totals(players))| <= 5
    ensures SortedDesc(TopCountries(Totals(players)), TotalOf)
    ensures forall i :: 0 <= i < |TopCountries(Totals(players))| ==>
              TopCountries(Totals(players))[i].country in Totals(players).totals &&
              TopCountries(Totals(players))[i].runs == RunsFrom(players, TopCountries(Totals(players))[i].country)
  {
    TotalsCorrect(players);
    var cr := Totals(players);
    var es := Entries(cr);
    TopOfSort(es, TotalOf, 5);
    var top := TopCountries(cr);
    forall i | 0 <= i < |top|
      ensures top[i].country in cr.totals && top[i].runs == RunsFrom(players, top[i].country)
    {
      var j :| 0 <= j < |es| && es[j] == top[i];
    }
  }

  // ---------------------------------------------------------------------------------------------
  // The component

  /** The data the two charts draw. */
  datatype Charts = Charts(
    labels: seq<string>,
    runs: seq<real>,
    wickets: seq<real>,
    background: seq<string>,
    border: seq<string>,
    countries: seq<CountryTotal>)

  /** What the component renders: the no-data message, or the two charts. */
  datatype View = NoData | Drawn(charts: Charts)

  function ChartsOf(top: seq<Player>, countries: seq<CountryTotal>): (c: Charts)
    ensures |c.labels| == |c.runs| == |c.wickets| == |c.background| == |c.border| == |top|
    ensures forall i :: 0 <= i < |top| ==> c.labels[i] == top[i].name && c.runs[i] == RunsOf(top[i])
    ensures forall i :: 0 <= i < |top| ==> c.wickets[i] == WicketsOf(top[i])
    ensures forall i :: 0 <= i < |top| ==> c.background[i] == CountryColor(top[i].country)
    ensures forall i :: 0 <= i < |top| ==> c.border[i] == BorderForColor(CountryColor(top[i].country), top[i].country)
    ensures c.countries == countries
  {
    Charts(
      seq(|top|, i requires 0 <= i < |top| => top[i].name),
      seq(|top|, i requires 0 <= i < |top| => RunsOf(top[i])),
      seq(|top|, i requires 0 <= i < |top| => WicketsOf(top[i])),
      seq(|top|, i requires 0 <= i < |top| => CountryColor(top[i].country)),
      seq(|top|, i requires 0 <= i < |top| => BorderForColor(CountryColor(top[i].country), top[i].country)),
      countries)
  }

  /** `StatsChart({ players })`: a missing or empty list shows the message and draws nothing. */
  method Render(players: Option<seq<Player>>) returns (v: View)
    ensures v.NoData? <==> players.None? || players.value == []
    ensures v.Drawn? ==> WellFormed(Totals(players.value))
    ensures v.Drawn? ==> v.charts == ChartsOf(TopRunsOf(players.value), TopCountries(Totals(players.value)))
  {
    if players.None? || |players.value| == 0 {
      return NoData;
    }
    var top := TopRuns(players.value);
    var cr := CountryRunsOf(players.value);
    TotalsCorrect(players.value);
    v := Drawn(ChartsOf(top, TopCountries(cr)));
  }
}
