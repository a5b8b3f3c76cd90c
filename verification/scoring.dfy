/**
 * The scoring half of the team predictor (`zNormalize` and the per-player `map` of
 * `scorePlayers`): every statistic is z-normalised over the pool, and each player gets a
 * batting score, a bowling score and a role score adjusted for format, pitch and strategy.
 * Arithmetic is on exact reals; the square root is a parameter.
 */
module Scoring {
  import opened Wrappers
  import opened Text
  import opened Players

  /** Mean and standard deviation of one statistic over the pool. */
  datatype ZStats = ZStats(mean: real, std: real)

  function Sum(v: seq<real>): real
    decreases |v|
  {
    if v == [] then 0.0 else v[0] + Sum(v[1..])
  }

  /** The sum of squared deviations from `m`. */
  function SumSqDev(v: seq<real>, m: real): real
    decreases |v|
  {
    if v == [] then 0.0 else (v[0] - m) * (v[0] - m) + SumSqDev(v[1..], m)
  }

  function Mean(v: seq<real>): real
    requires v != []
  {
    Sum(v) / (|v| as real)
  }

  /** The population variance. */
  function Variance(v: seq<real>): real
    requires v != []
  {
    SumSqDev(v, Mean(v)) / (|v| as real)
  }

  /**
   * `zNormalize(values)`: an empty list gives mean 0 and std 1; otherwise the mean and
   * `Math.sqrt(variance) || 1`, so the std is never zero.
   */
  function ZNormalize(values: seq<real>, sqrt: real -> real): (zs: ZStats)
    ensures zs.std != 0.0
    ensures values == [] ==> zs == ZStats(0.0, 1.0)
  {
    if |values| == 0 then ZStats(0.0, 1.0)
    else
      var root := sqrt(Variance(values));
      ZStats(Mean(values), if root == 0.0 then 1.0 else root)
  }

  /** What `Math.sqrt` computes on non-negative reals: 0 at 0, otherwise the positive root. */
  ghost predicate IsSqrt(sqrt: real -> real) {
    && sqrt(0.0) == 0.0
    && forall x :: 0.0 < x ==> 0.0 < sqrt(x) && sqrt(x) * sqrt(x) == x
  }

  predicate AllEqual(v: seq<real>) {
    forall i :: 0 <= i < |v| ==> v[i] == v[0]
  }

  lemma PositiveProduct(a: real, b: real)
    requires a > 0.0 && b > 0.0
    ensures a * b > 0.0
  {
  }

  lemma Square(d: real)
    ensures d * d >= 0.0
    ensures d != 0.0 ==> d * d > 0.0
  {
    if d < 0.0 {
      PositiveProduct(-d, -d);
      assert d * d == (-d) * (-d);
    } else if d > 0.0 {
      PositiveProduct(d, d);
    }
  }

  lemma {:induction false} SumSqDevNonNegative(v: seq<real>, m: real)
    ensures SumSqDev(v, m) >= 0.0
    decreases |v|
  {
    if v != [] {
      SumSqDevNonNegative(v[1..], m);
      Square(v[0] - m);
    }
  }

  lemma {:induction false} SumSqDevAllAt(v: seq<real>, m: real)
    requires forall i :: 0 <= i < |v| ==> v[i] == m
    ensures SumSqDev(v, m) == 0.0
    decreases |v|
  {
    if v != [] {
      assert v[0] - m == 0.0;
      assert forall i :: 0 <= i < |v[1..]| ==> v[1..][i] == v[i + 1];
      SumSqDevAllAt(v[1..], m);
    }
  }

  lemma {:induction false} SumConstant(v: seq<real>, c: real)
    requires forall i :: 0 <= i < |v| ==> v[i] == c
    ensures Sum(v) == (|v| as real) * c
    decreases |v|
  {
    if v != [] {
      assert forall i :: 0 <= i < |v[1..]| ==> v[1..][i] == v[i + 1];
      SumConstant(v[1..], c);
    }
  }

  lemma Cancel(n: real, c: real)
    requires n > 0.0
    ensures (n * c) / n == c
  {
  }

  /** The variance is never negative, and it is zero for a pool of equal values. */
  lemma {:induction false} VarianceOfEqual(v: seq<real>)
    requires v != []
    ensures Variance(v) >= 0.0
    ensures AllEqual(v) ==> Mean(v) == v[0] && Variance(v) == 0.0
  {
    var n := |v| as real;
    SumSqDevNonNegative(v, Mean(v));
    if AllEqual(v) {
      SumConstant(v, v[0]);
      assert Sum(v) == n * v[0];
      Cancel(n, v[0]);
      SumSqDevAllAt(v, v[0]);
    }
  }

  /** A pool where everyone has the same value: the mean is that value and the std falls back to 1. */
  lemma ZNormalizeConstant(v: seq<real>, sqrt: real -> real)
    requires v != [] && AllEqual(v)
    requires sqrt(0.0) == 0.0
    ensures ZNormalize(v, sqrt) == ZStats(v[0], 1.0)
  {
    VarianceOfEqual(v);
  }

  /**
   * With a true square root the std is positive: 1 when the variance is zero, otherwise the
   * square root of the variance.
   */
  lemma ZNormalizeSpread(v: seq<real>, sqrt: real -> real)
    requires v != [] && IsSqrt(sqrt)
    ensures ZNormalize(v, sqrt).std > 0.0
    ensures Variance(v) == 0.0 ==> ZNormalize(v, sqrt).std == 1.0
    ensures Variance(v) > 0.0 ==> ZNormalize(v, sqrt).std * ZNormalize(v, sqrt).std == Variance(v)
  {
    VarianceOfEqual(v);
  }

  /** `z(val, zstats)`. */
  function Z(val: real, zs: ZStats): real {
    (val - zs.mean) / (if zs.std == 0.0 then 1.0 else zs.std)
  }

  /** With a positive std, z-scores keep the order of the raw values and the mean maps to 0. */
  lemma ZMonotone(a: real, b: real, zs: ZStats)
    requires zs.std > 0.0 && a <= b
    ensures Z(a, zs) <= Z(b, zs)
    ensures Z(zs.mean, zs) == 0.0
  {
    assert Z(b, zs) - Z(a, zs) == (b - a) / zs.std;
  }

  /** `isRole(p, role)`: the lower-cased role contains the (already lower-case) needle. */
  predicate IsRole(role: string, needle: string) {
    Contains(Lower(role), needle)
  }

  /** `hasTag(p, tag)`: some lower-cased tag contains the (already lower-case) needle. */
  predicate HasTag(tags: seq<string>, needle: string)
    decreases |tags|
  {
    tags != [] && (Contains(Lower(tags[0]), needle) || HasTag(tags[1..], needle))
  }

  lemma {:induction false} HasTagExists(tags: seq<string>, needle: string)
    ensures HasTag(tags, needle) <==> exists i :: 0 <= i < |tags| && Contains(Lower(tags[i]), needle)
    decreases |tags|
  {
    if tags != [] {
      HasTagExists(tags[1..], needle);
      if exists i :: 0 <= i < |tags| && Contains(Lower(tags[i]), needle) {
        var i :| 0 <= i < |tags| && Contains(Lower(tags[i]), needle);
        if i > 0 {
          assert tags[1..][i - 1] == tags[i];
        }
      }
    }
  }

  /** Any tag containing "spinner" contains "spin", so the second test on line 45 never changes the outcome. */
  lemma SpinnerImpliesSpin(tags: seq<string>)
    ensures HasTag(tags, "spinner") ==> HasTag(tags, "spin")
  {
    if HasTag(tags, "spinner") {
      HasTagExists(tags, "spinner");
      var i :| 0 <= i < |tags| && Contains(Lower(tags[i]), "spinner");
      ContainsAt("spinner", "spin", 0);
      ContainsTransitive(Lower(tags[i]), "spinner", "spin");
      HasTagExists(tags, "spin");
    }
  }

  /** The four ways the predictor reads a role. */
  datatype RoleClass = Keeper | Bat | Bowl | AllRound

  /** The priority of lines 50-59 and 81-86: keeper, then batsman, then bowler, else all-rounder. */
  function Classify(role: string): RoleClass {
    if IsRole(role, "wicket-keeper") then Keeper
    else if IsRole(role, "batsman") then Bat
    else if IsRole(role, "bowler") then Bowl
    else AllRound
  }

  /** How the schema's five roles are classified; a "Wicket-keeper Batsman" is a keeper. */
  lemma ClassifyRoles()
    ensures Classify(Role.Batsman.Name()) == Bat
    ensures Classify(Role.Bowler.Name()) == Bowl
    ensures Classify(Role.AllRounder.Name()) == AllRound
    ensures Classify(Role.WicketKeeper.Name()) == Keeper
    ensures Classify(Role.WicketKeeperBatsman.Name()) == Keeper
    ensures IsRole(Role.WicketKeeperBatsman.Name(), "batsman")
  {
    ClassifyBatsman();
    ClassifyBowler();
    ClassifyAllRounder();
    ClassifyKeepers();
  }

  lemma ClassifyBatsman()
    ensures Classify("Batsman") == Bat
  {
    var bat := Lower("Batsman");
    assert bat == "batsman";
    NotContains(bat, "wicket-keeper");
    ContainsAt(bat, "batsman", 0);
  }

  lemma ClassifyBowler()
    ensures Classify("Bowler") == Bowl
  {
    var bowl := Lower("Bowler");
    assert bowl == "bowler";
    NotContains(bowl, "wicket-keeper");
    NotContains(bowl, "batsman");
    ContainsAt(bowl, "bowler", 0);
  }

  lemma ClassifyAllRounder()
    ensures Classify("All-rounder") == AllRound
  {
    LowerAllRounder();
    AllRounderLacks("wicket-keeper");
    AllRounderLacks("batsman");
    AllRounderLacks("bowler");
  }

  lemma AllRounderLacks(needle: string)
    requires needle != [] && (needle[0] == 'w' || needle[0] == 'b')
    ensures !Contains("all-rounder", needle)
  {
    var s := "all-rounder";
    assert forall i :: 0 <= i < |s| ==> s[i] != 'w' && s[i] != 'b';
    NotContains(s, needle);
  }

  lemma LowerAllRounder()
    ensures Lower("All-rounder") == "all-rounder"
  {
  }

  lemma ClassifyKeepers()
    ensures Classify("Wicket-keeper") == Keeper
    ensures Classify("Wicket-keeper Batsman") == Keeper
    ensures IsRole("Wicket-keeper Batsman", "batsman")
  {
    ClassifyKeeper();
    ClassifyKeeperBatsman();
    KeeperBatsmanMentionsBatsman();
  }

  lemma ClassifyKeeper()
    ensures Classify("Wicket-keeper") == Keeper
  {
    LowerKeeper();
    ContainsAt("wicket-keeper", "wicket-keeper", 0);
  }

  lemma ClassifyKeeperBatsman()
    ensures Classify("Wicket-keeper Batsman") == Keeper
  {
    var wkb := "wicket-keeper batsman";
    LowerKeeperBatsman();
    assert wkb[0..13] == "wicket-keeper";
    ContainsAt(wkb, "wicket-keeper", 0);
  }

  lemma LowerKeeper()
    ensures Lower("Wicket-keeper") == "wicket-keeper"
  {
  }

  lemma LowerKeeperBatsman()
    ensures Lower("Wicket-keeper Batsman") == "wicket-keeper batsman"
  {
  }

  lemma KeeperBatsmanMentionsBatsman()
    ensures IsRole("Wicket-keeper Batsman", "batsman")
  {
    var wkb := "wicket-keeper batsman";
    LowerKeeperBatsman();
    assert wkb[14..21] == "batsman";
    ContainsAt(wkb, "batsman", 14);
  }


  /** The statistics read by `p.stats?.<name> || 0`. */
  datatype Stat = Matches | Runs | Wickets | Average

  function StatOf(p: Player, s: Stat): real {
    match s
    case Matches => OrZero(p.stats.matches)
    case Runs => OrZero(p.stats.runs)
    case Wickets => OrZero(p.stats.wickets)
    case Average => OrZero(p.stats.average)
  }

  /** One statistic over the whole pool (`players.map(p => p.stats?.runs || 0)` and its siblings). */
  function Column(players: seq<Player>, s: Stat): (r: seq<real>)
    ensures |r| == |players|
    ensures forall i :: 0 <= i < |players| ==> r[i] == StatOf(players[i], s)
  {
    seq(|players|, i requires 0 <= i < |players| => StatOf(players[i], s))
  }

  /** `zr`, `zw`, `zm`, `za`. */
  datatype ZPool = ZPool(runs: ZStats, wickets: ZStats, matches: ZStats, average: ZStats)

  function PoolStats(players: seq<Player>, sqrt: real -> real): ZPool {
    ZPool(ZNormalize(Column(players, Runs), sqrt), ZNormalize(Column(players, Wickets), sqrt),
          ZNormalize(Column(players, Matches), sqrt), ZNormalize(Column(players, Average), sqrt))
  }

  /** The match conditions: `format`, `pitch` and `strategy` after their defaults. */
  datatype Conditions = Conditions(format: string, pitch: string, strategy: string)

  /** `Math.max(1, x)`. */
  function AtLeastOne(x: real): real {
    if x >= 1.0 then x else 1.0
  }

  function BaseBat(p: Player, zp: ZPool): real {
    0.6 * Z(StatOf(p, Runs), zp.runs) + 0.3 * Z(StatOf(p, Average), zp.average) + 0.1 * Z(StatOf(p, Matches), zp.matches)
  }

  function BaseBowl(p: Player, zp: ZPool): real {
    0.65 * Z(StatOf(p, Wickets), zp.wickets) + 0.25 * Z(1.0 / AtLeastOne(StatOf(p, Average)), zp.average)
      + 0.1 * Z(StatOf(p, Matches), zp.matches)
  }

  function FormatBat(p: Player, zp: ZPool, format: string): real {
    if format == "T20" then 0.1 * Z(StatOf(p, Runs) / AtLeastOne(StatOf(p, Matches)), zp.runs)
    else if format == "Test" then 0.1 * Z(StatOf(p, Average), zp.average)
    else 0.0
  }

  function FormatBowl(p: Player, zp: ZPool, format: string): real {
    if format == "T20" then 0.1 * Z(StatOf(p, Wickets) / AtLeastOne(StatOf(p, Matches)), zp.wickets)
    else if format == "Test" then 0.1 * Z(StatOf(p, Matches), zp.matches)
    else 0.0
  }

  function PitchBat(pitch: string): real {
    if pitch == "flat" then 0.2 else 0.0
  }

  function PitchBowl(p: Player, pitch: string): real {
    (if pitch == "spin" && (HasTag(p.tags, "spin") || HasTag(p.tags, "spinner")) then 0.3 else 0.0)
      + (if pitch == "pace" && (HasTag(p.tags, "pace") || HasTag(p.tags, "seam")) then 0.3 else 0.0)
  }

  /** `batScore` after the format and pitch tweaks. */
  function BatScore(p: Player, zp: ZPool, c: Conditions): real {
    BaseBat(p, zp) + FormatBat(p, zp, c.format) + PitchBat(c.pitch)
  }

  /** `bowlScore` after the format and pitch tweaks. */
  function BowlScore(p: Player, zp: ZPool, c: Conditions): real {
    BaseBowl(p, zp) + FormatBowl(p, zp, c.format) + PitchBowl(p, c.pitch)
  }

  /** `arScore`, taken from the scores before any tweak. */
  function ArScore(p: Player, zp: ZPool): real {
    0.5 * BaseBat(p, zp) + 0.5 * BaseBowl(p, zp)
  }

  function StrategyBonus(strategy: string, bat: real, bowl: real): real {
    (if strategy == "bat-heavy" then 0.15 * bat else 0.0) + (if strategy == "bowl-heavy" then 0.15 * bowl else 0.0)
  }

  /** `roleScore` after the strategy bonus: the `score` the predictor ranks by. */
  function Score(p: Player, zp: ZPool, c: Conditions): real {
    var bat := BatScore(p, zp, c);
    var bowl := BowlScore(p, zp, c);
    var role := match Classify(p.role)
      case Keeper => bat + 0.2
      case Bat => bat
      case Bowl => bowl
      case AllRound => ArScore(p, zp);
    role + StrategyBonus(c.strategy, bat, bowl)
  }

  /** An element of `scored`. */
  datatype Entry = Entry(player: Player, score: real, batScore: real, bowlScore: real)

  function ScoreOf(e: Entry): real {
    e.score
  }

  /** `scored`: one entry per player, in pool order, every statistic normalised over the whole pool. */
  function ScoreAll(players: seq<Player>, c: Conditions, sqrt: real -> real): (r: seq<Entry>)
    ensures |r| == |players|
    ensures forall i :: 0 <= i < |r| ==> r[i].player == players[i]
    ensures forall i :: 0 <= i < |r| ==> r[i].score == Score(players[i], PoolStats(players, sqrt), c)
    ensures forall i :: 0 <= i < |r| ==> r[i].batScore == BatScore(players[i], PoolStats(players, sqrt), c)
    ensures forall i :: 0 <= i < |r| ==> r[i].bowlScore == BowlScore(players[i], PoolStats(players, sqrt), c)
  {
    var zp := PoolStats(players, sqrt);
    seq(|players|, i requires 0 <= i < |players| =>
      Entry(players[i], Score(players[i], zp, c), BatScore(players[i], zp, c), BowlScore(players[i], zp, c)))
  }

  /**
   * What each pitch adds over a balanced one: 0.3 to the bowling score of a tagged spinner on a
   * spin pitch or a tagged seamer on a pace pitch, and 0.2 to every batting score on a flat pitch.
   */
  lemma PitchEffects(p: Player, zp: ZPool, format: string, strategy: string)
    ensures BowlScore(p, zp, Conditions(format, "spin", strategy))
         == BowlScore(p, zp, Conditions(format, "balanced", strategy)) + (if HasTag(p.tags, "spin") then 0.3 else 0.0)
    ensures BowlScore(p, zp, Conditions(format, "pace", strategy))
         == BowlScore(p, zp, Conditions(format, "balanced", strategy))
            + (if HasTag(p.tags, "pace") || HasTag(p.tags, "seam") then 0.3 else 0.0)
    ensures BatScore(p, zp, Conditions(format, "flat", strategy)) == BatScore(p, zp, Conditions(format, "balanced", strategy)) + 0.2
    ensures BowlScore(p, zp, Conditions(format, "flat", strategy)) == BowlScore(p, zp, Conditions(format, "balanced", strategy))
    ensures BatScore(p, zp, Conditions(format, "spin", strategy)) == BatScore(p, zp, Conditions(format, "balanced", strategy))
    ensures BatScore(p, zp, Conditions(format, "pace", strategy)) == BatScore(p, zp, Conditions(format, "balanced", strategy))
  {
    SpinnerImpliesSpin(p.tags);
  }

  /** A batting-heavy strategy adds 0.15 of the batting score, a bowling-heavy one 0.15 of the bowling score. */
  lemma StrategyEffects(p: Player, zp: ZPool, format: string, pitch: string)
    ensures Score(p, zp, Conditions(format, pitch, "bat-heavy"))
         == Score(p, zp, Conditions(format, pitch, "balanced")) + 0.15 * BatScore(p, zp, Conditions(format, pitch, "balanced"))
    ensures Score(p, zp, Conditions(format, pitch, "bowl-heavy"))
         == Score(p, zp, Conditions(format, pitch, "balanced")) + 0.15 * BowlScore(p, zp, Conditions(format, pitch, "balanced"))
  {
  }

  /**
   * An all-rounder's score under a balanced strategy does not depend on format or pitch: the
   * all-rounder score is taken before the tweaks.
   */
  lemma AllRounderIgnoresConditions(p: Player, zp: ZPool, f1: string, p1: string, f2: string, p2: string)
    requires Classify(p.role) == AllRound
    ensures Score(p, zp, Conditions(f1, p1, "balanced")) == Score(p, zp, Conditions(f2, p2, "balanced"))
  {
  }

  /** A keeper ranks by the batting score plus 0.2. */
  lemma KeeperScore(p: Player, zp: ZPool, c: Conditions)
    requires Classify(p.role) == Keeper && c.strategy == "balanced"
    ensures Score(p, zp, c) == BatScore(p, zp, c) + 0.2
  {
  }
}
