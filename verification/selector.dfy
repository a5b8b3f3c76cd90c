/**
 * `scorePlayers` as the route runs it: the pool and the keepers are sorted in place, then four
 * passes over the sorted pool push onto the lineup and the bench and bump the role counters.
 * `ScorePlayers` is proved to return `Predict`, the specification in `Selection`; the handler of
 * `POST /team` chooses the pool and rejects an empty one.
 */
module Selector {
  import opened Wrappers
  import opened Seqs
  import opened Players
  import opened Scoring
  import opened StableSort
  import opened Selection

  /** The `counts` object that `roleAdd` updates. */
  class RoleCounter {
    var bats: nat
    var bowls: nat
    var ar: nat
    var keepers: nat

    function Value(): Counts
      reads this
    {
      Counts(bats, bowls, ar, keepers)
    }

    constructor()
      ensures Value() == NoCounts
    {
      bats, bowls, ar, keepers := 0, 0, 0, 0;
    }

    /** `roleAdd(p)`: the first matching test decides which counter goes up. */
    method Add(p: Player)
      modifies this
      ensures Value() == RoleAdd(old(Value()), p)
    {
      if IsRole(p.role, "wicket-keeper") {
        keepers := keepers + 1;
      } else if IsRole(p.role, "batsman") {
        bats := bats + 1;
      } else if IsRole(p.role, "bowler") {
        bowls := bowls + 1;
      } else {
        ar := ar + 1;
      }
    }
  }

  /** Copies `s` into a fresh array and sorts it in place by descending score (`arr.sort(...)`). */
  method SortedByScore(s: seq<Entry>) returns (r: seq<Entry>)
    ensures r == SortDesc(s, ScoreOf)
  {
    var a := new Entry[|s|](i requires 0 <= i < |s| => s[i]);
    assert a[..] == s;
    SortInPlace(a, ScoreOf);
    r := a[..];
  }

  /** Lines 89-95: walk the sorted pool and push every locked player until the lineup is full. */
  method LockLoop(sorted: seq<Entry>, p: Params, counts: RoleCounter) returns (xi: seq<Entry>)
    modifies counts
    ensures State(xi, counts.Value()) == LockPass(sorted, p.locks, p.maxXI, State([], old(counts.Value())))
  {
    xi := [];
    var i := 0;
    assert sorted[0..] == sorted;
    while i < |sorted|
      invariant 0 <= i <= |sorted|
      invariant LockPass(sorted[i..], p.locks, p.maxXI, State(xi, counts.Value()))
             == LockPass(sorted, p.locks, p.maxXI, State([], old(counts.Value())))
    {
      if |xi| >= p.maxXI {
        break;
      }
      assert sorted[i..][1..] == sorted[i + 1..];
      if sorted[i].player.id in p.locks {
        xi := xi + [sorted[i]];
        counts.Add(sorted[i].player);
      }
      i := i + 1;
    }
  }

  /** Lines 98-104: with no keeper yet, push the best keeper not already in the lineup. */
  method EnsureKeeper(keepers: seq<Entry>, xi0: seq<Entry>, counts: RoleCounter) returns (xi: seq<Entry>)
    modifies counts
    ensures State(xi, counts.Value()) == KeeperStep(keepers, State(xi0, old(counts.Value())))
  {
    xi := xi0;
    if !HasKeeper(xi) && |keepers| > 0 {
      var k := FindUnpicked(keepers, xi);
      if k.Some? {
        xi := xi + [k.value];
        counts.Add(k.value.player);
      }
    }
  }

  /** Lines 107-128: skip players already in and push those whose role is under quota, until full. */
  method FillLoop(sorted: seq<Entry>, p: Params, xi0: seq<Entry>, counts: RoleCounter) returns (xi: seq<Entry>)
    modifies counts
    ensures State(xi, counts.Value()) == Fill(sorted, p.strategy, p.maxXI, State(xi0, old(counts.Value())))
  {
    xi := xi0;
    var i := 0;
    assert sorted[0..] == sorted;
    while i < |sorted|
      invariant 0 <= i <= |sorted|
      invariant Fill(sorted[i..], p.strategy, p.maxXI, State(xi, counts.Value()))
             == Fill(sorted, p.strategy, p.maxXI, State(xi0, old(counts.Value())))
    {
      if |xi| >= p.maxXI {
        break;
      }
      assert sorted[i..][1..] == sorted[i + 1..];
      var e := sorted[i];
      if e.player.id !in Ids(xi) {
        var wantBats := if p.strategy == "bat-heavy" then 6 else 5;
        var wantBowls := if p.strategy == "bowl-heavy" then 5 else 4;
        var wantAR := p.maxXI - 1 - wantBats - wantBowls;
        var isK := IsRole(e.player.role, "wicket-keeper");
        var isB := IsRole(e.player.role, "batsman");
        var isBow := IsRole(e.player.role, "bowler");
        var isAR := !isB && !isBow && !isK;
        if || (isK && !HasKeeper(xi))
           || (isB && counts.bats < wantBats)
           || (isBow && counts.bowls < wantBowls)
           || (isAR && counts.ar < wantAR)
        {
          xi := xi + [e];
          counts.Add(e.player);
        }
      }
      i := i + 1;
    }
  }

  /** Lines 131-135: push the best players not yet in until full. */
  method BackfillLoop(sorted: seq<Entry>, maxXI: nat, xi0: seq<Entry>) returns (xi: seq<Entry>)
    ensures xi == Backfill(sorted, maxXI, xi0)
  {
    xi := xi0;
    var i := 0;
    assert sorted[0..] == sorted;
    while i < |sorted|
      invariant 0 <= i <= |sorted|
      invariant Backfill(sorted[i..], maxXI, xi) == Backfill(sorted, maxXI, xi0)
    {
      if |xi| >= maxXI {
        break;
      }
      assert sorted[i..][1..] == sorted[i + 1..];
      if sorted[i].player.id !in Ids(xi) {
        xi := xi + [sorted[i]];
      }
      i := i + 1;
    }
  }

  /** Lines 138-140: every pool entry not in the lineup, best first. */
  method BenchLoop(sorted: seq<Entry>, xi: seq<Entry>) returns (bench: seq<Entry>)
    ensures bench == BenchOf(sorted, xi)
  {
    bench := [];
    var i := 0;
    assert sorted[0..] == sorted;
    while i < |sorted|
      invariant 0 <= i <= |sorted|
      invariant bench + BenchOf(sorted[i..], xi) == BenchOf(sorted, xi)
    {
      assert sorted[i..][1..] == sorted[i + 1..];
      if sorted[i].player.id !in Ids(xi) {
        bench := bench + [sorted[i]];
      }
      i := i + 1;
    }
  }

  /** Lines 76-128: the three passes that record roles, on a fresh counter. */
  method CountedPasses(sorted: seq<Entry>, keepers: seq<Entry>, p: Params) returns (xi: seq<Entry>, c: Counts)
    ensures State(xi, c) == Filled(sorted, keepers, p)
  {
    var counts := new RoleCounter();
    xi := LockLoop(sorted, p, counts);
    xi := EnsureKeeper(keepers, xi, counts);
    xi := FillLoop(sorted, p, xi, counts);
    c := counts.Value();
  }

  /** Lines 76-150 on the sorted pool and the sorted keepers: the four passes, the notes and the cuts. */
  method SelectLoops(sorted: seq<Entry>, keepers: seq<Entry>, p: Params) returns (res: Outcome)
    ensures res == Select(sorted, keepers, p)
  {
    var xi, c := CountedPasses(sorted, keepers, p);
    xi := BackfillLoop(sorted, p.maxXI, xi);
    var bench := BenchLoop(sorted, xi);

    var notes: seq<string> := [];
    if c.bowls + c.ar < 5 {
      notes := notes + [BowlingNote];
    }
    if !HasKeeper(xi) {
      notes := notes + [KeeperNote];
    }
    res := Outcome(Picks(Take(xi, p.maxXI)), Picks(Take(bench, 5)), notes);
  }

  /** `scorePlayers(players, params)`, proved to compute `Predict`. */
  method ScorePlayers(players: seq<Player>, p: Params, sqrt: real -> real) returns (res: Outcome)
    ensures res == Predict(players, p, sqrt)
  {
    var scored := ScoreAll(players, p.Conditions(), sqrt);
    var keepers := SortedByScore(KeepersOf(scored));
    var sorted := SortedByScore(scored);
    res := SelectLoops(sorted, keepers, p);
  }

  /** The body of `POST /team`; a field left out is `None`. */
  datatype TeamRequest = TeamRequest(
    playerIds: Option<seq<string>>,
    format: Option<string>,
    pitch: Option<string>,
    strategy: Option<string>,
    locks: Option<seq<string>>,
    maxXI: Option<nat>)

  /** The destructuring defaults of `scorePlayers`. */
  function ParamsOf(r: TeamRequest): Params {
    Params(r.format.GetOr("ODI"), r.pitch.GetOr("balanced"), r.strategy.GetOr("balanced"), r.locks.GetOr([]), r.maxXI.GetOr(11))
  }

  /** `{ _id: { $in: ids } }` as a test on one player. */
  function Listed(ids: seq<string>): Player -> bool {
    (q: Player) => q.id in ids
  }

  /**
   * `Player.find(query)`: the players whose id is listed, every copy, in stored order, or everyone
   * when no non-empty list is given.
   */
  function PoolOf(db: seq<Player>, ids: Option<seq<string>>): (r: seq<Player>)
    ensures ids.None? || ids.value == [] ==> r == db
    ensures forall i :: 0 <= i < |r| ==> r[i] in db
    ensures ids.Some? && ids.value != [] ==> forall i :: 0 <= i < |r| ==> r[i].id in ids.value
    ensures ids.Some? ==> forall i :: 0 <= i < |db| && db[i].id in ids.value ==> db[i] in r
    ensures ids.Some? && ids.value != [] ==> IsSubseq(r, db)
    ensures ids.Some? && ids.value != [] ==> forall x :: multiset(r)[x] == if x.id in ids.value then multiset(db)[x] else 0
  {
    if ids.Some? && |ids.value| > 0 then
      FilterIsSubseq(db, Listed(ids.value));
      FilterCount(db, Listed(ids.value));
      Filter(db, Listed(ids.value))
    else db
  }

  datatype Response = Ok(outcome: Outcome) | BadRequest(message: string)

  const NoPlayersMessage := "No players available to predict team."

  /** `POST /team`: an empty pool is a 400; otherwise the prediction for the pool. */
  method PredictTeam(db: seq<Player>, req: TeamRequest, sqrt: real -> real) returns (r: Response)
    ensures PoolOf(db, req.playerIds) == [] ==> r == BadRequest(NoPlayersMessage)
    ensures PoolOf(db, req.playerIds) != [] ==> r == Ok(Predict(PoolOf(db, req.playerIds), ParamsOf(req), sqrt))
  {
    var players := PoolOf(db, req.playerIds);
    if |players| == 0 {
      return BadRequest(NoPlayersMessage);
    }
    var result := ScorePlayers(players, ParamsOf(req), sqrt);
    r := Ok(result);
  }

  /** A pool drawn from a collection with unique ids has unique ids. */
  lemma PoolDistinct(db: seq<Player>, ids: Option<seq<string>>)
    requires DistinctIds(db)
    ensures DistinctIds(PoolOf(db, ids))
  {
    if ids.Some? && |ids.value| > 0 {
      FilterDistinct(db, Listed(ids.value), (q: Player) => q.id);
    }
  }

  /**
   * Without a `maxXI` in the request, a successful prediction names eleven players, or the whole
   * pool when it is smaller, none of them twice.
   */
  lemma PredictTeamSize(db: seq<Player>, req: TeamRequest, sqrt: real -> real)
    requires DistinctIds(db) && req.maxXI.None?
    ensures |Predict(PoolOf(db, req.playerIds), ParamsOf(req), sqrt).xi| == Min(11, |PoolOf(db, req.playerIds)|)
  {
    PoolDistinct(db, req.playerIds);
    PredictSize(PoolOf(db, req.playerIds), ParamsOf(req), sqrt);
  }
}
