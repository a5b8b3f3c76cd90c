/**
 * The selection half of `scorePlayers`, as pure functions of the sorted pool: locked players
 * first, then one keeper, then a quota-driven fill, then an unconditional backfill; the bench and
 * the notes; finally both lists are cut to size. `Selector.ScorePlayers` runs the same steps
 * imperatively and is proved to compute `Predict`.
 */
module Selection {
  import opened Wrappers
  import opened Seqs
  import opened Players
  import opened Scoring
  import opened StableSort

  /** The predictor's parameters after their defaults (`ODI`, `balanced`, `balanced`, `[]`, 11). */
  datatype Params = Params(format: string, pitch: string, strategy: string, locks: seq<string>, maxXI: nat) {
    function Conditions(): Conditions {
      Scoring.Conditions(format, pitch, strategy)
    }
  }

  /** `counts`: how many players of each kind `roleAdd` has recorded. */
  datatype Counts = Counts(bats: nat, bowls: nat, ar: nat, keepers: nat)

  const NoCounts := Counts(0, 0, 0, 0)

  function Total(c: Counts): nat {
    c.bats + c.bowls + c.ar + c.keepers
  }

  /** `roleAdd(p)`: exactly one counter goes up, the one `Classify` picks. */
  function RoleAdd(c: Counts, p: Player): (r: Counts)
    ensures Total(r) == Total(c) + 1
    ensures r.keepers > c.keepers <==> Classify(p.role) == Keeper
    ensures r.bats > c.bats <==> Classify(p.role) == Bat
    ensures r.bowls > c.bowls <==> Classify(p.role) == Bowl
    ensures r.ar > c.ar <==> Classify(p.role) == AllRound
    ensures r.keepers >= c.keepers && r.bats >= c.bats && r.bowls >= c.bowls && r.ar >= c.ar
  {
    match Classify(p.role)
    case Keeper => c.(keepers := c.keepers + 1)
    case Bat => c.(bats := c.bats + 1)
    case Bowl => c.(bowls := c.bowls + 1)
    case AllRound => c.(ar := c.ar + 1)
  }

  /** The counts `roleAdd` would reach by recording every player of `xi` in order. */
  function Tally(xi: seq<Entry>): Counts
    decreases |xi|
  {
    if xi == [] then NoCounts else RoleAdd(Tally(xi[..|xi| - 1]), xi[|xi| - 1].player)
  }

  lemma {:induction false} TallyTotal(xi: seq<Entry>)
    ensures Total(Tally(xi)) == |xi|
    decreases |xi|
  {
    if xi != [] {
      TallyTotal(xi[..|xi| - 1]);
    }
  }

  /** `String(x.player._id)` for every entry, in order. */
  function Ids(xi: seq<Entry>): (r: seq<string>)
    ensures |r| == |xi|
    ensures forall i :: 0 <= i < |xi| ==> r[i] == xi[i].player.id
  {
    seq(|xi|, i requires 0 <= i < |xi| => xi[i].player.id)
  }

  predicate IsKeeper(e: Entry) {
    IsRole(e.player.role, "wicket-keeper")
  }

  /** `xi.some(s => isRole(s.player, 'wicket-keeper'))`. */
  predicate HasKeeper(xi: seq<Entry>) {
    exists i :: 0 <= i < |xi| && IsKeeper(xi[i])
  }

  /** The lineup under construction and the role counters. */
  datatype State = State(xi: seq<Entry>, counts: Counts)

  const Start := State([], NoCounts)

  /** `xi.push(s); roleAdd(s.player)`. */
  function Push(st: State, e: Entry): State {
    State(st.xi + [e], RoleAdd(st.counts, e.player))
  }

  /** The counters record exactly the players of the lineup. */
  predicate Counted(st: State) {
    st.counts == Tally(st.xi)
  }

  /** The loop of lines 89-95: walk the sorted pool and push every locked player until the lineup is full. */
  function LockPass(s: seq<Entry>, locks: seq<string>, maxXI: nat, st: State): State
    decreases |s|
  {
    if s == [] || |st.xi| >= maxXI then st
    else LockPass(s[1..], locks, maxXI, if s[0].player.id in locks then Push(st, s[0]) else st)
  }

  /** The pool entries whose id is locked, in pool order. */
  function LockedIn(s: seq<Entry>, locks: seq<string>): seq<Entry>
    decreases |s|
  {
    if s == [] then [] else (if s[0].player.id in locks then [s[0]] else []) + LockedIn(s[1..], locks)
  }

  /** `keepers.find(s => !xi.some(...))`: the first keeper whose id is not yet in the lineup. */
  function FindUnpicked(ks: seq<Entry>, xi: seq<Entry>): (r: Option<Entry>)
    ensures r.Some? ==> r.value in ks && r.value.player.id !in Ids(xi)
    ensures r.Some? ==> exists i :: 0 <= i < |ks| && ks[i] == r.value && forall j :: 0 <= j < i ==> ks[j].player.id in Ids(xi)
    ensures r.None? ==> forall i :: 0 <= i < |ks| ==> ks[i].player.id in Ids(xi)
    decreases |ks|
  {
    if ks == [] then None
    else if ks[0].player.id !in Ids(xi) then Some(ks[0])
    else
      var r := FindUnpicked(ks[1..], xi);
      assert r.Some? ==> exists i :: 1 <= i < |ks| && ks[i] == r.value && forall j :: 1 <= j < i ==> ks[j].player.id in Ids(xi) by {
        if r.Some? {
          var i :| 0 <= i < |ks[1..]| && ks[1..][i] == r.value && forall j :: 0 <= j < i ==> ks[1..][j].player.id in Ids(xi);
          assert ks[i + 1] == r.value;
          assert forall j :: 1 <= j < i + 1 ==> ks[j] == ks[1..][j - 1];
        }
      }
      r
  }

  /** Lines 98-104: with no keeper in the lineup, push the best unpicked keeper, even past `maxXI`. */
  function KeeperStep(ks: seq<Entry>, st: State): State {
    if !HasKeeper(st.xi) && |ks| > 0 then
      match FindUnpicked(ks, st.xi)
      case Some(k) => Push(st, k)
      case None => st
    else st
  }

  function WantBats(strategy: string): int {
    if strategy == "bat-heavy" then 6 else 5
  }

  function WantBowls(strategy: string): int {
    if strategy == "bowl-heavy" then 5 else 4
  }

  /** One slot is left flexible; the result is negative when `maxXI` is small. */
  function WantAR(strategy: string, maxXI: nat): int {
    maxXI - 1 - WantBats(strategy) - WantBowls(strategy)
  }

  /**
   * Lines 117-127: whether the quota pass takes `e`. The tests use the raw role flags, so a
   * "Wicket-keeper Batsman" can be taken under the batting quota although `roleAdd` counts a keeper.
   */
  predicate Admits(e: Entry, strategy: string, maxXI: nat, st: State) {
    var role := e.player.role;
    var isK := IsRole(role, "wicket-keeper");
    var isB := IsRole(role, "batsman");
    var isBow := IsRole(role, "bowler");
    var isAR := !isB && !isBow && !isK;
    || (isK && !HasKeeper(st.xi))
    || (isB && st.counts.bats < WantBats(strategy))
    || (isBow && st.counts.bowls < WantBowls(strategy))
    || (isAR && st.counts.ar < WantAR(strategy, maxXI))
  }

  /** The loop of lines 107-128: skip players already in, push those a quota admits, stop when full. */
  function Fill(s: seq<Entry>, strategy: string, maxXI: nat, st: State): State
    decreases |s|
  {
    if s == [] || |st.xi| >= maxXI then st
    else if s[0].player.id in Ids(st.xi) then Fill(s[1..], strategy, maxXI, st)
    else Fill(s[1..], strategy, maxXI, if Admits(s[0], strategy, maxXI, st) then Push(st, s[0]) else st)
  }

  /** The loop of lines 131-135: push the best players not yet in until full, without counting them. */
  function Backfill(s: seq<Entry>, maxXI: nat, xi: seq<Entry>): seq<Entry>
    decreases |s|
  {
    if s == [] || |xi| >= maxXI then xi
    else Backfill(s[1..], maxXI, if s[0].player.id in Ids(xi) then xi else xi + [s[0]])
  }

  /** The loop of lines 138-140: every pool entry whose id is not in the lineup, in pool order. */
  function BenchOf(s: seq<Entry>, xi: seq<Entry>): seq<Entry>
    decreases |s|
  {
    if s == [] then [] else (if s[0].player.id !in Ids(xi) then [s[0]] else []) + BenchOf(s[1..], xi)
  }

  const BowlingNote := "Bowling options below 5; consider adding a bowler/all-rounder."
  const KeeperNote := "No wicket-keeper selected; please tag a keeper."

  /** Lines 142-144. */
  function Notes(c: Counts, xi: seq<Entry>): seq<string> {
    (if c.bowls + c.ar < 5 then [BowlingNote] else []) + (if !HasKeeper(xi) then [KeeperNote] else [])
  }

  /** `{ player, score }`. */
  datatype Pick = Pick(player: Player, score: real)

  function Picks(xi: seq<Entry>): (r: seq<Pick>)
    ensures |r| == |xi|
    ensures forall i :: 0 <= i < |xi| ==> r[i] == Pick(xi[i].player, xi[i].score)
  {
    seq(|xi|, i requires 0 <= i < |xi| => Pick(xi[i].player, xi[i].score))
  }

  /** The response of `scorePlayers`. */
  datatype Outcome = Outcome(xi: seq<Pick>, bench: seq<Pick>, notes: seq<string>)

  /** The lineup after the lock pass. */
  function Seeded(s: seq<Entry>, p: Params): State {
    LockPass(s, p.locks, p.maxXI, Start)
  }

  /** The lineup and counters after the keeper step and the quota pass. */
  function Filled(s: seq<Entry>, ks: seq<Entry>, p: Params): State {
    Fill(s, p.strategy, p.maxXI, KeeperStep(ks, Seeded(s, p)))
  }

  /** The lineup before truncation: after the backfill. */
  function Lineup(s: seq<Entry>, ks: seq<Entry>, p: Params): seq<Entry> {
    Backfill(s, p.maxXI, Filled(s, ks, p).xi)
  }

  /** The selection phase on the sorted pool `s` and the sorted keepers `ks` (lines 75-150). */
  function Select(s: seq<Entry>, ks: seq<Entry>, p: Params): Outcome {
    var lineup := Lineup(s, ks, p);
    Outcome(Picks(Take(lineup, p.maxXI)), Picks(Take(BenchOf(s, lineup), 5)), Notes(Filled(s, ks, p).counts, lineup))
  }

  /** The keeper entries of the pool, in pool order (`scored.filter(...)`). */
  function KeepersOf(scored: seq<Entry>): seq<Entry> {
    Filter(scored, IsKeeper)
  }

  /** `scorePlayers(players, params)`. */
  function Predict(players: seq<Player>, p: Params, sqrt: real -> real): Outcome {
    var scored := ScoreAll(players, p.Conditions(), sqrt);
    Select(SortDesc(scored, ScoreOf), SortDesc(KeepersOf(scored), ScoreOf), p)
  }

  // ---------------------------------------------------------------------------------------------
  // Properties of the selection phase

  /** No two entries share an id. */
  predicate DistinctEntries(s: seq<Entry>) {
    forall i, j :: 0 <= i < j < |s| ==> s[i].player.id != s[j].player.id
  }

  /** Every entry of `xi` is an entry of the pool. */
  predicate Within(xi: seq<Entry>, s: seq<Entry>) {
    forall i :: 0 <= i < |xi| ==> xi[i] in s
  }

  /** What the selection lemmas assume of their inputs; `Predict` establishes it (`PredictInputs`). */
  predicate GoodInputs(s: seq<Entry>, ks: seq<Entry>) {
    && DistinctEntries(s)
    && Within(ks, s)
    && (forall i :: 0 <= i < |ks| ==> IsKeeper(ks[i]))
  }

  /** What holds of the lineup at every step: no repeats, drawn from the pool, counted. */
  predicate Good(s: seq<Entry>, st: State) {
    DistinctEntries(st.xi) && Within(st.xi, s) && Counted(st)
  }

  lemma PushGood(s: seq<Entry>, st: State, e: Entry)
    requires Good(s, st) && e in s && e.player.id !in Ids(st.xi)
    ensures Good(s, Push(st, e))
  {
    var xi := st.xi + [e];
    assert xi[..|xi| - 1] == st.xi;
    forall i, j | 0 <= i < j < |xi| ensures xi[i].player.id != xi[j].player.id {
      if j == |xi| - 1 {
        assert xi[i].player.id == Ids(st.xi)[i];
      }
    }
  }

  /** Two pool entries with the same id are the same entry. */
  lemma SameId(s: seq<Entry>, a: Entry, b: Entry)
    requires DistinctEntries(s) && a in s && b in s && a.player.id == b.player.id
    ensures a == b
  {
  }

  lemma {:induction false} LockPassGood(s: seq<Entry>, locks: seq<string>, maxXI: nat, st: State, pool: seq<Entry>)
    requires Good(pool, st) && Within(s, pool) && DistinctEntries(s)
    requires forall i :: 0 <= i < |s| ==> s[i].player.id !in Ids(st.xi)
    ensures Good(pool, LockPass(s, locks, maxXI, st))
    decreases |s|
  {
    if s != [] && |st.xi| < maxXI {
      var next := if s[0].player.id in locks then Push(st, s[0]) else st;
      if s[0].player.id in locks {
        PushGood(pool, st, s[0]);
        assert Ids(next.xi) == Ids(st.xi) + [s[0].player.id];
      }
      forall i | 0 <= i < |s[1..]| ensures s[1..][i].player.id !in Ids(next.xi) {
        assert s[1..][i] == s[i + 1];
      }
      LockPassGood(s[1..], locks, maxXI, next, pool);
    }
  }

  lemma {:induction false} LockPassSeeds(s: seq<Entry>, locks: seq<string>, maxXI: nat, st: State)
    requires |st.xi| <= maxXI
    ensures LockPass(s, locks, maxXI, st).xi == st.xi + Take(LockedIn(s, locks), maxXI - |st.xi|)
    decreases |s|
  {
    if s == [] {
    } else if |st.xi| >= maxXI {
      assert Take(LockedIn(s, locks), 0) == [];
    } else if s[0].player.id in locks {
      var next := Push(st, s[0]);
      assert LockPass(s, locks, maxXI, st) == LockPass(s[1..], locks, maxXI, next);
      LockPassSeeds(s[1..], locks, maxXI, next);
      var rest := Take(LockedIn(s[1..], locks), maxXI - |next.xi|);
      assert LockedIn(s, locks) == [s[0]] + LockedIn(s[1..], locks);
      TakeCons(s[0], LockedIn(s[1..], locks), maxXI - |st.xi|);
      assert next.xi + rest == st.xi + ([s[0]] + rest);
    } else {
      LockPassSeeds(s[1..], locks, maxXI, st);
      assert LockedIn(s, locks) == LockedIn(s[1..], locks);
    }
  }

  lemma TakeCons<T>(x: T, s: seq<T>, n: nat)
    requires n >= 1
    ensures Take([x] + s, n) == [x] + Take(s, n - 1)
  {
  }

  /** Only whether each pool id is locked matters, so locked ids absent from the pool change nothing. */
  lemma {:induction false} LockPassOnlyPoolIds(s: seq<Entry>, l1: seq<string>, l2: seq<string>, maxXI: nat, st: State)
    requires forall i :: 0 <= i < |s| ==> (s[i].player.id in l1 <==> s[i].player.id in l2)
    ensures LockPass(s, l1, maxXI, st) == LockPass(s, l2, maxXI, st)
    decreases |s|
  {
    if s != [] && |st.xi| < maxXI {
      var next := if s[0].player.id in l1 then Push(st, s[0]) else st;
      assert forall i :: 0 <= i < |s[1..]| ==> s[1..][i] == s[i + 1];
      LockPassOnlyPoolIds(s[1..], l1, l2, maxXI, next);
    }
  }

  /** Locks that agree on the pool give the same outcome. */
  lemma SelectOnlyPoolLocks(s: seq<Entry>, ks: seq<Entry>, p: Params, locks: seq<string>)
    requires forall i :: 0 <= i < |s| ==> (s[i].player.id in p.locks <==> s[i].player.id in locks)
    ensures Select(s, ks, p) == Select(s, ks, p.(locks := locks))
  {
    LockPassOnlyPoolIds(s, p.locks, locks, p.maxXI, Start);
  }

  lemma KeeperStepGood(s: seq<Entry>, ks: seq<Entry>, st: State)
    requires Good(s, st) && GoodInputs(s, ks)
    ensures Good(s, KeeperStep(ks, st))
    ensures st.xi <= KeeperStep(ks, st).xi
    ensures |KeeperStep(ks, st).xi| <= |st.xi| + 1
  {
    if !HasKeeper(st.xi) && |ks| > 0 {
      var r := FindUnpicked(ks, st.xi);
      if r.Some? {
        PushGood(s, st, r.value);
      }
    }
  }

  lemma {:induction false} FillGood(s: seq<Entry>, strategy: string, maxXI: nat, st: State, pool: seq<Entry>)
    requires Good(pool, st) && Within(s, pool)
    ensures Good(pool, Fill(s, strategy, maxXI, st))
    ensures st.xi <= Fill(s, strategy, maxXI, st).xi
    ensures |st.xi| <= maxXI ==> |Fill(s, strategy, maxXI, st).xi| <= maxXI
    ensures |st.xi| > maxXI ==> Fill(s, strategy, maxXI, st) == st
    decreases |s|
  {
    if s != [] && |st.xi| < maxXI {
      if s[0].player.id in Ids(st.xi) {
        FillGood(s[1..], strategy, maxXI, st, pool);
      } else {
        var next := if Admits(s[0], strategy, maxXI, st) then Push(st, s[0]) else st;
        if Admits(s[0], strategy, maxXI, st) {
          PushGood(pool, st, s[0]);
        }
        FillGood(s[1..], strategy, maxXI, next, pool);
      }
    }
  }

  lemma {:induction false} BackfillGood(s: seq<Entry>, maxXI: nat, xi: seq<Entry>, pool: seq<Entry>)
    requires DistinctEntries(xi) && Within(xi, pool) && Within(s, pool)
    ensures DistinctEntries(Backfill(s, maxXI, xi)) && Within(Backfill(s, maxXI, xi), pool)
    ensures xi <= Backfill(s, maxXI, xi)
    ensures |xi| <= maxXI ==> |Backfill(s, maxXI, xi)| <= maxXI
    ensures |xi| > maxXI ==> Backfill(s, maxXI, xi) == xi
    decreases |s|
  {
    if s != [] && |xi| < maxXI {
      var next := if s[0].player.id in Ids(xi) then xi else xi + [s[0]];
      if s[0].player.id !in Ids(xi) {
        PushGood(pool, State(xi, Tally(xi)), s[0]);
      }
      BackfillGood(s[1..], maxXI, next, pool);
    }
  }

  /** A backfill that stops short of `maxXI` has taken every pool entry it walked. */
  lemma {:induction false} BackfillCovers(s: seq<Entry>, maxXI: nat, xi: seq<Entry>)
    ensures xi <= Backfill(s, maxXI, xi)
    ensures |Backfill(s, maxXI, xi)| < maxXI ==>
              forall i :: 0 <= i < |s| ==> s[i].player.id in Ids(Backfill(s, maxXI, xi))
    decreases |s|
  {
    if s != [] && |xi| < maxXI {
      var next := if s[0].player.id in Ids(xi) then xi else xi + [s[0]];
      BackfillCovers(s[1..], maxXI, next);
      var r := Backfill(s[1..], maxXI, next);
      assert r == Backfill(s, maxXI, xi);
      if |r| < maxXI {
        var k :| 0 <= k < |next| && Ids(next)[k] == s[0].player.id by {
          if s[0].player.id !in Ids(xi) {
            assert Ids(next)[|xi|] == s[0].player.id;
          }
        }
        assert r[k] == next[k];
        assert Ids(r)[k] == s[0].player.id;
        forall i | 1 <= i < |s| ensures s[i].player.id in Ids(r) {
          assert s[i] == s[1..][i - 1];
        }
      }
    }
  }

  /** The whole lineup before truncation: no repeats, drawn from the pool, at most one over `maxXI`. */
  lemma LineupGood(s: seq<Entry>, ks: seq<Entry>, p: Params)
    requires GoodInputs(s, ks)
    ensures DistinctEntries(Lineup(s, ks, p)) && Within(Lineup(s, ks, p), s)
    ensures Seeded(s, p).xi <= Filled(s, ks, p).xi <= Lineup(s, ks, p)
    ensures Counted(Filled(s, ks, p))
    ensures |Lineup(s, ks, p)| <= p.maxXI + 1
    ensures |Lineup(s, ks, p)| < p.maxXI ==> forall i :: 0 <= i < |s| ==> s[i].player.id in Ids(Lineup(s, ks, p))
  {
    assert forall i :: 0 <= i < |s| ==> s[i] in s;
    LockPassGood(s, p.locks, p.maxXI, Start, s);
    LockPassSeeds(s, p.locks, p.maxXI, Start);
    var st1 := Seeded(s, p);
    KeeperStepGood(s, ks, st1);
    var st2 := KeeperStep(ks, st1);
    FillGood(s, p.strategy, p.maxXI, st2, s);
    var st3 := Filled(s, ks, p);
    BackfillGood(s, p.maxXI, st3.xi, s);
    BackfillCovers(s, p.maxXI, st3.xi);
  }

  /** Every id of a repetition-free lineup drawn from a repetition-free pool. */
  lemma IdsWithin(xi: seq<Entry>, s: seq<Entry>)
    requires DistinctEntries(xi) && Within(xi, s)
    ensures NoDuplicates(Ids(xi))
    ensures forall i :: 0 <= i < |xi| ==> Ids(xi)[i] in Ids(s)
  {
    forall i | 0 <= i < |xi| ensures Ids(xi)[i] in Ids(s) {
      var k :| 0 <= k < |s| && s[k] == xi[i];
      assert Ids(s)[k] == xi[i].player.id;
    }
  }

  /**
   * For a pool without repeated ids, the returned lineup has exactly `min(maxXI, pool size)`
   * players and no player twice.
   */
  lemma SelectSize(s: seq<Entry>, ks: seq<Entry>, p: Params)
    requires GoodInputs(s, ks)
    ensures |Select(s, ks, p).xi| == Min(p.maxXI, |s|)
    ensures DistinctEntries(Take(Lineup(s, ks, p), p.maxXI))
    ensures forall i, j :: 0 <= i < j < |Select(s, ks, p).xi| ==> Select(s, ks, p).xi[i].player.id != Select(s, ks, p).xi[j].player.id
  {
    LineupGood(s, ks, p);
    var l := Lineup(s, ks, p);
    IdsWithin(l, s);
    assert NoDuplicates(Ids(l));
    CoveredIsShorter(Ids(l), Ids(s));
    if |l| < p.maxXI {
      IdsWithin(s, s) by {
        assert forall i :: 0 <= i < |s| ==> s[i] in s;
      }
      CoveredIsShorter(Ids(s), Ids(l));
    }
  }

  /**
   * The locked pool entries come first, in pool order: if at most `maxXI` are locked, all of them
   * are in the returned lineup.
   */
  lemma SelectLocksFirst(s: seq<Entry>, ks: seq<Entry>, p: Params)
    ensures Take(LockedIn(s, p.locks), p.maxXI) <= Take(Lineup(s, ks, p), p.maxXI)
    ensures |LockedIn(s, p.locks)| <= p.maxXI ==> LockedIn(s, p.locks) <= Take(Lineup(s, ks, p), p.maxXI)
  {
    LockPassSeeds(s, p.locks, p.maxXI, Start);
    var seed := Take(LockedIn(s, p.locks), p.maxXI);
    assert [] + seed == seed;
    var st1 := Seeded(s, p);
    assert seed == st1.xi;
    var st2 := KeeperStep(ks, st1);
    assert st1.xi <= st2.xi;
    FillExtends(s, p.strategy, p.maxXI, st2);
    BackfillCovers(s, p.maxXI, Filled(s, ks, p).xi);
    assert seed <= Lineup(s, ks, p);
    PrefixWithinTake(seed, Lineup(s, ks, p), p.maxXI);
    if |LockedIn(s, p.locks)| <= p.maxXI {
      TakeAll(LockedIn(s, p.locks), p.maxXI);
    }
  }

  lemma PrefixWithinTake<T>(pre: seq<T>, l: seq<T>, n: nat)
    requires pre <= l && |pre| <= n
    ensures pre <= Take(l, n)
  {
  }

  lemma {:induction false} LockedInMember(s: seq<Entry>, locks: seq<string>, e: Entry)
    requires e in LockedIn(s, locks)
    ensures e in s && e.player.id in locks
    decreases |s|
  {
    if !(s[0].player.id in locks && e == s[0]) {
      assert LockedIn(s, locks) == (if s[0].player.id in locks then [s[0]] else []) + LockedIn(s[1..], locks);
      LockedInMember(s[1..], locks, e);
    }
  }

  /** With no keeper among the seeded players and room left, the keeper step appends the first sorted keeper. */
  lemma KeeperAfterLocks(s: seq<Entry>, ks: seq<Entry>, p: Params)
    requires GoodInputs(s, ks) && ks != []
    requires forall i :: 0 <= i < |LockedIn(s, p.locks)| ==> !IsKeeper(LockedIn(s, p.locks)[i])
    requires |LockedIn(s, p.locks)| < p.maxXI
    ensures KeeperStep(ks, Seeded(s, p)).xi == LockedIn(s, p.locks) + [ks[0]]
  {
    var locked := LockedIn(s, p.locks);
    LockPassSeeds(s, p.locks, p.maxXI, Start);
    TakeAll(locked, p.maxXI);
    var st1 := Seeded(s, p);
    assert st1.xi == locked;
    assert !HasKeeper(st1.xi);
    forall j | 0 <= j < |st1.xi| ensures st1.xi[j].player.id != ks[0].player.id {
      LockedInMember(s, p.locks, st1.xi[j]);
      if st1.xi[j].player.id == ks[0].player.id {
        SameId(s, st1.xi[j], ks[0]);
      }
    }
    assert ks[0].player.id !in Ids(st1.xi);
  }

  /**
   * When the pool has a keeper, no locked player is a keeper and fewer than `maxXI` players are
   * locked, the returned lineup holds the first of the sorted keepers, right after the locked ones.
   */
  lemma SelectHasTopKeeper(s: seq<Entry>, ks: seq<Entry>, p: Params)
    requires GoodInputs(s, ks) && ks != []
    requires forall i :: 0 <= i < |LockedIn(s, p.locks)| ==> !IsKeeper(LockedIn(s, p.locks)[i])
    requires |LockedIn(s, p.locks)| < p.maxXI
    ensures |Take(Lineup(s, ks, p), p.maxXI)| > |LockedIn(s, p.locks)|
    ensures Take(Lineup(s, ks, p), p.maxXI)[|LockedIn(s, p.locks)|] == ks[0]
    ensures Pick(ks[0].player, ks[0].score) in Select(s, ks, p).xi
  {
    var locked := LockedIn(s, p.locks);
    KeeperAfterLocks(s, ks, p);
    var st2 := KeeperStep(ks, Seeded(s, p));
    FillExtends(s, p.strategy, p.maxXI, st2);
    BackfillCovers(s, p.maxXI, Filled(s, ks, p).xi);
    var l := Lineup(s, ks, p);
    assert st2.xi <= l;
    assert l[|locked|] == ks[0];
    var out := Select(s, ks, p).xi;
    assert out[|locked|] == Pick(ks[0].player, ks[0].score);
  }

  /** The quota pass only appends to the lineup. */
  lemma {:induction false} FillExtends(s: seq<Entry>, strategy: string, maxXI: nat, st: State)
    ensures st.xi <= Fill(s, strategy, maxXI, st).xi
    decreases |s|
  {
    if s != [] && |st.xi| < maxXI {
      if s[0].player.id in Ids(st.xi) {
        FillExtends(s[1..], strategy, maxXI, st);
      } else if Admits(s[0], strategy, maxXI, st) {
        FillExtends(s[1..], strategy, maxXI, Push(st, s[0]));
      } else {
        FillExtends(s[1..], strategy, maxXI, st);
      }
    }
  }

  /** A player counted as a bowler or an all-rounder is taken by the quota pass only while that quota has room. */
  lemma {:induction false} FillQuotas(s: seq<Entry>, strategy: string, maxXI: nat, st: State)
    ensures Fill(s, strategy, maxXI, st).counts.bowls <= Max(st.counts.bowls, WantBowls(strategy))
    ensures Fill(s, strategy, maxXI, st).counts.ar <= Max(st.counts.ar, WantAR(strategy, maxXI))
    decreases |s|
  {
    if s != [] && |st.xi| < maxXI {
      if s[0].player.id in Ids(st.xi) {
        FillQuotas(s[1..], strategy, maxXI, st);
      } else {
        var next := if Admits(s[0], strategy, maxXI, st) then Push(st, s[0]) else st;
        FillQuotas(s[1..], strategy, maxXI, next);
      }
    }
  }

  /** With `maxXI` at most 10 under a balanced strategy the quota for all-rounders is not positive: the quota pass takes none. */
  lemma NoAllRounderQuotaForSmallTeams(s: seq<Entry>, ks: seq<Entry>, p: Params)
    requires p.strategy == "balanced" && p.maxXI <= 10
    ensures Filled(s, ks, p).counts.ar == KeeperStep(ks, Seeded(s, p)).counts.ar
  {
    var st2 := KeeperStep(ks, Seeded(s, p));
    assert WantAR(p.strategy, p.maxXI) <= 0;
    FillQuotas(s, p.strategy, p.maxXI, st2);
    FillCountsGrow(s, p.strategy, p.maxXI, st2);
  }

  lemma {:induction false} FillCountsGrow(s: seq<Entry>, strategy: string, maxXI: nat, st: State)
    ensures Fill(s, strategy, maxXI, st).counts.ar >= st.counts.ar
    ensures Fill(s, strategy, maxXI, st).counts.bowls >= st.counts.bowls
    decreases |s|
  {
    if s != [] && |st.xi| < maxXI {
      if s[0].player.id in Ids(st.xi) {
        FillCountsGrow(s[1..], strategy, maxXI, st);
      } else {
        var next := if Admits(s[0], strategy, maxXI, st) then Push(st, s[0]) else st;
        FillCountsGrow(s[1..], strategy, maxXI, next);
      }
    }
  }

  /**
   * The notes: the keeper note exactly when the untruncated lineup has no keeper; the bowling note
   * from the counters of the lineup before the backfill, which records nothing.
   */
  lemma SelectNotes(s: seq<Entry>, ks: seq<Entry>, p: Params)
    requires GoodInputs(s, ks)
    ensures KeeperNote in Select(s, ks, p).notes <==> !HasKeeper(Lineup(s, ks, p))
    ensures BowlingNote in Select(s, ks, p).notes <==>
              Tally(Filled(s, ks, p).xi).bowls + Tally(Filled(s, ks, p).xi).ar < 5
    ensures Filled(s, ks, p).xi <= Lineup(s, ks, p)
  {
    LineupGood(s, ks, p);
    assert BowlingNote != KeeperNote;
  }

  /** The pool entries whose id is in the lineup, in pool order: the complement of the bench. */
  function Taken(s: seq<Entry>, xi: seq<Entry>): seq<Entry>
    decreases |s|
  {
    if s == [] then [] else (if s[0].player.id in Ids(xi) then [s[0]] else []) + Taken(s[1..], xi)
  }

  lemma {:induction false} TakenAndBenchSize(s: seq<Entry>, xi: seq<Entry>)
    ensures |Taken(s, xi)| + |BenchOf(s, xi)| == |s|
    decreases |s|
  {
    if s != [] {
      TakenAndBenchSize(s[1..], xi);
    }
  }

  lemma {:induction false} TakenMembers(s: seq<Entry>, xi: seq<Entry>)
    ensures forall i :: 0 <= i < |Taken(s, xi)| ==> Taken(s, xi)[i] in s && Taken(s, xi)[i].player.id in Ids(xi)
    ensures forall i :: 0 <= i < |s| && s[i].player.id in Ids(xi) ==> s[i] in Taken(s, xi)
    decreases |s|
  {
    if s != [] {
      TakenMembers(s[1..], xi);
      assert forall i :: 1 <= i < |s| ==> s[i] == s[1..][i - 1];
    }
  }

  lemma {:induction false} BenchMembers(s: seq<Entry>, xi: seq<Entry>)
    ensures forall i :: 0 <= i < |BenchOf(s, xi)| ==> BenchOf(s, xi)[i] in s && BenchOf(s, xi)[i].player.id !in Ids(xi)
    ensures forall i :: 0 <= i < |s| && s[i].player.id !in Ids(xi) ==> s[i] in BenchOf(s, xi)
    decreases |s|
  {
    if s != [] {
      BenchMembers(s[1..], xi);
      assert forall i :: 1 <= i < |s| ==> s[i] == s[1..][i - 1];
    }
  }

  lemma {:induction false} TakenDistinct(s: seq<Entry>, xi: seq<Entry>)
    requires DistinctEntries(s)
    ensures DistinctEntries(Taken(s, xi))
    decreases |s|
  {
    if s != [] {
      assert DistinctEntries(s[1..]);
      TakenDistinct(s[1..], xi);
      var t := Taken(s, xi);
      var t1 := Taken(s[1..], xi);
      if s[0].player.id in Ids(xi) {
        assert t == [s[0]] + t1;
        TakenMembers(s[1..], xi);
        forall j | 1 <= j < |t| ensures t[0].player.id != t[j].player.id {
          assert t[j] == t1[j - 1];
          var k :| 0 <= k < |s[1..]| && s[1..][k] == t1[j - 1];
          assert s[k + 1] == t[j];
        }
      } else {
        assert t == t1;
      }
    }
  }

  /**
   * The bench before its cut holds every pool entry whose id is not in the untruncated lineup and
   * nothing else, and it has as many entries as the pool has players left over.
   */
  lemma SelectBench(s: seq<Entry>, ks: seq<Entry>, p: Params)
    requires GoodInputs(s, ks)
    ensures Select(s, ks, p).bench == Picks(Take(BenchOf(s, Lineup(s, ks, p)), 5))
    ensures forall i :: 0 <= i < |BenchOf(s, Lineup(s, ks, p))| ==>
              BenchOf(s, Lineup(s, ks, p))[i] in s && BenchOf(s, Lineup(s, ks, p))[i].player.id !in Ids(Lineup(s, ks, p))
    ensures forall i :: 0 <= i < |s| && s[i].player.id !in Ids(Lineup(s, ks, p)) ==> s[i] in BenchOf(s, Lineup(s, ks, p))
    ensures |BenchOf(s, Lineup(s, ks, p))| == |s| - |Lineup(s, ks, p)|
    ensures |Select(s, ks, p).bench| == Min(5, |s| - |Lineup(s, ks, p)|)
    ensures IsSubseq(BenchOf(s, Lineup(s, ks, p)), s)
  {
    var l := Lineup(s, ks, p);
    LineupGood(s, ks, p);
    BenchMembers(s, l);
    BenchSize(s, l);
    BenchInPoolOrder(s, l);
  }

  /** The bench keeps the pool's order, hence its score order. */
  lemma {:induction false} BenchInPoolOrder(s: seq<Entry>, xi: seq<Entry>)
    ensures IsSubseq(BenchOf(s, xi), s)
    decreases |s|
  {
    if s != [] {
      BenchInPoolOrder(s[1..], xi);
      var b := BenchOf(s, xi);
      if s[0].player.id !in Ids(xi) {
        assert b == [s[0]] + BenchOf(s[1..], xi);
        assert b[1..] == BenchOf(s[1..], xi);
      } else {
        assert b == BenchOf(s[1..], xi);
      }
    }
  }

  /** A repetition-free lineup drawn from a repetition-free pool leaves exactly the rest of the pool on the bench. */
  lemma BenchSize(s: seq<Entry>, l: seq<Entry>)
    requires DistinctEntries(s) && DistinctEntries(l) && Within(l, s)
    ensures |BenchOf(s, l)| == |s| - |l|
  {
    TakenAndBenchSize(s, l);
    TakenMembers(s, l);
    TakenDistinct(s, l);
    var t := Taken(s, l);
    IdsWithin(t, s);
    CoveredIsShorter(Ids(t), Ids(l));
    IdsWithin(l, s);
    forall i | 0 <= i < |l| ensures Ids(l)[i] in Ids(t) {
      var k :| 0 <= k < |s| && s[k] == l[i];
      assert s[k].player.id in Ids(l);
      assert s[k] in t;
      var j :| 0 <= j < |t| && t[j] == s[k];
      assert Ids(t)[j] == Ids(l)[i];
    }
    CoveredIsShorter(Ids(l), Ids(t));
  }


  /** With at least `maxXI` locked players and no keeper among the first `maxXI`, the keeper step pushes past the limit. */
  lemma KeeperOverflowLineup(s: seq<Entry>, ks: seq<Entry>, p: Params)
    requires GoodInputs(s, ks) && ks != []
    requires |LockedIn(s, p.locks)| >= p.maxXI
    requires forall i :: 0 <= i < p.maxXI ==> !IsKeeper(LockedIn(s, p.locks)[i])
    ensures Lineup(s, ks, p) == Take(LockedIn(s, p.locks), p.maxXI) + [ks[0]]
  {
    var seed := Take(LockedIn(s, p.locks), p.maxXI);
    LockPassSeeds(s, p.locks, p.maxXI, Start);
    var st1 := Seeded(s, p);
    assert [] + seed == seed;
    assert st1.xi == seed;
    assert !HasKeeper(seed);
    SeedLacksKeeper(s, ks, p.locks, p.maxXI);
    var st2 := KeeperStep(ks, st1);
    assert st2.xi == seed + [ks[0]];
    assert |st2.xi| > p.maxXI;
    assert Filled(s, ks, p) == st2;
    assert Lineup(s, ks, p) == st2.xi;
  }

  /** A keeper is not among the locked players when no locked player is a keeper. */
  lemma SeedLacksKeeper(s: seq<Entry>, ks: seq<Entry>, locks: seq<string>, maxXI: nat)
    requires GoodInputs(s, ks) && ks != []
    requires |LockedIn(s, locks)| >= maxXI
    requires forall i :: 0 <= i < maxXI ==> !IsKeeper(LockedIn(s, locks)[i])
    ensures ks[0].player.id !in Ids(Take(LockedIn(s, locks), maxXI))
  {
    var seed := Take(LockedIn(s, locks), maxXI);
    forall j | 0 <= j < |seed| ensures seed[j].player.id != ks[0].player.id {
      LockedInMember(s, locks, seed[j]);
      if seed[j].player.id == ks[0].player.id {
        SameId(s, seed[j], ks[0]);
      }
    }
  }

  /**
   * The keeper step can overflow: when the locked players fill the lineup and include no keeper,
   * the best keeper is pushed as player `maxXI + 1`. The cut then drops that keeper, the bench
   * (built from the uncut lineup) does not list the keeper either, and the missing-keeper note is
   * not given.
   */
  lemma KeeperOverflow(s: seq<Entry>, ks: seq<Entry>, p: Params)
    requires GoodInputs(s, ks) && ks != []
    requires |LockedIn(s, p.locks)| >= p.maxXI
    requires forall i :: 0 <= i < p.maxXI ==> !IsKeeper(LockedIn(s, p.locks)[i])
    ensures Select(s, ks, p).xi == Picks(Take(LockedIn(s, p.locks), p.maxXI))
    ensures forall i :: 0 <= i < |Select(s, ks, p).bench| ==> Select(s, ks, p).bench[i].player.id != ks[0].player.id
    ensures KeeperNote !in Select(s, ks, p).notes
  {
    KeeperOverflowLineup(s, ks, p);
    var seed := Take(LockedIn(s, p.locks), p.maxXI);
    var l := Lineup(s, ks, p);
    assert IsKeeper(l[|seed|]);
    assert Take(l, p.maxXI) == seed;
    var b := BenchOf(s, l);
    BenchMembers(s, l);
    assert Ids(l)[|seed|] == ks[0].player.id;
    forall i | 0 <= i < |Select(s, ks, p).bench| ensures Select(s, ks, p).bench[i].player.id != ks[0].player.id {
      assert Select(s, ks, p).bench[i].player == b[i].player;
    }
  }

  // ---------------------------------------------------------------------------------------------
  // From the player list to the selection inputs

  function EntryId(e: Entry): string {
    e.player.id
  }

  /** The pool ranked by score, as `scored.sort(...)` leaves it. */
  function Ranked(players: seq<Player>, p: Params, sqrt: real -> real): seq<Entry> {
    SortDesc(ScoreAll(players, p.Conditions(), sqrt), ScoreOf)
  }

  /** The keepers ranked by score. */
  function RankedKeepers(players: seq<Player>, p: Params, sqrt: real -> real): seq<Entry> {
    SortDesc(KeepersOf(ScoreAll(players, p.Conditions(), sqrt)), ScoreOf)
  }

  /** For players with distinct ids the ranked pool has distinct ids. */
  lemma RankedDistinct(players: seq<Player>, p: Params, sqrt: real -> real)
    requires DistinctIds(players)
    ensures DistinctEntries(Ranked(players, p, sqrt))
  {
    var scored := ScoreAll(players, p.Conditions(), sqrt);
    var sorted := Ranked(players, p, sqrt);
    SortDescDistinct(scored, ScoreOf, EntryId);
    forall i, j | 0 <= i < j < |sorted| ensures sorted[i].player.id != sorted[j].player.id {
      assert EntryId(sorted[i]) != EntryId(sorted[j]);
    }
  }

  /** The sorted keepers are keepers of the sorted pool. */
  lemma {:induction false} SortedKeepersWithin(scored: seq<Entry>)
    ensures Within(SortDesc(KeepersOf(scored), ScoreOf), SortDesc(scored, ScoreOf))
    ensures forall i :: 0 <= i < |SortDesc(KeepersOf(scored), ScoreOf)| ==> IsKeeper(SortDesc(KeepersOf(scored), ScoreOf)[i])
  {
    var keepers := KeepersOf(scored);
    var ks := SortDesc(keepers, ScoreOf);
    SortDescMembers(scored, ScoreOf);
    SortDescMembers(keepers, ScoreOf);
    forall i | 0 <= i < |ks| ensures ks[i] in SortDesc(scored, ScoreOf) && IsKeeper(ks[i]) {
      assert ks[i] in keepers;
      var j :| 0 <= j < |keepers| && keepers[j] == ks[i];
    }
  }

  /**
   * For players with distinct ids, `scorePlayers` selects from a pool ranked into a non-increasing
   * permutation of the scored players, with keepers drawn from that pool.
   */
  lemma PredictInputs(players: seq<Player>, p: Params, sqrt: real -> real)
    requires DistinctIds(players)
    ensures Predict(players, p, sqrt) == Select(Ranked(players, p, sqrt), RankedKeepers(players, p, sqrt), p)
    ensures GoodInputs(Ranked(players, p, sqrt), RankedKeepers(players, p, sqrt))
    ensures |Ranked(players, p, sqrt)| == |players|
    ensures SortedDesc(Ranked(players, p, sqrt), ScoreOf)
    ensures multiset(Ranked(players, p, sqrt)) == multiset(ScoreAll(players, p.Conditions(), sqrt))
  {
    SortDescCorrect(ScoreAll(players, p.Conditions(), sqrt), ScoreOf);
    RankedDistinct(players, p, sqrt);
    SortedKeepersWithin(ScoreAll(players, p.Conditions(), sqrt));
  }

  /** The keeper `scorePlayers` reaches for first scores at least as high as every keeper in the pool. */
  lemma TopKeeperIsBest(players: seq<Player>, p: Params, sqrt: real -> real)
    ensures forall i :: 0 <= i < |Ranked(players, p, sqrt)| && IsKeeper(Ranked(players, p, sqrt)[i]) ==>
              RankedKeepers(players, p, sqrt) != [] &&
              RankedKeepers(players, p, sqrt)[0].score >= Ranked(players, p, sqrt)[i].score
  {
    var scored := ScoreAll(players, p.Conditions(), sqrt);
    var sorted := Ranked(players, p, sqrt);
    var keepers := KeepersOf(scored);
    var ks := RankedKeepers(players, p, sqrt);
    SortDescMembers(scored, ScoreOf);
    forall i | 0 <= i < |sorted| && IsKeeper(sorted[i])
      ensures ks != [] && ks[0].score >= sorted[i].score
    {
      assert sorted[i] in scored;
      assert sorted[i] in keepers;
      var j :| 0 <= j < |keepers| && keepers[j] == sorted[i];
      SortDescHeadIsMax(keepers, ScoreOf);
    }
  }

  /** For players with distinct ids, `scorePlayers` returns `min(maxXI, players)` players, none twice. */
  lemma PredictSize(players: seq<Player>, p: Params, sqrt: real -> real)
    requires DistinctIds(players)
    ensures |Predict(players, p, sqrt).xi| == Min(p.maxXI, |players|)
  {
    PredictInputs(players, p, sqrt);
    SelectSize(Ranked(players, p, sqrt), RankedKeepers(players, p, sqrt), p);
  }
}
