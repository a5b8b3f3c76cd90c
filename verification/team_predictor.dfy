/**
 * The Team Predictor page (`pages/TeamPredictor.jsx`): the lock toggle, the gender filter of the
 * pool, the pruning of locks to the visible pool, the XI-size input and the request body it
 * posts to `/api/predict/team`. The page keeps these in React state; here each updater is a
 * function from the old value to the new one.
 */
module TeamPredictorPage {
  import opened Wrappers
  import opened Seqs
  import opened Text
  import opened Players
  import opened Selector

  /** `x => x !== id`. */
  function Other(id: string): string -> bool {
    x => x != id
  }

  /**
   * `toggleLock(id)`: a locked id is removed, every copy of it; an unlocked one is appended.
   * The remaining ids keep their order and every copy.
   */
  function ToggleLock(prev: seq<string>, id: string): (r: seq<string>)
    ensures id in prev ==> id !in r && IsSubseq(r, prev)
    ensures id in prev ==> forall x :: x != id ==> multiset(r)[x] == multiset(prev)[x]
    ensures id !in prev ==> r == prev + [id]
  {
    if id in prev then
      FilterIsSubseq(prev, Other(id));
      FilterCount(prev, Other(id));
      Filter(prev, Other(id))
    else prev + [id]
  }

  /** Toggling an unlocked id twice gives back the original locks. */
  lemma ToggleTwice(prev: seq<string>, id: string)
    requires id !in prev
    ensures ToggleLock(ToggleLock(prev, id), id) == prev
  {
    var once := prev + [id];
    assert ToggleLock(prev, id) == once;
    assert id in once;
    FilterAppend(prev, [id], Other(id));
    FilterKeepsAll(prev, Other(id));
    FilterDropsAll([id], Other(id));
  }

  /** The test of line 44: the lower-cased genders are equal (a missing gender is the empty string). */
  function SameGender(gender: string): Player -> bool {
    (p: Player) => Lower(p.gender) == Lower(gender)
  }

  /**
   * `filteredPlayers`: everyone when no gender is chosen, otherwise exactly the players whose
   * gender matches it ignoring case, every copy of each, in their original order.
   */
  function FilteredPlayers(players: seq<Player>, gender: string): (r: seq<Player>)
    ensures gender == [] ==> r == players
    ensures gender != [] ==> forall i :: 0 <= i < |r| ==> r[i] in players && Lower(r[i].gender) == Lower(gender)
    ensures gender != [] ==> forall x :: multiset(r)[x] == if Lower(x.gender) == Lower(gender) then multiset(players)[x] else 0
    ensures IsSubseq(r, players)
  {
    if gender == [] then
      FilterKeepsAll(players, (p: Player) => true);
      FilterIsSubseq(players, (p: Player) => true);
      players
    else
      FilterIsSubseq(players, SameGender(gender));
      FilterCount(players, SameGender(gender));
      Filter(players, SameGender(gender))
  }

  /** `id => visibleIds.has(String(id))`. */
  function Visible(ids: seq<string>): string -> bool {
    id => id in ids
  }

  /**
   * The effect of lines 48-51: only the locks of visible players survive, in their order, and
   * every copy of a visible lock survives.
   */
  function PruneLocks(locks: seq<string>, visible: seq<Player>): (r: seq<string>)
    ensures forall i :: 0 <= i < |r| ==> r[i] in IdsOf(visible) && r[i] in locks
    ensures forall x :: multiset(r)[x] == if x in IdsOf(visible) then multiset(locks)[x] else 0
    ensures IsSubseq(r, locks)
  {
    FilterIsSubseq(locks, Visible(IdsOf(visible)));
    FilterCount(locks, Visible(IdsOf(visible)));
    Filter(locks, Visible(IdsOf(visible)))
  }

  /** Pruning twice prunes nothing more. */
  lemma PruneIdempotent(locks: seq<string>, visible: seq<Player>)
    ensures PruneLocks(PruneLocks(locks, visible), visible) == PruneLocks(locks, visible)
  {
    var once := PruneLocks(locks, visible);
    FilterKeepsAll(once, Visible(IdsOf(visible)));
  }

  /** Line 119: `parseInt(value) || 11`, so an unparseable or zero size becomes 11. */
  function XISize(parsed: Number): (r: real)
    ensures r != 0.0
    ensures parsed.NaN? || parsed.value == 0.0 ==> r == 11.0
    ensures parsed.Num? && parsed.value != 0.0 ==> r == parsed.value
  {
    parsed.Or(11.0)
  }

  /** Lines 56-59: the pool's ids in order, the three selectors, the locks and the size. */
  function PredictBody(filtered: seq<Player>, format: string, pitch: string, strategy: string, locks: seq<string>, maxXI: nat): (r: TeamRequest)
    ensures r.playerIds == Some(IdsOf(filtered))
    ensures r.locks == Some(locks) && r.maxXI == Some(maxXI)
    ensures ParamsOf(r).format == format && ParamsOf(r).pitch == pitch && ParamsOf(r).strategy == strategy
  {
    TeamRequest(Some(IdsOf(filtered)), Some(format), Some(pitch), Some(strategy), Some(locks), Some(maxXI))
  }

  /** In a collection with unique ids, a player's id is listed among a filter's ids exactly when the player passes the filter. */
  lemma ListedIffKept(db: seq<Player>, f: Player -> bool)
    requires DistinctIds(db)
    ensures forall i :: 0 <= i < |db| ==> (Listed(IdsOf(Filter(db, f)))(db[i]) <==> f(db[i]))
  {
    var kept := Filter(db, f);
    forall i | 0 <= i < |db| ensures Listed(IdsOf(kept))(db[i]) <==> f(db[i]) {
      if f(db[i]) {
        assert db[i] in kept;
        var j :| 0 <= j < |kept| && kept[j] == db[i];
        assert IdsOf(kept)[j] == db[i].id;
      }
      if db[i].id in IdsOf(kept) {
        var j :| 0 <= j < |kept| && IdsOf(kept)[j] == db[i].id;
        assert kept[j] in db;
        var k :| 0 <= k < |db| && db[k] == kept[j];
        assert k == i;
      }
    }
  }

  /**
   * When the gender filter leaves some players and the page lists them all, the server predicts
   * from exactly the players the page shows.
   */
  lemma ServerSeesFilteredPool(db: seq<Player>, gender: string)
    requires DistinctIds(db) && gender != []
    requires FilteredPlayers(db, gender) != []
    ensures PoolOf(db, Some(IdsOf(FilteredPlayers(db, gender)))) == FilteredPlayers(db, gender)
  {
    var f := SameGender(gender);
    ListedIffKept(db, f);
    FilterCongruent(db, Listed(IdsOf(Filter(db, f))), f);
  }

  /**
   * When the gender filter leaves nobody, the page sends an empty id list and the server, which
   * treats an empty list as no filter, predicts from the whole collection.
   */
  lemma EmptyFilterMeansEveryone(db: seq<Player>, gender: string)
    requires FilteredPlayers(db, gender) == []
    ensures PoolOf(db, Some(IdsOf(FilteredPlayers(db, gender)))) == db
  {
  }
}
