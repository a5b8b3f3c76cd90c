/**
 * A stored player document (the `Player` schema of `models/Player.js`), as the routes and pages
 * see it after `.lean()` or `res.json`.
 */
module Players {
  import opened Wrappers

  /** The roles the schema admits. */
  datatype Role = Batsman | Bowler | AllRounder | WicketKeeper | WicketKeeperBatsman {
    function Name(): string {
      match this
      case Batsman => "Batsman"
      case Bowler => "Bowler"
      case AllRounder => "All-rounder"
      case WicketKeeper => "Wicket-keeper"
      case WicketKeeperBatsman => "Wicket-keeper Batsman"
    }
  }

  /** The genders the schema admits. */
  datatype Gender = Male | Female | Other {
    function Name(): string {
      match this
      case Male => "Male"
      case Female => "Female"
      case Other => "Other"
    }
  }

  /**
   * The four statistics. `None` is a value JavaScript treats as falsy and non-numeric there:
   * a missing field or `NaN`.
   */
  datatype Stats = Stats(matches: Option<real>, runs: Option<real>, wickets: Option<real>, average: Option<real>)

  const NoStats := Stats(None, None, None, None)

  /**
   * A player. `id` is `String(_id)`; a missing `role` or `gender` is the empty string, which
   * is how the code reads them (`p.role || ''`, `p.gender || ''`).
   */
  datatype Player = Player(
    id: string,
    name: string,
    country: string,
    role: string,
    gender: string,
    bio: string,
    tags: seq<string>,
    stats: Stats,
    image: string)

  /** `x || 0` on a statistic. */
  function OrZero(x: Option<real>): real {
    x.GetOr(0.0)
  }

  /** The ids of a list of players, in order. */
  function IdsOf(ps: seq<Player>): (r: seq<string>)
    ensures |r| == |ps|
    ensures forall i :: 0 <= i < |ps| ==> r[i] == ps[i].id
  {
    seq(|ps|, i requires 0 <= i < |ps| => ps[i].id)
  }

  /** No two players share an id (MongoDB's `_id` is unique within the collection). */
  predicate DistinctIds(ps: seq<Player>) {
    forall i, j :: 0 <= i < j < |ps| ==> ps[i].id != ps[j].id
  }
}
