/**
 * The search and filter bar of the players page (`components/SearchBar.jsx`). Its state is one
 * record of fourteen text fields; edits merge into it, a reset restores the defaults, two
 * presets set the role and the sort. After an edit the bar emits a filter object with the empty
 * fields removed, and the search term separately.
 */
module SearchBar {
  import opened Wrappers
  import PlayerRoutes

  /** The fields of the filter record. */
  datatype FilterKey = SearchTerm | Country | Role | Gender
                     | RunsMin | RunsMax | WicketsMin | WicketsMax
                     | MatchesMin | MatchesMax | AverageMin | AverageMax
                     | SortBy | SortOrder

  /** The filter record: a text for every key. */
  type Filters = map<FilterKey, string>

  ghost predicate Complete(f: Filters) {
    forall k: FilterKey :: k in f
  }

  /** Lines 4-19 and 97-112: every field empty except the sort, newest first. */
  const Defaults: Filters := map[
    SearchTerm := "", Country := "", Role := "", Gender := "",
    RunsMin := "", RunsMax := "", WicketsMin := "", WicketsMax := "",
    MatchesMin := "", MatchesMax := "", AverageMin := "", AverageMax := "",
    SortBy := "createdAt", SortOrder := "desc"]

  /** Only the two sort fields have a non-empty default. */
  lemma DefaultsSetOnlySort()
    ensures Complete(Defaults)
    ensures forall k :: Defaults[k] != [] <==> k == SortBy || k == SortOrder
  {
    DefaultsComplete();
    forall k: FilterKey ensures Defaults[k] != [] <==> k == SortBy || k == SortOrder {
      match k
      case SearchTerm =>
      case Country =>
      case Role =>
      case Gender =>
      case RunsMin =>
      case RunsMax =>
      case WicketsMin =>
      case WicketsMax =>
      case MatchesMin =>
      case MatchesMax =>
      case AverageMin =>
      case AverageMax =>
      case SortBy =>
      case SortOrder =>
    }
  }

  lemma DefaultsComplete()
    ensures Complete(Defaults)
  {
    forall k: FilterKey ensures k in Defaults {
      match k
      case SearchTerm =>
      case Country =>
      case Role =>
      case Gender =>
      case RunsMin =>
      case RunsMax =>
      case WicketsMin =>
      case WicketsMax =>
      case MatchesMin =>
      case MatchesMax =>
      case AverageMin =>
      case AverageMax =>
      case SortBy =>
      case SortOrder =>
    }
  }

  /** `{ ...prevFilters, ...updates }`. */
  function Merge(prev: Filters, updates: map<FilterKey, string>): (r: Filters)
    ensures r.Keys == prev.Keys + updates.Keys
    ensures Complete(prev) ==> Complete(r)
    ensures forall k :: k in updates ==> r[k] == updates[k]
    ensures forall k :: k in prev && k !in updates ==> r[k] == prev[k]
  {
    prev + updates
  }

  /** The keys the emitted filter object is built from, in the order of lines 30-44. */
  const EmittedKeys: seq<FilterKey> := [Country, Role, Gender, RunsMin, RunsMax, WicketsMin, WicketsMax,
                                        MatchesMin, MatchesMax, AverageMin, AverageMax, SortBy, SortOrder]

  /** Every key but the search term is emitted, each once. */
  lemma EmittedKeysAreTheRest()
    ensures forall k :: k in EmittedKeys <==> k != SearchTerm
  {
    EmittedPositions();
    forall k: FilterKey | k != SearchTerm ensures k in EmittedKeys {
      assert EmittedKeys[Position(k) - 1] == k;
    }
  }

  /** The place of a key in the emitted list, counted from 1; 0 for the search term. */
  function Position(k: FilterKey): nat {
    match k
    case SearchTerm => 0
    case Country => 1
    case Role => 2
    case Gender => 3
    case RunsMin => 4
    case RunsMax => 5
    case WicketsMin => 6
    case WicketsMax => 7
    case MatchesMin => 8
    case MatchesMax => 9
    case AverageMin => 10
    case AverageMax => 11
    case SortBy => 12
    case SortOrder => 13
  }

  lemma EmittedPositions()
    ensures forall i :: 0 <= i < |EmittedKeys| ==> Position(EmittedKeys[i]) == i + 1
  {
  }

  /** No key is emitted twice. */
  lemma EmittedKeysDistinct()
    ensures forall i, j :: 0 <= i < j < |EmittedKeys| ==> EmittedKeys[i] != EmittedKeys[j]
  {
    EmittedPositions();
  }


  /** An emitted value is kept when it is neither `undefined` nor `''`. */
  predicate Kept(v: Option<string>) {
    v.Some? && v.value != []
  }

  /** Lines 30-44: each field as `value || undefined`. */
  function Raw(f: Filters): (r: map<FilterKey, Option<string>>)
    requires Complete(f)
    ensures forall k :: k in r <==> k in EmittedKeys
  {
    map k | k in EmittedKeys :: if f[k] == [] then None else Some(f[k])
  }

  /** The filter object after the clean-up: the non-empty fields other than the search term. */
  function Cleaned(f: Filters): (r: map<FilterKey, string>)
    requires Complete(f)
    ensures SearchTerm !in r
    ensures forall k :: k in r ==> r[k] != [] && r[k] == f[k]
    ensures forall k :: k != SearchTerm && f[k] != [] ==> k in r
  {
    EmittedKeysAreTheRest();
    map k | k in EmittedKeys && f[k] != [] :: f[k]
  }

  /** Lines 46-51: the `forEach` that deletes every `undefined` or empty entry. */
  method CleanFilters(f: Filters) returns (obj: map<FilterKey, string>)
    requires Complete(f)
    ensures obj == Cleaned(f)
  {
    var raw := Raw(f);
    ghost var r0 := raw;
    raw := DropEmpty(raw, EmittedKeys);
    obj := map k | k in raw && raw[k].Some? :: raw[k].value;
    SameAsCleaned(f, r0, raw, obj);
  }

  /** The `forEach` that deletes every key whose value is `undefined` or `''`. */
  method DropEmpty(m: map<FilterKey, Option<string>>, keys: seq<FilterKey>) returns (out: map<FilterKey, Option<string>>)
    requires forall k :: k in m ==> k in keys
    ensures forall k :: k in out <==> k in m && Kept(m[k])
    ensures forall k :: k in out ==> out[k] == m[k]
  {
    out := m;
    var i := 0;
    while i < |keys|
      invariant 0 <= i <= |keys|
      invariant forall k :: k in out ==> k in m && out[k] == m[k]
      invariant forall k :: k in m && Kept(m[k]) ==> k in out
      invariant forall j :: 0 <= j < i && keys[j] in out ==> Kept(m[keys[j]])
    {
      var k := keys[i];
      if k in out && !Kept(out[k]) {
        out := out - {k};
      }
      i := i + 1;
    }
  }

  lemma SameAsCleaned(f: Filters, r0: map<FilterKey, Option<string>>, raw: map<FilterKey, Option<string>>, obj: map<FilterKey, string>)
    requires Complete(f) && r0 == Raw(f)
    requires forall k :: k in raw <==> k in r0 && Kept(r0[k])
    requires forall k :: k in raw ==> raw[k] == r0[k]
    requires obj == map k | k in raw && raw[k].Some? :: raw[k].value
    ensures obj == Cleaned(f)
  {
    EmittedKeysAreTheRest();
    var c := Cleaned(f);
    assert forall k :: k in obj <==> k in c;
  }


  /** What the debounced callback hands on: the cleaned filter object and the search term. */
  datatype Emission = Emission(filters: map<FilterKey, string>, search: string)

  /** The text a filter object gives a query parameter: its value, or `''` when the key is absent. */
  function ParamOf(obj: map<FilterKey, string>, k: FilterKey): string {
    if k in obj then obj[k] else []
  }

  const BatsmenPreset: map<FilterKey, string> := map[Role := "Batsman", SortBy := "stats.runs", SortOrder := "desc"]
  const AllRoundersPreset: map<FilterKey, string> := map[Role := "All-rounder", SortBy := "stats.runs", SortOrder := "desc"]

  /** The preset a quick-filter name selects, if any. */
  function Preset(name: string): (r: Option<map<FilterKey, string>>)
    ensures r.Some? <==> name == "topBatsmen" || name == "allRounders"
    ensures r.Some? ==> r.value.Keys == {Role, SortBy, SortOrder} && r.value[SortBy] == "stats.runs" && r.value[SortOrder] == "desc"
  {
    if name == "topBatsmen" then Some(BatsmenPreset)
    else if name == "allRounders" then Some(AllRoundersPreset)
    else None
  }

  /**
   * The reset emits `{}`, where the defaults would emit `createdAt`/`desc`; the server sorts
   * both the same way, newest first.
   */
  lemma ClearSortsLikeDefaults()
    ensures Complete(Defaults)
    ensures Cleaned(Defaults) == map[SortBy := "createdAt", SortOrder := "desc"]
    ensures PlayerRoutes.SortOf(ParamOf(map[], SortBy), ParamOf(map[], SortOrder))
         == PlayerRoutes.SortOf(ParamOf(Cleaned(Defaults), SortBy), ParamOf(Cleaned(Defaults), SortOrder))
         == PlayerRoutes.SortSpec("createdAt", -1)
  {
    DefaultsComplete();
    DefaultsSetOnlySort();
    assert Cleaned(Defaults).Keys == {SortBy, SortOrder};
  }

  /** Both presets ask the server for the most runs first. */
  lemma PresetsSortByRuns(name: string)
    requires Preset(name).Some?
    ensures PlayerRoutes.SortOf(ParamOf(Preset(name).value, SortBy), ParamOf(Preset(name).value, SortOrder))
         == PlayerRoutes.SortSpec("stats.runs", -1)
  {
  }

  /** The component's state and its handlers. */
  class Bar {
    var filters: Filters

    ghost predicate Valid()
      reads this
    {
      Complete(filters)
    }

    constructor()
      ensures Valid() && filters == Defaults
    {
      filters := Defaults;
      DefaultsComplete();
    }

    /**
     * Lines 61-67 with the debounced callback of lines 29-57: the update is merged into the
     * state, and the emission is computed from the merged state.
     */
    method UpdateFilters(updates: map<FilterKey, string>) returns (e: Emission)
      requires Valid()
      modifies this
      ensures Valid()
      ensures filters == Merge(old(filters), updates)
      ensures e == Emission(Cleaned(filters), filters[SearchTerm])
    {
      filters := filters + updates;
      var obj := CleanFilters(filters);
      e := Emission(obj, filters[SearchTerm]);
    }

    /** Lines 96-122: back to the defaults, emitting `{}` and `''`. */
    method ClearFilters() returns (e: Emission)
      modifies this
      ensures Valid() && filters == Defaults
      ensures e == Emission(map[], [])
    {
      filters := Defaults;
      DefaultsComplete();
      e := Emission(map[], []);
    }

    /**
     * Lines 124-140: a known preset is merged into the state and emitted as it is, and its name
     * is reported; any other name changes and emits nothing.
     */
    method QuickFilter(name: string) returns (emitted: Option<map<FilterKey, string>>, reported: Option<string>)
      requires Valid()
      modifies this
      ensures Valid()
      ensures emitted == Preset(name)
      ensures emitted.Some? ==> filters == Merge(old(filters), emitted.value) && reported == Some(name)
      ensures emitted.None? ==> filters == old(filters) && reported.None?
    {
      if name == "topBatsmen" {
        filters := filters + BatsmenPreset;
        return Some(BatsmenPreset), Some(name);
      } else if name == "allRounders" {
        filters := filters + AllRoundersPreset;
        return Some(AllRoundersPreset), Some(name);
      }
      return None, None;
    }
  }

  /** A preset leaves the search term, country, gender and every range as they were. */
  lemma PresetIsLocal(f: Filters, name: string)
    requires Complete(f) && Preset(name).Some?
    ensures forall k :: k != Role && k != SortBy && k != SortOrder ==> Merge(f, Preset(name).value)[k] == f[k]
    ensures Merge(f, Preset(name).value)[Role] == (if name == "topBatsmen" then "Batsman" else "All-rounder")
  {
  }
}
