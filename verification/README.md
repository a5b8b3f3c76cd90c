# CrickBase in Dafny

A model of CrickBase, a cricket player database with a team predictor. It covers the server's
team predictor and player routes, and the pieces of the React front end that compute something:
the team predictor page, the statistics charts, the player form and the search bar.

| module | file | models |
|---|---|---|
| `Wrappers` | wrappers.dfy | `Option`, and `Number` (a parse result that may be `NaN`) |
| `Seqs` | seqs.dfy | `slice(0, n)`, `filter`, subsequences, distinctness |
| `Text` | text.dfy | `toLowerCase`, `includes`, `trim`, `split(',')`, `join` |
| `StableSort` | stable_sort.dfy | `Array.prototype.sort` with a descending numeric comparator: a stable insertion sort, on values and in place on an array |
| `Players` | players.dfy | the stored player document |
| `Scoring` | scoring.dfy | `zNormalize`, `z`, `isRole`, `hasTag` and the per-player score of `scorePlayers` |
| `Selection` | selection.dfy | the selection phase of `scorePlayers` as functions of the sorted pool, and its properties |
| `Selector` | selector.dfy | the same selection as the loops of `scorePlayers`, proved to compute `Selection.Predict`; the `/team` route |
| `PlayerRoutes` | player_routes.dfy | the upload filter, the list query and sort, tag parsing, create defaults, and the update merge on a document object |
| `TeamPredictorPage` | team_predictor.dfy | lock toggling, the gender filter, lock pruning, the request body, the XI-size input |
| `StatsChart` | stats_chart.dfy | top run-scorers, runs by country, the top countries, country colours |
| `PlayerForm` | player_form.dfy | the form component's state and its three handlers |
| `SearchBar` | search_bar.dfy | the filter record, its merge, the emitted filter object, reset and presets |

State the code changes in place is modelled as a class or an array:
- the role counters of `scorePlayers` (`Selector.RoleCounter`);
- the sorted copy of the pool (`StableSort.SortInPlace`);
- the player document the update route assigns to (`PlayerRoutes.PlayerDoc`);
- the form component (`PlayerForm.FormComponent`);
- the search bar (`SearchBar.Bar`).

Each method is proved to compute a pure function, and the properties are proved about that function.

Some parts of the external world become parameters:
- `Math.sqrt` is a `real -> real` parameter; the properties that need it assume it is a square root (`Scoring.IsSqrt`).
- `parseInt` and `parseFloat` are parameters of type `string -> Number`.
- `URL.createObjectURL` is a field of the chosen file.

Where the code and a plain reading of it differ, the model follows the code:
- The all-rounder score is taken from the batting and bowling scores before the format and pitch adjustments, so those adjustments never reach an all-rounder (`Scoring.AllRounderIgnoresConditions`).
- The keeper step runs even when the locked players already fill the team. The lineup then holds `maxXI + 1` entries, and the cut to `maxXI` drops the keeper again (`Selection.KeeperOverflow`).
- The bench is taken from the lineup before it is cut, so a player cut off at the end of the lineup is on neither list (`Selection.SelectBench`).
- The backfill loop does not record roles, so the bowling note counts only players taken before it (`Selection.SelectNotes`).
- `wantAR` is negative for small teams, so no all-rounder is taken on quota (`Selection.NoAllRounderQuotaForSmallTeams`).
- The quota tests read the raw role flags, so a "Wicket-keeper Batsman" can be admitted under the batting quota although `roleAdd` counts a keeper (`Selection.Admits`).
- A file refused by multer (wrong type or over 5 MiB) never reaches the route's `catch`: multer runs as middleware and passes its error on, and without error middleware Express answers 500 (`PlayerRoutes.RefusalReply`; see Findings).

## Model

| member | source | states |
|---|---|---|
| Scoring.ZNormalize | App/backend/routes/predictRoutes.js:5-11 | the standard deviation is never 0; an empty list gives mean 0 and deviation 1 |
| Scoring.VarianceOfEqual | App/backend/routes/predictRoutes.js:7-8 | the variance is non-negative; for equal values the mean is that value and the variance is 0 |
| Scoring.ZNormalizeConstant | App/backend/routes/predictRoutes.js:6-9 | equal values give their value as mean and deviation 1 (the `\|\| 1` fallback) |
| Scoring.ZNormalizeSpread | App/backend/routes/predictRoutes.js:7-9 | with a true square root the deviation is positive; it is 1 for zero variance and squares to the variance otherwise |
| Scoring.ZMonotone | App/backend/routes/predictRoutes.js:21 | `z` is monotone for a positive deviation and maps the mean to 0 |
| Scoring.HasTagExists | App/backend/routes/predictRoutes.js:23 | `hasTag` holds iff some lower-cased tag contains the needle |
| Scoring.SpinnerImpliesSpin | App/backend/routes/predictRoutes.js:45 | a "spinner" tag is also a "spin" tag, so the second test never changes the outcome |
| Scoring.ClassifyRoles | App/backend/routes/predictRoutes.js:22-59 | the five schema roles classify as batsman, bowler, all-rounder and keeper (twice); "Wicket-keeper Batsman" is a keeper although it also contains "batsman" |
| Scoring.Column | App/backend/routes/predictRoutes.js:15-18 | one value per player, in order: the statistic, or 0 when missing |
| Scoring.ScoreAll | App/backend/routes/predictRoutes.js:25-66 | one scored entry per player, in pool order, carrying that player, its `score` (the role score with the strategy bonus) and its batting and bowling scores after the format and pitch tweaks, all normalised over the whole pool |
| Scoring.PitchEffects | App/backend/routes/predictRoutes.js:44-47 | against a balanced pitch: spin adds 0.3 to a spin-tagged bowling score, pace adds 0.3 for a pace or seam tag, flat adds 0.2 to every batting score; nothing else changes |
| Scoring.StrategyEffects | App/backend/routes/predictRoutes.js:61-63 | bat-heavy adds exactly 0.15 of the batting score to the role score, bowl-heavy 0.15 of the bowling score |
| Scoring.AllRounderIgnoresConditions | App/backend/routes/predictRoutes.js:31-59 | an all-rounder's balanced-strategy score is the same under every format and pitch |
| Scoring.KeeperScore | App/backend/routes/predictRoutes.js:50-52 | a keeper's role score is the batting score plus 0.2 |
| Selection.RoleAdd | App/backend/routes/predictRoutes.js:81-86 | exactly one counter goes up by one, the one the role priority selects |
| Selection.TallyTotal | App/backend/routes/predictRoutes.js:80-86 | counting a lineup records as many roles as it has entries |
| Selection.FindUnpicked | App/backend/routes/predictRoutes.js:99 | the keeper found is the first in the sorted keeper list whose id is not in the lineup; none is found only when every keeper is in |
| Selection.LockPassGood | App/backend/routes/predictRoutes.js:89-95 | the lock loop keeps the lineup free of repeats, drawn from the pool and correctly counted |
| Selection.LockPassSeeds | App/backend/routes/predictRoutes.js:89-95 | the lock loop appends the locked pool entries, in score order, up to the free places |
| Selection.SelectOnlyPoolLocks | App/backend/routes/predictRoutes.js:75-91 | lock ids that match no pool player have no effect on the result |
| Selection.KeeperStepGood | App/backend/routes/predictRoutes.js:98-104 | the keeper step adds at most one entry, at the end, and keeps the lineup good |
| Selection.FillGood | App/backend/routes/predictRoutes.js:107-128 | the quota pass keeps the lineup good, only appends, never passes `maxXI`, and does nothing to a lineup already over it |
| Selection.FillExtends | App/backend/routes/predictRoutes.js:107-128 | the quota pass only appends to the lineup, whatever the lineup |
| Selection.BackfillGood | App/backend/routes/predictRoutes.js:131-135 | the backfill keeps the lineup repeat-free and from the pool, only appends, and never passes `maxXI` |
| Selection.BackfillCovers | App/backend/routes/predictRoutes.js:131-135 | a backfill that ends short of `maxXI` has taken every pool entry |
| Selection.LineupGood | App/backend/routes/predictRoutes.js:89-135 | the untruncated lineup has no repeats, comes from the pool, extends each earlier stage, has at most `maxXI + 1` entries, and holds the whole pool when shorter than `maxXI` |
| Selection.SelectSize | App/backend/routes/predictRoutes.js:89-147 | the returned XI has exactly min(`maxXI`, pool size) entries and no two of its picks share a player id |
| Selection.SelectLocksFirst | App/backend/routes/predictRoutes.js:89-147 | the returned XI starts with the locked pool players in score order; when there are at most `maxXI` of them, all are in it |
| Selection.LockedInMember | App/backend/routes/predictRoutes.js:91 | a locked-in entry is a pool entry with a locked id |
| Selection.KeeperAfterLocks | App/backend/routes/predictRoutes.js:98-104 | with no locked keeper and room left, the keeper step appends the best keeper right after the locked players |
| Selection.SelectHasTopKeeper | App/backend/routes/predictRoutes.js:69-147 | with a keeper in the pool, none locked and fewer than `maxXI` locked players, the returned XI contains the highest-scoring keeper, right after the locked players |
| Selection.FillQuotas | App/backend/routes/predictRoutes.js:111-127 | the quota pass raises the bowler and all-rounder counters only up to their quotas |
| Selection.NoAllRounderQuotaForSmallTeams | App/backend/routes/predictRoutes.js:113-127 | with a balanced strategy and `maxXI` at most 10, the quota pass takes no all-rounder |
| Selection.FillCountsGrow | App/backend/routes/predictRoutes.js:107-128 | the quota pass never lowers a counter |
| Selection.SelectNotes | App/backend/routes/predictRoutes.js:131-144 | the keeper note appears iff the untruncated lineup has no keeper; the bowling note iff bowlers plus all-rounders counted before the backfill are fewer than 5 |
| Selection.SelectBench | App/backend/routes/predictRoutes.js:137-148 | the bench is the first five pool entries not in the untruncated lineup; before the cut it is a subsequence of the sorted pool (so in score order), misses no other entry, and the bench has min(5, pool size minus lineup size) entries |
| Selection.BenchInPoolOrder | App/backend/routes/predictRoutes.js:137-140 | the bench loop keeps the pool's order: the bench is a subsequence of the pool |
| Selection.BenchSize | App/backend/routes/predictRoutes.js:137-140 | for a repetition-free lineup drawn from a repetition-free pool, the bench holds exactly the rest of the pool |
| Selection.KeeperOverflow | App/backend/routes/predictRoutes.js:89-148 | when the first `maxXI` locked players hold no keeper, the best keeper is pushed past `maxXI` and then cut: the XI is those locked players, the keeper is not on the bench, and no keeper note is given |
| Selection.RankedDistinct | App/backend/routes/predictRoutes.js:25-72 | distinct player ids stay distinct after scoring and sorting |
| Selection.PredictInputs | App/backend/routes/predictRoutes.js:25-72 | `scorePlayers` selects from the scored pool sorted by score (a permutation, non-increasing) and from its keepers sorted the same way |
| Selection.TopKeeperIsBest | App/backend/routes/predictRoutes.js:69-72 | the first of the sorted keepers scores at least as high as every keeper in the pool |
| Selection.PredictSize | App/backend/routes/predictRoutes.js:13-150 | for distinct ids, `scorePlayers` returns exactly min(`maxXI`, pool size) players |
| StableSort.SortDescCorrect | App/backend/routes/predictRoutes.js:72 | the sort is a permutation, non-increasing by key, and keeps equal keys in their original order |
| StableSort.SortDescHeadIsMax | App/backend/routes/predictRoutes.js:69 | the first element carries the largest key |
| StableSort.SortDescDistinct | App/backend/routes/predictRoutes.js:72 | an identity unique in the input stays unique in the output |
| StableSort.SortInPlace | App/backend/routes/predictRoutes.js:72 | sorting the array in place leaves it equal to the stable descending sort of its old contents |
| Selector.RoleCounter.Add | App/backend/routes/predictRoutes.js:81-86 | the counters object moves as `RoleAdd` says |
| Selector.SortedByScore | App/backend/routes/predictRoutes.js:72 | the entries, sorted in an array, come back in the stable descending order |
| Selector.LockLoop | App/backend/routes/predictRoutes.js:89-95 | the loop with its `break` computes the lock pass, lineup and counters |
| Selector.EnsureKeeper | App/backend/routes/predictRoutes.js:98-104 | the keeper step, lineup and counters |
| Selector.FillLoop | App/backend/routes/predictRoutes.js:107-128 | the loop with `break` and `continue` computes the quota pass |
| Selector.BackfillLoop | App/backend/routes/predictRoutes.js:131-135 | the loop computes the backfill |
| Selector.BenchLoop | App/backend/routes/predictRoutes.js:138-140 | the loop collects exactly the entries not in the lineup |
| Selector.ScorePlayers | App/backend/routes/predictRoutes.js:13-151 | the imperative routine returns exactly `Predict` |
| Selector.PoolOf | App/backend/routes/predictRoutes.js:155-160 | no or an empty id list gives the whole collection; otherwise exactly the stored players whose id is listed, every copy of each, as a subsequence of the stored order |
| Selector.PredictTeam | App/backend/routes/predictRoutes.js:153-165 | an empty pool gets the 400 answer with its message; otherwise the answer is the prediction for the pool under the defaulted parameters |
| Selector.PoolDistinct | App/backend/routes/predictRoutes.js:157-160 | the pool keeps the collection's unique ids |
| Selector.PredictTeamSize | App/backend/routes/predictRoutes.js:14-165 | without `maxXI` the predicted XI has min(11, pool size) players |
| PlayerRoutes.LastDot | App/backend/routes/playerRoutes.js:32 | the position found holds a dot and no dot follows it; none is found only when there is no dot |
| PlayerRoutes.ExtName | App/backend/routes/playerRoutes.js:32 | the extension is a suffix of the name, empty or starting with its only dot; it is non-empty iff a dot stands after the first character and the name is not `..` |
| PlayerRoutes.OutcomeOf | App/backend/routes/playerRoutes.js:25-40 | a file is saved iff the filter accepts it and it is at most 5 MiB; a filter refusal comes first, the size limit second |
| PlayerRoutes.RefusalReply | App/backend/routes/playerRoutes.js:139 | a refused upload is answered by Express's final handler with status 500 and no route message; a saved one lets the handler run |
| PlayerRoutes.SizeMessageNeverSent | App/backend/routes/playerRoutes.js:166-173 | no upload ever gets the route's 400 size message; an oversized file gets 500 |
| PlayerRoutes.IntendedRefusalReply | App/backend/routes/playerRoutes.js:166-173 | the reply the `catch` blocks are written to give: 400 for every refusal, the size message exactly for an accepted type over the limit, the image message for a refused type |
| PlayerRoutes.RefusalsDiffer | App/backend/routes/playerRoutes.js:166-173 | the wired and the intended replies refuse the same uploads and differ on each of them |
| PlayerRoutes.FilterNeedsExtension | App/backend/routes/playerRoutes.js:32-35 | a file the filter accepts has an extension |
| PlayerRoutes.ExtNameLower | App/backend/routes/playerRoutes.js:32 | the extension of the lower-cased name is the lower-cased extension |
| PlayerRoutes.FilterIgnoresNameCase | App/backend/routes/playerRoutes.js:32 | for every name and MIME type, lower-casing the name does not change the filter's verdict |
| PlayerRoutes.FilterMimeIsCaseSensitive | App/backend/routes/playerRoutes.js:33 | a MIME type without lower-case letters (such as `IMAGE/PNG`) is refused whatever the name |
| PlayerRoutes.FilterUsesLastExtension | App/backend/routes/playerRoutes.js:32 | for `base.ext` with a non-empty base and no dot in `ext`, the verdict depends on `.ext` alone (so `photo.png.exe` is judged by `.exe`) |
| PlayerRoutes.FilterMatchesSubstrings | App/backend/routes/playerRoutes.js:31-33 | an extension that merely contains an image type name (such as `.pngx`) passes with an image MIME type |
| PlayerRoutes.CleanTags | App/backend/routes/playerRoutes.js:81 | the cleaned tags are non-empty and trimmed, and comma-free pieces stay comma-free |
| PlayerRoutes.ParseTags | App/backend/routes/playerRoutes.js:80-85 | an array passes through unchanged; a falsy value gives no tags; text gives non-empty, trimmed, comma-free tags |
| PlayerRoutes.TagsRoundTrip | App/backend/routes/playerRoutes.js:149 | trimmed, non-empty, comma-free tags joined with ", " parse back to the same list |
| PlayerRoutes.RangeFilter | App/backend/routes/playerRoutes.js:88-107 | a range clause exists iff a bound is given; each bound is set iff its parameter is given, to its parse |
| PlayerRoutes.BuildQuery | App/backend/routes/playerRoutes.js:53-107 | the search, country, role and gender clauses exist iff their parameters are non-empty; the tags clause iff the parsed tags are non-empty; each range as `RangeFilter` says |
| PlayerRoutes.SortOf | App/backend/routes/playerRoutes.js:110-116 | a whitelisted field is kept, with 1 iff the order is "asc" and -1 otherwise; any other gives `createdAt` -1 |
| PlayerRoutes.CreateData | App/backend/routes/playerRoutes.js:143-161 | name, country and gender pass through; role defaults to "All-rounder" and bio to ""; tags are parsed; a parsed statistic is stored as its number and an unparseable one as 0; an upload sets the image to `/uploads/` and its file name, and no upload leaves it unset |
| PlayerRoutes.Updated | App/backend/routes/playerRoutes.js:188-212 | empty name or country keeps the old one; role, gender, bio, tags and each statistic change only when sent; the image only with a file; the id never |
| PlayerRoutes.UpdateIdempotent | App/backend/routes/playerRoutes.js:188-212 | applying the same update twice is the same as once |
| PlayerRoutes.EmptyUpdate | App/backend/routes/playerRoutes.js:188-212 | an update with no fields and no file changes nothing |
| PlayerRoutes.PlayerDoc.ApplyUpdate | App/backend/routes/playerRoutes.js:188-212 | assigning the fields in place leaves the document equal to `Updated` of its old value |
| PlayerRoutes.PlayerDoc.MergeFields | App/backend/routes/playerRoutes.js:188-195 | the text fields and tags merge as above; stats and image are untouched |
| PlayerRoutes.PlayerDoc.MergeStats | App/backend/routes/playerRoutes.js:197-200 | each sent statistic is overwritten with its parse; every other field is untouched |
| TeamPredictorPage.ToggleLock | App/frontend/src/pages/TeamPredictor.jsx:35-37 | a present id is removed (every copy), and every other id keeps its order and all its copies; an absent id is appended |
| TeamPredictorPage.ToggleTwice | App/frontend/src/pages/TeamPredictor.jsx:36 | toggling an absent id twice restores the list |
| TeamPredictorPage.FilteredPlayers | App/frontend/src/pages/TeamPredictor.jsx:42-45 | no gender gives the pool unchanged; otherwise exactly the players whose lower-cased gender equals the selection, every copy of each, in order |
| TeamPredictorPage.PruneLocks | App/frontend/src/pages/TeamPredictor.jsx:48-51 | every surviving lock is a visible id, every copy of a visible lock survives and no other, and their order is kept |
| TeamPredictorPage.PruneIdempotent | App/frontend/src/pages/TeamPredictor.jsx:48-51 | pruning twice is the same as once |
| TeamPredictorPage.XISize | App/frontend/src/pages/TeamPredictor.jsx:119 | a parse of NaN or 0 falls back to 11; any other number is kept, so the size is never 0 |
| TeamPredictorPage.PredictBody | App/frontend/src/pages/TeamPredictor.jsx:56-59 | the request carries the ids of the filtered pool in order, the locks, the XI size and the conditions |
| TeamPredictorPage.ServerSeesFilteredPool | App/frontend/src/pages/TeamPredictor.jsx:57 | for a non-empty filtered pool with unique ids, the server's pool is exactly the filtered pool |
| TeamPredictorPage.EmptyFilterMeansEveryone | App/frontend/src/pages/TeamPredictor.jsx:57 | when no player matches, the page sends an empty id list and the server predicts from the whole collection |
| StatsChart.CountryColor | App/frontend/src/components/StatsChart.jsx:25-35 | an unmapped country gets the fallback colour; a mapped one its own, which differs from the fallback |
| StatsChart.BorderForColor | App/frontend/src/components/StatsChart.jsx:37-46 | an unmapped country keeps its fill colour as border |
| StatsChart.BorderStandsOut | App/frontend/src/components/StatsChart.jsx:25-46 | every mapped country's border differs from its fill |
| StatsChart.TopRuns | App/frontend/src/components/StatsChart.jsx:58-60 | sorting a copy in an array and cutting it gives the top-ten function; the input list is a value and is not reordered |
| StatsChart.TopRunsCorrect | App/frontend/src/components/StatsChart.jsx:58-60 | min(10, n) players from the input, by non-increasing runs; no player left out has more runs than one shown |
| StatsChart.CountryRunsOf | App/frontend/src/components/StatsChart.jsx:87-93 | the `forEach` loop builds the totals and key order that `Totals` defines |
| StatsChart.TotalsCorrect | App/frontend/src/components/StatsChart.jsx:87-93 | the keys are exactly the non-empty countries of the players, each once, and each total is the sum of that country's runs |
| StatsChart.TopCountriesCorrect | App/frontend/src/components/StatsChart.jsx:95-97 | at most five entries, non-increasing by total, each a key of the totals with its sum of runs |
| StatsChart.ChartsOf | App/frontend/src/components/StatsChart.jsx:63-84 | one label, runs value, wickets value, fill colour and border colour per top player (its name, runs, wickets, country colour and the border for it); the doughnut gets the given country totals unchanged |
| StatsChart.Render | App/frontend/src/components/StatsChart.jsx:48-97 | a missing or empty list gives the no-data view; otherwise the charts from the top ten and the top countries |
| PlayerForm.InitialForm | App/frontend/src/components/PlayerForm.jsx:6-22 | a new form has role "All-rounder", no tags and zero statistics; an edit form joins the tags with ", " and reads missing statistics as 0; no image and no errors |
| PlayerForm.FormTagsRoundTrip | App/frontend/src/components/PlayerForm.jsx:12 | clean stored tags shown in the form parse back on the server to the same list |
| PlayerForm.ChangeIsLocal | App/frontend/src/components/PlayerForm.jsx:25-31 | a change sets the named field and clears only its error; every other field, the image and the preview are unchanged |
| PlayerForm.FormComponent.HandleChange | App/frontend/src/components/PlayerForm.jsx:25-31 | the component's state moves as `Changed` says |
| PlayerForm.ImageChangeCorrect | App/frontend/src/components/PlayerForm.jsx:33-58 | the image changes iff the type matches "image" and the size is at most 5 MiB; a refused file leaves all but its error unchanged |
| PlayerForm.FiveMegabytesIsTheLimit | App/frontend/src/components/PlayerForm.jsx:45-50 | exactly 5 MiB is accepted, one byte more is refused with the size error |
| PlayerForm.FormLimitIsServerLimit | App/frontend/src/components/PlayerForm.jsx:45 | a file the form accepts also passes the server's size limit |
| PlayerForm.FormTypeCheckIsLooser | App/frontend/src/components/PlayerForm.jsx:37 | "image/webp" passes the form's type check but not the server's filter |
| PlayerForm.FormComponent.HandleImageChange | App/frontend/src/components/PlayerForm.jsx:33-58 | the component's state moves as `ImageChanged` says |
| PlayerForm.Validate | App/frontend/src/components/PlayerForm.jsx:64-70 | a name error iff the trimmed name is empty, a country error iff the trimmed country is empty, with their messages, and nothing else |
| PlayerForm.PayloadOf | App/frontend/src/components/PlayerForm.jsx:78-90 | name, country, role, gender, bio, tags and image pass through; a typed statistic is its parse, or 0 when unparseable; a loaded number is cut toward zero for the counts and kept for the average |
| PlayerForm.Truncate | App/frontend/src/components/PlayerForm.jsx:85-87 | the result is the integer part, rounded toward zero |
| PlayerForm.SubmitCorrect | App/frontend/src/components/PlayerForm.jsx:60-91 | the payload is sent iff neither name nor country is blank; a blank one is reported under its key; only the errors change |
| PlayerForm.FormComponent.HandleSubmit | App/frontend/src/components/PlayerForm.jsx:60-91 | the component's state and the sent payload are as `Submitted` says |
| SearchBar.Merge | App/frontend/src/components/SearchBar.jsx:63 | every updated key takes its new value and every other key keeps its old one |
| SearchBar.EmittedKeysAreTheRest | App/frontend/src/components/SearchBar.jsx:30-44 | the filter object has a slot for every field except the search term |
| SearchBar.EmittedKeysDistinct | App/frontend/src/components/SearchBar.jsx:30-44 | no field has two slots |
| SearchBar.Cleaned | App/frontend/src/components/SearchBar.jsx:30-51 | the emitted object never holds the search term or an empty value, and holds every other non-empty field with its value |
| SearchBar.CleanFilters | App/frontend/src/components/SearchBar.jsx:30-51 | the deleting loop leaves exactly the cleaned object |
| SearchBar.DropEmpty | App/frontend/src/components/SearchBar.jsx:47-51 | the deleting loop keeps exactly the keys whose value is neither `undefined` nor `''`, with their values |
| SearchBar.Preset | App/frontend/src/components/SearchBar.jsx:124-140 | only "topBatsmen" and "allRounders" select a preset; each sets role and a runs-descending sort |
| SearchBar.ClearSortsLikeDefaults | App/frontend/src/components/SearchBar.jsx:97-121 | the reset emits `{}` while the defaults would emit createdAt/desc, and the server sorts both newest first |
| SearchBar.PresetsSortByRuns | App/frontend/src/components/SearchBar.jsx:127-135 | both presets make the server sort by runs, most first |
| SearchBar.PresetIsLocal | App/frontend/src/components/SearchBar.jsx:124-140 | a preset leaves every field but role and the sort unchanged, and sets the role it names |
| SearchBar.Bar.UpdateFilters | App/frontend/src/components/SearchBar.jsx:24-67 | the state is the merge, and the emission is the cleaned merged state and its search term |
| SearchBar.Bar.ClearFilters | App/frontend/src/components/SearchBar.jsx:96-122 | the state is back to the defaults, emitting `{}` and "" |
| SearchBar.Bar.QuickFilter | App/frontend/src/components/SearchBar.jsx:124-140 | a known preset is merged, emitted and reported; any other name changes and emits nothing |

## Left out

- `Math.sqrt`, IEEE rounding and `NaN` in `zNormalize`: numbers are exact reals and the square root is a parameter.
- Scoring.VarianceOfEqual: the converse, that zero variance means all values are equal, is not proved.
- `maxXI` is a natural number: a negative value (`slice` from the end), `null` or a non-numeric value is not modelled.
- `locks` is a list of strings: the `String` conversion of other values is not modelled.
- `default` parameter values apply in the model whenever a field is absent; JavaScript also keeps an explicit `null`, which the model does not distinguish.
- Express routing, authentication, the route handlers' own 500 and 400 answers to database errors, `GET /:id`, `DELETE /:id`, the 404 of an update, and the rest of `server.js`: request plumbing and persistence. The page Express's final handler renders for a refused upload is not modelled, only its status.
- Multer's storage and file names (`Date.now`, `Math.random`), mongoose `find`/`save`/`findById`, schema validation and `fs.unlinkSync`: I/O.
- MongoDB's `$regex` and `$in` matching: the list query is a data value, not an evaluation against documents.
- The order of `Player.find` results: the pool keeps the stored order.
- `path.extname` is modelled for names without path separators.
- `parseInt` and `parseFloat` are parameters; `PlayerForm` reads a number it was given as its truncation (`parseInt`) or itself (`parseFloat`), which ignores exponent notation for very large values.
- `toLowerCase` is modelled on ASCII letters only.
- A query parameter given several times counts as a list only for tags.
- `StatsChart` reads a missing `runs` or `wickets` as 0 where JavaScript would compute `NaN`.
- `StatsChart` keeps key insertion order for `Object.entries`; JavaScript lists integer-like keys first, which country names are not.
- Chart options, colours of the doughnut and all rendering: presentation only.
- The debounce timer of the search bar: the model emits at once for every update, so the emission of an update that a later one supersedes is not distinguished.
- The network calls of the pages and the loading and error states: I/O.
- `Profile.jsx` and the other rendering-only pages are not part of this model.

## Findings

| source | as written | input that shows it | evidently intended | confidence | as-written member | corrected member |
|---|---|---|---|---|---|---|
| App/backend/routes/playerRoutes.js:166-173 | the `catch` of `POST /` (and of `PUT /:id`, lines 216-223) answers a multer `LIMIT_FILE_SIZE` error with 400 and the size message, but `upload.single('image')` runs as middleware before the handler and passes its error to `next`; with no error middleware registered, Express answers 500 | a 5 MiB + 1 byte `a.png` sent as `image/png` | 400 with "File size too large. Maximum size is 5MB." (and 400 with the image message for a refused type) | high, not executed | PlayerRoutes.SizeMessageNeverSent | PlayerRoutes.IntendedRefusalReply |
