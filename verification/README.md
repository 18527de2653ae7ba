# jaxstats core in Dafny

A Dafny model of the logic at the heart of jaxstats, a League of Legends match
analyser. The model covers three groups:

- **The replay timeline engine.**
  - The timeline-to-`ProcessedReplay` transform: the roster, per-key position samples, the kept events and the game duration.
  - The decoder-output extractors and the dragon/baron respawn timers.
  - The "game state at time T" query: nearest position sample, ±30 s event window and per-team objective accumulation.
  - The older replay service: nearest stored game state, and a keyed store with save, load, delete and list.
- **Statistics roll-ups.**
  - `StatsAnalyzer`: `add_match`, `get_player_stats`, `get_champion_stats` and `get_match_details`.
  - The rule-based `PerformanceModel` score, verdict and advice.
- **Small conversions and the API glue.**
  - `format_game_duration`.
  - The region routing tables and `_get_routing_value`.
  - The cache-first `get_match_details` of the Riot API client.
  - Argument validation and the cached/new bookkeeping of the two analysis endpoints.

Every operation is a pure function over immutable datatypes:
- Stores (replay files, the match cache) are maps from id to record.
- Decoded JSON is a generic `Json` value with Python truthiness, subscript, `.get` and iteration.
- Python exceptions are `Failure` values of a `Result`.
- Network responses, the text generator and the summoner/account lookups are function parameters.

Modules, one per file:

| module | models |
|---|---|
| `Wrappers` | `Option` / `Result` |
| `Json` | decoded JSON values and the Python operations on them |
| `MapSums` | sums over a map's values (for "the games add up" properties) |
| `Nearest` | `min(xs, key=abs(x - t))`: the first element at minimal distance |
| `Routing` | `region_routing`, `base_urls`, the parser's `routing_map`, `_get_routing_value` |
| `ReplayModel` | `ProcessedReplay`, `GameEvent`, `PositionData`, ... |
| `TimelineParser` | `parse_match_timeline` |
| `DecoderExtract` | the `_extract_*` helpers |
| `ObjectiveTimers` | `_calculate_objective_timers` |
| `ReplayService` | `app/replay/services/replay_service.py` |
| `LegacyReplayService` | `app/services/replay_service.py` |
| `StatsAnalyzer` | `app/analysis/stats_analyzer.py` |
| `PerformanceModel` | `app/ml/performance_model.py` |
| `DurationFormat` | `format_game_duration` |
| `RiotClient` | the match cache and cache-first `get_match_details` |
| `AnalyzeEndpoint` | `analyze_summoner` and `get_champion_stats` in `app/main.py` |

## Model

| member | source | states |
|---|---|---|
| Routing.ToLower | app/api/riot_client.py:63 | `region.lower()` keeps the length and lower-cases each character |
| Routing.RoutingValue | app/api/riot_client.py:61-66 | the lookup succeeds exactly when the lower-cased region is a key with a non-empty value; it returns that value, and otherwise raises ValueError |
| Routing.RoutingIgnoresCase | app/api/riot_client.py:63 | looking a region up gives the same outcome as looking up its lower-cased form |
| Routing.UpperCaseRegionRoutes | app/api/riot_client.py:30-52 | "EUW1" routes to europe and "Kr" to asia |
| Routing.UnknownRegionRejected | app/api/riot_client.py:64-65 | an unknown region, or the empty one, raises ValueError |
| Routing.RegionTablesAgree | app/replay/services/replay_parser.py:101-116 | the parser's routing map is identical to the client's `region_routing` |
| Routing.RoutingValuesHaveBaseUrls | app/api/riot_client.py:30-59 | every routing value the lookup can return has an entry in `base_urls` |
| Routing.BaseUrl | app/api/riot_client.py:117-118 | a base URL exists exactly when routing succeeds; it is one of the four cluster hosts; failure is ValueError |
| Json.Field | app/replay/services/replay_parser.py:148-152 | `entry[key]` succeeds exactly on a dict holding the key; otherwise KeyError on a dict and TypeError on anything else |
| Json.GetOr | app/replay/services/replay_parser.py:167 | `.get(key, default)` works only on a dict (else AttributeError) and gives the value or the default |
| Json.Iterate | app/replay/services/replay_parser.py:180 | iterating a list gives its items, a dict one string per key (each key once), a string one string per character; anything else is a TypeError |
| Json.IterateTexts | app/replay/services/replay_parser.py:180 | a loop over a dict or a string sees only strings, and sees none exactly when the value is empty |
| Json.SortedKeys | app/replay/services/replay_parser.py:180 | the order a dict's keys are visited in: every key exactly once |
| Nearest.ArgMinFirst | app/replay/services/replay_service.py:74 | `min` by key returns an index whose key is minimal, with every earlier key strictly larger |
| Nearest.NearestIndex | app/services/replay_service.py:67-70 | the chosen element minimises the distance to t, and it is the first one at that distance |
| ObjectiveTimers.LastKillTime | app/replay/services/replay_parser.py:220-225 | none exactly when no matching kill exists; otherwise the time of a kill that has no later kill of the same monster |
| ObjectiveTimers.ScanFindsLastKills | app/replay/services/replay_parser.py:217-225 | the loop ends holding the time of the last dragon and the last baron kill in list order, or its start value |
| ObjectiveTimers.TimersFromLastKills | app/replay/services/replay_parser.py:209-233 | each timer is the last kill's time plus 300000 (dragon) or 360000 (baron), and 0 without a positive last kill |
| ObjectiveTimers.LastListedKillWins | app/replay/services/replay_parser.py:220-231 | the last listed kill decides, not the latest time; a last kill at time 0 leaves the timer at 0 |
| TimelineParser.Roster | app/replay/services/replay_parser.py:48-55 | one participant per metadata puuid, in order, with champion 0, team 0 and name "Unknown" |
| TimelineParser.AddFrameSpec | app/replay/services/replay_parser.py:60-67 | one frame appends, under each key, exactly that key's samples of the frame, stamped with the frame time |
| TimelineParser.BuildPathingSpec | app/replay/services/replay_parser.py:58-67 | after all frames, each key holds its samples in frame order, and a key is present exactly when it has a sample |
| TimelineParser.AddFrameTotal | app/replay/services/replay_parser.py:60-67 | one frame adds exactly as many samples as it has participant-frame entries |
| TimelineParser.BuildPathingTotal | app/replay/services/replay_parser.py:58-67 | the total number of stored samples equals the number of (frame, entry) pairs |
| TimelineParser.ConvertEvent | app/replay/services/replay_parser.py:72-86 | an event converts exactly when the fields its kind reads are present; only kills and objectives are kept, translated with their team and details, every other attribute left unset |
| TimelineParser.ConvertFrameEvents | app/replay/services/replay_parser.py:72-86 | a frame's kept events are converted in order, one result per kept event, each fixed in every attribute by its raw event |
| TimelineParser.CollectEvents | app/replay/services/replay_parser.py:70-86 | all frames' kept events are converted in frame order, then in-frame order, each fixed in every attribute by its raw event |
| TimelineParser.FromTimeline | app/replay/services/replay_parser.py:47-97 | the replay has the match id, duration frameInterval × frame count, the roster, the pathing built from the frames with the right total, and the translated kept events (the attributes the parser does not set left unset); a kept event missing a field its kind reads (its timestamp included) is a RuntimeError |
| TimelineParser.ParseMatchTimeline | app/replay/services/replay_parser.py:25-97 | the parse succeeds exactly when routing succeeds, the fetch returns a document and that document transforms; its value is then the transform of the fetched document, and every failure is a RuntimeError |
| TimelineParser.PathForAppendFrame | app/replay/services/replay_parser.py:58-67 | a later frame only extends each key's path at the end |
| TimelineParser.SamplesComeFromFrames | app/replay/services/replay_parser.py:59-67 | every stored sample is the position of some entry with that key, stamped with its frame's time |
| TimelineParser.RosterHasNoPathing | app/replay/services/replay_parser.py:49-67 | when no frame key is a roster puuid, no roster participant has pathing under its puuid |
| TimelineParser.PathForNonEmpty | app/replay/services/replay_parser.py:58-62 | a key has samples exactly when some frame has an entry under it |
| DecoderExtract.MapAll | app/replay/services/replay_parser.py:146-156 | the comprehension succeeds exactly when every item converts; it keeps length and order, and otherwise raises the first failing item's exception |
| DecoderExtract.ExtractStatsJson | app/replay/services/replay_parser.py:122-134 | succeeds exactly on a dict whose statsJson is present and truthy, returning it unchanged; every failure is a RuntimeError |
| DecoderExtract.PathingEntryOfSpec | app/replay/services/replay_parser.py:147-154 | an entry converts exactly when it is a dict with all four fields; a dict missing one raises KeyError and a non-dict TypeError |
| DecoderExtract.ExtractChampionPathing | app/replay/services/replay_parser.py:136-162 | a non-dict output or a non-list championPathing is a RuntimeError; a missing key gives []; a list goes through the item loop |
| DecoderExtract.PathingItems | app/replay/services/replay_parser.py:146-162 | succeeds exactly when every item has the four fields, copying them in order; otherwise the first bad item decides between ValueError (a dict) and RuntimeError |
| DecoderExtract.PathingFailureAt | app/replay/services/replay_parser.py:157-162 | the item that stops the loop is the first one lacking a field, and the error it maps to follows its shape |
| DecoderExtract.WardEventOfSpec | app/replay/services/replay_parser.py:169-179 | a ward entry converts exactly when it is a dict with all seven fields, copying them |
| DecoderExtract.ExtractWardEvents | app/replay/services/replay_parser.py:164-184 | a non-dict output raises AttributeError; a missing key gives []; a list goes through the item loop; a non-empty dict or string raises TypeError on its first string entry, an empty one gives [], any other value is a TypeError |
| DecoderExtract.WardItems | app/replay/services/replay_parser.py:168-181 | succeeds exactly when every item has the seven fields, copying them in order |
| DecoderExtract.GameEventOf | app/replay/services/replay_parser.py:191-202 | converts exactly when the entry is a dict whose fields `GameEvent` accepts; the event carries the entry's timestamp and type, a position exactly when both x and y are present, and each of the seven `.get` attributes (participant, team, building, lane, tower, monster, monster subtype) as given or None; a missing timestamp or type is a KeyError |
| DecoderExtract.ExtractGameEvents | app/replay/services/replay_parser.py:186-207 | a missing key gives []; a list succeeds exactly when every event converts, giving each entry's converted event in order (timestamps, types, the position rule and the optional attributes); a non-empty dict or string raises TypeError on its first string entry, an empty one gives [], any other value is a TypeError |
| DecoderExtract.ExtractTeams | app/replay/services/replay_parser.py:235-250 | always teams 100 then 200, not won, with every objective count 0 |
| DecoderExtract.ItemSlots | app/replay/services/replay_parser.py:270-273 | exactly the seven slots item0..item6, each defaulting to 0 |
| DecoderExtract.ParticipantOf | app/replay/services/replay_parser.py:256-274 | a participant converts exactly when it is a dict, else AttributeError; each field is the given value or its default: None for the id, summoner name, champion and team, false for win, 0 for kills, deaths, assists, gold earned, gold spent and both minion counts, 1 for level, 0 for each of the seven item slots |
| DecoderExtract.ExtractParticipants | app/replay/services/replay_parser.py:252-276 | a list gives one record per participant, in order, each the participant's converted record with the defaults None for the identity fields, false for win, 0 for every counter, 1 for level and seven item slots; a non-empty dict or string raises AttributeError on the first `.get` of a string, an empty one gives [], any other value is a TypeError |
| DecoderExtract.ParticipantsNotAListExample | app/replay/services/replay_parser.py:255-257 | a dict or a string under `participants` raises AttributeError, a number raises TypeError |
| DecoderExtract.MapAllTexts | app/replay/services/replay_parser.py:180 | a comprehension whose body raises the same exception on every item raises it unless there are no items |
| DecoderExtract.TextLoop | app/replay/services/replay_parser.py:180 | a comprehension over a dict or a string whose body raises on every string raises that exception when the value is non-empty and gives [] when it is empty |
| ReplayService.ClosestSample | app/replay/services/replay_service.py:74 | the chosen sample minimises the distance to T and is the first such sample |
| ReplayService.StatesFor | app/replay/services/replay_service.py:67-90 | a roster puuid gets a state exactly when its pathing list is non-empty; the state's position is its first nearest sample |
| ReplayService.CalculateChampionStates | app/replay/services/replay_service.py:63-92 | the states are keyed by exactly the participants with non-empty pathing, each at its nearest sample |
| ReplayService.RecentEvents | app/replay/services/replay_service.py:94-102 | an event is kept exactly when T−30000 ≤ timestamp ≤ T+30000 |
| ReplayService.RecentEventsKeepOrder | app/replay/services/replay_service.py:99-102 | filtering distributes over concatenation, so the stored order is kept |
| ReplayService.WindowBoundsInclusive | app/replay/services/replay_service.py:96-101 | both window ends are included, and one millisecond beyond either end is excluded |
| ReplayService.FirstAfter | app/replay/services/replay_service.py:108-110 | the loop stops at the first event later than T; every earlier event is at or before T |
| ReplayService.AccumulateSpec | app/replay/services/replay_service.py:108-115 | each team receives the labels of its objectives in the prefix before the first late event, in order |
| ReplayService.CalculateTeamObjectives | app/replay/services/replay_service.py:104-117 | the keys are exactly "100" and "200", each holding its team's labels from that prefix |
| ReplayService.SortedPrefixIsAllUpTo | app/replay/services/replay_service.py:108-110 | for events sorted by time, the prefix is exactly the events at or before T |
| ReplayService.ObjectivesAccumulateInOrder | app/replay/services/replay_service.py:106-117 | objectives at 100 and 200 count at T = 250 in order; the one at 300 does not |
| ReplayService.UnsortedEventsStopEarly | app/replay/services/replay_service.py:108-110 | a late event listed first hides a later-listed earlier objective |
| ReplayService.ObjectivesGrowWithTime | app/replay/services/replay_service.py:108-115 | a later T only extends each team's label list |
| ReplayService.SaveReplay | app/replay/services/replay_service.py:14-23 | saving writes under the match id, returns it and leaves other ids alone |
| ReplayService.LoadReplay | app/replay/services/replay_service.py:25-39 | loading gives None exactly when the file is missing or does not decode |
| ReplayService.SaveThenLoad | app/replay/services/replay_service.py:14-39 | loading a saved replay gives it back |
| ReplayService.GetGameState | app/replay/services/replay_service.py:41-61 | None exactly when the load fails; otherwise the snapshot is stamped T and holds the three computed parts |
| ReplayService.StatsIgnoreTime | app/replay/services/replay_service.py:119-142 | gold 0, CS 0, level 1, KDA 0/0/0 and no items, whatever T is |
| ReplayService.TimelineReplayHasNoChampionStates | app/replay/services/replay_service.py:67-71 | a replay built from a timeline whose frame keys are not puuids yields no champion state at any T |
| ReplayService.NoPathingNoStates | app/replay/services/replay_service.py:67-71 | when no roster puuid has pathing, the states are empty |
| ReplayService.TimelineExampleHasNoChampionStates | app/replay/services/replay_service.py:67-71 | a one-frame timeline stores a sample under "1" yet gives no champion state |
| LegacyReplayService.SaveReplay | app/services/replay_service.py:15-24 | saving (over)writes the replay under its id and leaves other ids alone |
| LegacyReplayService.LoadReplay | app/services/replay_service.py:26-38 | a missing id raises not-found; an undecodable file raises a decode error; otherwise it returns the record |
| LegacyReplayService.DeleteReplay | app/services/replay_service.py:76-87 | deleting fails with not-found exactly when the id is absent; otherwise only that id is removed |
| LegacyReplayService.SaveThenLoad | app/services/replay_service.py:15-38 | loading a saved replay gives it back |
| LegacyReplayService.DeleteThenLoad | app/services/replay_service.py:76-84 | after a delete, both loading and deleting the id again raise not-found |
| LegacyReplayService.InsertByTime | app/services/replay_service.py:54 | inserting into a newest-first list keeps it newest-first and adds exactly the one item |
| LegacyReplayService.SortNewestFirst | app/services/replay_service.py:54 | the result is sorted by timestamp descending and is a permutation of the input |
| LegacyReplayService.SortKeepsItems | app/services/replay_service.py:54 | sorting keeps the length and exactly the same items |
| LegacyReplayService.LoadAll | app/services/replay_service.py:44-53 | loading every listed file succeeds exactly when each load does, giving one list item per file in listing order; otherwise a failing load's error |
| LegacyReplayService.ListReplays | app/services/replay_service.py:40-57 | succeeds exactly when every stored file decodes; the list is newest-first and a permutation of the loaded items, one per stored replay, each from the store |
| LegacyReplayService.LoadAllCoversStore | app/services/replay_service.py:44-53 | over a directory listing, the loads cover exactly the stored replays, and a failure is a decode error |
| LegacyReplayService.GetGameState | app/services/replay_service.py:59-74 | load errors propagate; None exactly when there are no states; otherwise the first state nearest to T |
| LegacyReplayService.TieGoesToFirst | app/services/replay_service.py:67-70 | at equal distance the earlier state is returned |
| StatsAnalyzer.AddMatch | app/analysis/stats_analyzer.py:180-190 | appends exactly the match; an unset puuid becomes the first participant's, and a set one is kept |
| StatsAnalyzer.AddMatchesKeepsPuuid | app/analysis/stats_analyzer.py:180-190 | adding matches appends them in order and never changes a puuid already set |
| StatsAnalyzer.FirstMatchPicksPlayer | app/analysis/stats_analyzer.py:186-190 | a fresh analyzer's player is the first participant of the first match |
| StatsAnalyzer.FirstEntry | app/analysis/stats_analyzer.py:214-217 | none exactly when no participant has the puuid; otherwise the first one that has it |
| StatsAnalyzer.PlayerEntries | app/analysis/stats_analyzer.py:212-217 | at most one entry per match, only for matches containing the player, each with the player's puuid |
| StatsAnalyzer.PlayerEntriesOfOne | app/analysis/stats_analyzer.py:212-217 | one match contributes the player's first entry in it when it has the player, and nothing otherwise |
| StatsAnalyzer.PlayerEntriesSnoc | app/analysis/stats_analyzer.py:212-217 | appending a match appends its first entry of the player, if any |
| StatsAnalyzer.PlayerEntriesConcat | app/analysis/stats_analyzer.py:212-217 | the entries of two match lists are the first list's followed by the second's, so entry k comes from the k-th match containing the player |
| StatsAnalyzer.OnlyFirstEntryCounts | app/analysis/stats_analyzer.py:213-217 | of two entries with the same puuid in a match, only the first is counted |
| StatsAnalyzer.WinCount | app/analysis/stats_analyzer.py:238 | the wins never exceed the entries |
| StatsAnalyzer.ChampionsPlayed | app/analysis/stats_analyzer.py:254-272 | one tally per champion played, each equal to the games, wins, kills, deaths and assists of that champion's entries |
| StatsAnalyzer.PositionsPlayed | app/analysis/stats_analyzer.py:274-284 | one tally per team position, each equal to the games and wins in that position |
| StatsAnalyzer.RatesScaleBack | app/analysis/stats_analyzer.py:251 | the win rate times the games gives back 100 × wins, and an average times the games gives back the total |
| StatsAnalyzer.Kda | app/analysis/stats_analyzer.py:243-248 | (k+a)/d with deaths, k+a without deaths, and 0 when all three are 0 |
| StatsAnalyzer.GetPlayerStats | app/analysis/stats_analyzer.py:192-301 | the all-zero record exactly when no entry counts; otherwise kill, death, assist, damage dealt, damage taken, gold and vision totals over the counted entries, wins ≤ matches, losses = matches − wins, rate, KDA and the two per-group tallies |
| StatsAnalyzer.PlayedGamesAddUp | app/analysis/stats_analyzer.py:254-284 | the champion games and the position games each sum to the total matches |
| StatsAnalyzer.UnsetPuuidGivesNoStats | app/analysis/stats_analyzer.py:194-210 | with the puuid None or "" the stats are all zero |
| StatsAnalyzer.ChampionTotalsMap | app/analysis/stats_analyzer.py:310-347 | one totals record per champion, equal to the sums over that champion's entries, with positions counted by individual position |
| StatsAnalyzer.GetChampionStats | app/analysis/stats_analyzer.py:303-372 | empty for an unset puuid; otherwise one summary per champion played, built from that champion's totals |
| StatsAnalyzer.ChampionTotalsConsistent | app/analysis/stats_analyzer.py:329-345 | each champion has at least one game, wins + losses = games, and its position counts sum to its games |
| StatsAnalyzer.ChampionKdaWithoutDeaths | app/analysis/stats_analyzer.py:358-362 | without deaths a champion's KDA is kills + assists |
| StatsAnalyzer.FindEntry | app/analysis/stats_analyzer.py:376-379 | finds the first match with the id that contains the player, and the player's first entry in it; none exactly when no such match exists |
| StatsAnalyzer.FirstIndex | app/analysis/stats_analyzer.py:378-379 | the first participant with the puuid, or none exactly when there is none |
| StatsAnalyzer.HistoryEntries | app/analysis/stats_analyzer.py:402-425 | every history entry is the player's, from a match with a different id |
| StatsAnalyzer.HistoryInOrder | app/analysis/stats_analyzer.py:403-425 | the history of two match lists is the first's history followed by the second's |
| StatsAnalyzer.HistoryOfOne | app/analysis/stats_analyzer.py:403-406 | one match contributes all of the player's entries in it, unless it has the requested id |
| StatsAnalyzer.PlayerInOne | app/analysis/stats_analyzer.py:405-406 | a single participant is kept exactly when it is the player |
| StatsAnalyzer.PlayerInConcat | app/analysis/stats_analyzer.py:405-406 | the player's entries are kept where they stand, duplicates included: the filter distributes over concatenation |
| StatsAnalyzer.LastFive | app/analysis/stats_analyzer.py:427 | `[-5:]` is the last min(5, n) elements |
| StatsAnalyzer.GetMatchDetails | app/analysis/stats_analyzer.py:374-458 | none exactly when no match with the id contains the player; otherwise the found match's id, mode, type, version and duration, the found entry's line, death time, minion counts and multikills, at most the last 5 history lines, the suggestion, and a suggestion list that is empty exactly for an empty suggestion |
| StatsAnalyzer.HistoryExcludesMatch | app/analysis/stats_analyzer.py:401-427 | no history line comes from a match with the requested id |
| StatsAnalyzer.SameIdSearchedFurther | app/analysis/stats_analyzer.py:376-379 | a first match with the id but without the player is skipped for a later one with the id |
| PerformanceModel.Cap | app/ml/performance_model.py:15-19 | `min(x, cap)` is at most both, and equals one of them |
| PerformanceModel.BasicScore | app/ml/performance_model.py:7-32 | the score is in [0, 100]; it equals the penalised total when that is in range, and is clamped to 0 or 100 otherwise |
| PerformanceModel.ComponentCaps | app/ml/performance_model.py:15-19 | each component is at most its cap (30, 20, 15, 20, 15) and its raw value, so the components sum to at most 100 |
| PerformanceModel.DeathPenalty | app/ml/performance_model.py:25-26 | at most 5 deaths cost nothing; each death beyond 5 costs 2 points |
| PerformanceModel.DeathsNeverHelp | app/ml/performance_model.py:25-26 | more deaths never raise the score |
| PerformanceModel.VisionPenalty | app/ml/performance_model.py:17-29 | below 10 vision, the score is lower by the lost component points plus exactly 5 |
| PerformanceModel.PerfectGameScoresHundred | app/ml/performance_model.py:15-32 | maxing every component with at most 5 deaths scores 100 |
| PerformanceModel.VerdictBands | app/ml/performance_model.py:39-46 | each verdict holds exactly the scores of its band (≥80, 60–80, 40–60, <40) |
| PerformanceModel.VerdictMonotone | app/ml/performance_model.py:39-46 | a higher score never gets a worse verdict |
| PerformanceModel.Tips | app/ml/performance_model.py:49-54 | a tip is included exactly when its condition holds, in the fixed order KDA, vision, CS |
| PerformanceModel.PredictPerformance | app/ml/performance_model.py:34-56 | returns the basic score and its verdict sentence followed by exactly the applicable tips in order |
| PerformanceModel.TipsJoin | app/ml/performance_model.py:49-54 | the three independent appends spell out the applicable tips in order |
| PerformanceModel.AnalysisStartsWithVerdict | app/ml/performance_model.py:38-54 | the analysis always begins with the verdict sentence |
| PerformanceModel.NoTipsForStrongGames | app/ml/performance_model.py:49-54 | KDA ≥ 2, vision ≥ 20 and CS/min ≥ 5 give the verdict sentence alone |
| DurationFormat.NatText | app/replay/api/views.py:45 | decimal digits with no leading zero except for 0 itself |
| DurationFormat.FormatGameDuration | app/replay/api/views.py:40-45 | the text is minutes, ':' and exactly two digits, with no other ':' |
| DurationFormat.FormatRoundTrip | app/replay/api/views.py:41-45 | reading the text back gives `ms // 1000`, so minutes × 60 + seconds is the whole seconds |
| DurationFormat.FormatDistinguishesSeconds | app/replay/api/views.py:42-45 | two durations print alike exactly when they have the same whole seconds |
| DurationFormat.HourPrintsAsSixtyMinutes | app/replay/api/views.py:42-45 | 3600000 ms prints "60:00"; minutes are not wrapped into hours |
| DurationFormat.SubSecondsDropped | app/replay/api/views.py:42 | 61999 ms prints "1:01" and 999 ms prints "0:00" |
| RiotClient.SaveMatchData | app/api/riot_client.py:96-100 | saving adds exactly the id to the cache |
| RiotClient.LoadMatchData | app/api/riot_client.py:102-108 | a missing file gives None, a readable one its record, and a file that does not decode raises |
| RiotClient.SaveThenLoad | app/api/riot_client.py:96-108 | loading a saved id gives the data; other ids are unaffected |
| RiotClient.LoadUnsaved | app/api/riot_client.py:102-108 | loading an id never saved gives None |
| RiotClient.GetMatchDetails | app/api/riot_client.py:110-126 | an undecodable cache file raises with no request; a truthy cache hit is returned with no request; a miss requests the match URL once, returns the answer or the HTTP error, and caches only a truthy answer; a bad region raises ValueError with no request |
| RiotClient.CacheHitIgnoresRegion | app/api/riot_client.py:113-117 | a hit is answered the same whatever the region, even an invalid one |
| RiotClient.SecondCallIsCached | app/api/riot_client.py:110-126 | after a truthy fetch, asking again makes no request and gives the same answer |
| RiotClient.CacheOnlyGrows | app/api/riot_client.py:124-125 | a call never removes or changes the entries of other ids |
| RiotClient.NorthAmericaUrl | app/api/riot_client.py:117-118 | an NA1 miss requests `https://americas.api.riotgames.com/lol/match/v5/matches/<id>` |
| AnalyzeEndpoint.Split | app/main.py:143 | `split('#')` gives one more piece than there are separators, none containing one |
| AnalyzeEndpoint.SplitJoin | app/main.py:143 | joining the pieces with the separator gives the name back |
| AnalyzeEndpoint.Validate | app/main.py:131-143 | a count outside 1..20, a missing '#' and two or more '#' are each rejected; success exactly for one '#' and a valid count, splitting around it |
| AnalyzeEndpoint.ValidNameExample | app/main.py:143 | "Jax#NA1" splits into "Jax" and "NA1" |
| AnalyzeEndpoint.TwoHashesExample | app/main.py:143 | "Jax#NA1#x" fails the two-way unpack |
| AnalyzeEndpoint.SplitAtOnlyHash | app/main.py:143 | a name with one '#' has only one split around it |
| AnalyzeEndpoint.Step | app/main.py:163-172 | an undecodable cache file fails the request; a usable hit with `use_cache` appends the record to cached with no request; otherwise the client call's failure fails the request and its truthy answer is appended to new |
| AnalyzeEndpoint.Collect | app/main.py:163-172 | the loop adds at most one match per id, only extends the buckets, and adds nothing to cached without `use_cache` |
| AnalyzeEndpoint.CollectSnoc | app/main.py:163-172 | the loop over one more id is the loop so far followed by one step, so both buckets follow the id order |
| AnalyzeEndpoint.StepOnHit | app/main.py:165-172 | a usable hit is appended to cached with `use_cache` and to new without it, with no request |
| AnalyzeEndpoint.CollectHits | app/main.py:163-172 | the loop over ids that are all usable hits is exactly the buckets with the hits' records appended, in id order, to cached with `use_cache` and to new without |
| AnalyzeEndpoint.Records | app/main.py:165 | the cached record of each id, in id order |
| AnalyzeEndpoint.CachedIdsMakeNoRequest | app/main.py:163-172 | cached ids cost no request and leave the cache unchanged; with `use_cache` their records are appended to cached in id order, and without it to new |
| AnalyzeEndpoint.ParseAll | app/main.py:196-199 | all matches parse, in order, or one of them fails |
| AnalyzeEndpoint.Present | app/main.py:203 | the indexes of the non-None reports, in increasing order, and exactly those |
| AnalyzeEndpoint.Somes | app/main.py:203 | the kept reports are exactly the non-None ones, in order |
| AnalyzeEndpoint.Details | app/main.py:202 | one `get_match_details` result per match, in order |
| AnalyzeEndpoint.Summarise | app/main.py:174-220 | matches are analysed as cached followed by new; the analyses are the non-empty match details in that order, with the overall and champion stats of those matches; the summoner fields default to "Unknown", 0 and 0; the counts report the request, the retrieved ids and the bucket sizes, and the parse failure path is the only failure |
| AnalyzeEndpoint.Analyze | app/main.py:128-220 | a rejected argument fails before any call; a failing account, summoner or history call fails with its HTTP status and a failing match call with the loop's error; once every call succeeds there is a report exactly when the buckets are empty or every match parses, and a parse failure otherwise; a report means every call succeeded, and it is the early-return report (default summoner fields, no stats, zero counts) when the loop over the history ids left both buckets empty, and otherwise the summary of those buckets; requested is the argument; cached + new ≤ retrieved; analyzed ≤ cached + new; no cached matches without `use_cache` |
| AnalyzeEndpoint.Remote | app/main.py:146-157 | a remote call's HTTP status becomes the handler's failure carrying that status, and a success passes through |
| AnalyzeEndpoint.AnalyzeSummoner | app/main.py:128-224 | every failure, a rejected argument included, is answered with status 500 |
| AnalyzeEndpoint.ValidationPrecedesCalls | app/main.py:131-143 | a rejected argument gives the same answer whatever the services and cache |
| AnalyzeEndpoint.NoMatchesEarlyReturn | app/main.py:178-193 | with no usable match, analyzed, cached and new are all 0 |
| AnalyzeEndpoint.FetchAll | app/main.py:253-260 | at most one match per id is kept, and every kept match is truthy |
| AnalyzeEndpoint.FetchAllIsCollect | app/main.py:253-260 | the loop is the analysis loop without `use_cache`: it fails exactly when that loop fails, with the same error, and keeps exactly what that loop puts in new, with the same cache, so the kept matches are the non-empty client answers in id order |
| AnalyzeEndpoint.StepWithoutCache | app/main.py:256-258 | without `use_cache` one id is one client call: its failure fails the step and its non-empty answer is appended to new |
| AnalyzeEndpoint.ChampionStats | app/main.py:226-279 | a rejected argument fails first; a failing account or history call fails with its HTTP status and a failing match call with the loop's error; once every call succeeds there is a report exactly when every kept match parses, and a parse failure otherwise; a report means every call and parse succeeded, and it echoes the name and count, reports the retrieved ids, analyzed = the number of kept matches, and the champion stats of an analyser over those matches for the account's puuid |
| AnalyzeEndpoint.GetChampionStatsEndpoint | app/main.py:226-283 | every failure is answered with status 500 |

## Left out

- Network and the clock: every HTTP request is a function parameter giving the decoded body or a failing status. The 429 sleep-and-retry of `_make_request` (app/api/riot_client.py:79-83) is folded into that final outcome. The aiohttp session of `parse_match_timeline` is folded into its `fetch` parameter.
- File I/O: the replay directories and the match cache are maps from id to record. A file that exists but does not decode is a `Corrupt` entry. Loading one raises, so the client call fails and both analysis endpoints answer 500. JSON encoding and `replay.dict()` are not modelled. Pydantic validation is modelled only as far as `DecoderExtract.GameEventOf` needs it (see below).
- Directory listing order: `os.listdir` is a parameter (`listing`) of `ListReplays`. It must name every stored id exactly once.
- The text generator (`generate_suggestion`) and the summoner/account lookups are uninterpreted parameters. `_parse_match` is the `parse` parameter of the endpoints; it yields `None` where it raises, and its dict walking is not modelled.
- Floating point and presentation: scores, rates and averages are exact `real`s. `round(..., 2)` is not modelled.
- StatsAnalyzer.GetPlayerStats: states `win_rate` and `kda` before `round(..., 2)`, because rounding is left out.
- StatsAnalyzer.GetMatchDetails: the `challenges` field is not carried, since it is an opaque dict passed through unchanged.
- DecoderExtract.GameEventOf: validates strictly. The timestamp, the coordinates and the participant and team ids must be JSON integers, and the type and the other attributes strings. Any other value fails the event with ValidationError. Pydantic's lax mode would coerce some of these, e.g. the string "100" to the int 100; that coercion is not modelled.
- TimelineParser.FromTimeline: the structural fields are typed, so they are always present and well formed. These are `metadata.participants`, `info.frames`, `frameInterval`, each frame's `participantFrames`, `events` and `timestamp`, each participant frame's `position`, and that position's `x` and `y`. When the source finds one of them missing or mistyped it raises KeyError or TypeError, which becomes RuntimeError; the model does not represent that case. Each event's `type` is always present too. The other per-event fields may be absent, but when present they have the right type.
- Json: a JSON number is an integer. A decoded float, such as a fractional decoder `x` or `y` or a float timestamp, has no representation, so the conversions of such values are not modelled.
- Routing.ToLower: lower-cases ASCII letters only. Python's Unicode case mapping is not modelled.
- AnalyzeEndpoint.Analyze: the region passed to `get_summoner_by_puuid` and the `account['puuid']` subscript are folded into the service parameters. A `KeyError` there is a service failure, which the handler answers with 500 like every other failure.
- AnalyzeEndpoint.Step: the match cache after a failing call is not returned, because the handler raises and the buckets are discarded.
- AnalyzeEndpoint.Analyze, AnalyzeEndpoint.ChampionStats: the match cache a request leaves on disk is not returned, whether the request succeeds or fails. Every `_save_match_data` in the loop persists for later requests (app/api/riot_client.py:124-125); the model threads the cache through `Collect` and `FetchAll` but the endpoints drop it.
- LegacyReplayService.ListReplays: a replay's `timestamp` is an abstract, totally ordered integer ordinal. The source writes a datetime with `json.dump(..., default=str)` and reads it back through pydantic (app/services/replay_service.py:20, 35); that text conversion and its parsing are not modelled, only the ordering the newest-first sort uses.
- The HTTP route wiring, the frontend, the dummy `.rofl` generator, the download scripts and the other endpoints (`/api/compare`, the debug log, the replay routes) are not part of this model.

Code behaviour a reader may not expect, which the model follows:
- The respawn timers use the last dragon or baron kill in list order, not the kill with the latest time.
- The state-at-time query has no range check on T.
- Timeline pathing is stored under the `participantFrames` keys, but looked up by `puuid`. Replays built from a timeline therefore have empty `champion_states` (`ReplayService.TimelineReplayHasNoChampionStates`).
- With `use_cache=false` a cached match is still served from the cache by the client, without a request, and it is counted as new (`AnalyzeEndpoint.CachedIdsMakeNoRequest`).
