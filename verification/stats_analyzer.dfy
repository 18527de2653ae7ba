/** The match statistics analyzer: a list of matches plus the tracked player's puuid,
    and the roll-ups computed from the player's entries in those matches. */
module StatsAnalyzer {
  import opened Wrappers
  import opened MapSums

  datatype Participant = Participant(
    puuid: string,
    championName: string,
    teamPosition: string,
    individualPosition: string,
    win: bool,
    kills: int,
    deaths: int,
    assists: int,
    totalDamageDealtToChampions: int,
    totalDamageTaken: int,
    goldEarned: int,
    visionScore: int,
    timeCCingOthers: int,
    totalTimeSpentDead: int,
    totalMinionsKilled: int,
    neutralMinionsKilled: int,
    doubleKills: int,
    tripleKills: int,
    quadraKills: int,
    pentaKills: int)

  datatype Match = Match(
    matchId: string,
    gameMode: string,
    gameType: string,
    gameVersion: string,
    gameDuration: int,
    participants: seq<Participant>)

  /** `puuid` is `None` until a match sets it; `None` and `""` both count as unset. */
  datatype Analyzer = Analyzer(matches: seq<Match>, puuid: Option<string>)

  predicate PuuidSet(puuid: Option<string>) {
    puuid.Some? && puuid.value != ""
  }

  // ---------------------------------------------------------------------------
  // Adding matches

  /** `add_match`: append the match; an unset puuid becomes the puuid of the match's
      first participant. */
  function AddMatch(a: Analyzer, m: Match): (r: Analyzer)
    ensures r.matches == a.matches + [m]
    ensures PuuidSet(a.puuid) ==> r.puuid == a.puuid
    ensures !PuuidSet(a.puuid) && m.participants != [] ==> r.puuid == Some(m.participants[0].puuid)
    ensures !PuuidSet(a.puuid) && m.participants == [] ==> r.puuid == a.puuid
  {
    if !PuuidSet(a.puuid) && m.participants != [] then
      Analyzer(a.matches + [m], Some(m.participants[0].puuid))
    else
      Analyzer(a.matches + [m], a.puuid)
  }

  function AddMatches(a: Analyzer, ms: seq<Match>): Analyzer
    decreases |ms|
  {
    if ms == [] then a else AddMatches(AddMatch(a, ms[0]), ms[1..])
  }

  /** Adding several matches appends them in order and never replaces a set puuid. */
  lemma {:induction false} AddMatchesKeepsPuuid(a: Analyzer, ms: seq<Match>)
    ensures AddMatches(a, ms).matches == a.matches + ms
    ensures PuuidSet(a.puuid) ==> AddMatches(a, ms).puuid == a.puuid
    decreases |ms|
  {
    if ms != [] {
      AddMatchesKeepsPuuid(AddMatch(a, ms[0]), ms[1..]);
      assert a.matches + [ms[0]] + ms[1..] == a.matches + ms;
    }
  }

  /** Starting unset, the tracked player becomes the first participant of the first
      added match, provided that puuid is non-empty. */
  lemma FirstMatchPicksPlayer(ms: seq<Match>)
    requires ms != [] && ms[0].participants != [] && ms[0].participants[0].puuid != ""
    ensures AddMatches(Analyzer([], None), ms).puuid == Some(ms[0].participants[0].puuid)
  {
    AddMatchesKeepsPuuid(AddMatch(Analyzer([], None), ms[0]), ms[1..]);
  }

  // ---------------------------------------------------------------------------
  // The player's entries

  /** The first participant of `ps` with the given puuid. */
  function FirstEntry(ps: seq<Participant>, puuid: string): (r: Option<Participant>)
    ensures r.None? <==> forall i :: 0 <= i < |ps| ==> ps[i].puuid != puuid
    ensures r.Some? ==> exists i :: 0 <= i < |ps| && ps[i] == r.value && ps[i].puuid == puuid
                          && forall j :: 0 <= j < i ==> ps[j].puuid != puuid
    decreases |ps|
  {
    if ps == [] then None
    else if ps[0].puuid == puuid then Some(ps[0])
    else
      var r := FirstEntry(ps[1..], puuid);
      assert forall j :: 1 <= j < |ps| ==> ps[j] == ps[1..][j - 1];
      r
  }

  predicate Contains(m: Match, puuid: string) {
    exists i :: 0 <= i < |m.participants| && m.participants[i].puuid == puuid
  }

  /** How many matches have the player in them. */
  function MatchesWith(matches: seq<Match>, puuid: string): nat
    decreases |matches|
  {
    if matches == [] then 0
    else MatchesWith(matches[..|matches| - 1], puuid) + (if Contains(matches[|matches| - 1], puuid) then 1 else 0)
  }

  /** The player's entry from each match that has one, in match order; a match listing
      the player twice contributes only its first entry. */
  function PlayerEntries(matches: seq<Match>, puuid: string): (r: seq<Participant>)
    ensures |r| == MatchesWith(matches, puuid) <= |matches|
    ensures forall i :: 0 <= i < |r| ==> r[i].puuid == puuid
    decreases |matches|
  {
    if matches == [] then []
    else
      var init := PlayerEntries(matches[..|matches| - 1], puuid);
      match FirstEntry(matches[|matches| - 1].participants, puuid)
      case Some(p) => init + [p]
      case None => init
  }

  /** A single match contributes the player's first entry when it has the player, and
      nothing otherwise. */
  lemma PlayerEntriesOfOne(m: Match, puuid: string)
    ensures PlayerEntries([m], puuid) == if Contains(m, puuid) then [FirstEntry(m.participants, puuid).value] else []
  {
    assert [m][..0] == [];
    assert FirstEntry(m.participants, puuid).Some? <==> Contains(m, puuid);
  }

  /** Appending a match appends the player's first entry in it, if it has one. */
  lemma PlayerEntriesSnoc(ms: seq<Match>, m: Match, puuid: string)
    ensures PlayerEntries(ms + [m], puuid)
         == PlayerEntries(ms, puuid) + (if Contains(m, puuid) then [FirstEntry(m.participants, puuid).value] else [])
  {
    assert (ms + [m])[..|ms|] == ms;
    assert FirstEntry(m.participants, puuid).Some? <==> Contains(m, puuid);
  }

  /** The entries follow the match order: they distribute over concatenated match
      lists. With `PlayerEntriesOfOne`, entry k is the first entry of the player in the
      k-th match that has the player. */
  lemma {:induction false} PlayerEntriesConcat(ms: seq<Match>, ns: seq<Match>, puuid: string)
    ensures PlayerEntries(ms + ns, puuid) == PlayerEntries(ms, puuid) + PlayerEntries(ns, puuid)
    decreases |ns|
  {
    if ns == [] {
      assert ms + ns == ms;
    } else {
      var init, last := ns[..|ns| - 1], ns[|ns| - 1];
      assert ns == init + [last];
      assert ms + ns == (ms + init) + [last];
      PlayerEntriesSnoc(ms + init, last, puuid);
      PlayerEntriesSnoc(init, last, puuid);
      PlayerEntriesConcat(ms, init, puuid);
    }
  }

  lemma OnlyFirstEntryCounts(p: Participant, q: Participant)
    requires p.puuid == q.puuid
    ensures PlayerEntries([Match("m", "", "", "", 0, [p, q])], p.puuid) == [p]
  {
    assert [Match("m", "", "", "", 0, [p, q])][..0] == [];
  }

  // ---------------------------------------------------------------------------
  // Counting and grouping

  datatype Counter = Kills | Deaths | Assists | DamageDealt | DamageTaken | Gold | Vision

  function CounterOf(p: Participant, c: Counter): int {
    match c
    case Kills => p.kills
    case Deaths => p.deaths
    case Assists => p.assists
    case DamageDealt => p.totalDamageDealtToChampions
    case DamageTaken => p.totalDamageTaken
    case Gold => p.goldEarned
    case Vision => p.visionScore
  }

  function Total(es: seq<Participant>, c: Counter): int
    decreases |es|
  {
    if es == [] then 0 else Total(es[..|es| - 1], c) + CounterOf(es[|es| - 1], c)
  }

  function WinCount(es: seq<Participant>): (n: nat)
    ensures n <= |es|
    decreases |es|
  {
    if es == [] then 0 else WinCount(es[..|es| - 1]) + (if es[|es| - 1].win then 1 else 0)
  }

  /** The attribute a tally is keyed by. */
  datatype GroupKey = ByChampion | ByTeamPosition | ByIndividualPosition

  function KeyOf(key: GroupKey, p: Participant): string {
    match key
    case ByChampion => p.championName
    case ByTeamPosition => p.teamPosition
    case ByIndividualPosition => p.individualPosition
  }

  /** The entries whose `by` attribute is `v`, in order. */
  function Having(es: seq<Participant>, key: GroupKey, v: string): (r: seq<Participant>)
    ensures |r| <= |es|
    ensures forall i :: 0 <= i < |r| ==> KeyOf(key, r[i]) == v
    decreases |es|
  {
    if es == [] then []
    else if KeyOf(key, es[|es| - 1]) == v then Having(es[..|es| - 1], key, v) + [es[|es| - 1]]
    else Having(es[..|es| - 1], key, v)
  }

  /** The distinct values of the `key` attribute among the entries. */
  function KeysOf(es: seq<Participant>, key: GroupKey): set<string>
    decreases |es|
  {
    if es == [] then {} else KeysOf(es[..|es| - 1], key) + {KeyOf(key, es[|es| - 1])}
  }

  /** `es + [p]` unfolds to `es` and `p` in the definitions above. */
  lemma Snoc(es: seq<Participant>, p: Participant)
    ensures (es + [p])[..|es|] == es && (es + [p])[|es|] == p
  {
  }

  lemma {:induction false} HavingEmpty(es: seq<Participant>, key: GroupKey, v: string)
    ensures Having(es, key, v) == [] <==> v !in KeysOf(es, key)
    decreases |es|
  {
    if es != [] {
      HavingEmpty(es[..|es| - 1], key, v);
    }
  }

  /** The number of entries per key, counted one entry at a time. */
  function GroupSizes(es: seq<Participant>, key: GroupKey): (r: map<string, int>)
    ensures r.Keys == KeysOf(es, key)
    decreases |es|
  {
    if es == [] then map[]
    else
      var before, k := GroupSizes(es[..|es| - 1], key), KeyOf(key, es[|es| - 1]);
      before[k := (if k in before then before[k] else 0) + 1]
  }

  /** Each count is the size of its group. */
  lemma {:induction false} GroupSizesCount(es: seq<Participant>, key: GroupKey, v: string)
    requires v in GroupSizes(es, key)
    ensures GroupSizes(es, key)[v] == |Having(es, key, v)|
    decreases |es|
  {
    var init, p := es[..|es| - 1], es[|es| - 1];
    if v in GroupSizes(init, key) {
      GroupSizesCount(init, key, v);
    } else if v == KeyOf(key, p) {
      HavingEmpty(init, key, v);
    }
  }

  /** Every entry falls in exactly one group: the group sizes add up to the entries. */
  lemma {:induction false} GroupSizesSum(es: seq<Participant>, key: GroupKey)
    ensures SumValues(GroupSizes(es, key)) == |es|
    decreases |es|
  {
    if es == [] {
      SumValuesEmpty(GroupSizes(es, key));
    } else {
      var init := es[..|es| - 1];
      var before, k := GroupSizes(init, key), KeyOf(key, es[|es| - 1]);
      GroupSizesSum(init, key);
      assert SumValues(before) == |es| - 1;
      if k in before {
        SumValuesUpdate(before, k, before[k] + 1);
      } else {
        SumValuesUpdate(before, k, 1);
      }
    }
  }

  // ---------------------------------------------------------------------------
  // Player statistics

  datatype ChampionTally = ChampionTally(games: int, wins: int, kills: int, deaths: int, assists: int)
  datatype PositionTally = PositionTally(games: int, wins: int)

  /** A champion's tally, stated directly over the entries played on it. */
  function TallyOf(es: seq<Participant>): ChampionTally {
    ChampionTally(|es|, WinCount(es), Total(es, Kills), Total(es, Deaths), Total(es, Assists))
  }

  function AddTally(t: ChampionTally, p: Participant): ChampionTally {
    ChampionTally(t.games + 1, t.wins + (if p.win then 1 else 0), t.kills + p.kills, t.deaths + p.deaths, t.assists + p.assists)
  }

  /** One iteration of the loop: create the champion's entry if needed, then count `p`. */
  function AddChampion(m: map<string, ChampionTally>, p: Participant): map<string, ChampionTally> {
    var c := p.championName;
    m[c := AddTally(if c in m then m[c] else ChampionTally(0, 0, 0, 0, 0), p)]
  }

  lemma TallySnoc(h: seq<Participant>, p: Participant)
    ensures TallyOf(h + [p]) == AddTally(TallyOf(h), p)
  {
    Snoc(h, p);
  }

  lemma ChampionAt(es: seq<Participant>, m: map<string, ChampionTally>, c: string)
    requires es != []
    requires m.Keys == KeysOf(es[..|es| - 1], ByChampion)
    requires forall c :: c in m ==> m[c] == TallyOf(Having(es[..|es| - 1], ByChampion, c))
    requires c in AddChampion(m, es[|es| - 1])
    ensures AddChampion(m, es[|es| - 1])[c] == TallyOf(Having(es, ByChampion, c))
  {
    var init, p := es[..|es| - 1], es[|es| - 1];
    if c == p.championName {
      HavingEmpty(init, ByChampion, c);
      TallySnoc(Having(init, ByChampion, c), p);
    }
  }

  lemma ChampionsStep(es: seq<Participant>, m: map<string, ChampionTally>)
    requires es != []
    requires m.Keys == KeysOf(es[..|es| - 1], ByChampion)
    requires forall c :: c in m ==> m[c] == TallyOf(Having(es[..|es| - 1], ByChampion, c))
    ensures AddChampion(m, es[|es| - 1]).Keys == KeysOf(es, ByChampion)
    ensures forall c :: c in AddChampion(m, es[|es| - 1]) ==> AddChampion(m, es[|es| - 1])[c] == TallyOf(Having(es, ByChampion, c))
  {
    forall c | c in AddChampion(m, es[|es| - 1]) ensures AddChampion(m, es[|es| - 1])[c] == TallyOf(Having(es, ByChampion, c)) {
      ChampionAt(es, m, c);
    }
  }

  /** `champions_played`, built one entry at a time as the loop does. */
  function ChampionsPlayed(es: seq<Participant>): (r: map<string, ChampionTally>)
    ensures r.Keys == KeysOf(es, ByChampion)
    ensures forall c :: c in r ==> r[c] == TallyOf(Having(es, ByChampion, c))
    decreases |es|
  {
    if es == [] then map[]
    else
      var m := ChampionsPlayed(es[..|es| - 1]);
      ChampionsStep(es, m);
      AddChampion(m, es[|es| - 1])
  }

  /** A position's tally, stated directly over the entries played there. */
  function PositionTallyOf(es: seq<Participant>): PositionTally {
    PositionTally(|es|, WinCount(es))
  }

  function AddPosition(m: map<string, PositionTally>, p: Participant): map<string, PositionTally> {
    var v := p.teamPosition;
    var t := if v in m then m[v] else PositionTally(0, 0);
    m[v := PositionTally(t.games + 1, t.wins + (if p.win then 1 else 0))]
  }

  lemma WinCountSnoc(h: seq<Participant>, p: Participant)
    ensures WinCount(h + [p]) == WinCount(h) + (if p.win then 1 else 0)
  {
    Snoc(h, p);
  }

  lemma PositionAt(es: seq<Participant>, m: map<string, PositionTally>, w: string)
    requires es != []
    requires m.Keys == KeysOf(es[..|es| - 1], ByTeamPosition)
    requires forall v :: v in m ==> m[v] == PositionTallyOf(Having(es[..|es| - 1], ByTeamPosition, v))
    requires w in AddPosition(m, es[|es| - 1])
    ensures AddPosition(m, es[|es| - 1])[w] == PositionTallyOf(Having(es, ByTeamPosition, w))
  {
    var init, p := es[..|es| - 1], es[|es| - 1];
    if w == p.teamPosition {
      HavingEmpty(init, ByTeamPosition, w);
      WinCountSnoc(Having(init, ByTeamPosition, w), p);
    }
  }

  lemma PositionsStep(es: seq<Participant>, m: map<string, PositionTally>)
    requires es != []
    requires m.Keys == KeysOf(es[..|es| - 1], ByTeamPosition)
    requires forall v :: v in m ==> m[v] == PositionTallyOf(Having(es[..|es| - 1], ByTeamPosition, v))
    ensures AddPosition(m, es[|es| - 1]).Keys == KeysOf(es, ByTeamPosition)
    ensures forall v :: v in AddPosition(m, es[|es| - 1]) ==> AddPosition(m, es[|es| - 1])[v] == PositionTallyOf(Having(es, ByTeamPosition, v))
  {
    forall w | w in AddPosition(m, es[|es| - 1]) ensures AddPosition(m, es[|es| - 1])[w] == PositionTallyOf(Having(es, ByTeamPosition, w)) {
      PositionAt(es, m, w);
    }
  }

  /** `positions_played`, keyed by team position. */
  function PositionsPlayed(es: seq<Participant>): (r: map<string, PositionTally>)
    ensures r.Keys == KeysOf(es, ByTeamPosition)
    ensures forall v :: v in r ==> r[v] == PositionTallyOf(Having(es, ByTeamPosition, v))
    decreases |es|
  {
    if es == [] then map[]
    else
      var m := PositionsPlayed(es[..|es| - 1]);
      PositionsStep(es, m);
      AddPosition(m, es[|es| - 1])
  }

  /** `part / whole * 100` for a positive `whole`, else 0. */
  function Percent(part: int, whole: int): real {
    if whole > 0 then part as real / whole as real * 100.0 else 0.0
  }

  /** `total / games` for a positive `games`, else 0. */
  function Average(total: int, games: int): real {
    if games > 0 then total as real / games as real else 0.0
  }

  /** A rate scaled back by its denominator gives the count it was computed from. */
  lemma RatesScaleBack(part: int, whole: int)
    requires whole > 0
    ensures Percent(part, whole) * whole as real == part as real * 100.0
    ensures Average(part, whole) * whole as real == part as real
  {
    var q := part as real / whole as real;
    assert q * whole as real == part as real;
    assert (q * 100.0) * whole as real == (q * whole as real) * 100.0;
  }

  /** KDA over summed counters: (k + a) / d with deaths, k + a without ("perfect"),
      and 0 when there is nothing to count. */
  function Kda(kills: int, deaths: int, assists: int): (r: real)
    ensures deaths > 0 ==> r * deaths as real == (kills + assists) as real
    ensures deaths <= 0 && kills + assists > 0 ==> r == (kills + assists) as real
    ensures deaths <= 0 && kills + assists <= 0 ==> r == 0.0
  {
    if deaths > 0 then (kills + assists) as real / deaths as real
    else if kills + assists > 0 then (kills + assists) as real
    else 0.0
  }

  datatype PlayerStats = PlayerStats(
    totalMatches: int,
    wins: int,
    losses: int,
    winRate: real,
    kills: int,
    deaths: int,
    assists: int,
    kda: real,
    totalDamageDealt: int,
    totalDamageTaken: int,
    totalGoldEarned: int,
    visionScore: int,
    championsPlayed: map<string, ChampionTally>,
    positionsPlayed: map<string, PositionTally>)

  const NoStats: PlayerStats := PlayerStats(0, 0, 0, 0.0, 0, 0, 0, 0.0, 0, 0, 0, 0, map[], map[])

  /** The entries the roll-ups are computed from: none while the puuid is unset. */
  function EntriesOf(a: Analyzer): seq<Participant> {
    if PuuidSet(a.puuid) then PlayerEntries(a.matches, a.puuid.value) else []
  }

  /** `get_player_stats` (before rounding). */
  function GetPlayerStats(a: Analyzer): (r: PlayerStats)
    ensures r == NoStats <==> EntriesOf(a) == []
    ensures r.totalMatches == |EntriesOf(a)|
    ensures 0 <= r.wins <= r.totalMatches && r.losses == r.totalMatches - r.wins
    ensures r.winRate == Percent(r.wins, r.totalMatches)
    ensures r.kills == Total(EntriesOf(a), Kills) && r.deaths == Total(EntriesOf(a), Deaths)
    ensures r.assists == Total(EntriesOf(a), Assists)
    ensures r.kda == Kda(r.kills, r.deaths, r.assists)
    ensures r.totalDamageDealt == Total(EntriesOf(a), DamageDealt)
    ensures r.totalDamageTaken == Total(EntriesOf(a), DamageTaken)
    ensures r.totalGoldEarned == Total(EntriesOf(a), Gold)
    ensures r.visionScore == Total(EntriesOf(a), Vision)
    ensures r.championsPlayed.Keys == KeysOf(EntriesOf(a), ByChampion)
    ensures forall c :: c in r.championsPlayed ==> r.championsPlayed[c] == TallyOf(Having(EntriesOf(a), ByChampion, c))
    ensures r.positionsPlayed.Keys == KeysOf(EntriesOf(a), ByTeamPosition)
    ensures forall v :: v in r.positionsPlayed ==> r.positionsPlayed[v] == PositionTallyOf(Having(EntriesOf(a), ByTeamPosition, v))
  {
    var es := EntriesOf(a);
    if es == [] then NoStats
    else
      var total := |es|;
      var wins := WinCount(es);
      var kills, deaths, assists := Total(es, Kills), Total(es, Deaths), Total(es, Assists);
      PlayerStats(total, wins, total - wins, Percent(wins, total),
        kills, deaths, assists, Kda(kills, deaths, assists),
        Total(es, DamageDealt), Total(es, DamageTaken), Total(es, Gold), Total(es, Vision),
        ChampionsPlayed(es), PositionsPlayed(es))
  }

  /** The games in `champions_played`, and those in `positions_played`, each add up to
      `total_matches`; so do the per-champion wins to `wins`. */
  lemma PlayedGamesAddUp(a: Analyzer)
    ensures var r := GetPlayerStats(a);
            SumValues(map c | c in r.championsPlayed :: r.championsPlayed[c].games) == r.totalMatches
            && SumValues(map v | v in r.positionsPlayed :: r.positionsPlayed[v].games) == r.totalMatches
  {
    var r := GetPlayerStats(a);
    ChampionGamesAddUp(EntriesOf(a), r.championsPlayed);
    PositionGamesAddUp(EntriesOf(a), r.positionsPlayed);
  }

  lemma ChampionGamesAddUp(es: seq<Participant>, m: map<string, ChampionTally>)
    requires m.Keys == KeysOf(es, ByChampion)
    requires forall c :: c in m ==> m[c] == TallyOf(Having(es, ByChampion, c))
    ensures SumValues(map c | c in m :: m[c].games) == |es|
  {
    SizesAddUp(es, ByChampion, map c | c in m :: m[c].games);
  }

  lemma PositionGamesAddUp(es: seq<Participant>, m: map<string, PositionTally>)
    requires m.Keys == KeysOf(es, ByTeamPosition)
    requires forall v :: v in m ==> m[v] == PositionTallyOf(Having(es, ByTeamPosition, v))
    ensures SumValues(map v | v in m :: m[v].games) == |es|
  {
    SizesAddUp(es, ByTeamPosition, map v | v in m :: m[v].games);
  }

  /** A map holding each group's size is the group-size map, so it sums to the entries. */
  lemma SizesAddUp(es: seq<Participant>, key: GroupKey, sizes: map<string, int>)
    requires sizes.Keys == KeysOf(es, key)
    requires forall v :: v in sizes ==> sizes[v] == |Having(es, key, v)|
    ensures SumValues(sizes) == |es|
  {
    forall v | v in sizes ensures sizes[v] == GroupSizes(es, key)[v] {
      GroupSizesCount(es, key, v);
    }
    assert sizes == GroupSizes(es, key);
    GroupSizesSum(es, key);
  }

  /** A player with no recorded entry gets the all-zero record. */
  lemma UnsetPuuidGivesNoStats(matches: seq<Match>)
    ensures GetPlayerStats(Analyzer(matches, None)) == NoStats
    ensures GetPlayerStats(Analyzer(matches, Some(""))) == NoStats
  {
  }

  // ---------------------------------------------------------------------------
  // Per-champion statistics

  datatype ChampionTotals = ChampionTotals(
    gamesPlayed: int,
    wins: int,
    losses: int,
    kills: int,
    deaths: int,
    assists: int,
    totalDamageDealt: int,
    totalDamageTaken: int,
    totalGoldEarned: int,
    visionScore: int,
    positions: map<string, int>)

  /** A champion's totals, stated directly over the entries played on it. */
  function TotalsOf(es: seq<Participant>): ChampionTotals {
    ChampionTotals(|es|, WinCount(es), |es| - WinCount(es),
      Total(es, Kills), Total(es, Deaths), Total(es, Assists),
      Total(es, DamageDealt), Total(es, DamageTaken), Total(es, Gold), Total(es, Vision),
      GroupSizes(es, ByIndividualPosition))
  }

  function AddTotals(t: ChampionTotals, p: Participant): ChampionTotals {
    var ip := p.individualPosition;
    ChampionTotals(t.gamesPlayed + 1, t.wins + (if p.win then 1 else 0), t.losses + (if p.win then 0 else 1),
      t.kills + p.kills, t.deaths + p.deaths, t.assists + p.assists,
      t.totalDamageDealt + p.totalDamageDealtToChampions, t.totalDamageTaken + p.totalDamageTaken,
      t.totalGoldEarned + p.goldEarned, t.visionScore + p.visionScore,
      t.positions[ip := (if ip in t.positions then t.positions[ip] else 0) + 1])
  }

  lemma TotalSnoc(es: seq<Participant>, p: Participant)
    ensures forall c :: Total(es + [p], c) == Total(es, c) + CounterOf(p, c)
  {
    Snoc(es, p);
  }

  lemma AddTotalsSnoc(es: seq<Participant>, p: Participant)
    ensures AddTotals(TotalsOf(es), p) == TotalsOf(es + [p])
  {
    TotalSnoc(es, p);
    WinCountSnoc(es, p);
  }

  const NoTotals: ChampionTotals := ChampionTotals(0, 0, 0, 0, 0, 0, 0, 0, 0, 0, map[])

  function AddChampionTotals(m: map<string, ChampionTotals>, p: Participant): map<string, ChampionTotals> {
    var c := p.championName;
    m[c := AddTotals(if c in m then m[c] else NoTotals, p)]
  }

  lemma TotalsAt(es: seq<Participant>, m: map<string, ChampionTotals>, c: string)
    requires es != []
    requires m.Keys == KeysOf(es[..|es| - 1], ByChampion)
    requires forall c :: c in m ==> m[c] == TotalsOf(Having(es[..|es| - 1], ByChampion, c))
    requires c in AddChampionTotals(m, es[|es| - 1])
    ensures AddChampionTotals(m, es[|es| - 1])[c] == TotalsOf(Having(es, ByChampion, c))
  {
    var init, p := es[..|es| - 1], es[|es| - 1];
    if c == p.championName {
      HavingEmpty(init, ByChampion, c);
      AddTotalsSnoc(Having(init, ByChampion, c), p);
      if c !in m {
        assert TotalsOf([]) == NoTotals;
      }
    }
  }

  lemma TotalsStep(es: seq<Participant>, m: map<string, ChampionTotals>)
    requires es != []
    requires m.Keys == KeysOf(es[..|es| - 1], ByChampion)
    requires forall c :: c in m ==> m[c] == TotalsOf(Having(es[..|es| - 1], ByChampion, c))
    ensures AddChampionTotals(m, es[|es| - 1]).Keys == KeysOf(es, ByChampion)
    ensures forall c :: c in AddChampionTotals(m, es[|es| - 1]) ==> AddChampionTotals(m, es[|es| - 1])[c] == TotalsOf(Having(es, ByChampion, c))
  {
    forall c | c in AddChampionTotals(m, es[|es| - 1]) ensures AddChampionTotals(m, es[|es| - 1])[c] == TotalsOf(Having(es, ByChampion, c)) {
      TotalsAt(es, m, c);
    }
  }

  function ChampionTotalsMap(es: seq<Participant>): (r: map<string, ChampionTotals>)
    ensures r.Keys == KeysOf(es, ByChampion)
    ensures forall c :: c in r ==> r[c] == TotalsOf(Having(es, ByChampion, c))
    decreases |es|
  {
    if es == [] then map[]
    else
      var m := ChampionTotalsMap(es[..|es| - 1]);
      TotalsStep(es, m);
      AddChampionTotals(m, es[|es| - 1])
  }

  datatype ChampionSummary = ChampionSummary(
    totals: ChampionTotals,
    winRate: real,
    kda: real,
    avgKills: real,
    avgDeaths: real,
    avgAssists: real,
    avgDamage: real,
    avgGold: real,
    avgVision: real)

  /** The rates pass: win rate, KDA (k + a without deaths, even when that is 0) and averages. */
  function Summarize(t: ChampionTotals): ChampionSummary {
    ChampionSummary(t,
      Percent(t.wins, t.gamesPlayed),
      if t.deaths > 0 then (t.kills + t.assists) as real / t.deaths as real else (t.kills + t.assists) as real,
      Average(t.kills, t.gamesPlayed), Average(t.deaths, t.gamesPlayed), Average(t.assists, t.gamesPlayed),
      Average(t.totalDamageDealt, t.gamesPlayed), Average(t.totalGoldEarned, t.gamesPlayed),
      Average(t.visionScore, t.gamesPlayed))
  }

  /** `get_champion_stats`: one summary per champion the player's entries show, empty
      while the puuid is unset. */
  function GetChampionStats(a: Analyzer): (r: map<string, ChampionSummary>)
    ensures !PuuidSet(a.puuid) ==> r == map[]
    ensures r.Keys == KeysOf(EntriesOf(a), ByChampion)
    ensures forall c :: c in r ==> r[c] == Summarize(TotalsOf(Having(EntriesOf(a), ByChampion, c)))
  {
    SummarizeAll(ChampionTotalsMap(EntriesOf(a)))
  }

  function SummarizeAll(totals: map<string, ChampionTotals>): (r: map<string, ChampionSummary>)
    ensures r.Keys == totals.Keys
    ensures forall c :: c in r ==> r[c] == Summarize(totals[c])
  {
    map c | c in totals :: Summarize(totals[c])
  }

  /** Each champion listed was played at least once; its wins and losses, and its
      position counts, each add up to its games. */
  lemma ChampionTotalsConsistent(a: Analyzer)
    ensures forall c :: c in GetChampionStats(a) ==>
              var t := GetChampionStats(a)[c].totals;
              && t.gamesPlayed == |Having(EntriesOf(a), ByChampion, c)| > 0
              && t.wins + t.losses == t.gamesPlayed
              && SumValues(t.positions) == t.gamesPlayed
  {
    forall c | c in GetChampionStats(a)
      ensures var t := GetChampionStats(a)[c].totals;
              && t.gamesPlayed == |Having(EntriesOf(a), ByChampion, c)| > 0
              && t.wins + t.losses == t.gamesPlayed
              && SumValues(t.positions) == t.gamesPlayed
    {
      HavingEmpty(EntriesOf(a), ByChampion, c);
      GroupSizesSum(Having(EntriesOf(a), ByChampion, c), ByIndividualPosition);
    }
  }

  /** Without deaths the champion KDA is k + a, also when that is 0. */
  lemma ChampionKdaWithoutDeaths(t: ChampionTotals)
    requires t.deaths == 0
    ensures Summarize(t).kda == (t.kills + t.assists) as real
  {
  }

  // ---------------------------------------------------------------------------
  // Match details

  /** One line of a match report. */
  datatype MatchLine = MatchLine(
    champion: string,
    position: string,
    win: bool,
    kills: int,
    deaths: int,
    assists: int,
    kda: real,
    damageDealt: int,
    damageTaken: int,
    goldEarned: int,
    visionScore: int,
    timeCCingOthers: int)

  function LineOf(p: Participant): MatchLine {
    MatchLine(p.championName, p.teamPosition, p.win, p.kills, p.deaths, p.assists, Kda(p.kills, p.deaths, p.assists),
      p.totalDamageDealtToChampions, p.totalDamageTaken, p.goldEarned, p.visionScore, p.timeCCingOthers)
  }

  datatype MatchDetails = MatchDetails(
    matchId: string,
    gameMode: string,
    gameType: string,
    gameVersion: string,
    gameDuration: int,
    line: MatchLine,
    totalTimeSpentDead: int,
    minionsKilled: int,
    neutralMinionsKilled: int,
    multiKills: seq<int>,
    history: seq<MatchLine>,
    analysis: string,
    improvementSuggestions: seq<string>)

  predicate IsPlayer(p: Participant, puuid: Option<string>) {
    puuid == Some(p.puuid)
  }

  predicate HasPlayer(m: Match, puuid: Option<string>) {
    exists j :: 0 <= j < |m.participants| && IsPlayer(m.participants[j], puuid)
  }

  /** The first match with the id that has the player in it, and the player's first entry there. */
  function FindEntry(matches: seq<Match>, matchId: string, puuid: Option<string>): (r: Option<(nat, nat)>)
    ensures r.None? <==> forall i :: 0 <= i < |matches| && matches[i].matchId == matchId ==> !HasPlayer(matches[i], puuid)
    ensures r.Some? ==> var (i, j) := r.value;
      && i < |matches| && matches[i].matchId == matchId
      && j < |matches[i].participants| && IsPlayer(matches[i].participants[j], puuid)
      && (forall k :: 0 <= k < j ==> !IsPlayer(matches[i].participants[k], puuid))
      && (forall k :: 0 <= k < i && matches[k].matchId == matchId ==> !HasPlayer(matches[k], puuid))
  {
    FindFrom(matches, matchId, puuid, 0)
  }

  /** The search of `FindEntry`, from match `from` on. */
  function FindFrom(matches: seq<Match>, matchId: string, puuid: Option<string>, from: nat): (r: Option<(nat, nat)>)
    requires from <= |matches|
    ensures r.None? <==> forall i :: from <= i < |matches| && matches[i].matchId == matchId ==> !HasPlayer(matches[i], puuid)
    ensures r.Some? ==>
      && from <= r.value.0 < |matches| && matches[r.value.0].matchId == matchId
      && r.value.1 < |matches[r.value.0].participants| && IsPlayer(matches[r.value.0].participants[r.value.1], puuid)
      && (forall k :: 0 <= k < r.value.1 ==> !IsPlayer(matches[r.value.0].participants[k], puuid))
      && (forall k :: from <= k < r.value.0 && matches[k].matchId == matchId ==> !HasPlayer(matches[k], puuid))
    decreases |matches| - from
  {
    if from == |matches| then None
    else
      var m := matches[from];
      var here := if m.matchId == matchId then FirstIndex(m.participants, puuid) else None;
      if here.Some? then Some((from, here.value)) else FindFrom(matches, matchId, puuid, from + 1)
  }

  function FirstIndex(ps: seq<Participant>, puuid: Option<string>): (r: Option<nat>)
    ensures r.None? <==> forall j :: 0 <= j < |ps| ==> !IsPlayer(ps[j], puuid)
    ensures r.Some? ==> r.value < |ps| && IsPlayer(ps[r.value], puuid)
                        && forall k :: 0 <= k < r.value ==> !IsPlayer(ps[k], puuid)
    decreases |ps|
  {
    if ps == [] then None
    else if IsPlayer(ps[0], puuid) then Some(0)
    else
      match FirstIndex(ps[1..], puuid)
      case Some(j) => Some(j + 1)
      case None =>
        assert forall k :: 1 <= k < |ps| ==> ps[k] == ps[1..][k - 1];
        None
  }

  /** Every entry of the player in matches whose id differs, in insertion order; a match
      listing the player twice contributes both. */
  function HistoryEntries(matches: seq<Match>, matchId: string, puuid: Option<string>): (r: seq<Participant>)
    ensures forall p :: p in r ==> (IsPlayer(p, puuid)
              && exists i :: 0 <= i < |matches| && matches[i].matchId != matchId && p in matches[i].participants)
    decreases |matches|
  {
    if matches == [] then []
    else
      var m := matches[0];
      var rest := HistoryEntries(matches[1..], matchId, puuid);
      assert forall p :: p in rest ==> exists i :: 0 <= i < |matches| && matches[i].matchId != matchId && p in matches[i].participants by {
        forall p | p in rest ensures exists i :: 0 <= i < |matches| && matches[i].matchId != matchId && p in matches[i].participants {
          var i :| 0 <= i < |matches[1..]| && matches[1..][i].matchId != matchId && p in matches[1..][i].participants;
          assert matches[i + 1] == matches[1..][i];
        }
      }
      (if m.matchId != matchId then PlayerIn(m.participants, puuid) else []) + rest
  }

  /** One match contributes every entry of the player, duplicates included and in
      order, unless it has the requested id. With `HistoryInOrder` and `PlayerInConcat`
      this fixes the history completely. */
  lemma HistoryOfOne(m: Match, matchId: string, puuid: Option<string>)
    ensures HistoryEntries([m], matchId, puuid) == if m.matchId != matchId then PlayerIn(m.participants, puuid) else []
  {
    assert [m][1..] == [];
  }

  /** The filter keeps a single entry exactly when it is the player's. */
  lemma PlayerInOne(p: Participant, puuid: Option<string>)
    ensures PlayerIn([p], puuid) == if IsPlayer(p, puuid) then [p] else []
  {
    assert [p][1..] == [];
  }

  /** The filter keeps each entry of the player where it stands, duplicates included:
      with `PlayerInOne` it is the order-preserving filter. */
  lemma {:induction false} PlayerInConcat(ps: seq<Participant>, qs: seq<Participant>, puuid: Option<string>)
    ensures PlayerIn(ps + qs, puuid) == PlayerIn(ps, puuid) + PlayerIn(qs, puuid)
    decreases |ps|
  {
    if ps == [] {
      assert ps + qs == qs;
    } else {
      var head := if IsPlayer(ps[0], puuid) then [ps[0]] else [];
      assert (ps + qs)[0] == ps[0];
      assert (ps + qs)[1..] == ps[1..] + qs;
      calc {
        PlayerIn(ps + qs, puuid);
        head + PlayerIn(ps[1..] + qs, puuid);
        { PlayerInConcat(ps[1..], qs, puuid); }
        head + (PlayerIn(ps[1..], puuid) + PlayerIn(qs, puuid));
        (head + PlayerIn(ps[1..], puuid)) + PlayerIn(qs, puuid);
      }
    }
  }

  function PlayerIn(ps: seq<Participant>, puuid: Option<string>): (r: seq<Participant>)
    ensures forall p :: p in r <==> p in ps && IsPlayer(p, puuid)
    decreases |ps|
  {
    if ps == [] then []
    else (if IsPlayer(ps[0], puuid) then [ps[0]] else []) + PlayerIn(ps[1..], puuid)
  }

  /** History is kept in insertion order: it distributes over concatenated match lists. */
  lemma {:induction false} HistoryInOrder(a: seq<Match>, b: seq<Match>, matchId: string, puuid: Option<string>)
    ensures HistoryEntries(a + b, matchId, puuid) == HistoryEntries(a, matchId, puuid) + HistoryEntries(b, matchId, puuid)
    decreases |a|
  {
    if a == [] {
      assert a + b == b;
    } else {
      assert (a + b)[1..] == a[1..] + b;
      HistoryInOrder(a[1..], b, matchId, puuid);
    }
  }

  /** `history_stats[-5:]`. */
  function LastFive<T>(s: seq<T>): (r: seq<T>)
    ensures |r| == if |s| <= 5 then |s| else 5
    ensures r == s[|s| - |r|..]
  {
    if |s| <= 5 then s else s[|s| - 5..]
  }

  function Lines(ps: seq<Participant>): (r: seq<MatchLine>)
    ensures |r| == |ps| && forall i :: 0 <= i < |ps| ==> r[i] == LineOf(ps[i])
  {
    seq(|ps|, i requires 0 <= i < |ps| => LineOf(ps[i]))
  }

  /** `get_match_details`; `suggest` stands for the text generator, of which nothing is assumed. */
  function GetMatchDetails(a: Analyzer, matchId: string, suggest: (MatchLine, seq<MatchLine>) -> string)
    : (r: Option<MatchDetails>)
    ensures r.None? <==> FindEntry(a.matches, matchId, a.puuid).None?
    ensures r.Some? ==> var (i, j) := FindEntry(a.matches, matchId, a.puuid).value;
      && r.value.matchId == matchId == a.matches[i].matchId
      && r.value.gameDuration == a.matches[i].gameDuration
      && r.value.gameMode == a.matches[i].gameMode
      && r.value.gameType == a.matches[i].gameType
      && r.value.gameVersion == a.matches[i].gameVersion
      && r.value.line == LineOf(a.matches[i].participants[j])
    ensures r.Some? ==> var p := a.matches[FindEntry(a.matches, matchId, a.puuid).value.0]
                                 .participants[FindEntry(a.matches, matchId, a.puuid).value.1];
      && r.value.totalTimeSpentDead == p.totalTimeSpentDead
      && r.value.minionsKilled == p.totalMinionsKilled
      && r.value.neutralMinionsKilled == p.neutralMinionsKilled
      && r.value.multiKills == [p.doubleKills, p.tripleKills, p.quadraKills, p.pentaKills]
    ensures r.Some? ==> |r.value.history| <= 5
    ensures r.Some? ==> r.value.history == Lines(LastFive(HistoryEntries(a.matches, matchId, a.puuid)))
    ensures r.Some? ==> r.value.analysis == suggest(r.value.line, r.value.history)
    ensures r.Some? ==> r.value.improvementSuggestions == if r.value.analysis == "" then [] else [r.value.analysis]
  {
    var (i, j) :- FindEntry(a.matches, matchId, a.puuid);
    var m := a.matches[i];
    var p := m.participants[j];
    var line := LineOf(p);
    var history := Lines(LastFive(HistoryEntries(a.matches, matchId, a.puuid)));
    var suggestion := suggest(line, history);
    Some(MatchDetails(matchId, m.gameMode, m.gameType, m.gameVersion, m.gameDuration, line,
      p.totalTimeSpentDead, p.totalMinionsKilled, p.neutralMinionsKilled,
      [p.doubleKills, p.tripleKills, p.quadraKills, p.pentaKills],
      history, suggestion, if suggestion != "" then [suggestion] else []))
  }

  /** The report's history never includes the requested match. */
  lemma HistoryExcludesMatch(a: Analyzer, matchId: string)
    ensures forall p :: p in LastFive(HistoryEntries(a.matches, matchId, a.puuid)) ==>
              exists i :: 0 <= i < |a.matches| && a.matches[i].matchId != matchId && p in a.matches[i].participants
  {
    var h := HistoryEntries(a.matches, matchId, a.puuid);
    forall p | p in LastFive(h)
      ensures exists i :: 0 <= i < |a.matches| && a.matches[i].matchId != matchId && p in a.matches[i].participants
    {
      assert p in h;
    }
  }

  /** A later match with the same id is searched when the first one lacks the player. */
  lemma SameIdSearchedFurther(p: Participant, q: Participant)
    requires p.puuid != q.puuid
    ensures var ms := [Match("m", "", "", "", 1, [q]), Match("m", "", "", "", 2, [p])];
            FindEntry(ms, "m", Some(p.puuid)) == Some((1, 0))
  {
    var ms := [Match("m", "", "", "", 1, [q]), Match("m", "", "", "", 2, [p])];
    assert FindFrom(ms, "m", Some(p.puuid), 1) == Some((1, 0));
  }
}
