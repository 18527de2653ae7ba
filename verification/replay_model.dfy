/** The canonical replay record the timeline parser produces and the replay service
    queries: roster, per-key position samples and a flat event list. */
module ReplayModel {
  import opened Wrappers

  /** A point in map space. */
  datatype Position = Position(x: int, y: int)

  /** One position sample: where a champion was at `timestamp` (milliseconds). */
  datatype PositionData = PositionData(timestamp: int, position: Position)

  datatype Participant = Participant(puuid: string, championId: int, teamId: int, summonerName: string)

  /** A value in an event's `details` dict: the parser stores participant ids
      (`killerId`, `victimId`) and monster names (`objective_type`). */
  datatype DetailValue = IntDetail(i: int) | TextDetail(s: string)

  /** A game event. Events built from a provider timeline carry `details`; events
      taken from decoder output carry the optional attributes instead. */
  datatype GameEvent = GameEvent(
    timestamp: int,
    kind: string,
    teamId: Option<int>,
    details: map<string, DetailValue>,
    position: Option<Position>,
    participantId: Option<int>,
    buildingType: Option<string>,
    laneType: Option<string>,
    towerType: Option<string>,
    monsterType: Option<string>,
    monsterSubType: Option<string>)

  const ChampionKill: string := "CHAMPION_KILL"
  const ObjectiveTaken: string := "OBJECTIVE_TAKEN"
  const EliteMonsterKill: string := "ELITE_MONSTER_KILL"

  datatype ProcessedReplay = ProcessedReplay(
    matchId: string,
    gameDuration: int,
    participants: seq<Participant>,
    championPathing: map<string, seq<PositionData>>,
    gameEvents: seq<GameEvent>)

  /** `champion_pathing.get(k, [])`. */
  function Lookup(m: map<string, seq<PositionData>>, k: string): seq<PositionData> {
    if k in m then m[k] else []
  }
}
