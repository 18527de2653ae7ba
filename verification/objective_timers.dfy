/** Next-spawn timers for dragon and baron, derived from elite-monster kill events. */
module ObjectiveTimers {
  import opened Wrappers
  import opened ReplayModel

  const DragonRespawn: int := 300000
  const BaronRespawn: int := 360000
  const Dragon: string := "DRAGON"
  const BaronNashor: string := "BARON_NASHOR"

  datatype SpawnTimers = SpawnTimers(nextDragonSpawnTimestamp: int, nextBaronSpawnTimestamp: int)

  predicate IsKillOf(e: GameEvent, monster: string) {
    e.kind == EliteMonsterKill && e.monsterType == Some(monster)
  }

  /** The timestamp of the kill of `monster` that comes LAST in list order, if any. */
  function LastKillTime(events: seq<GameEvent>, monster: string): (r: Option<int>)
    ensures r.None? <==> forall i :: 0 <= i < |events| ==> !IsKillOf(events[i], monster)
    ensures r.Some? ==> exists i :: (0 <= i < |events| && IsKillOf(events[i], monster)
              && events[i].timestamp == r.value
              && forall j :: i < j < |events| ==> !IsKillOf(events[j], monster))
    decreases |events|
  {
    if events == [] then None
    else
      match LastKillTime(events[1..], monster)
      case Some(t) =>
        assert exists i :: (0 <= i < |events| && IsKillOf(events[i], monster)
          && events[i].timestamp == t
          && forall j :: i < j < |events| ==> !IsKillOf(events[j], monster)) by {
          var i :| 0 <= i < |events[1..]| && IsKillOf(events[1..][i], monster)
            && events[1..][i].timestamp == t
            && forall j :: i < j < |events[1..]| ==> !IsKillOf(events[1..][j], monster);
          assert events[i + 1] == events[1..][i];
          assert forall j :: i + 1 < j < |events| ==> events[j] == events[1..][j - 1];
        }
        Some(t)
      case None =>
        assert forall j :: 0 < j < |events| ==> events[j] == events[1..][j - 1];
        if IsKillOf(events[0], monster) then Some(events[0].timestamp) else None
  }

  /** The scan loop: the last dragon and baron kill times seen so far, starting at 0. */
  function Scan(events: seq<GameEvent>, lastDragon: int, lastBaron: int): (int, int)
    decreases |events|
  {
    if events == [] then (lastDragon, lastBaron)
    else
      var e := events[0];
      if e.kind == EliteMonsterKill then
        if e.monsterType == Some(Dragon) then Scan(events[1..], e.timestamp, lastBaron)
        else if e.monsterType == Some(BaronNashor) then Scan(events[1..], lastDragon, e.timestamp)
        else Scan(events[1..], lastDragon, lastBaron)
      else Scan(events[1..], lastDragon, lastBaron)
  }

  /** `_calculate_objective_timers`. */
  function CalculateObjectiveTimers(events: seq<GameEvent>): SpawnTimers {
    var (lastDragon, lastBaron) := Scan(events, 0, 0);
    SpawnTimers(
      if lastDragon > 0 then lastDragon + DragonRespawn else 0,
      if lastBaron > 0 then lastBaron + BaronRespawn else 0)
  }

  /** The timer a last kill time implies: kill time plus the respawn delay, or 0 when
      there was no kill or the last one is not after time 0. */
  function NextSpawn(last: Option<int>, respawn: int): int {
    match last
    case Some(t) => if t > 0 then t + respawn else 0
    case None => 0
  }

  lemma {:induction false} ScanFindsLastKills(events: seq<GameEvent>, lastDragon: int, lastBaron: int)
    ensures Scan(events, lastDragon, lastBaron).0 == LastKillTime(events, Dragon).GetOr(lastDragon)
    ensures Scan(events, lastDragon, lastBaron).1 == LastKillTime(events, BaronNashor).GetOr(lastBaron)
    decreases |events|
  {
    if events != [] {
      var e := events[0];
      if IsKillOf(e, Dragon) {
        ScanFindsLastKills(events[1..], e.timestamp, lastBaron);
      } else if IsKillOf(e, BaronNashor) {
        ScanFindsLastKills(events[1..], lastDragon, e.timestamp);
      } else {
        ScanFindsLastKills(events[1..], lastDragon, lastBaron);
      }
    }
  }

  /** Each timer is the LAST kill of its monster in list order (not the latest by
      time) plus its respawn delay, and 0 when there is none or it is at time <= 0. */
  lemma TimersFromLastKills(events: seq<GameEvent>)
    ensures CalculateObjectiveTimers(events).nextDragonSpawnTimestamp == NextSpawn(LastKillTime(events, Dragon), DragonRespawn)
    ensures CalculateObjectiveTimers(events).nextBaronSpawnTimestamp == NextSpawn(LastKillTime(events, BaronNashor), BaronRespawn)
  {
    ScanFindsLastKills(events, 0, 0);
  }

  function MonsterKill(timestamp: int, monster: string): GameEvent {
    GameEvent(timestamp, EliteMonsterKill, None, map[], None, None, None, None, None, Some(monster), None)
  }

  /** Out-of-order kills: the timer follows the kill listed last, even when an earlier
      listed kill happened later in the game. */
  lemma LastListedKillWins()
    ensures CalculateObjectiveTimers([MonsterKill(500000, Dragon), MonsterKill(300000, Dragon)]).nextDragonSpawnTimestamp == 600000
    ensures CalculateObjectiveTimers([MonsterKill(100, BaronNashor), MonsterKill(0, BaronNashor)]).nextBaronSpawnTimestamp == 0
  {
    TimersFromLastKills([MonsterKill(500000, Dragon), MonsterKill(300000, Dragon)]);
    TimersFromLastKills([MonsterKill(100, BaronNashor), MonsterKill(0, BaronNashor)]);
  }
}
