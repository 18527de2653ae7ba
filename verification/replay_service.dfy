/** The replay service: a store of processed replays and the "state of the game at
    time T" query over one of them. */
module ReplayService {
  import opened Wrappers
  import opened ReplayModel
  import opened Nearest
  import TimelineParser

  datatype Kda = Kda(kills: int, deaths: int, assists: int)

  datatype ChampionState = ChampionState(
    position: Position,
    currentGold: int,
    currentCs: int,
    currentLevel: int,
    kda: Kda,
    currentItems: seq<int>)

  datatype GameStateSnapshot = GameStateSnapshot(
    timestamp: int,
    championStates: map<string, ChampionState>,
    recentEvents: seq<GameEvent>,
    teamObjectives: map<string, seq<DetailValue>>)

  // ---------------------------------------------------------------------------
  // Champion states

  /** The per-participant runtime statistics are placeholders that ignore the replay,
      the participant and the time. */
  function CurrentGold(replay: ProcessedReplay, puuid: string, t: int): int { 0 }
  function CurrentCs(replay: ProcessedReplay, puuid: string, t: int): int { 0 }
  function CurrentLevel(replay: ProcessedReplay, puuid: string, t: int): int { 1 }
  function CurrentKda(replay: ProcessedReplay, puuid: string, t: int): Kda { Kda(0, 0, 0) }
  function CurrentItems(replay: ProcessedReplay, puuid: string, t: int): seq<int> { [] }

  function SampleTimes(ps: seq<PositionData>): (r: seq<real>)
    ensures |r| == |ps|
    ensures forall i :: 0 <= i < |ps| ==> r[i] == ps[i].timestamp as real
  {
    seq(|ps|, i requires 0 <= i < |ps| => ps[i].timestamp as real)
  }

  /** Sample `i` is the one `min(positions, key=|timestamp - t|)` returns: none is
      closer to `t`, and every sample before it is strictly farther away. */
  predicate IsFirstNearest(ps: seq<PositionData>, i: int, t: int) {
    && 0 <= i < |ps|
    && (forall j :: 0 <= j < |ps| ==> Abs((ps[i].timestamp - t) as real) <= Abs((ps[j].timestamp - t) as real))
    && (forall j :: 0 <= j < i ==> Abs((ps[i].timestamp - t) as real) < Abs((ps[j].timestamp - t) as real))
  }

  function ClosestSample(ps: seq<PositionData>, t: int): (i: nat)
    requires |ps| > 0
    ensures IsFirstNearest(ps, i, t)
  {
    var i := NearestIndex(SampleTimes(ps), t as real);
    assert forall j :: 0 <= j < |ps| ==> SampleTimes(ps)[j] - t as real == (ps[j].timestamp - t) as real;
    i
  }

  /** What the snapshot reports for a participant with position samples `ps`. */
  predicate IsStateAt(s: ChampionState, ps: seq<PositionData>, t: int) {
    exists i :: 0 <= i < |ps| && IsFirstNearest(ps, i, t)
      && s == ChampionState(ps[i].position, 0, 0, 1, Kda(0, 0, 0), [])
  }

  predicate InRoster(ps: seq<Participant>, puuid: string) {
    exists i :: 0 <= i < |ps| && ps[i].puuid == puuid
  }

  /** The loop over the participants, looking each one's samples up by `puuid`. */
  function StatesFor(replay: ProcessedReplay, ps: seq<Participant>, t: int): (r: map<string, ChampionState>)
    ensures forall k :: k in r <==> InRoster(ps, k) && Lookup(replay.championPathing, k) != []
    ensures forall k :: k in r ==> IsStateAt(r[k], Lookup(replay.championPathing, k), t)
    decreases |ps|
  {
    if ps == [] then map[]
    else
      var m := StatesFor(replay, ps[..|ps| - 1], t);
      var p := ps[|ps| - 1];
      var positions := Lookup(replay.championPathing, p.puuid);
      assert forall k :: InRoster(ps, k) <==> InRoster(ps[..|ps| - 1], k) || k == p.puuid by {
        forall k | InRoster(ps, k) ensures InRoster(ps[..|ps| - 1], k) || k == p.puuid {
          var i :| 0 <= i < |ps| && ps[i].puuid == k;
          if i < |ps| - 1 { assert ps[..|ps| - 1][i] == ps[i]; }
        }
        forall k | InRoster(ps[..|ps| - 1], k) ensures InRoster(ps, k) {
          var i :| 0 <= i < |ps| - 1 && ps[..|ps| - 1][i].puuid == k;
        }
      }
      if positions == [] then m
      else
        var c := ClosestSample(positions, t);
        m[p.puuid := ChampionState(positions[c].position,
          CurrentGold(replay, p.puuid, t), CurrentCs(replay, p.puuid, t), CurrentLevel(replay, p.puuid, t),
          CurrentKda(replay, p.puuid, t), CurrentItems(replay, p.puuid, t))]
  }

  /** `_calculate_champion_states`: one entry per roster puuid that has position
      samples under that puuid; everyone else is left out. */
  function CalculateChampionStates(replay: ProcessedReplay, t: int): (r: map<string, ChampionState>)
    ensures forall k :: k in r <==> InRoster(replay.participants, k) && Lookup(replay.championPathing, k) != []
    ensures forall k :: k in r ==> IsStateAt(r[k], Lookup(replay.championPathing, k), t)
  {
    StatesFor(replay, replay.participants, t)
  }

  // ---------------------------------------------------------------------------
  // Recent events

  const EventWindow: int := 30000

  predicate InWindow(ts: int, t: int) {
    t - EventWindow <= ts <= t + EventWindow
  }

  /** `_get_recent_events`: the events within 30 s either side of `t`, bounds included. */
  function RecentEvents(events: seq<GameEvent>, t: int): (r: seq<GameEvent>)
    ensures forall e :: e in r <==> e in events && InWindow(e.timestamp, t)
    ensures |r| <= |events|
    decreases |events|
  {
    if events == [] then []
    else (if InWindow(events[0].timestamp, t) then [events[0]] else []) + RecentEvents(events[1..], t)
  }

  /** The window keeps stored order: filtering a concatenation filters each part. */
  lemma {:induction false} RecentEventsKeepOrder(a: seq<GameEvent>, b: seq<GameEvent>, t: int)
    ensures RecentEvents(a + b, t) == RecentEvents(a, t) + RecentEvents(b, t)
    decreases |a|
  {
    if a == [] {
      assert a + b == b;
    } else {
      assert (a + b)[1..] == a[1..] + b;
      RecentEventsKeepOrder(a[1..], b, t);
    }
  }

  function KillAt(ts: int): GameEvent {
    GameEvent(ts, ChampionKill, Some(0), map[], None, None, None, None, None, None, None)
  }

  /** Both window bounds are inclusive; one millisecond beyond either is excluded. */
  lemma WindowBoundsInclusive(t: int)
    ensures KillAt(t - 30000) in RecentEvents([KillAt(t - 30000)], t)
    ensures KillAt(t + 30000) in RecentEvents([KillAt(t + 30000)], t)
    ensures RecentEvents([KillAt(t - 30001), KillAt(t + 30001)], t) == []
  {
    assert RecentEvents([KillAt(t + 30001)], t) == [] by {
      assert [KillAt(t + 30001)][1..] == [];
    }
    assert [KillAt(t - 30001), KillAt(t + 30001)][1..] == [KillAt(t + 30001)];
  }

  // ---------------------------------------------------------------------------
  // Team objectives

  /** The position of the first event later than `t`, or the length when there is none. */
  function FirstAfter(events: seq<GameEvent>, t: int): (n: nat)
    ensures n <= |events|
    ensures forall i :: 0 <= i < n ==> events[i].timestamp <= t
    ensures n < |events| ==> events[n].timestamp > t
    decreases |events|
  {
    if events == [] || events[0].timestamp > t then 0 else 1 + FirstAfter(events[1..], t)
  }

  /** The events the accumulation looks at: the longest prefix with no event after `t`. */
  function PrefixUpTo(events: seq<GameEvent>, t: int): seq<GameEvent> {
    events[..FirstAfter(events, t)]
  }

  predicate TakenBy(e: GameEvent, team: int) {
    e.kind == ObjectiveTaken && e.teamId == Some(team)
  }

  /** `details.get("objective_type", "Unknown")`. */
  function ObjectiveLabel(e: GameEvent): DetailValue {
    if "objective_type" in e.details then e.details["objective_type"] else TextDetail("Unknown")
  }

  /** The labels of the objectives `team` took in `events`, in order. */
  function LabelsFor(events: seq<GameEvent>, team: int): seq<DetailValue>
    decreases |events|
  {
    if events == [] then []
    else (if TakenBy(events[0], team) then [ObjectiveLabel(events[0])] else []) + LabelsFor(events[1..], team)
  }

  /** The loop with its `break`: both team lists are built in one pass. */
  function Accumulate(events: seq<GameEvent>, t: int, blue: seq<DetailValue>, red: seq<DetailValue>)
    : (seq<DetailValue>, seq<DetailValue>)
    decreases |events|
  {
    if events == [] || events[0].timestamp > t then (blue, red)
    else
      var e := events[0];
      if TakenBy(e, 100) then Accumulate(events[1..], t, blue + [ObjectiveLabel(e)], red)
      else if TakenBy(e, 200) then Accumulate(events[1..], t, blue, red + [ObjectiveLabel(e)])
      else Accumulate(events[1..], t, blue, red)
  }

  lemma {:induction false} AccumulateSpec(events: seq<GameEvent>, t: int, blue: seq<DetailValue>, red: seq<DetailValue>)
    ensures Accumulate(events, t, blue, red) ==
              (blue + LabelsFor(PrefixUpTo(events, t), 100), red + LabelsFor(PrefixUpTo(events, t), 200))
    decreases |events|
  {
    if events == [] || events[0].timestamp > t {
      assert PrefixUpTo(events, t) == [];
      assert blue + LabelsFor([], 100) == blue && red + LabelsFor([], 200) == red;
    } else {
      var e := events[0];
      var prefix, rest := PrefixUpTo(events, t), PrefixUpTo(events[1..], t);
      assert prefix == [e] + rest by {
        assert prefix[1..] == rest;
      }
      var x := ObjectiveLabel(e);
      var b, r := LabelsFor(rest, 100), LabelsFor(rest, 200);
      if TakenBy(e, 100) {
        AccumulateSpec(events[1..], t, blue + [x], red);
        assert LabelsFor(prefix, 100) == [x] + b;
        assert LabelsFor(prefix, 200) == r;
        assert blue + [x] + b == blue + ([x] + b);
      } else if TakenBy(e, 200) {
        AccumulateSpec(events[1..], t, blue, red + [x]);
        assert LabelsFor(prefix, 100) == b;
        assert LabelsFor(prefix, 200) == [x] + r;
        assert red + [x] + r == red + ([x] + r);
      } else {
        AccumulateSpec(events[1..], t, blue, red);
        assert LabelsFor(prefix, 100) == b;
        assert LabelsFor(prefix, 200) == r;
      }
    }
  }

  /** `_calculate_team_objectives`: exactly the keys "100" and "200"; each lists, in
      order, the labels of that team's OBJECTIVE_TAKEN events in the prefix before
      the first event later than `t`. */
  function CalculateTeamObjectives(events: seq<GameEvent>, t: int): (r: map<string, seq<DetailValue>>)
    ensures r.Keys == {"100", "200"}
    ensures r["100"] == LabelsFor(PrefixUpTo(events, t), 100)
    ensures r["200"] == LabelsFor(PrefixUpTo(events, t), 200)
  {
    AccumulateSpec(events, t, [], []);
    var (blue, red) := Accumulate(events, t, [], []);
    map["100" := blue, "200" := red]
  }

  predicate SortedByTime(events: seq<GameEvent>) {
    forall i, j :: 0 <= i < j < |events| ==> events[i].timestamp <= events[j].timestamp
  }

  /** For time-ordered events the prefix is exactly the events at or before `t`. */
  lemma SortedPrefixIsAllUpTo(events: seq<GameEvent>, t: int)
    requires SortedByTime(events)
    ensures forall i :: 0 <= i < |events| ==> (i < FirstAfter(events, t) <==> events[i].timestamp <= t)
  {
  }

  function ObjectiveAt(ts: int, team: int, objective: string): GameEvent {
    GameEvent(ts, ObjectiveTaken, Some(team), map["objective_type" := TextDetail(objective)], None, None, None, None, None, None, None)
  }

  /** Three objectives for team 100 at 100, 200 and 300 queried at 250: the first two, in order. */
  lemma ObjectivesAccumulateInOrder()
    ensures CalculateTeamObjectives([ObjectiveAt(100, 100, "A"), ObjectiveAt(200, 100, "B"), ObjectiveAt(300, 100, "C")], 250)
              == map["100" := [TextDetail("A"), TextDetail("B")], "200" := []]
  {
    var events := [ObjectiveAt(100, 100, "A"), ObjectiveAt(200, 100, "B"), ObjectiveAt(300, 100, "C")];
    assert FirstAfter(events, 250) == 2 by {
      assert events[2].timestamp > 250;
    }
    assert PrefixUpTo(events, 250) == [events[0], events[1]];
    TwoLabels(events[0], events[1], "A", "B");
  }

  lemma TwoLabels(a: GameEvent, b: GameEvent, x: string, y: string)
    requires a == ObjectiveAt(a.timestamp, 100, x) && b == ObjectiveAt(b.timestamp, 100, y)
    ensures LabelsFor([a, b], 100) == [TextDetail(x), TextDetail(y)]
    ensures LabelsFor([a, b], 200) == []
  {
    assert [a, b][1..] == [b];
    assert [b][1..] == [];
    assert ObjectiveLabel(a) == TextDetail(x) && ObjectiveLabel(b) == TextDetail(y);
    assert LabelsFor([b], 100) == [TextDetail(y)] && LabelsFor([b], 200) == [];
  }

  /** Out of order events stop the scan early: an objective listed after a later event
      is not counted even though it happened before `t`. */
  lemma UnsortedEventsStopEarly()
    ensures CalculateTeamObjectives([ObjectiveAt(500, 100, "A"), ObjectiveAt(100, 100, "B")], 300)["100"] == []
  {
    assert FirstAfter([ObjectiveAt(500, 100, "A"), ObjectiveAt(100, 100, "B")], 300) == 0;
  }

  /** A later query never loses objectives: the earlier lists are prefixes of the later ones. */
  lemma {:induction false} ObjectivesGrowWithTime(events: seq<GameEvent>, t1: int, t2: int, team: int)
    requires t1 <= t2
    ensures LabelsFor(PrefixUpTo(events, t1), team) <= LabelsFor(PrefixUpTo(events, t2), team)
    decreases |events|
  {
    if events != [] && events[0].timestamp <= t1 {
      assert PrefixUpTo(events, t1)[1..] == PrefixUpTo(events[1..], t1);
      assert PrefixUpTo(events, t2)[1..] == PrefixUpTo(events[1..], t2);
      assert PrefixUpTo(events, t1)[0] == events[0] == PrefixUpTo(events, t2)[0];
      ObjectivesGrowWithTime(events[1..], t1, t2, team);
    } else {
      assert PrefixUpTo(events, t1) == [];
    }
  }

  // ---------------------------------------------------------------------------
  // Store and query

  /** The replay files, by match id. */
  type ReplayStore = map<string, Stored<ProcessedReplay>>

  /** `save_replay`: write the record under its match id and return the id. */
  function SaveReplay(store: ReplayStore, replay: ProcessedReplay): (r: (ReplayStore, string))
    ensures r.1 == replay.matchId
    ensures r.0.Keys == store.Keys + {replay.matchId}
    ensures forall id :: id in store && id != replay.matchId ==> r.0[id] == store[id]
  {
    (store[replay.matchId := Intact(replay)], replay.matchId)
  }

  /** `load_replay`: `None` both when the file is missing and when it does not decode. */
  function LoadReplay(store: ReplayStore, matchId: string): (r: Option<ProcessedReplay>)
    ensures r.None? <==> matchId !in store || store[matchId].Corrupt?
    ensures r.Some? ==> store[matchId] == Intact(r.value)
  {
    if matchId !in store then None
    else match store[matchId]
      case Intact(replay) => Some(replay)
      case Corrupt => None
  }

  /** A saved replay loads back unchanged. */
  lemma SaveThenLoad(store: ReplayStore, replay: ProcessedReplay)
    ensures LoadReplay(SaveReplay(store, replay).0, replay.matchId) == Some(replay)
  {
  }

  /** `get_game_state`. There is no range check on `t`, and the query only reads the store. */
  function GetGameState(store: ReplayStore, matchId: string, t: int): (r: Option<GameStateSnapshot>)
    ensures r.None? <==> LoadReplay(store, matchId).None?
    ensures r.Some? ==> r.value.timestamp == t
    ensures r.Some? ==> r.value.championStates == CalculateChampionStates(LoadReplay(store, matchId).value, t)
    ensures r.Some? ==> r.value.recentEvents == RecentEvents(LoadReplay(store, matchId).value.gameEvents, t)
    ensures r.Some? ==> r.value.teamObjectives == CalculateTeamObjectives(LoadReplay(store, matchId).value.gameEvents, t)
  {
    var replay :- LoadReplay(store, matchId);
    Some(GameStateSnapshot(t, CalculateChampionStates(replay, t), RecentEvents(replay.gameEvents, t),
                           CalculateTeamObjectives(replay.gameEvents, t)))
  }

  /** The runtime statistics in a snapshot do not depend on the query time. */
  lemma StatsIgnoreTime(replay: ProcessedReplay, t1: int, t2: int)
    ensures CalculateChampionStates(replay, t1).Keys == CalculateChampionStates(replay, t2).Keys
    ensures forall k :: k in CalculateChampionStates(replay, t1) ==>
              var s1, s2 := CalculateChampionStates(replay, t1)[k], CalculateChampionStates(replay, t2)[k];
              && s1.currentGold == s2.currentGold == 0 && s1.currentCs == s2.currentCs == 0
              && s1.currentLevel == s2.currentLevel == 1 && s1.kda == s2.kda == Kda(0, 0, 0)
              && s1.currentItems == s2.currentItems == []
  {
  }

  /** Replays built from a provider timeline key their pathing by `participantFrames`
      keys, while the query looks samples up by puuid: unless a puuid happens to equal
      a frame key, the snapshot has no champion states at all. */
  lemma TimelineReplayHasNoChampionStates(matchId: string, doc: TimelineParser.Timeline, t: int)
    requires TimelineParser.FromTimeline(matchId, doc).Success?
    requires forall i, j :: 0 <= i < |doc.frames| && 0 <= j < |doc.frames[i].participantFrames|
               ==> doc.frames[i].participantFrames[j].key !in doc.participants
    ensures CalculateChampionStates(TimelineParser.FromTimeline(matchId, doc).value, t) == map[]
  {
    var replay := TimelineParser.FromTimeline(matchId, doc).value;
    forall i | 0 <= i < |replay.participants| ensures Lookup(replay.championPathing, replay.participants[i].puuid) == [] {
      TimelineParser.RosterHasNoPathing(matchId, doc, i);
    }
    NoPathingNoStates(replay, t);
  }

  /** A roster none of whose puuids has samples yields no champion states. */
  lemma NoPathingNoStates(replay: ProcessedReplay, t: int)
    requires forall i :: 0 <= i < |replay.participants| ==> Lookup(replay.championPathing, replay.participants[i].puuid) == []
    ensures CalculateChampionStates(replay, t) == map[]
  {
    var states := CalculateChampionStates(replay, t);
    assert forall k :: k !in states;
  }

  /** The provider's shape: frame keys "1".."10", roster of puuids. */
  lemma TimelineExampleHasNoChampionStates()
    ensures var doc := TimelineParser.Timeline(["puuid-a"], 60000,
              [TimelineParser.Frame(0, [TimelineParser.ParticipantFrame("1", Position(10, 20))], [])]);
            && TimelineParser.FromTimeline("NA1_1", doc).Success?
            && |TimelineParser.FromTimeline("NA1_1", doc).value.championPathing["1"]| == 1
            && CalculateChampionStates(TimelineParser.FromTimeline("NA1_1", doc).value, 0) == map[]
  {
    var doc := TimelineParser.Timeline(["puuid-a"], 60000,
      [TimelineParser.Frame(0, [TimelineParser.ParticipantFrame("1", Position(10, 20))], [])]);
    var frames := doc.frames;
    assert TimelineParser.KeptEvents(frames) == [] by {
      assert frames[1..] == [];
    }
    assert TimelineParser.PathFor(frames, "1") == [PositionData(0, Position(10, 20))] by {
      assert frames[1..] == [];
      assert frames[0].participantFrames[1..] == [];
    }
    TimelineReplayHasNoChampionStates("NA1_1", doc, 0);
  }
}
