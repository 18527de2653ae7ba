/** Turning a provider match-timeline document into a `ProcessedReplay`: the roster
    comes from the metadata, position samples from every frame's
    `participantFrames`, and kill/objective events from every frame's event list. */
module TimelineParser {
  import opened Wrappers
  import opened Json
  import opened ReplayModel
  import opened MapSums
  import Routing

  /** One `participantFrames` entry: its dict key and the position it reports. */
  datatype ParticipantFrame = ParticipantFrame(key: string, position: Position)

  /** A frame event. Only `type` is read for every event; `timestamp` and the other
      fields are read only for the event types the parser keeps, and may be absent. */
  datatype TimelineEvent = TimelineEvent(
    kind: string,
    timestamp: Option<int>,
    killerId: Option<int>,
    victimId: Option<int>,
    teamId: Option<int>,
    monsterType: Option<string>)

  datatype Frame = Frame(timestamp: int, participantFrames: seq<ParticipantFrame>, events: seq<TimelineEvent>)

  /** The timeline document: `metadata.participants`, `info.frameInterval`, `info.frames`. */
  datatype Timeline = Timeline(participants: seq<string>, frameInterval: int, frames: seq<Frame>)

  // ---------------------------------------------------------------------------
  // Roster

  /** The roster: every metadata puuid, in order, with placeholder champion, team and name. */
  function Roster(puuids: seq<string>): (r: seq<Participant>)
    ensures |r| == |puuids|
    ensures forall i :: 0 <= i < |r| ==> r[i] == Participant(puuids[i], 0, 0, "Unknown")
    decreases |puuids|
  {
    if puuids == [] then []
    else Roster(puuids[..|puuids| - 1]) + [Participant(puuids[|puuids| - 1], 0, 0, "Unknown")]
  }

  // ---------------------------------------------------------------------------
  // Champion pathing

  /** The samples one frame contributes under key `k`, in entry order. */
  function SamplesFor(entries: seq<ParticipantFrame>, ts: int, k: string): seq<PositionData>
    decreases |entries|
  {
    if entries == [] then []
    else (if entries[0].key == k then [PositionData(ts, entries[0].position)] else [])
         + SamplesFor(entries[1..], ts, k)
  }

  /** Every sample stored under key `k`: frame by frame, in frame order. */
  function PathFor(frames: seq<Frame>, k: string): seq<PositionData>
    decreases |frames|
  {
    if frames == [] then []
    else SamplesFor(frames[0].participantFrames, frames[0].timestamp, k) + PathFor(frames[1..], k)
  }

  /** The inner loop over one frame's `participantFrames`: append one sample per entry. */
  function AddFrame(m: map<string, seq<PositionData>>, ts: int, entries: seq<ParticipantFrame>)
    : map<string, seq<PositionData>>
    decreases |entries|
  {
    if entries == [] then m
    else
      var e := entries[0];
      AddFrame(m[e.key := Lookup(m, e.key) + [PositionData(ts, e.position)]], ts, entries[1..])
  }

  /** The outer loop over the frames. */
  function BuildPathing(m: map<string, seq<PositionData>>, frames: seq<Frame>)
    : map<string, seq<PositionData>>
    decreases |frames|
  {
    if frames == [] then m
    else BuildPathing(AddFrame(m, frames[0].timestamp, frames[0].participantFrames), frames[1..])
  }

  lemma {:induction false} AddFrameSpec(m: map<string, seq<PositionData>>, ts: int, entries: seq<ParticipantFrame>, k: string)
    ensures Lookup(AddFrame(m, ts, entries), k) == Lookup(m, k) + SamplesFor(entries, ts, k)
    ensures k in AddFrame(m, ts, entries) <==> k in m || SamplesFor(entries, ts, k) != []
    decreases |entries|
  {
    if entries != [] {
      var e := entries[0];
      var m' := m[e.key := Lookup(m, e.key) + [PositionData(ts, e.position)]];
      AddFrameSpec(m', ts, entries[1..], k);
    }
  }

  lemma {:induction false} BuildPathingSpec(m: map<string, seq<PositionData>>, frames: seq<Frame>, k: string)
    ensures Lookup(BuildPathing(m, frames), k) == Lookup(m, k) + PathFor(frames, k)
    ensures k in BuildPathing(m, frames) <==> k in m || PathFor(frames, k) != []
    decreases |frames|
  {
    if frames != [] {
      var f := frames[0];
      AddFrameSpec(m, f.timestamp, f.participantFrames, k);
      BuildPathingSpec(AddFrame(m, f.timestamp, f.participantFrames), frames[1..], k);
    }
  }

  /** The number of samples stored under each key. */
  function Sizes(m: map<string, seq<PositionData>>): (r: map<string, int>)
    ensures r.Keys == m.Keys
  {
    map k | k in m :: |m[k]|
  }

  /** The number of (frame, participantFrames entry) pairs. */
  function EntryCount(frames: seq<Frame>): nat
    decreases |frames|
  {
    if frames == [] then 0 else |frames[0].participantFrames| + EntryCount(frames[1..])
  }

  lemma {:induction false} AddFrameTotal(m: map<string, seq<PositionData>>, ts: int, entries: seq<ParticipantFrame>)
    ensures SumValues(Sizes(AddFrame(m, ts, entries))) == SumValues(Sizes(m)) + |entries|
    decreases |entries|
  {
    if entries != [] {
      var e := entries[0];
      var m' := m[e.key := Lookup(m, e.key) + [PositionData(ts, e.position)]];
      AppendOneSample(m, e.key, PositionData(ts, e.position));
      AddFrameTotal(m', ts, entries[1..]);
    }
  }

  /** Appending one sample under a key adds one to the total. */
  lemma AppendOneSample(m: map<string, seq<PositionData>>, k: string, p: PositionData)
    ensures SumValues(Sizes(m[k := Lookup(m, k) + [p]])) == SumValues(Sizes(m)) + 1
  {
    var n := |Lookup(m, k)|;
    SizesUpdate(m, k, Lookup(m, k) + [p]);
    SumValuesUpdate(Sizes(m), k, n + 1);
    assert k in m ==> Sizes(m)[k] == n;
  }

  lemma SizesUpdate(m: map<string, seq<PositionData>>, k: string, v: seq<PositionData>)
    ensures Sizes(m[k := v]) == Sizes(m)[k := |v|]
  {
    var a, b := Sizes(m[k := v]), Sizes(m)[k := |v|];
    assert a.Keys == b.Keys;
    forall j | j in a
      ensures a[j] == b[j]
    {
      if j != k {
        assert a[j] == |m[j]|;
      }
    }
  }

  lemma {:induction false} BuildPathingTotal(m: map<string, seq<PositionData>>, frames: seq<Frame>)
    ensures SumValues(Sizes(BuildPathing(m, frames))) == SumValues(Sizes(m)) + EntryCount(frames)
    decreases |frames|
  {
    if frames != [] {
      AddFrameTotal(m, frames[0].timestamp, frames[0].participantFrames);
      BuildPathingTotal(AddFrame(m, frames[0].timestamp, frames[0].participantFrames), frames[1..]);
    }
  }

  // ---------------------------------------------------------------------------
  // Game events

  /** The two event types the parser keeps; every other type is dropped. */
  predicate IsKept(e: TimelineEvent) {
    e.kind == ChampionKill || e.kind == ObjectiveTaken
  }

  /** A kept event carries the fields the parser reads for its type. */
  predicate Complete(e: TimelineEvent) {
    && (IsKept(e) ==> e.timestamp.Some?)
    && (e.kind == ChampionKill ==> e.killerId.Some? && e.victimId.Some?)
    && (e.kind == ObjectiveTaken ==> e.teamId.Some? && e.monsterType.Some?)
  }

  /** The kept events of one frame, in order. */
  function KeptOf(events: seq<TimelineEvent>): seq<TimelineEvent>
    decreases |events|
  {
    if events == [] then []
    else (if IsKept(events[0]) then [events[0]] else []) + KeptOf(events[1..])
  }

  /** The kept events of all frames: frame order, then in-frame order. */
  function KeptEvents(frames: seq<Frame>): seq<TimelineEvent>
    decreases |frames|
  {
    if frames == [] then [] else KeptOf(frames[0].events) + KeptEvents(frames[1..])
  }

  /** How a kept raw event appears in the replay: same time and type; kills get team 0
      and the killer and victim ids, objectives get the event's team and monster type;
      every other attribute is left unset. */
  predicate Translates(raw: TimelineEvent, ev: GameEvent) {
    && raw.timestamp == Some(ev.timestamp)
    && ev.kind == raw.kind
    && ev.position.None? && ev.participantId.None? && ev.monsterType.None?
    && ev.buildingType.None? && ev.laneType.None? && ev.towerType.None? && ev.monsterSubType.None?
    && (raw.kind == ChampionKill ==>
          && raw.killerId.Some? && raw.victimId.Some?
          && ev.teamId == Some(0)
          && ev.details == map["killerId" := IntDetail(raw.killerId.value), "victimId" := IntDetail(raw.victimId.value)])
    && (raw.kind == ObjectiveTaken ==>
          && raw.monsterType.Some? && raw.teamId.Some?
          && ev.teamId == raw.teamId
          && ev.details == map["objective_type" := TextDetail(raw.monsterType.value)])
  }

  function TimelineGameEvent(timestamp: int, kind: string, teamId: int, details: map<string, DetailValue>): GameEvent {
    GameEvent(timestamp, kind, Some(teamId), details, None, None, None, None, None, None, None)
  }

  /** The body of the inner event loop: `Success(None)` when the event is skipped,
      `Failure(KeyError(..))` when a field it needs is missing. */
  function ConvertEvent(e: TimelineEvent): (r: Result<Option<GameEvent>, Raised>)
    ensures r.Success? <==> Complete(e)
    ensures r.Success? ==> (r.value.Some? <==> IsKept(e))
    ensures r.Success? && r.value.Some? ==> Translates(e, r.value.value)
  {
    if IsKept(e) && e.timestamp.None? then Failure(KeyError("timestamp"))
    else if e.kind == ChampionKill then
      if e.killerId.None? then Failure(KeyError("killerId"))
      else if e.victimId.None? then Failure(KeyError("victimId"))
      else Success(Some(TimelineGameEvent(e.timestamp.value, ChampionKill, 0,
        map["killerId" := IntDetail(e.killerId.value), "victimId" := IntDetail(e.victimId.value)])))
    else if e.kind == ObjectiveTaken then
      if e.teamId.None? then Failure(KeyError("teamId"))
      else if e.monsterType.None? then Failure(KeyError("monsterType"))
      else Success(Some(TimelineGameEvent(e.timestamp.value, ObjectiveTaken, e.teamId.value,
        map["objective_type" := TextDetail(e.monsterType.value)])))
    else Success(None)
  }

  /** The events of one frame, or the first missing-field error. */
  function ConvertFrameEvents(events: seq<TimelineEvent>): (r: Result<seq<GameEvent>, Raised>)
    ensures r.Success? <==> forall e :: e in KeptOf(events) ==> Complete(e)
    ensures r.Success? ==> |r.value| == |KeptOf(events)|
    ensures r.Success? ==> forall i :: 0 <= i < |r.value| ==> Translates(KeptOf(events)[i], r.value[i])
    decreases |events|
  {
    if events == [] then Success([])
    else
      var head :- ConvertEvent(events[0]);
      var tail :- ConvertFrameEvents(events[1..]);
      Success((if head.Some? then [head.value] else []) + tail)
  }

  /** The events of all frames, or the first missing-field error. */
  function CollectEvents(frames: seq<Frame>): (r: Result<seq<GameEvent>, Raised>)
    ensures r.Success? <==> forall e :: e in KeptEvents(frames) ==> Complete(e)
    ensures r.Success? ==> |r.value| == |KeptEvents(frames)|
    ensures r.Success? ==> forall i :: 0 <= i < |r.value| ==> Translates(KeptEvents(frames)[i], r.value[i])
    decreases |frames|
  {
    if frames == [] then Success([])
    else
      var head :- ConvertFrameEvents(frames[0].events);
      var tail :- CollectEvents(frames[1..]);
      Success(head + tail)
  }

  // ---------------------------------------------------------------------------
  // The whole transform

  /** Lines 47-94 of `parse_match_timeline`: any exception becomes `RuntimeError`. */
  function FromTimeline(matchId: string, doc: Timeline): (r: Result<ProcessedReplay, Raised>)
    ensures r.Success? <==> forall e :: e in KeptEvents(doc.frames) ==> Complete(e)
    ensures r.Failure? ==> r.error == RuntimeError
    ensures r.Success? ==> r.value.matchId == matchId
    ensures r.Success? ==> r.value.gameDuration == doc.frameInterval * |doc.frames|
    ensures r.Success? ==> |r.value.participants| == |doc.participants|
    ensures r.Success? ==> forall i :: 0 <= i < |doc.participants| ==>
              r.value.participants[i] == Participant(doc.participants[i], 0, 0, "Unknown")
    ensures r.Success? ==> forall k :: k in r.value.championPathing <==> PathFor(doc.frames, k) != []
    ensures r.Success? ==> forall k :: k in r.value.championPathing ==> r.value.championPathing[k] == PathFor(doc.frames, k)
    ensures r.Success? ==> SumValues(Sizes(r.value.championPathing)) == EntryCount(doc.frames)
    ensures r.Success? ==> |r.value.gameEvents| == |KeptEvents(doc.frames)|
    ensures r.Success? ==> forall i :: 0 <= i < |r.value.gameEvents| ==>
              Translates(KeptEvents(doc.frames)[i], r.value.gameEvents[i])
  {
    var pathing := BuildPathing(map[], doc.frames);
    var events := CollectEvents(doc.frames);
    if events.Failure? then Failure(RuntimeError)
    else
      assert forall k :: Lookup(pathing, k) == PathFor(doc.frames, k) && (k in pathing <==> PathFor(doc.frames, k) != []) by {
        forall k { BuildPathingSpec(map[], doc.frames, k); }
      }
      BuildPathingTotal(map[], doc.frames);
      SumValuesEmpty(Sizes(map[]));
      Success(ProcessedReplay(matchId, doc.frameInterval * |doc.frames|, Roster(doc.participants), pathing, events.value))
  }

  /** The timeline request URL for a routing value. */
  function TimelineUrl(routing: string, matchId: string): string {
    "https://" + routing + ".api.riotgames.com/lol/match/v5/matches/" + matchId + "/timeline"
  }

  /** `parse_match_timeline` as a whole. The HTTP request is the `fetch` oracle, which
      yields `None` for a non-200 response; a bad region, a failed request and a
      malformed document all surface as `RuntimeError`. */
  function ParseMatchTimeline(matchId: string, region: string, fetch: string -> Option<Timeline>)
    : (r: Result<ProcessedReplay, Raised>)
    ensures Routing.RoutingValue(Routing.ParserRoutingMap, region).Failure? ==> r == Failure(RuntimeError)
    ensures r.Success? <==>
              && Routing.RoutingValue(Routing.ParserRoutingMap, region).Success?
              && fetch(TimelineUrl(Routing.RoutingValue(Routing.ParserRoutingMap, region).value, matchId)).Some?
              && FromTimeline(matchId, fetch(TimelineUrl(Routing.RoutingValue(Routing.ParserRoutingMap, region).value, matchId)).value).Success?
    ensures Routing.RoutingValue(Routing.ParserRoutingMap, region).Success? ==>
              var url := TimelineUrl(Routing.RoutingValue(Routing.ParserRoutingMap, region).value, matchId);
              && (fetch(url).None? ==> r == Failure(RuntimeError))
              && (fetch(url).Some? ==> r == FromTimeline(matchId, fetch(url).value))
    ensures r.Failure? ==> r.error == RuntimeError
  {
    var routing := Routing.RoutingValue(Routing.ParserRoutingMap, region);
    if routing.Failure? then Failure(RuntimeError)
    else
      match fetch(TimelineUrl(routing.value, matchId))
      case None => Failure(RuntimeError)
      case Some(doc) => FromTimeline(matchId, doc)
  }

  // ---------------------------------------------------------------------------
  // Properties of the pathing reference

  /** A later frame's samples come after every earlier frame's samples. */
  lemma {:induction false} PathForAppendFrame(frames: seq<Frame>, f: Frame, k: string)
    ensures PathFor(frames + [f], k) == PathFor(frames, k) + SamplesFor(f.participantFrames, f.timestamp, k)
    decreases |frames|
  {
    if frames == [] {
      assert [f][1..] == [];
    } else {
      assert (frames + [f])[1..] == frames[1..] + [f];
      PathForAppendFrame(frames[1..], f, k);
    }
  }

  /** Every sample under key `k` carries the timestamp of a frame that has an entry `k`. */
  lemma {:induction false} SamplesComeFromFrames(frames: seq<Frame>, k: string, s: PositionData)
    requires s in PathFor(frames, k)
    ensures exists i, j :: 0 <= i < |frames| && 0 <= j < |frames[i].participantFrames|
              && frames[i].participantFrames[j].key == k
              && s == PositionData(frames[i].timestamp, frames[i].participantFrames[j].position)
    decreases |frames|
  {
    var f := frames[0];
    if s in SamplesFor(f.participantFrames, f.timestamp, k) {
      var j := SampleEntry(f.participantFrames, f.timestamp, k, s);
      assert frames[0].participantFrames[j].key == k;
    } else {
      SamplesComeFromFrames(frames[1..], k, s);
      var i, j :| 0 <= i < |frames[1..]| && 0 <= j < |frames[1..][i].participantFrames|
              && frames[1..][i].participantFrames[j].key == k
              && s == PositionData(frames[1..][i].timestamp, frames[1..][i].participantFrames[j].position);
      assert frames[i + 1] == frames[1..][i];
    }
  }

  lemma {:induction false} SampleEntry(entries: seq<ParticipantFrame>, ts: int, k: string, s: PositionData) returns (j: nat)
    requires s in SamplesFor(entries, ts, k)
    ensures j < |entries| && entries[j].key == k && s == PositionData(ts, entries[j].position)
    decreases |entries|
  {
    if entries[0].key == k && s == PositionData(ts, entries[0].position) {
      j := 0;
    } else {
      var j' := SampleEntry(entries[1..], ts, k, s);
      j := j' + 1;
    }
  }

  /** A roster puuid that no frame uses as a key gets no samples. */
  lemma RosterHasNoPathing(matchId: string, doc: Timeline, i: nat)
    requires FromTimeline(matchId, doc).Success?
    requires forall i, j :: 0 <= i < |doc.frames| && 0 <= j < |doc.frames[i].participantFrames|
               ==> doc.frames[i].participantFrames[j].key !in doc.participants
    requires i < |FromTimeline(matchId, doc).value.participants|
    ensures Lookup(FromTimeline(matchId, doc).value.championPathing, FromTimeline(matchId, doc).value.participants[i].puuid) == []
  {
    var k := doc.participants[i];
    PathForNonEmpty(doc.frames, k);
  }

  lemma {:induction false} PathForNonEmpty(frames: seq<Frame>, k: string)
    ensures PathFor(frames, k) != [] <==>
              exists i, j :: 0 <= i < |frames| && 0 <= j < |frames[i].participantFrames|
                && frames[i].participantFrames[j].key == k
    decreases |frames|
  {
    if frames != [] {
      PathForNonEmpty(frames[1..], k);
      var f := frames[0];
      SamplesNonEmpty(f.participantFrames, f.timestamp, k);
      if PathFor(frames[1..], k) != [] {
        var i, j :| 0 <= i < |frames[1..]| && 0 <= j < |frames[1..][i].participantFrames|
                && frames[1..][i].participantFrames[j].key == k;
        assert frames[i + 1] == frames[1..][i];
      }
      if exists i, j :: 0 <= i < |frames| && 0 <= j < |frames[i].participantFrames| && frames[i].participantFrames[j].key == k {
        var i, j :| 0 <= i < |frames| && 0 <= j < |frames[i].participantFrames| && frames[i].participantFrames[j].key == k;
        if i > 0 {
          assert frames[1..][i - 1] == frames[i];
        }
      }
    }
  }

  lemma {:induction false} SamplesNonEmpty(entries: seq<ParticipantFrame>, ts: int, k: string)
    ensures SamplesFor(entries, ts, k) != [] <==> exists j :: 0 <= j < |entries| && entries[j].key == k
    decreases |entries|
  {
    if entries != [] {
      SamplesNonEmpty(entries[1..], ts, k);
      if exists j :: 0 <= j < |entries| && entries[j].key == k {
        var j :| 0 <= j < |entries| && entries[j].key == k;
        if j > 0 {
          assert entries[1..][j - 1] == entries[j];
        }
      }
    }
  }
}
