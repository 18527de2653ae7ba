/** The extractors that read an external replay decoder's output, a generic nested
    value. Each one is fallible on its own: a missing or malformed group fails only
    that extractor, and a missing optional group yields an empty list. */
module DecoderExtract {
  import opened Wrappers
  import opened Json
  import opened ReplayModel

  /** `[convert(x) for x in items]`: every item converted in order, or the exception
      of the first item that fails. */
  function MapAll<T>(items: seq<Json>, convert: Json -> Result<T, Raised>): (r: Result<seq<T>, Raised>)
    ensures r.Success? <==> forall i :: 0 <= i < |items| ==> convert(items[i]).Success?
    ensures r.Success? ==> |r.value| == |items|
    ensures r.Success? ==> forall i :: 0 <= i < |items| ==> r.value[i] == convert(items[i]).value
    ensures r.Failure? ==> exists i :: (0 <= i < |items| && convert(items[i]).Failure?
              && r.error == convert(items[i]).error
              && forall j :: 0 <= j < i ==> convert(items[j]).Success?)
  {
    MapFrom(items, convert, 0)
  }

  /** A loop over strings whose body raises the same exception on every string: it
      raises that exception unless there is nothing to loop over. */
  lemma MapAllTexts<T>(items: seq<Json>, convert: Json -> Result<T, Raised>, e: Raised)
    requires forall i :: 0 <= i < |items| ==> convert(items[i]) == Failure(e)
    ensures MapAll(items, convert) == if items == [] then Success([]) else Failure(e)
  {
    if items != [] {
      assert convert(items[0]).Failure?;
    }
  }

  /** A loop over a dict or a string whose body raises `e` on every string ends as
      `NonListOutcome` says. */
  lemma TextLoop<T>(v: Json, convert: Json -> Result<T, Raised>, e: Raised)
    requires v.JObject? || v.JString?
    requires forall s :: convert(JString(s)) == Failure(e)
    ensures MapAll(Iterate(v).value, convert) == NonListOutcome(v, e)
  {
    IterateTexts(v);
    var items := Iterate(v).value;
    assert forall i :: 0 <= i < |items| ==> convert(items[i]) == Failure(e) by {
      forall i | 0 <= i < |items| ensures convert(items[i]) == Failure(e) {
        assert items[i] == JString(items[i].s);
      }
    }
    MapAllTexts(items, convert, e);
  }

  /** What a loop over a non-list value gives: `TypeError` when the value is not
      iterable, nothing for an empty dict or string, and otherwise the exception the
      body raises on a string. */
  function NonListOutcome<T>(v: Json, onText: Raised): Result<seq<T>, Raised> {
    if !(v.JObject? || v.JString?) then Failure(TypeError)
    else if Truthy(v) then Failure(onText)
    else Success([])
  }

  /** The comprehension from index `from` on. */
  function MapFrom<T>(items: seq<Json>, convert: Json -> Result<T, Raised>, from: nat): (r: Result<seq<T>, Raised>)
    requires from <= |items|
    ensures r.Success? <==> forall i :: from <= i < |items| ==> convert(items[i]).Success?
    ensures r.Success? ==> |r.value| == |items| - from
    ensures r.Success? ==> forall i :: from <= i < |items| ==> r.value[i - from] == convert(items[i]).value
    ensures r.Failure? ==> exists i :: (from <= i < |items| && convert(items[i]).Failure?
              && r.error == convert(items[i]).error
              && forall j :: from <= j < i ==> convert(items[j]).Success?)
    decreases |items| - from
  {
    if from == |items| then Success([])
    else
      match convert(items[from])
      case Failure(e) => Failure(e)
      case Success(head) =>
        match MapFrom(items, convert, from + 1)
        case Failure(e) => Failure(e)
        case Success(tail) => Success([head] + tail)
  }

  // ---------------------------------------------------------------------------
  // statsJson

  /** `_extract_stats_json`: the decoder output must be a dict whose `statsJson` is
      present and truthy; every failure is reported as `RuntimeError`. */
  function ExtractStatsJson(output: Json): (r: Result<Json, Raised>)
    ensures r.Success? <==> output.JObject? && "statsJson" in output.fields && Truthy(output.fields["statsJson"])
    ensures r.Success? ==> r.value == output.fields["statsJson"]
    ensures r.Failure? ==> r.error == RuntimeError
  {
    if !output.JObject? then Failure(RuntimeError)
    else
      var stats := if "statsJson" in output.fields then output.fields["statsJson"] else JObject(map[]);
      if !Truthy(stats) then Failure(RuntimeError) else Success(stats)
  }

  // ---------------------------------------------------------------------------
  // championPathing

  datatype PathingEntry = PathingEntry(timestamp: Json, participantId: Json, x: Json, y: Json)

  /** The fields a pathing entry must carry, in the order they are read. */
  const PathingFields: seq<string> := ["timestamp", "participantId", "x", "y"]

  predicate HasFields(j: Json, keys: seq<string>) {
    j.JObject? && forall k :: k in keys ==> k in j.fields
  }

  function PathingEntryOf(entry: Json): Result<PathingEntry, Raised> {
    var t :- Field(entry, "timestamp");
    var p :- Field(entry, "participantId");
    var x :- Field(entry, "x");
    var y :- Field(entry, "y");
    Success(PathingEntry(t, p, x, y))
  }

  lemma PathingEntryOfSpec(entry: Json)
    ensures PathingEntryOf(entry).Success? <==> HasFields(entry, PathingFields)
    ensures PathingEntryOf(entry).Success? ==>
              (PathingEntryOf(entry).value ==
               PathingEntry(entry.fields["timestamp"], entry.fields["participantId"], entry.fields["x"], entry.fields["y"]))
    ensures PathingEntryOf(entry).Failure? && entry.JObject? ==> PathingEntryOf(entry).error.KeyError?
    ensures PathingEntryOf(entry).Failure? && !entry.JObject? ==> PathingEntryOf(entry).error == TypeError
  {
  }

  /** `_extract_champion_pathing`. A non-dict output or a non-list `championPathing`
      is a `RuntimeError`; an entry missing a field is a `ValueError`; subscripting a
      non-dict entry is a `TypeError`, reported as `RuntimeError`. */
  function ExtractChampionPathing(output: Json): (r: Result<seq<PathingEntry>, Raised>)
    ensures !output.JObject? ==> r == Failure(RuntimeError)
    ensures output.JObject? && "championPathing" !in output.fields ==> r == Success([])
    ensures (output.JObject? && "championPathing" in output.fields && !output.fields["championPathing"].JArray?)
              ==> r == Failure(RuntimeError)
    ensures output.JObject? && "championPathing" in output.fields && output.fields["championPathing"].JArray? ==>
              r == PathingItems(output.fields["championPathing"].items)
  {
    if !output.JObject? then Failure(RuntimeError)
    else
      var data := if "championPathing" in output.fields then output.fields["championPathing"] else JArray([]);
      if !data.JArray? then Failure(RuntimeError)
      else PathingItems(data.items)
  }

  /** The loop over the `championPathing` list: every item must be a dict with all four
      fields; the first one that is not decides the exception. */
  function PathingItems(items: seq<Json>): (r: Result<seq<PathingEntry>, Raised>)
    ensures r.Success? <==> forall i :: 0 <= i < |items| ==> HasFields(items[i], PathingFields)
    ensures r.Success? ==> |r.value| == |items| && forall i :: 0 <= i < |items| ==>
              r.value[i] == PathingEntry(items[i].fields["timestamp"], items[i].fields["participantId"],
                                         items[i].fields["x"], items[i].fields["y"])
    ensures r.Failure? ==> exists i :: (0 <= i < |items| && !HasFields(items[i], PathingFields)
              && (forall j :: 0 <= j < i ==> HasFields(items[j], PathingFields))
              && r.error == (if items[i].JObject? then ValueError else RuntimeError))
  {
    var entries := MapAll(items, PathingEntryOf);
    PathingItemsSucceed(items);
    match entries
    case Success(es) =>
      PathingItemsValues(items);
      Success(es)
    case Failure(e) =>
      PathingItemsFail(items, e);
      if e.KeyError? then Failure(ValueError) else Failure(RuntimeError)
  }

  lemma PathingItemsSucceed(items: seq<Json>)
    ensures MapAll(items, PathingEntryOf).Success? <==> forall i :: 0 <= i < |items| ==> HasFields(items[i], PathingFields)
  {
    forall i | 0 <= i < |items|
      ensures PathingEntryOf(items[i]).Success? <==> HasFields(items[i], PathingFields)
    {
      PathingEntryOfSpec(items[i]);
    }
  }

  lemma PathingItemsValues(items: seq<Json>)
    requires MapAll(items, PathingEntryOf).Success?
    ensures forall i :: 0 <= i < |items| ==> (HasFields(items[i], PathingFields) &&
              MapAll(items, PathingEntryOf).value[i] == PathingEntry(items[i].fields["timestamp"],
                items[i].fields["participantId"], items[i].fields["x"], items[i].fields["y"]))
  {
    forall i | 0 <= i < |items|
      ensures HasFields(items[i], PathingFields) &&
              MapAll(items, PathingEntryOf).value[i] == PathingEntry(items[i].fields["timestamp"],
                items[i].fields["participantId"], items[i].fields["x"], items[i].fields["y"])
    {
      PathingEntryOfSpec(items[i]);
    }
  }

  lemma PathingItemsFail(items: seq<Json>, e: Raised)
    requires MapAll(items, PathingEntryOf) == Failure(e)
    ensures exists i :: (0 <= i < |items| && !HasFields(items[i], PathingFields)
              && (forall j :: 0 <= j < i ==> HasFields(items[j], PathingFields))
              && (if e.KeyError? then ValueError else RuntimeError) == (if items[i].JObject? then ValueError else RuntimeError))
  {
    var i :| 0 <= i < |items| && PathingEntryOf(items[i]).Failure?
      && e == PathingEntryOf(items[i]).error
      && forall j :: 0 <= j < i ==> PathingEntryOf(items[j]).Success?;
    PathingFailureAt(items, i, e);
  }

  /** The item that stops the pathing loop is the first one lacking a field. */
  lemma PathingFailureAt(items: seq<Json>, i: nat, e: Raised)
    requires i < |items| && PathingEntryOf(items[i]) == Failure(e)
    requires forall j :: 0 <= j < i ==> PathingEntryOf(items[j]).Success?
    ensures !HasFields(items[i], PathingFields)
    ensures forall j :: 0 <= j < i ==> HasFields(items[j], PathingFields)
    ensures (if e.KeyError? then ValueError else RuntimeError) == (if items[i].JObject? then ValueError else RuntimeError)
  {
    PrefixHasPathingFields(items, i);
    PathingEntryOfSpec(items[i]);
  }

  lemma PrefixHasPathingFields(items: seq<Json>, i: nat)
    requires i <= |items|
    requires forall j :: 0 <= j < i ==> PathingEntryOf(items[j]).Success?
    ensures forall j :: 0 <= j < i ==> HasFields(items[j], PathingFields)
  {
    forall j | 0 <= j < i ensures HasFields(items[j], PathingFields) {
      PathingEntryOfSpec(items[j]);
    }
  }

  // ---------------------------------------------------------------------------
  // wardEvents

  datatype WardEvent = WardEvent(timestamp: Json, kind: Json, x: Json, y: Json, wardType: Json, duration: Json, owner: Json)

  const WardFields: seq<string> := ["timestamp", "type", "x", "y", "wardType", "duration", "owner"]

  function WardEventOf(entry: Json): Result<WardEvent, Raised> {
    var t :- Field(entry, "timestamp");
    var k :- Field(entry, "type");
    var x :- Field(entry, "x");
    var y :- Field(entry, "y");
    var w :- Field(entry, "wardType");
    var d :- Field(entry, "duration");
    var o :- Field(entry, "owner");
    Success(WardEvent(t, k, x, y, w, d, o))
  }

  lemma WardEventOfSpec(entry: Json)
    ensures WardEventOf(entry).Success? <==> HasFields(entry, WardFields)
    ensures WardEventOf(entry).Success? ==>
              (WardEventOf(entry).value ==
               WardEvent(entry.fields["timestamp"], entry.fields["type"], entry.fields["x"], entry.fields["y"],
                         entry.fields["wardType"], entry.fields["duration"], entry.fields["owner"]))
  {
  }

  /** `_extract_ward_events`: exceptions propagate unchanged. */
  function ExtractWardEvents(output: Json): (r: Result<seq<WardEvent>, Raised>)
    ensures !output.JObject? ==> r == Failure(AttributeError)
    ensures output.JObject? && "wardEvents" !in output.fields ==> r == Success([])
    ensures output.JObject? && "wardEvents" in output.fields && output.fields["wardEvents"].JArray? ==>
              r == WardItems(output.fields["wardEvents"].items)
    ensures output.JObject? && "wardEvents" in output.fields && !output.fields["wardEvents"].JArray? ==>
              r == NonListOutcome(output.fields["wardEvents"], TypeError)
  {
    var data :- GetOr(output, "wardEvents", JArray([]));
    var items :- Iterate(data);
    if data.JObject? || data.JString? then
      TextLoop(data, WardEventOf, TypeError);
      WardItems(items)
    else WardItems(items)
  }

  /** The loop over the `wardEvents` list: it succeeds exactly when every item is a dict
      with all seven fields, and then copies them in order. */
  function WardItems(items: seq<Json>): (r: Result<seq<WardEvent>, Raised>)
    ensures r.Success? <==> forall i :: 0 <= i < |items| ==> HasFields(items[i], WardFields)
    ensures r.Success? ==> |r.value| == |items| && forall i :: 0 <= i < |items| ==>
              r.value[i] == WardEvent(items[i].fields["timestamp"], items[i].fields["type"],
                                      items[i].fields["x"], items[i].fields["y"], items[i].fields["wardType"],
                                      items[i].fields["duration"], items[i].fields["owner"])
  {
    var r := MapAll(items, WardEventOf);
    WardItemsSucceed(items);
    if r.Success? then WardItemsValues(items); r else r
  }

  lemma WardItemsSucceed(items: seq<Json>)
    ensures MapAll(items, WardEventOf).Success? <==> forall i :: 0 <= i < |items| ==> HasFields(items[i], WardFields)
  {
    forall i | 0 <= i < |items|
      ensures WardEventOf(items[i]).Success? <==> HasFields(items[i], WardFields)
    {
      WardEventOfSpec(items[i]);
    }
  }

  lemma WardItemsValues(items: seq<Json>)
    requires MapAll(items, WardEventOf).Success?
    ensures forall i :: 0 <= i < |items| ==> (HasFields(items[i], WardFields) &&
              MapAll(items, WardEventOf).value[i] == WardEvent(items[i].fields["timestamp"], items[i].fields["type"],
                items[i].fields["x"], items[i].fields["y"], items[i].fields["wardType"],
                items[i].fields["duration"], items[i].fields["owner"]))
  {
    forall i | 0 <= i < |items|
      ensures HasFields(items[i], WardFields) &&
              MapAll(items, WardEventOf).value[i] == WardEvent(items[i].fields["timestamp"], items[i].fields["type"],
                items[i].fields["x"], items[i].fields["y"], items[i].fields["wardType"],
                items[i].fields["duration"], items[i].fields["owner"])
    {
      WardEventOfSpec(items[i]);
    }
  }

  // ---------------------------------------------------------------------------
  // gameEvents

  /** Validation of a required integer attribute. */
  function IntValue(j: Json): Result<int, Raised> {
    if j.JInt? then Success(j.i) else Failure(ValidationError)
  }

  function TextValue(j: Json): Result<string, Raised> {
    if j.JString? then Success(j.s) else Failure(ValidationError)
  }

  /** `event.get(key)` validated as an optional integer. */
  function OptionalInt(fields: map<string, Json>, key: string): Result<Option<int>, Raised> {
    if key !in fields || fields[key] == JNull then Success(None)
    else if fields[key].JInt? then Success(Some(fields[key].i))
    else Failure(ValidationError)
  }

  function OptionalText(fields: map<string, Json>, key: string): Result<Option<string>, Raised> {
    if key !in fields || fields[key] == JNull then Success(None)
    else if fields[key].JString? then Success(Some(fields[key].s))
    else Failure(ValidationError)
  }

  /** The fields of an event that `GameEvent` accepts: an integer timestamp, a string
      type, integer coordinates when both are given, and each optional attribute
      absent, null or of its declared type. */
  predicate EventValid(f: map<string, Json>) {
    && "timestamp" in f && f["timestamp"].JInt?
    && "type" in f && f["type"].JString?
    && ("x" in f && "y" in f ==> f["x"].JInt? && f["y"].JInt?)
    && OptionalInt(f, "participantId").Success?
    && OptionalInt(f, "teamId").Success?
    && OptionalText(f, "buildingType").Success?
    && OptionalText(f, "laneType").Success?
    && OptionalText(f, "towerType").Success?
    && OptionalText(f, "monsterType").Success?
    && OptionalText(f, "monsterSubType").Success?
  }

  /** One decoded game event: timestamp and type are required, a position exists
      exactly when both `x` and `y` are present, every other attribute is optional. */
  function GameEventOf(entry: Json): (r: Result<GameEvent, Raised>)
    ensures r.Success? <==> entry.JObject? && EventValid(entry.fields)
    ensures r.Success? ==>
              && Success(r.value.participantId) == OptionalInt(entry.fields, "participantId")
              && Success(r.value.teamId) == OptionalInt(entry.fields, "teamId")
              && Success(r.value.buildingType) == OptionalText(entry.fields, "buildingType")
              && Success(r.value.laneType) == OptionalText(entry.fields, "laneType")
              && Success(r.value.towerType) == OptionalText(entry.fields, "towerType")
              && Success(r.value.monsterType) == OptionalText(entry.fields, "monsterType")
              && Success(r.value.monsterSubType) == OptionalText(entry.fields, "monsterSubType")
    ensures entry.JObject? && "timestamp" in entry.fields && "type" !in entry.fields ==> r == Failure(KeyError("type"))
    ensures r.Failure? ==> r.error in {KeyError("timestamp"), KeyError("type"), TypeError, ValidationError}
    ensures r.Success? ==> entry.JObject? && "timestamp" in entry.fields && "type" in entry.fields
    ensures r.Success? ==> entry.fields["timestamp"] == JInt(r.value.timestamp)
    ensures r.Success? ==> entry.fields["type"] == JString(r.value.kind)
    ensures r.Success? ==> (r.value.position.Some? <==> "x" in entry.fields && "y" in entry.fields)
    ensures r.Success? && r.value.position.Some? ==>
              entry.fields["x"] == JInt(r.value.position.value.x) && entry.fields["y"] == JInt(r.value.position.value.y)
    ensures r.Success? ==> r.value.details == map[]
    ensures entry.JObject? && "timestamp" !in entry.fields ==> r == Failure(KeyError("timestamp"))
    ensures !entry.JObject? ==> r == Failure(TypeError)
  {
    var t :- Field(entry, "timestamp");
    var k :- Field(entry, "type");
    var fields := entry.fields;
    var timestamp :- IntValue(t);
    var kind :- TextValue(k);
    var position :-
      if "x" in fields && "y" in fields then
        var x :- IntValue(fields["x"]);
        var y :- IntValue(fields["y"]);
        Success(Some(Position(x, y)))
      else Success(None);
    var participantId :- OptionalInt(fields, "participantId");
    var teamId :- OptionalInt(fields, "teamId");
    var buildingType :- OptionalText(fields, "buildingType");
    var laneType :- OptionalText(fields, "laneType");
    var towerType :- OptionalText(fields, "towerType");
    var monsterType :- OptionalText(fields, "monsterType");
    var monsterSubType :- OptionalText(fields, "monsterSubType");
    Success(GameEvent(timestamp, kind, teamId, map[], position, participantId,
                      buildingType, laneType, towerType, monsterType, monsterSubType))
  }

  /** `_extract_game_events`: exceptions propagate unchanged. */
  function ExtractGameEvents(output: Json): (r: Result<seq<GameEvent>, Raised>)
    ensures !output.JObject? ==> r == Failure(AttributeError)
    ensures output.JObject? && "gameEvents" !in output.fields ==> r == Success([])
    ensures output.JObject? && "gameEvents" in output.fields && output.fields["gameEvents"].JArray? ==>
              var items := output.fields["gameEvents"].items;
              && (r.Success? <==> forall i :: 0 <= i < |items| ==> GameEventOf(items[i]).Success?)
              && (r.Success? ==> |r.value| == |items| && forall i :: 0 <= i < |items| ==>
                    && items[i].fields["timestamp"] == JInt(r.value[i].timestamp)
                    && items[i].fields["type"] == JString(r.value[i].kind)
                    && (r.value[i].position.Some? <==> "x" in items[i].fields && "y" in items[i].fields)
                    && r.value[i] == GameEventOf(items[i]).value)
    ensures output.JObject? && "gameEvents" in output.fields && !output.fields["gameEvents"].JArray? ==>
              r == NonListOutcome(output.fields["gameEvents"], TypeError)
  {
    var data :- GetOr(output, "gameEvents", JArray([]));
    var items :- Iterate(data);
    if data.JObject? || data.JString? then
      TextLoop(data, GameEventOf, TypeError);
      MapAll(items, GameEventOf)
    else MapAll(items, GameEventOf)
  }

  // ---------------------------------------------------------------------------
  // Teams and participants from statsJson

  datatype TeamSummary = TeamSummary(teamId: int, win: bool, dragon: int, baron: int, tower: int, inhibitor: int)

  /** `_extract_teams`: the input is not consulted. */
  function ExtractTeams(stats: Json): (r: seq<TeamSummary>)
    ensures |r| == 2
    ensures r[0].teamId == 100 && r[1].teamId == 200
    ensures forall i :: 0 <= i < 2 ==>
              (!r[i].win && r[i].dragon == 0 && r[i].baron == 0 && r[i].tower == 0 && r[i].inhibitor == 0)
  {
    [TeamSummary(100, false, 0, 0, 0, 0), TeamSummary(200, false, 0, 0, 0, 0)]
  }

  datatype ExtractedParticipant = ExtractedParticipant(
    participantId: Json,
    summonerName: Json,
    championName: Json,
    teamId: Json,
    win: Json,
    kills: Json,
    deaths: Json,
    assists: Json,
    goldEarned: Json,
    goldSpent: Json,
    totalMinionsKilled: Json,
    neutralMinionsKilled: Json,
    level: Json,
    items: seq<Json>)

  /** `item0` ... `item6`. */
  function ItemKey(slot: nat): string
    requires slot < 10
  {
    "item" + [('0' as int + slot) as char]
  }

  /** `d.get(key, default)` on a dict's fields. */
  function FieldOr(fields: map<string, Json>, key: string, default: Json): Json {
    if key in fields then fields[key] else default
  }

  /** The seven item slots, each defaulting to 0. */
  function ItemSlots(fields: map<string, Json>): (r: seq<Json>)
    ensures |r| == 7
    ensures forall s :: 0 <= s < 7 ==> r[s] == FieldOr(fields, ItemKey(s), JInt(0))
  {
    seq(7, s requires 0 <= s < 7 => FieldOr(fields, ItemKey(s), JInt(0)))
  }

  /** One participant record: every field is `.get` with its default, None for the
      identity fields, false for `win`, 0 for the counters and 1 for `level`. */
  function ParticipantOf(p: Json): (r: Result<ExtractedParticipant, Raised>)
    ensures r.Success? <==> p.JObject?
    ensures r.Failure? ==> r.error == AttributeError
    ensures r.Success? ==>
              && r.value.participantId == FieldOr(p.fields, "participantId", JNull)
              && r.value.summonerName == FieldOr(p.fields, "summonerName", JNull)
              && r.value.championName == FieldOr(p.fields, "championName", JNull)
              && r.value.teamId == FieldOr(p.fields, "teamId", JNull)
              && r.value.win == FieldOr(p.fields, "win", JBool(false))
              && r.value.kills == FieldOr(p.fields, "kills", JInt(0))
              && r.value.deaths == FieldOr(p.fields, "deaths", JInt(0))
              && r.value.assists == FieldOr(p.fields, "assists", JInt(0))
              && r.value.goldEarned == FieldOr(p.fields, "goldEarned", JInt(0))
              && r.value.goldSpent == FieldOr(p.fields, "goldSpent", JInt(0))
              && r.value.totalMinionsKilled == FieldOr(p.fields, "totalMinionsKilled", JInt(0))
              && r.value.neutralMinionsKilled == FieldOr(p.fields, "neutralMinionsKilled", JInt(0))
              && r.value.level == FieldOr(p.fields, "level", JInt(1))
              && |r.value.items| == 7
              && forall s :: 0 <= s < 7 ==> r.value.items[s] == FieldOr(p.fields, ItemKey(s), JInt(0))
  {
    if !p.JObject? then Failure(AttributeError)
    else
      var f := p.fields;
      Success(ExtractedParticipant(
        FieldOr(f, "participantId", JNull),
        FieldOr(f, "summonerName", JNull),
        FieldOr(f, "championName", JNull),
        FieldOr(f, "teamId", JNull),
        FieldOr(f, "win", JBool(false)),
        FieldOr(f, "kills", JInt(0)),
        FieldOr(f, "deaths", JInt(0)),
        FieldOr(f, "assists", JInt(0)),
        FieldOr(f, "goldEarned", JInt(0)),
        FieldOr(f, "goldSpent", JInt(0)),
        FieldOr(f, "totalMinionsKilled", JInt(0)),
        FieldOr(f, "neutralMinionsKilled", JInt(0)),
        FieldOr(f, "level", JInt(1)),
        ItemSlots(f)))
  }

  /** `_extract_participants`: one record per input participant, in order, with the
      defaults None for the identity fields, false for `win`, 0 for every counter,
      1 for `level` and seven item slots. */
  function ExtractParticipants(stats: Json): (r: Result<seq<ExtractedParticipant>, Raised>)
    ensures !stats.JObject? ==> r == Failure(AttributeError)
    ensures stats.JObject? && "participants" !in stats.fields ==> r == Success([])
    ensures stats.JObject? && "participants" in stats.fields && stats.fields["participants"].JArray? ==>
              var ps := stats.fields["participants"].items;
              && (r.Success? <==> forall i :: 0 <= i < |ps| ==> ps[i].JObject?)
              && (r.Success? ==> |r.value| == |ps| && forall i :: 0 <= i < |ps| ==>
                    && r.value[i].win == FieldOr(ps[i].fields, "win", JBool(false))
                    && r.value[i].kills == FieldOr(ps[i].fields, "kills", JInt(0))
                    && r.value[i].deaths == FieldOr(ps[i].fields, "deaths", JInt(0))
                    && r.value[i].assists == FieldOr(ps[i].fields, "assists", JInt(0))
                    && r.value[i].level == FieldOr(ps[i].fields, "level", JInt(1))
                    && r.value[i].goldEarned == FieldOr(ps[i].fields, "goldEarned", JInt(0))
                    && r.value[i].goldSpent == FieldOr(ps[i].fields, "goldSpent", JInt(0))
                    && r.value[i].totalMinionsKilled == FieldOr(ps[i].fields, "totalMinionsKilled", JInt(0))
                    && r.value[i].neutralMinionsKilled == FieldOr(ps[i].fields, "neutralMinionsKilled", JInt(0))
                    && r.value[i].participantId == FieldOr(ps[i].fields, "participantId", JNull)
                    && r.value[i].summonerName == FieldOr(ps[i].fields, "summonerName", JNull)
                    && r.value[i].championName == FieldOr(ps[i].fields, "championName", JNull)
                    && r.value[i].teamId == FieldOr(ps[i].fields, "teamId", JNull)
                    && r.value[i] == ParticipantOf(ps[i]).value
                    && |r.value[i].items| == 7
                    && forall s :: 0 <= s < 7 ==> r.value[i].items[s] == FieldOr(ps[i].fields, ItemKey(s), JInt(0)))
    ensures stats.JObject? && "participants" in stats.fields && !stats.fields["participants"].JArray? ==>
              r == NonListOutcome(stats.fields["participants"], AttributeError)
  {
    var list :- GetOr(stats, "participants", JArray([]));
    var ps :- Iterate(list);
    if list.JObject? || list.JString? then
      TextLoop(list, ParticipantOf, AttributeError);
      MapAll(ps, ParticipantOf)
    else MapAll(ps, ParticipantOf)
  }

  /** A `participants` dict or string is looped over key by key or character by
      character, and `.get` on the first string raises `AttributeError`. */
  lemma ParticipantsNotAListExample()
    ensures ExtractParticipants(JObject(map["participants" := JObject(map["a" := JInt(1)])])) == Failure(AttributeError)
    ensures ExtractParticipants(JObject(map["participants" := JString("abc")])) == Failure(AttributeError)
    ensures ExtractParticipants(JObject(map["participants" := JInt(3)])) == Failure(TypeError)
  {
    var keys := JObject(map["a" := JInt(1)]);
    assert "a" in keys.fields;
    var stats := JObject(map["participants" := keys]);
    assert "participants" in stats.fields && stats.fields["participants"] == keys;
    var text := JObject(map["participants" := JString("abc")]);
    assert "participants" in text.fields && text.fields["participants"] == JString("abc");
    var number := JObject(map["participants" := JInt(3)]);
    assert "participants" in number.fields && number.fields["participants"] == JInt(3);
  }
}
