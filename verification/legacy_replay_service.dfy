/** The older replay service: a keyed store of replays with precomputed game states,
    a listing sorted newest first, and a nearest-state query. */
module LegacyReplayService {
  import opened Wrappers
  import opened Json
  import opened ReplayModel
  import opened Nearest

  /** A precomputed state; only its (fractional) timestamp matters to the service. */
  datatype GameState = GameState(timestamp: real, content: map<string, Json>)

  /** A stored replay; `timestamp` is its recording time as an ordinal. */
  datatype StoredReplay = StoredReplay(
    matchId: string,
    gameDuration: int,
    timestamp: int,
    participants: seq<Participant>,
    gameStates: seq<GameState>)

  datatype ReplayListItem = ReplayListItem(matchId: string, gameDuration: int, timestamp: int, participantCount: nat)

  /** Why a store operation raised: the file is missing, or its content does not decode. */
  datatype StoreError = NotFound | DecodeError

  type Store = map<string, Stored<StoredReplay>>

  /** `save_replay`: (over)write the file named after the match id. */
  function SaveReplay(store: Store, replay: StoredReplay): (r: Store)
    ensures r.Keys == store.Keys + {replay.matchId}
    ensures r[replay.matchId] == Intact(replay)
    ensures forall id :: id in store && id != replay.matchId ==> r[id] == store[id]
  {
    store[replay.matchId := Intact(replay)]
  }

  /** `load_replay`: not-found for a missing file, a decode failure for a corrupt one. */
  function LoadReplay(store: Store, matchId: string): (r: Result<StoredReplay, StoreError>)
    ensures r == Failure(NotFound) <==> matchId !in store
    ensures r == Failure(DecodeError) <==> matchId in store && store[matchId].Corrupt?
    ensures r.Success? <==> matchId in store && store[matchId].Intact?
    ensures r.Success? ==> store[matchId] == Intact(r.value)
  {
    if matchId !in store then Failure(NotFound)
    else match store[matchId]
      case Intact(replay) => Success(replay)
      case Corrupt => Failure(DecodeError)
  }

  /** `delete_replay`: removes an existing file (readable or not); a missing one is not-found. */
  function DeleteReplay(store: Store, matchId: string): (r: Result<Store, StoreError>)
    ensures r.Failure? <==> matchId !in store
    ensures r.Failure? ==> r.error == NotFound
    ensures r.Success? ==> r.value.Keys == store.Keys - {matchId}
    ensures r.Success? ==> forall id :: id in r.value ==> r.value[id] == store[id]
  {
    if matchId in store then Success(store - {matchId}) else Failure(NotFound)
  }

  lemma SaveThenLoad(store: Store, replay: StoredReplay)
    ensures LoadReplay(SaveReplay(store, replay), replay.matchId) == Success(replay)
  {
  }

  /** Once deleted, a replay is not found, neither by a load nor by a second delete. */
  lemma DeleteThenLoad(store: Store, matchId: string)
    requires DeleteReplay(store, matchId).Success?
    ensures LoadReplay(DeleteReplay(store, matchId).value, matchId) == Failure(NotFound)
    ensures DeleteReplay(DeleteReplay(store, matchId).value, matchId) == Failure(NotFound)
  {
  }

  // ---------------------------------------------------------------------------
  // Listing

  function ListItem(replay: StoredReplay): ReplayListItem {
    ReplayListItem(replay.matchId, replay.gameDuration, replay.timestamp, |replay.participants|)
  }

  predicate SortedNewestFirst(items: seq<ReplayListItem>) {
    forall i, j :: 0 <= i < j < |items| ==> items[i].timestamp >= items[j].timestamp
  }

  /** Inserts `x` after every item at least as new, keeping the order stable. */
  function InsertByTime(x: ReplayListItem, items: seq<ReplayListItem>): (r: seq<ReplayListItem>)
    requires SortedNewestFirst(items)
    ensures SortedNewestFirst(r)
    ensures multiset(r) == multiset(items) + multiset{x}
    ensures r[0] == x || (items != [] && r[0] == items[0])
    decreases |items|
  {
    if items == [] then [x]
    else if items[0].timestamp >= x.timestamp then
      var rest := InsertByTime(x, items[1..]);
      SortedCons(items[0], rest);
      assert items == [items[0]] + items[1..];
      [items[0]] + rest
    else
      SortedCons(x, items);
      [x] + items
  }

  /** An item no older than the head of a sorted list can be put in front of it. */
  lemma SortedCons(a: ReplayListItem, s: seq<ReplayListItem>)
    requires SortedNewestFirst(s)
    requires s != [] ==> a.timestamp >= s[0].timestamp
    ensures SortedNewestFirst([a] + s)
  {
    forall i, j | 0 <= i < j < |[a] + s| ensures ([a] + s)[i].timestamp >= ([a] + s)[j].timestamp {
      if i == 0 && j > 1 {
        assert s[0].timestamp >= s[j - 1].timestamp;
      }
    }
  }

  /** `sorted(..., key=timestamp, reverse=True)`. */
  function SortNewestFirst(items: seq<ReplayListItem>): (r: seq<ReplayListItem>)
    ensures SortedNewestFirst(r)
    ensures multiset(r) == multiset(items)
    decreases |items|
  {
    if items == [] then []
    else
      var init := items[..|items| - 1];
      assert items == init + [items[|items| - 1]];
      InsertByTime(items[|items| - 1], SortNewestFirst(init))
  }

  /** The directory listing: every stored id exactly once, in the file system's order. */
  predicate IsListingOf(store: Store, listing: seq<string>) {
    && (forall i, j :: 0 <= i < j < |listing| ==> listing[i] != listing[j])
    && (forall id :: id in listing ==> id in store)
    && (forall id :: id in store ==> id in listing)
  }

  /** Loads every listed replay, stopping at the first one that fails. */
  function LoadAll(store: Store, listing: seq<string>): (r: Result<seq<ReplayListItem>, StoreError>)
    ensures r.Success? <==> forall i :: 0 <= i < |listing| ==> LoadReplay(store, listing[i]).Success?
    ensures r.Success? ==> |r.value| == |listing|
    ensures r.Success? ==> forall i :: 0 <= i < |listing| ==> r.value[i] == ListItem(LoadReplay(store, listing[i]).value)
    ensures r.Failure? ==> exists i :: 0 <= i < |listing| && LoadReplay(store, listing[i]) == Failure(r.error)
    decreases |listing|
  {
    if listing == [] then Success([])
    else
      var replay :- LoadReplay(store, listing[0]);
      var rest :- LoadAll(store, listing[1..]);
      Success([ListItem(replay)] + rest)
  }

  /** `list_replays`: one item per stored replay, newest first; a corrupt file makes the
      whole listing fail. */
  function ListReplays(store: Store, listing: seq<string>): (r: Result<seq<ReplayListItem>, StoreError>)
    requires IsListingOf(store, listing)
    ensures r.Success? <==> forall id :: id in store ==> store[id].Intact?
    ensures r.Failure? ==> r.error == DecodeError
    ensures r.Success? ==> SortedNewestFirst(r.value) && |r.value| == |store|
    ensures r.Success? ==> forall id :: id in store ==> ListItem(store[id].record) in r.value
    ensures r.Success? ==> forall item :: item in r.value ==> exists id :: id in store && item == ListItem(store[id].record)
    ensures r.Success? ==> multiset(r.value) == multiset(LoadAll(store, listing).value)
  {
    LoadAllCoversStore(store, listing);
    var items :- LoadAll(store, listing);
    SortKeepsItems(items);
    Success(SortNewestFirst(items))
  }

  lemma SortKeepsItems(items: seq<ReplayListItem>)
    ensures |SortNewestFirst(items)| == |items|
    ensures forall x :: x in SortNewestFirst(items) <==> x in items
  {
    var sorted := SortNewestFirst(items);
    assert |sorted| == |multiset(sorted)| == |multiset(items)| == |items|;
    forall x ensures x in sorted <==> x in items {
      assert x in sorted <==> x in multiset(sorted);
      assert x in items <==> x in multiset(items);
    }
  }

  /** Loading a complete listing succeeds iff no file is corrupt, and then yields one
      item per stored replay. */
  lemma LoadAllCoversStore(store: Store, listing: seq<string>)
    requires IsListingOf(store, listing)
    ensures LoadAll(store, listing).Success? <==> forall id :: id in store ==> store[id].Intact?
    ensures LoadAll(store, listing).Failure? ==> LoadAll(store, listing).error == DecodeError
    ensures LoadAll(store, listing).Success? ==> |LoadAll(store, listing).value| == |store|
    ensures LoadAll(store, listing).Success? ==>
      forall id :: id in store ==> ListItem(store[id].record) in LoadAll(store, listing).value
    ensures LoadAll(store, listing).Success? ==>
      forall item :: item in LoadAll(store, listing).value ==> exists id :: id in store && item == ListItem(store[id].record)
  {
    LoadAllOutcome(store, listing);
    if LoadAll(store, listing).Success? {
      LoadAllItems(store, listing);
    }
  }

  lemma LoadAllOutcome(store: Store, listing: seq<string>)
    requires IsListingOf(store, listing)
    ensures LoadAll(store, listing).Success? <==> forall id :: id in store ==> store[id].Intact?
    ensures LoadAll(store, listing).Failure? ==> LoadAll(store, listing).error == DecodeError
  {
    var r := LoadAll(store, listing);
    if r.Success? {
      forall id | id in store ensures store[id].Intact? {
        var i :| 0 <= i < |listing| && listing[i] == id;
      }
    } else {
      var i :| 0 <= i < |listing| && LoadReplay(store, listing[i]) == Failure(r.error);
    }
  }

  lemma LoadAllItems(store: Store, listing: seq<string>)
    requires IsListingOf(store, listing)
    requires LoadAll(store, listing).Success?
    ensures |LoadAll(store, listing).value| == |store|
    ensures forall id :: id in store ==> ListItem(store[id].record) in LoadAll(store, listing).value
    ensures forall item :: item in LoadAll(store, listing).value ==> exists id :: id in store && item == ListItem(store[id].record)
  {
    var items := LoadAll(store, listing).value;
    ListingLength(store, listing);
    forall id | id in store ensures ListItem(store[id].record) in items {
      var i :| 0 <= i < |listing| && listing[i] == id;
      assert items[i] == ListItem(store[id].record);
    }
    forall item | item in items ensures exists id :: id in store && item == ListItem(store[id].record) {
      var i :| 0 <= i < |items| && items[i] == item;
      assert listing[i] in store;
    }
  }

  lemma ListingLength(store: Store, listing: seq<string>)
    requires IsListingOf(store, listing)
    ensures |listing| == |store|
  {
    DistinctCardinality(listing);
    assert (set id | id in listing) == store.Keys;
  }

  lemma {:induction false} DistinctCardinality(s: seq<string>)
    requires forall i, j :: 0 <= i < j < |s| ==> s[i] != s[j]
    ensures |set x | x in s| == |s|
    decreases |s|
  {
    if s != [] {
      var rest := s[1..];
      assert forall i, j :: 0 <= i < j < |rest| ==> rest[i] != rest[j] by {
        forall i, j | 0 <= i < j < |rest| ensures rest[i] != rest[j] {
          assert rest[i] == s[i + 1] && rest[j] == s[j + 1];
        }
      }
      DistinctCardinality(rest);
      assert (set x | x in s) == (set x | x in rest) + {s[0]};
      assert s[0] !in rest by {
        forall j | 0 <= j < |rest| ensures rest[j] != s[0] {
          assert rest[j] == s[j + 1];
        }
      }
    }
  }

  // ---------------------------------------------------------------------------
  // Nearest state

  function StateTimes(states: seq<GameState>): (r: seq<real>)
    ensures |r| == |states|
    ensures forall i :: 0 <= i < |states| ==> r[i] == states[i].timestamp
  {
    seq(|states|, i requires 0 <= i < |states| => states[i].timestamp)
  }

  /** `states[i]` is what `min(states, key=|timestamp - t|)` returns. */
  predicate IsFirstNearestState(states: seq<GameState>, i: int, t: real) {
    && 0 <= i < |states|
    && (forall j :: 0 <= j < |states| ==> Abs(states[i].timestamp - t) <= Abs(states[j].timestamp - t))
    && (forall j :: 0 <= j < i ==> Abs(states[i].timestamp - t) < Abs(states[j].timestamp - t))
  }

  /** `get_game_state`: load errors propagate; no states gives `None`; otherwise the
      first state closest to `t`. */
  function GetGameState(store: Store, matchId: string, t: real): (r: Result<Option<GameState>, StoreError>)
    ensures r.Failure? <==> LoadReplay(store, matchId).Failure?
    ensures r.Failure? ==> r.error == LoadReplay(store, matchId).error
    ensures r.Success? ==> (r.value.None? <==> LoadReplay(store, matchId).value.gameStates == [])
    ensures r.Success? && r.value.Some? ==>
      exists i :: 0 <= i < |LoadReplay(store, matchId).value.gameStates|
        && IsFirstNearestState(LoadReplay(store, matchId).value.gameStates, i, t)
        && r.value.value == LoadReplay(store, matchId).value.gameStates[i]
  {
    var replay :- LoadReplay(store, matchId);
    if replay.gameStates == [] then Success(None)
    else
      var i := NearestIndex(StateTimes(replay.gameStates), t);
      assert IsFirstNearestState(replay.gameStates, i, t);
      Success(Some(replay.gameStates[i]))
  }

  /** A tie between two states goes to the one listed first. */
  lemma TieGoesToFirst()
    ensures var states := [GameState(10.0, map[]), GameState(20.0, map["later" := JNull])];
            GetGameState(map["m" := Intact(StoredReplay("m", 0, 0, [], states))], "m", 15.0)
              == Success(Some(GameState(10.0, map[])))
  {
    var states := [GameState(10.0, map[]), GameState(20.0, map["later" := JNull])];
    var store := map["m" := Intact(StoredReplay("m", 0, 0, [], states))];
    var r := GetGameState(store, "m", 15.0);
    var i :| 0 <= i < |states| && IsFirstNearestState(states, i, 15.0) && r.value.value == states[i];
    assert i == 0;
  }
}
