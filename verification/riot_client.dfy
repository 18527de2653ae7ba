/** The API client's match cache and its cache-first `get_match_details`. The cache
    directory is a map from match id to the decoded file; the HTTP request is an
    oracle from URL to either the decoded body or the failing status code. */
module RiotClient {
  import opened Wrappers
  import opened Json
  import opened Routing

  /** `data/match_{id}.json` for every id saved so far; a file that no longer decodes
      is `Corrupt`. */
  type MatchCache = map<string, Stored<Json>>

  /** What `_make_request` ends in: the decoded body, or the status of the
      `HTTPException` it raises. A 429 is retried inside the request and never
      reaches the caller, so the oracle stands for the final outcome. */
  type Fetch = string -> Result<Json, int>

  /** Why a call fails: an invalid region, the `HTTPException` of the request, or a
      cache file `json.load` cannot decode. */
  datatype ClientError = Invalid(raised: Raised) | Http(status: int) | Undecodable

  /** One call: its result, the cache afterwards and the URLs requested. */
  datatype Call = Call(result: Result<Json, ClientError>, cache: MatchCache, requested: seq<string>)

  /** `_save_match_data`. */
  function SaveMatchData(cache: MatchCache, matchId: string, data: Json): (r: MatchCache)
    ensures r.Keys == cache.Keys + {matchId}
    ensures r[matchId] == Intact(data)
  {
    cache[matchId := Intact(data)]
  }

  /** `_load_match_data`: the stored data, `None` when no file exists, and the decode
      error of a file that does not decode. */
  function LoadMatchData(cache: MatchCache, matchId: string): (r: Result<Option<Json>, ClientError>)
    ensures r == Success(None) <==> matchId !in cache
    ensures r.Failure? <==> Unreadable(cache, matchId)
    ensures r.Failure? ==> r.error == Undecodable
    ensures r.Success? && r.value.Some? ==> cache[matchId] == Intact(r.value.value)
  {
    if matchId !in cache then Success(None)
    else
      match cache[matchId]
      case Intact(data) => Success(Some(data))
      case Corrupt => Failure(Undecodable)
  }

  predicate Unreadable(cache: MatchCache, matchId: string) {
    matchId in cache && cache[matchId].Corrupt?
  }

  /** Saving then loading gives the data back; other ids are not affected. */
  lemma SaveThenLoad(cache: MatchCache, matchId: string, data: Json, other: string)
    ensures LoadMatchData(SaveMatchData(cache, matchId, data), matchId) == Success(Some(data))
    ensures other != matchId ==> LoadMatchData(SaveMatchData(cache, matchId, data), other) == LoadMatchData(cache, other)
  {
  }

  lemma LoadUnsaved(cache: MatchCache, matchId: string)
    requires matchId !in cache
    ensures LoadMatchData(cache, matchId) == Success(None)
  {
  }

  /** `if cached_data:`: a file holding an empty or false value counts as a miss. */
  predicate CacheHit(cache: MatchCache, matchId: string) {
    matchId in cache && cache[matchId].Intact? && Truthy(cache[matchId].record)
  }

  function MatchUrl(base: string, matchId: string): string {
    base + "/lol/match/v5/matches/" + matchId
  }

  /** `get_match_details`. */
  function GetMatchDetails(cache: MatchCache, matchId: string, region: string, fetch: Fetch): (r: Call)
    ensures Unreadable(cache, matchId) ==> r == Call(Failure(Undecodable), cache, [])
    ensures CacheHit(cache, matchId) ==> r == Call(Success(cache[matchId].record), cache, [])
    ensures !CacheHit(cache, matchId) && !Unreadable(cache, matchId) && BaseUrl(region).Failure? ==>
              r == Call(Failure(Invalid(ValueError)), cache, [])
    ensures !CacheHit(cache, matchId) && !Unreadable(cache, matchId) && BaseUrl(region).Success? ==>
              var url := MatchUrl(BaseUrl(region).value, matchId);
              && r.requested == [url]
              && (fetch(url).Failure? ==> r.result == Failure(Http(fetch(url).error)) && r.cache == cache)
              && (fetch(url).Success? ==> r.result == Success(fetch(url).value))
              && (fetch(url).Success? && Truthy(fetch(url).value) ==> r.cache == cache[matchId := Intact(fetch(url).value)])
              && (fetch(url).Success? && !Truthy(fetch(url).value) ==> r.cache == cache)
  {
    match LoadMatchData(cache, matchId)
    case Failure(e) => Call(Failure(e), cache, [])
    case Success(cached) =>
      if cached.Some? && Truthy(cached.value) then Call(Success(cached.value), cache, [])
      else
        match BaseUrl(region)
        case Failure(e) => Call(Failure(Invalid(e)), cache, [])
        case Success(base) =>
          var url := MatchUrl(base, matchId);
          match fetch(url)
          case Failure(status) => Call(Failure(Http(status)), cache, [url])
          case Success(data) =>
            Call(Success(data), if Truthy(data) then SaveMatchData(cache, matchId, data) else cache, [url])
  }

  /** A hit is answered from the cache whatever the region says, even an unknown one. */
  lemma CacheHitIgnoresRegion(cache: MatchCache, matchId: string, r1: string, r2: string, f1: Fetch, f2: Fetch)
    requires CacheHit(cache, matchId)
    ensures GetMatchDetails(cache, matchId, r1, f1) == GetMatchDetails(cache, matchId, r2, f2)
  {
  }

  /** Once a non-empty result has been fetched, asking again is a hit and makes no
      request. */
  lemma SecondCallIsCached(cache: MatchCache, matchId: string, region: string, fetch: Fetch, later: Fetch)
    requires GetMatchDetails(cache, matchId, region, fetch).result.Success?
    requires Truthy(GetMatchDetails(cache, matchId, region, fetch).result.value)
    ensures var first := GetMatchDetails(cache, matchId, region, fetch);
            var second := GetMatchDetails(first.cache, matchId, region, later);
            second.requested == [] && second.result == first.result && second.cache == first.cache
  {
  }

  /** The cache only grows: an entry once stored is never removed or replaced by the
      call, except that a miss refreshes its own id. */
  lemma CacheOnlyGrows(cache: MatchCache, matchId: string, region: string, fetch: Fetch)
    ensures var after := GetMatchDetails(cache, matchId, region, fetch).cache;
            && cache.Keys <= after.Keys
            && after.Keys <= cache.Keys + {matchId}
            && forall k :: k in cache && k != matchId ==> after[k] == cache[k]
  {
  }

  /** The Americas cluster serves the request for a North American match. */
  lemma NorthAmericaUrl(matchId: string, fetch: Fetch)
    ensures GetMatchDetails(map[], matchId, "NA1", fetch).requested
              == ["https://americas.api.riotgames.com/lol/match/v5/matches/" + matchId]
  {
    NorthAmericaBase();
    assert "https://americas.api.riotgames.com" + "/lol/match/v5/matches/"
        == "https://americas.api.riotgames.com/lol/match/v5/matches/";
  }

  lemma NorthAmericaBase()
    ensures BaseUrl("NA1") == Success("https://americas.api.riotgames.com")
  {
    assert ToLower("NA1") == "na1";
  }
}
