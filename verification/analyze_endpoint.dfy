/** The two analysis endpoints: argument validation, the cached/new bookkeeping of the
    match loop and the hand-off to the statistics analyzer. The remote services are
    oracles; every exception the handlers catch becomes an HTTP 500. */
module AnalyzeEndpoint {
  import opened Wrappers
  import opened Json
  import opened Routing
  import opened RiotClient
  import StatsAnalyzer

  // ---------------------------------------------------------------------------
  // Argument validation

  function Occurrences(s: string, c: char): nat
    decreases |s|
  {
    if s == [] then 0 else (if s[0] == c then 1 else 0) + Occurrences(s[1..], c)
  }

  lemma {:induction false} OccursIffPositive(s: string, c: char)
    ensures c in s <==> Occurrences(s, c) > 0
    decreases |s|
  {
    if s != [] {
      OccursIffPositive(s[1..], c);
      assert s == [s[0]] + s[1..];
    }
  }

  /** `str.split(c)`: the pieces between the separators, one more than there are
      separators, none containing the separator. */
  function Split(s: string, c: char): (r: seq<string>)
    ensures |r| == Occurrences(s, c) + 1
    ensures forall i :: 0 <= i < |r| ==> c !in r[i]
    decreases |s|
  {
    if s == [] then [""]
    else
      var rest := Split(s[1..], c);
      if s[0] == c then [""] + rest
      else [[s[0]] + rest[0]] + rest[1..]
  }

  /** `c.join(parts)`. */
  function JoinWith(parts: seq<string>, c: char): string
    requires parts != []
    decreases |parts|
  {
    if |parts| == 1 then parts[0] else parts[0] + [c] + JoinWith(parts[1..], c)
  }

  /** Splitting and joining again gives the name back. */
  lemma {:induction false} SplitJoin(s: string, c: char)
    ensures JoinWith(Split(s, c), c) == s
    decreases |s|
  {
    if s != [] {
      var rest := Split(s[1..], c);
      SplitJoin(s[1..], c);
      if s[0] == c {
        assert ([""] + rest)[1..] == rest;
        assert s == [c] + s[1..];
      } else {
        var r := [[s[0]] + rest[0]] + rest[1..];
        if |rest| == 1 {
          assert s == [s[0]] + s[1..];
        } else {
          assert r[1..] == rest[1..];
          assert JoinWith(rest, c) == rest[0] + [c] + JoinWith(rest[1..], c);
          assert s == [s[0]] + s[1..];
        }
      }
    }
  }

  /** Why a request fails. The handlers turn every one of them into an HTTP 500. */
  datatype Reason =
    | BadMatchCount
    | NoHash
    | BadSplit
    | ClientFailed(e: ClientError)
    | ParseFailed

  /** The checks that run before any client call: the count range, the presence of
      '#', and the two-way unpack of `split('#')`. */
  function Validate(name: string, matchCount: int): (r: Result<(string, string), Reason>)
    ensures (matchCount < 1 || matchCount > 20) ==> r == Failure(BadMatchCount)
    ensures 1 <= matchCount <= 20 && '#' !in name ==> r == Failure(NoHash)
    ensures 1 <= matchCount <= 20 && Occurrences(name, '#') >= 2 ==> r == Failure(BadSplit)
    ensures r.Success? <==> 1 <= matchCount <= 20 && Occurrences(name, '#') == 1
    ensures r.Success? ==> r.value.0 + "#" + r.value.1 == name && '#' !in r.value.0 && '#' !in r.value.1
  {
    OccursIffPositive(name, '#');
    if matchCount < 1 || matchCount > 20 then Failure(BadMatchCount)
    else if '#' !in name then Failure(NoHash)
    else
      var parts := Split(name, '#');
      if |parts| != 2 then Failure(BadSplit)
      else
        SplitJoin(name, '#');
        assert JoinWith(parts[1..], '#') == parts[1];
        Success((parts[0], parts[1]))
  }

  /** A Riot id with one tag splits at the '#'. */
  lemma ValidNameExample()
    ensures Validate("Jax#NA1", 5) == Success(("Jax", "NA1"))
  {
    var parts := Split("Jax#NA1", '#');
    assert parts[0] + "#" + parts[1] == "Jax#NA1";
    assert '#' !in parts[0] && '#' !in parts[1];
    SplitAtOnlyHash("Jax", "NA1", parts[0], parts[1]);
  }

  /** A second '#' makes the two-way unpack fail. */
  lemma TwoHashesExample()
    ensures Validate("Jax#NA1#x", 5) == Failure(BadSplit)
  {
    assert Occurrences("#x", '#') == 1 by {
      assert "#x"[1..] == "x" && "x"[1..] == "";
    }
    assert Occurrences("#NA1#x", '#') == 2 by {
      assert "#NA1#x"[1..][1..][1..][1..] == "#x";
    }
    assert Occurrences("Jax#NA1#x", '#') == 2 by {
      assert "Jax#NA1#x"[1..][1..][1..] == "#NA1#x";
    }
  }

  /** A name with one '#' splits in only one way. */
  lemma SplitAtOnlyHash(a: string, b: string, x: string, y: string)
    requires '#' !in a && '#' !in b && '#' !in x && '#' !in y
    requires a + "#" + b == x + "#" + y
    ensures a == x && b == y
  {
    var s := a + "#" + b;
    assert s[|x|] == (x + "#" + y)[|x|] == '#';
    HashOnlyAt(a, b, |x|);
    assert a == s[..|a|] && x == (x + "#" + y)[..|x|];
    assert b == s[|a| + 1..] && y == (x + "#" + y)[|x| + 1..];
  }

  /** The only '#' of `a + "#" + b` is the separator. */
  lemma HashOnlyAt(a: string, b: string, i: nat)
    requires '#' !in a && '#' !in b
    requires i < |a| + 1 + |b|
    ensures (a + "#" + b)[i] == '#' <==> i == |a|
  {
    var s := a + "#" + b;
    if i < |a| {
      assert s[i] == a[i];
    } else if i > |a| {
      assert s[i] == b[i - |a| - 1];
    }
  }

  // ---------------------------------------------------------------------------
  // The match loop

  /** The state of the loop: the two buckets, the cache and the URLs requested. */
  datatype Buckets = Buckets(cached: seq<Json>, fetched: seq<Json>, cache: MatchCache, requested: seq<string>)

  /** What a client answer adds to `new`: the answer when it is non-empty. */
  function Kept(data: Json): seq<Json> {
    if Truthy(data) then [data] else []
  }

  /** One id of the loop. Reading the cached file comes first and raises on a file
      that does not decode. A non-empty cached file goes to `cached` when `use_cache`
      is on; otherwise the client is asked (cache first) and a non-empty answer goes to
      `new`. Each bucket only grows at its end. */
  function Step(b: Buckets, id: string, region: string, useCache: bool, fetch: Fetch): (r: Result<Buckets, Reason>)
    ensures Unreadable(b.cache, id) ==> r == Failure(ClientFailed(Undecodable))
    ensures useCache && CacheHit(b.cache, id) ==>
              r == Success(b.(cached := b.cached + [b.cache[id].record]))
    ensures !(useCache && CacheHit(b.cache, id)) && !Unreadable(b.cache, id) ==>
              var call := GetMatchDetails(b.cache, id, region, fetch);
              && (call.result.Failure? ==> r == Failure(ClientFailed(call.result.error)))
              && (call.result.Success? ==>
                    r == Success(Buckets(b.cached, b.fetched + Kept(call.result.value), call.cache, b.requested + call.requested)))
    ensures r.Success? ==> |r.value.cached| + |r.value.fetched| <= |b.cached| + |b.fetched| + 1
    ensures r.Success? ==> b.cached <= r.value.cached && b.fetched <= r.value.fetched
    ensures r.Success? && !useCache ==> r.value.cached == b.cached
    ensures r.Success? && CacheHit(b.cache, id) ==> r.value.requested == b.requested && r.value.cache == b.cache
  {
    match LoadMatchData(b.cache, id)
    case Failure(e) => Failure(ClientFailed(e))
    case Success(cached) =>
      if cached.Some? && Truthy(cached.value) && useCache then
        Success(b.(cached := b.cached + [cached.value]))
      else
        var call := GetMatchDetails(b.cache, id, region, fetch);
        match call.result
        case Failure(e) => Failure(ClientFailed(e))
        case Success(data) =>
          Success(Buckets(b.cached, b.fetched + Kept(data), call.cache, b.requested + call.requested))
  }

  /** The `for match_id in match_ids` loop. */
  function Collect(b: Buckets, ids: seq<string>, region: string, useCache: bool, fetch: Fetch): (r: Result<Buckets, Reason>)
    ensures r.Success? ==> |r.value.cached| + |r.value.fetched| <= |b.cached| + |b.fetched| + |ids|
    ensures r.Success? ==> b.cached <= r.value.cached && b.fetched <= r.value.fetched
    ensures r.Success? && !useCache ==> r.value.cached == b.cached
    decreases |ids|
  {
    if ids == [] then Success(b)
    else
      var next :- Step(b, ids[0], region, useCache, fetch);
      Collect(next, ids[1..], region, useCache, fetch)
  }

  /** The loop over `ids + [id]` is the loop over `ids` and then one more step. With
      the bucket rule of `Step` this fixes the buckets: `cached` holds the cached
      route's matches and `new` the client's non-empty answers, each in id order. */
  lemma {:induction false} CollectSnoc(b: Buckets, ids: seq<string>, id: string, region: string, useCache: bool, fetch: Fetch)
    ensures Collect(b, ids + [id], region, useCache, fetch)
         == (match Collect(b, ids, region, useCache, fetch)
             case Failure(e) => Failure(e)
             case Success(m) => Step(m, id, region, useCache, fetch))
    decreases |ids|
  {
    if ids == [] {
      assert [id][1..] == [];
    } else {
      assert (ids + [id])[0] == ids[0];
      assert (ids + [id])[1..] == ids[1..] + [id];
      match Step(b, ids[0], region, useCache, fetch)
      case Failure(_) =>
      case Success(next) => CollectSnoc(next, ids[1..], id, region, useCache, fetch);
    }
  }

  /** The stored records of ids that are all cache hits, in id order. */
  function Records(cache: MatchCache, ids: seq<string>): (r: seq<Json>)
    requires forall i :: 0 <= i < |ids| ==> CacheHit(cache, ids[i])
    ensures |r| == |ids|
    ensures forall i :: 0 <= i < |ids| ==> CacheHit(cache, ids[i]) && Intact(r[i]) == cache[ids[i]]
  {
    seq(|ids|, i requires 0 <= i < |ids| && CacheHit(cache, ids[i]) => cache[ids[i]].record)
  }

  /** One cached id: its record lands in `cached` with `use_cache` and in `new` without,
      and nothing else changes. */
  lemma StepOnHit(b: Buckets, id: string, region: string, useCache: bool, fetch: Fetch)
    requires CacheHit(b.cache, id)
    ensures Step(b, id, region, useCache, fetch)
         == Success(if useCache then b.(cached := b.cached + [b.cache[id].record])
                    else b.(fetched := b.fetched + [b.cache[id].record]))
  {
    if !useCache {
      assert GetMatchDetails(b.cache, id, region, fetch) == Call(Success(b.cache[id].record), b.cache, []);
      assert b.requested + [] == b.requested;
    }
  }

  /** The buckets with `records` appended to `cached` with `use_cache`, and to `new`
      without. */
  function Appended(b: Buckets, records: seq<Json>, useCache: bool): Buckets {
    if useCache then b.(cached := b.cached + records) else b.(fetched := b.fetched + records)
  }

  /** Appending twice is appending the concatenation. */
  lemma AppendedTwice(b: Buckets, xs: seq<Json>, ys: seq<Json>, useCache: bool)
    ensures Appended(Appended(b, xs, useCache), ys, useCache) == Appended(b, xs + ys, useCache)
  {
    assert b.cached + xs + ys == b.cached + (xs + ys);
    assert b.fetched + xs + ys == b.fetched + (xs + ys);
  }

  /** The loop over ids that are all cache hits appends their records and does nothing
      else. */
  lemma {:induction false} CollectHits(b: Buckets, ids: seq<string>, region: string, useCache: bool, fetch: Fetch)
    requires forall i :: 0 <= i < |ids| ==> CacheHit(b.cache, ids[i])
    ensures Collect(b, ids, region, useCache, fetch) == Success(Appended(b, Records(b.cache, ids), useCache))
    decreases |ids|
  {
    if ids == [] {
      assert Records(b.cache, ids) == [];
      assert b.cached + [] == b.cached && b.fetched + [] == b.fetched;
    } else {
      var record := b.cache[ids[0]].record;
      StepOnHit(b, ids[0], region, useCache, fetch);
      var next := Appended(b, [record], useCache);
      assert Collect(b, ids, region, useCache, fetch) == Collect(next, ids[1..], region, useCache, fetch);
      assert forall i :: 0 <= i < |ids[1..]| ==> CacheHit(next.cache, ids[1..][i]) by {
        forall i | 0 <= i < |ids[1..]| ensures CacheHit(next.cache, ids[1..][i]) {
          assert ids[1..][i] == ids[i + 1];
        }
      }
      CollectHits(next, ids[1..], region, useCache, fetch);
      var rest := Records(b.cache, ids[1..]);
      assert Records(b.cache, ids) == [record] + rest by {
        assert forall i :: 0 <= i < |rest| ==> rest[i] == b.cache[ids[i + 1]].record;
      }
      AppendedTwice(b, [record], rest, useCache);
    }
  }

  /** Ids that are all in the cache cost no request, with or without `use_cache`; their
      records land, in id order, in `cached` with `use_cache` and in `new` without. */
  lemma CachedIdsMakeNoRequest(b: Buckets, ids: seq<string>, region: string, useCache: bool, fetch: Fetch)
    requires forall i :: 0 <= i < |ids| ==> CacheHit(b.cache, ids[i])
    ensures Collect(b, ids, region, useCache, fetch).Success?
    ensures Collect(b, ids, region, useCache, fetch).value.requested == b.requested
    ensures Collect(b, ids, region, useCache, fetch).value.cache == b.cache
    ensures useCache ==> Collect(b, ids, region, useCache, fetch).value.cached == b.cached + Records(b.cache, ids)
    ensures useCache ==> Collect(b, ids, region, useCache, fetch).value.fetched == b.fetched
    ensures !useCache ==> Collect(b, ids, region, useCache, fetch).value.fetched == b.fetched + Records(b.cache, ids)
    ensures !useCache ==> Collect(b, ids, region, useCache, fetch).value.cached == b.cached
  {
    CollectHits(b, ids, region, useCache, fetch);
  }

  // ---------------------------------------------------------------------------
  // The analyze endpoint

  /** The text generator behind the match reports, of which nothing is assumed. */
  type Suggest = (StatsAnalyzer.MatchLine, seq<StatsAnalyzer.MatchLine>) -> string

  /** The parts of the summoner record the report reads, `None` where the key is absent. */
  datatype SummonerInfo = SummonerInfo(name: Option<string>, level: Option<int>, iconId: Option<int>)

  /** The remote calls and the parts of the program that are not modelled: the account
      lookup yields the puuid, `parse` stands for `_parse_match` (`None` when it raises)
      and `suggest` for the text generator. */
  datatype Services = Services(
    account: (string, string, string) -> Result<string, int>,
    summoner: (string, string) -> Result<SummonerInfo, int>,
    history: (string, string, int) -> Result<seq<string>, int>,
    fetch: Fetch,
    parse: Json -> Option<StatsAnalyzer.Match>,
    suggest: Suggest)

  datatype MatchCount = MatchCount(requested: int, retrieved: int, analyzed: int, cached: int, fetched: int)

  datatype Report = Report(
    summonerName: string,
    summonerLevel: int,
    profileIconId: int,
    overallStats: Option<StatsAnalyzer.PlayerStats>,
    matchAnalyses: seq<StatsAnalyzer.MatchDetails>,
    championStats: map<string, StatsAnalyzer.ChampionSummary>,
    matchCount: MatchCount)

  /** What the handler sends: the report, or an `HTTPException` with its status. */
  datatype Response = Ok(report: Report) | Error(status: int, reason: Reason)

  function ParseAll(parse: Json -> Option<StatsAnalyzer.Match>, data: seq<Json>): (r: Option<seq<StatsAnalyzer.Match>>)
    ensures r.Some? ==> |r.value| == |data| && forall i :: 0 <= i < |data| ==> parse(data[i]) == Some(r.value[i])
    ensures r.None? ==> exists i :: 0 <= i < |data| && parse(data[i]).None?
    decreases |data|
  {
    if data == [] then Some([])
    else
      match parse(data[0])
      case None => None
      case Some(m) =>
        match ParseAll(parse, data[1..])
        case None =>
          assert exists i :: 0 <= i < |data| && parse(data[i]).None? by {
            var i :| 0 <= i < |data[1..]| && parse(data[1..][i]).None?;
            assert data[i + 1] == data[1..][i];
          }
          None
        case Some(ms) => Some([m] + ms)
  }

  /** The indexes, from `from` on, of the entries that are not `None`, in increasing
      order. */
  function Present<T>(xs: seq<Option<T>>, from: nat): (r: seq<nat>)
    requires from <= |xs|
    ensures |r| <= |xs| - from
    ensures forall k :: 0 <= k < |r| ==> from <= r[k] < |xs| && xs[r[k]].Some?
    ensures forall i :: from <= i < |xs| && xs[i].Some? ==> i in r
    ensures forall k, l :: 0 <= k < l < |r| ==> r[k] < r[l]
    decreases |xs| - from
  {
    if from == |xs| then []
    else
      var rest := Present(xs, from + 1);
      if xs[from].Some? then [from] + rest else rest
  }

  /** `[m for m in xs if m]` from index `from` on: the values of the entries that are
      not `None`, in their order. */
  function Somes<T>(xs: seq<Option<T>>, from: nat): (r: seq<T>)
    requires from <= |xs|
    ensures var ids := Present(xs, from);
            && |r| == |ids|
            && forall k :: 0 <= k < |r| ==> xs[ids[k]] == Some(r[k])
    decreases |xs| - from
  {
    if from == |xs| then []
    else
      var rest := Somes(xs, from + 1);
      match xs[from]
      case None => rest
      case Some(d) => [d] + rest
  }

  /** `match_analyses`: the report (or `None`) of each match, in order. */
  function Details(a: StatsAnalyzer.Analyzer, ms: seq<StatsAnalyzer.Match>, suggest: Suggest)
    : (r: seq<Option<StatsAnalyzer.MatchDetails>>)
    ensures |r| == |ms|
    ensures forall i :: 0 <= i < |ms| ==> r[i] == StatsAnalyzer.GetMatchDetails(a, ms[i].matchId, suggest)
  {
    seq(|ms|, i requires 0 <= i < |ms| => StatsAnalyzer.GetMatchDetails(a, ms[i].matchId, suggest))
  }

  /** The summoner fields of a report: the record's values, and "Unknown", 0 and 0 for
      the keys it lacks. */
  predicate ShowsSummoner(r: Report, info: SummonerInfo) {
    && r.summonerName == (if info.name.Some? then info.name.value else "Unknown")
    && r.summonerLevel == (if info.level.Some? then info.level.value else 0)
    && r.profileIconId == (if info.iconId.Some? then info.iconId.value else 0)
  }

  /** The report built from the fetched matches (after the early-return check). */
  function Summarise(sv: Services, puuid: string, info: SummonerInfo, matchCount: int, retrieved: int, b: Buckets)
    : (r: Result<Report, Reason>)
    ensures r.Success? ==> ShowsSummoner(r.value, info)
    ensures r.Success? ==> r.value.matchCount.requested == matchCount && r.value.matchCount.retrieved == retrieved
    ensures r.Success? ==> r.value.matchCount.cached == |b.cached| && r.value.matchCount.fetched == |b.fetched|
    ensures r.Success? ==> r.value.matchCount.analyzed <= |b.cached| + |b.fetched|
    ensures r.Success? ==> r.value.matchCount.analyzed == |r.value.matchAnalyses|
    ensures r.Failure? <==> ParseAll(sv.parse, b.cached + b.fetched).None?
    ensures r.Success? ==>
              var ms := ParseAll(sv.parse, b.cached + b.fetched).value;
              var a := StatsAnalyzer.AddMatches(StatsAnalyzer.Analyzer([], Some(puuid)), ms);
              && a.matches == ms
              && r.value.matchAnalyses == Somes(Details(a, ms, sv.suggest), 0)
              && r.value.overallStats == Some(StatsAnalyzer.GetPlayerStats(a))
              && r.value.championStats == StatsAnalyzer.GetChampionStats(a)
  {
    match ParseAll(sv.parse, b.cached + b.fetched)
    case None => Failure(ParseFailed)
    case Some(ms) =>
      var a := StatsAnalyzer.AddMatches(StatsAnalyzer.Analyzer([], Some(puuid)), ms);
      StatsAnalyzer.AddMatchesKeepsPuuid(StatsAnalyzer.Analyzer([], Some(puuid)), ms);
      var analyses := Somes(Details(a, ms, sv.suggest), 0);
      Success(Report(info.name.GetOr("Unknown"), info.level.GetOr(0), info.iconId.GetOr(0),
        Some(StatsAnalyzer.GetPlayerStats(a)), analyses, StatsAnalyzer.GetChampionStats(a),
        MatchCount(matchCount, retrieved, |analyses|, |b.cached|, |b.fetched|)))
  }

  /** `analyze_summoner` without its exception handler. */
  function Analyze(sv: Services, cache: MatchCache, name: string, region: string, matchCount: int, useCache: bool)
    : (r: Result<Report, Reason>)
    ensures Validate(name, matchCount).Failure? ==> r == Failure(Validate(name, matchCount).error)
    ensures r.Success? ==> r.value.matchCount.requested == matchCount
    ensures r.Success? ==> r.value.matchCount.cached + r.value.matchCount.fetched <= r.value.matchCount.retrieved
    ensures r.Success? ==> r.value.matchCount.analyzed <= r.value.matchCount.cached + r.value.matchCount.fetched
    ensures r.Success? && !useCache ==> r.value.matchCount.cached == 0
    ensures r.Success? ==>
              var names := Validate(name, matchCount);
              && names.Success?
              && var account := sv.account(names.value.0, names.value.1, region);
              && account.Success?
              && var info := sv.summoner(account.value, region);
              && info.Success?
              && var ids := sv.history(account.value, region, matchCount);
              && ids.Success?
              && var b := Collect(Buckets([], [], cache, []), ids.value, region, useCache, sv.fetch);
              && b.Success?
              && (b.value.cached + b.value.fetched == [] ==>
                    && ShowsSummoner(r.value, info.value)
                    && r.value.overallStats.None? && r.value.matchAnalyses == [] && r.value.championStats == map[]
                    && r.value.matchCount == MatchCount(matchCount, |ids.value|, 0, 0, 0))
              && (b.value.cached + b.value.fetched != [] ==>
                    r == Summarise(sv, account.value, info.value, matchCount, |ids.value|, b.value))
    ensures var names := Validate(name, matchCount);
            names.Success? ==>
              var account := sv.account(names.value.0, names.value.1, region);
              && (account.Failure? ==> r == Failure(ClientFailed(Http(account.error))))
              && (account.Success? ==>
                    var info := sv.summoner(account.value, region);
                    && (info.Failure? ==> r == Failure(ClientFailed(Http(info.error))))
                    && (info.Success? ==>
                          var ids := sv.history(account.value, region, matchCount);
                          && (ids.Failure? ==> r == Failure(ClientFailed(Http(ids.error))))
                          && (ids.Success? ==>
                                var b := Collect(Buckets([], [], cache, []), ids.value, region, useCache, sv.fetch);
                                && (b.Failure? ==> r == Failure(b.error))
                                && (b.Success? ==>
                                      (r.Success? <==> b.value.cached + b.value.fetched == []
                                                       || ParseAll(sv.parse, b.value.cached + b.value.fetched).Some?))
                                && (b.Success? && ParseAll(sv.parse, b.value.cached + b.value.fetched).None? ==>
                                      r == Failure(ParseFailed)))))
  {
    var names :- Validate(name, matchCount);
    var puuid :- Remote(sv.account(names.0, names.1, region));
    var info :- Remote(sv.summoner(puuid, region));
    var ids :- Remote(sv.history(puuid, region, matchCount));
    var b :- Collect(Buckets([], [], cache, []), ids, region, useCache, sv.fetch);
    if b.cached + b.fetched == [] then
      Success(Report(info.name.GetOr("Unknown"), info.level.GetOr(0), info.iconId.GetOr(0),
        None, [], map[], MatchCount(matchCount, |ids|, 0, 0, 0)))
    else
      Summarise(sv, puuid, info, matchCount, |ids|, b)
  }

  /** A failed remote call: the `HTTPException` of `_make_request`. */
  function Remote<T>(x: Result<T, int>): (r: Result<T, Reason>)
    ensures r.Success? <==> x.Success?
    ensures r.Success? ==> r.value == x.value
    ensures x.Failure? ==> r == Failure(ClientFailed(Http(x.error)))
  {
    match x
    case Success(v) => Success(v)
    case Failure(status) => Failure(ClientFailed(Http(status)))
  }

  /** `analyze_summoner`: every failure, a rejected argument included, is an HTTP 500. */
  function AnalyzeSummoner(sv: Services, cache: MatchCache, name: string, region: string, matchCount: int, useCache: bool)
    : (r: Response)
    ensures r.Error? ==> r.status == 500
    ensures r.Ok? <==> Analyze(sv, cache, name, region, matchCount, useCache).Success?
  {
    match Analyze(sv, cache, name, region, matchCount, useCache)
    case Success(report) => Ok(report)
    case Failure(reason) => Error(500, reason)
  }

  /** The argument checks come first: a bad count or name is rejected the same way
      whatever the services would have answered. */
  lemma ValidationPrecedesCalls(s1: Services, s2: Services, c1: MatchCache, c2: MatchCache,
                                name: string, region: string, matchCount: int, useCache: bool)
    requires Validate(name, matchCount).Failure?
    ensures AnalyzeSummoner(s1, c1, name, region, matchCount, useCache)
         == AnalyzeSummoner(s2, c2, name, region, matchCount, useCache)
  {
  }

  /** With no usable match the early return reports zero analysed, cached and new. */
  lemma NoMatchesEarlyReturn(sv: Services, cache: MatchCache, name: string, region: string, matchCount: int, useCache: bool)
    requires Analyze(sv, cache, name, region, matchCount, useCache).Success?
    requires Analyze(sv, cache, name, region, matchCount, useCache).value.overallStats.None?
    ensures var c := Analyze(sv, cache, name, region, matchCount, useCache).value.matchCount;
            c.analyzed == 0 && c.cached == 0 && c.fetched == 0
  {
  }

  // ---------------------------------------------------------------------------
  // The champion-stats endpoint

  /** Its loop: every id goes through the client (still cache first); non-empty answers
      are kept. */
  function FetchAll(cache: MatchCache, ids: seq<string>, region: string, fetch: Fetch): (r: Result<(seq<Json>, MatchCache), Reason>)
    ensures r.Success? ==> |r.value.0| <= |ids|
    ensures r.Success? ==> forall i :: 0 <= i < |r.value.0| ==> Truthy(r.value.0[i])
    decreases |ids|
  {
    if ids == [] then Success(([], cache))
    else
      var call := GetMatchDetails(cache, ids[0], region, fetch);
      match call.result
      case Failure(e) => Failure(ClientFailed(e))
      case Success(data) =>
        var rest :- FetchAll(call.cache, ids[1..], region, fetch);
        Success((if Truthy(data) then [data] + rest.0 else rest.0, rest.1))
  }

  /** Without `use_cache` a step is one client call: its failure fails the step, and
      its non-empty answer is appended to `new`. */
  lemma StepWithoutCache(b: Buckets, id: string, region: string, fetch: Fetch)
    ensures var call := GetMatchDetails(b.cache, id, region, fetch);
            && (call.result.Failure? ==> Step(b, id, region, false, fetch) == Failure(ClientFailed(call.result.error)))
            && (call.result.Success? ==>
                  Step(b, id, region, false, fetch)
                  == Success(Buckets(b.cached, b.fetched + Kept(call.result.value), call.cache, b.requested + call.requested)))
  {
  }

  lemma KeptThenRest(fetched: seq<Json>, data: Json, rest: seq<Json>)
    ensures fetched + Kept(data) + rest == fetched + (if Truthy(data) then [data] + rest else rest)
  {
    assert fetched + Kept(data) + rest == fetched + (Kept(data) + rest);
  }

  /** The champion-stats loop is the analysis loop without `use_cache`: what it keeps
      is exactly what that loop puts in `new`, and the cache evolves the same way. With
      `CollectSnoc` and `Step`, the kept matches are the non-empty client answers in id
      order. */
  lemma {:induction false} FetchAllIsCollect(b: Buckets, ids: seq<string>, region: string, fetch: Fetch)
    ensures FetchAll(b.cache, ids, region, fetch).Success? <==> Collect(b, ids, region, false, fetch).Success?
    ensures FetchAll(b.cache, ids, region, fetch).Failure? ==>
              FetchAll(b.cache, ids, region, fetch).error == Collect(b, ids, region, false, fetch).error
    ensures FetchAll(b.cache, ids, region, fetch).Success? ==>
              && Collect(b, ids, region, false, fetch).value.fetched == b.fetched + FetchAll(b.cache, ids, region, fetch).value.0
              && Collect(b, ids, region, false, fetch).value.cache == FetchAll(b.cache, ids, region, fetch).value.1
              && Collect(b, ids, region, false, fetch).value.cached == b.cached
    decreases |ids|
  {
    if ids == [] {
      assert b.fetched + [] == b.fetched;
    } else {
      var call := GetMatchDetails(b.cache, ids[0], region, fetch);
      StepWithoutCache(b, ids[0], region, fetch);
      if call.result.Success? {
        var data := call.result.value;
        var next := Buckets(b.cached, b.fetched + Kept(data), call.cache, b.requested + call.requested);
        assert Collect(b, ids, region, false, fetch) == Collect(next, ids[1..], region, false, fetch);
        FetchAllIsCollect(next, ids[1..], region, fetch);
        var rest := FetchAll(call.cache, ids[1..], region, fetch);
        if rest.Success? {
          KeptThenRest(b.fetched, data, rest.value.0);
        }
      }
    }
  }

  datatype ChampionReport = ChampionReport(
    summonerName: string,
    championStats: map<string, StatsAnalyzer.ChampionSummary>,
    requested: int,
    retrieved: int,
    analyzed: int)

  /** `get_champion_stats` without its exception handler. */
  function ChampionStats(sv: Services, cache: MatchCache, name: string, region: string, matchCount: int)
    : (r: Result<ChampionReport, Reason>)
    ensures Validate(name, matchCount).Failure? ==> r == Failure(Validate(name, matchCount).error)
    ensures r.Success? ==> r.value.summonerName == name && r.value.requested == matchCount
    ensures r.Success? ==> 0 <= r.value.analyzed <= r.value.retrieved
    ensures r.Success? ==>
              var names := Validate(name, matchCount);
              && names.Success?
              && var account := sv.account(names.value.0, names.value.1, region);
              && account.Success?
              && var ids := sv.history(account.value, region, matchCount);
              && ids.Success?
              && var fetched := FetchAll(cache, ids.value, region, sv.fetch);
              && fetched.Success?
              && var ms := ParseAll(sv.parse, fetched.value.0);
              && ms.Some?
              && r.value.retrieved == |ids.value|
              && r.value.analyzed == |fetched.value.0|
              && r.value.championStats
                 == StatsAnalyzer.GetChampionStats(StatsAnalyzer.AddMatches(StatsAnalyzer.Analyzer([], Some(account.value)), ms.value))
    ensures var names := Validate(name, matchCount);
            names.Success? ==>
              var account := sv.account(names.value.0, names.value.1, region);
              && (account.Failure? ==> r == Failure(ClientFailed(Http(account.error))))
              && (account.Success? ==>
                    var ids := sv.history(account.value, region, matchCount);
                    && (ids.Failure? ==> r == Failure(ClientFailed(Http(ids.error))))
                    && (ids.Success? ==>
                          var fetched := FetchAll(cache, ids.value, region, sv.fetch);
                          && (fetched.Failure? ==> r == Failure(fetched.error))
                          && (fetched.Success? ==>
                                && (r.Success? <==> ParseAll(sv.parse, fetched.value.0).Some?)
                                && (r.Failure? ==> r == Failure(ParseFailed)))))
  {
    var names :- Validate(name, matchCount);
    var puuid :- Remote(sv.account(names.0, names.1, region));
    var ids :- Remote(sv.history(puuid, region, matchCount));
    var fetched :- FetchAll(cache, ids, region, sv.fetch);
    var data := fetched.0;
    match ParseAll(sv.parse, data)
    case None => Failure(ParseFailed)
    case Some(ms) =>
      var a := StatsAnalyzer.AddMatches(StatsAnalyzer.Analyzer([], Some(puuid)), ms);
      Success(ChampionReport(name, StatsAnalyzer.GetChampionStats(a), matchCount, |ids|, |data|))
  }

  /** `get_champion_stats` the endpoint: failures are HTTP 500 as well. */
  function GetChampionStatsEndpoint(sv: Services, cache: MatchCache, name: string, region: string, matchCount: int)
    : (r: Result<ChampionReport, int>)
    ensures r.Failure? ==> r.error == 500
    ensures r.Success? <==> ChampionStats(sv, cache, name, region, matchCount).Success?
  {
    match ChampionStats(sv, cache, name, region, matchCount)
    case Success(report) => Success(report)
    case Failure(_) => Failure(500)
  }
}
