/** Region-to-routing lookup. The API client and the timeline parser each carry
    their own copy of the region table; both copies are modelled and proved equal. */
module Routing {
  import opened Wrappers
  import opened Json

  /** `str.lower()` on the ASCII letters. */
  function LowerChar(c: char): char {
    if 'A' <= c <= 'Z' then (c as int + 32) as char else c
  }

  function ToLower(s: string): (r: string)
    ensures |r| == |s|
    ensures forall i :: 0 <= i < |s| ==> r[i] == LowerChar(s[i])
  {
    seq(|s|, i requires 0 <= i < |s| => LowerChar(s[i]))
  }

  /** The API client's `region_routing` table. */
  const ClientRegionRouting: map<string, string> := map[
    "na1" := "americas", "br1" := "americas", "la1" := "americas", "la2" := "americas",
    "euw1" := "europe", "eun1" := "europe", "tr1" := "europe", "ru" := "europe",
    "kr" := "asia", "jp1" := "asia",
    "oc1" := "sea", "sg2" := "sea", "tw2" := "sea", "vn2" := "sea"
  ]

  /** The API client's `base_urls` table, keyed by routing value. */
  const BaseUrls: map<string, string> := map[
    "americas" := "https://americas.api.riotgames.com",
    "europe" := "https://europe.api.riotgames.com",
    "asia" := "https://asia.api.riotgames.com",
    "sea" := "https://sea.api.riotgames.com"
  ]

  /** The timeline parser's own `routing_map`. */
  const ParserRoutingMap: map<string, string> := map[
    "na1" := "americas",
    "br1" := "americas",
    "la1" := "americas",
    "la2" := "americas",
    "euw1" := "europe",
    "eun1" := "europe",
    "tr1" := "europe",
    "ru" := "europe",
    "kr" := "asia",
    "jp1" := "asia",
    "oc1" := "sea",
    "sg2" := "sea",
    "tw2" := "sea",
    "vn2" := "sea"
  ]

  /** `_get_routing_value`: look the lower-cased region up; a missing entry (or an
      empty routing value, which Python also treats as missing) raises `ValueError`. */
  function RoutingValue(table: map<string, string>, region: string): (r: Result<string, Raised>)
    ensures r.Success? <==> ToLower(region) in table && table[ToLower(region)] != ""
    ensures r.Success? ==> r.value == table[ToLower(region)]
    ensures r.Failure? ==> r.error == ValueError
  {
    var key := ToLower(region);
    if key in table && table[key] != "" then Success(table[key]) else Failure(ValueError)
  }

  lemma LowerCharIdempotent(c: char)
    ensures LowerChar(LowerChar(c)) == LowerChar(c)
  {
  }

  /** The lookup ignores case: a region and its lower-case form route identically. */
  lemma RoutingIgnoresCase(table: map<string, string>, region: string)
    ensures RoutingValue(table, region) == RoutingValue(table, ToLower(region))
  {
    assert ToLower(ToLower(region)) == ToLower(region) by {
      forall i | 0 <= i < |region| {
        LowerCharIdempotent(region[i]);
      }
    }
  }

  /** Upper-case spellings of known regions are accepted. */
  lemma UpperCaseRegionRoutes()
    ensures RoutingValue(ClientRegionRouting, "EUW1") == Success("europe")
    ensures RoutingValue(ClientRegionRouting, "Kr") == Success("asia")
  {
    assert ToLower("EUW1") == "euw1";
    assert ToLower("Kr") == "kr";
  }

  /** An unknown region is rejected with `ValueError` rather than a default routing. */
  lemma UnknownRegionRejected()
    ensures RoutingValue(ClientRegionRouting, "xx9") == Failure(ValueError)
    ensures RoutingValue(ParserRoutingMap, "") == Failure(ValueError)
  {
    assert ToLower("xx9") == "xx9";
    assert ToLower("") == "";
  }

  /** The two region tables are the same table. */
  lemma RegionTablesAgree()
    ensures ClientRegionRouting == ParserRoutingMap
  {
  }

  /** Every routing value has a base URL, so building a request URL never misses a key. */
  lemma RoutingValuesHaveBaseUrls(region: string)
    ensures RoutingValue(ClientRegionRouting, region).Success? ==>
              RoutingValue(ClientRegionRouting, region).value in BaseUrls
  {
  }

  /** The base URL for a region, the prefix of every match-v5 request URL. */
  function BaseUrl(region: string): (r: Result<string, Raised>)
    ensures r.Success? <==> RoutingValue(ClientRegionRouting, region).Success?
    ensures r.Success? ==> r.value in BaseUrls.Values
    ensures r.Failure? ==> r.error == ValueError
  {
    var routing :- RoutingValue(ClientRegionRouting, region);
    Success(BaseUrls[routing])
  }
}
