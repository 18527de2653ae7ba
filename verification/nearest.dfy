/** Python's `min(xs, key=f)`: the first position whose key is smallest. Both replay
    services pick a nearest sample this way, with `key = |timestamp - T|`. */
module Nearest {

  function Abs(x: real): real {
    if x < 0.0 then -x else x
  }

  /** The index `min` returns: no key is smaller than the chosen one, and every key
      before it is strictly larger (so ties go to the earliest position). */
  function ArgMinFirst(keys: seq<real>): (i: nat)
    requires |keys| > 0
    ensures i < |keys|
    ensures forall j :: 0 <= j < |keys| ==> keys[i] <= keys[j]
    ensures forall j :: 0 <= j < i ==> keys[i] < keys[j]
    decreases |keys|
  {
    if |keys| == 1 then 0
    else
      var k := ArgMinFirst(keys[..|keys| - 1]);
      if keys[|keys| - 1] < keys[k] then |keys| - 1 else k
  }

  /** Distances of a sequence of timestamps from the query time `t`. */
  function Distances(times: seq<real>, t: real): (ds: seq<real>)
    ensures |ds| == |times|
    ensures forall j :: 0 <= j < |times| ==> ds[j] == Abs(times[j] - t)
  {
    seq(|times|, j requires 0 <= j < |times| => Abs(times[j] - t))
  }

  /** The first sample whose timestamp is closest to `t`. */
  function NearestIndex(times: seq<real>, t: real): (i: nat)
    requires |times| > 0
    ensures i < |times|
    ensures forall j :: 0 <= j < |times| ==> Abs(times[i] - t) <= Abs(times[j] - t)
    ensures forall j :: 0 <= j < i ==> Abs(times[i] - t) < Abs(times[j] - t)
  {
    ArgMinFirst(Distances(times, t))
  }
}
