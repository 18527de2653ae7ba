/** The generic nested value a JSON decoder hands to Python code, together with
    the few Python operations the extractors perform on it: truthiness,
    `d[key]`, `d.get(key, default)` and `for x in value`. Each operation that can
    raise returns the Python exception class it raises. */
module Json {
  import opened Wrappers

  datatype Json =
    | JNull
    | JBool(b: bool)
    | JInt(i: int)
    | JString(s: string)
    | JArray(items: seq<Json>)
    | JObject(fields: map<string, Json>)

  /** The Python exception classes the modelled code can raise. */
  datatype Raised =
    | KeyError(key: string)
    | TypeError
    | AttributeError
    | ValueError
    | RuntimeError
    | ValidationError

  /** Python truthiness: `None`, `False`, `0`, `""`, `[]` and `{}` are false. */
  predicate Truthy(j: Json) {
    match j
    case JNull => false
    case JBool(b) => b
    case JInt(i) => i != 0
    case JString(s) => s != ""
    case JArray(items) => items != []
    case JObject(fields) => fields != map[]
  }

  /** `j[key]`: a dict lookup that raises `KeyError` when the key is absent;
      subscripting any other value with a string raises `TypeError`. */
  function Field(j: Json, key: string): (r: Result<Json, Raised>)
    ensures r.Success? <==> j.JObject? && key in j.fields
    ensures r.Success? ==> r.value == j.fields[key]
    ensures r.Failure? && j.JObject? ==> r.error == KeyError(key)
    ensures r.Failure? && !j.JObject? ==> r.error == TypeError
  {
    if j.JObject? then
      if key in j.fields then Success(j.fields[key]) else Failure(KeyError(key))
    else Failure(TypeError)
  }

  /** `j.get(key, default)`: only dicts have `get`; other values raise `AttributeError`. */
  function GetOr(j: Json, key: string, default: Json): (r: Result<Json, Raised>)
    ensures r.Success? <==> j.JObject?
    ensures r.Success? && key in j.fields ==> r.value == j.fields[key]
    ensures r.Success? && key !in j.fields ==> r.value == default
    ensures r.Failure? ==> r.error == AttributeError
  {
    if j.JObject? then
      Success(if key in j.fields then j.fields[key] else default)
    else Failure(AttributeError)
  }

  /** `for x in j`. A list yields its items, a dict its keys and a string its
      one-character strings; `None`, booleans and integers are not iterable. A decoded
      dict keeps its keys in document order, which a map does not record, so the keys
      come out in lexicographic order here. No modelled loop depends on that order:
      each one treats every key alike, as a string. */
  function Iterate(j: Json): (r: Result<seq<Json>, Raised>)
    ensures r.Success? <==> j.JArray? || j.JObject? || j.JString?
    ensures j.JArray? ==> r == Success(j.items)
    ensures j.JString? ==> (r.Success? && |r.value| == |j.s|
              && forall i :: 0 <= i < |j.s| ==> r.value[i] == JString([j.s[i]]))
    ensures j.JObject? ==> (r.Success? && |r.value| == |j.fields|
              && (forall i :: 0 <= i < |r.value| ==> r.value[i].JString? && r.value[i].s in j.fields)
              && (forall k :: k in j.fields ==> JString(k) in r.value))
    ensures r.Failure? ==> r.error == TypeError
  {
    match j
    case JArray(items) => Success(items)
    case JObject(fields) => Success(Strings(SortedKeys(fields.Keys)))
    case JString(s) => Success(seq(|s|, i requires 0 <= i < |s| => JString([s[i]])))
    case _ => Failure(TypeError)
  }

  /** Each string as a JSON string value. */
  function Strings(ss: seq<string>): (r: seq<Json>)
    ensures |r| == |ss|
    ensures forall i :: 0 <= i < |ss| ==> r[i] == JString(ss[i])
  {
    seq(|ss|, i requires 0 <= i < |ss| => JString(ss[i]))
  }

  /** A loop over a dict or a string sees only strings, and sees none exactly when the
      value is empty. */
  lemma IterateTexts(j: Json)
    requires j.JObject? || j.JString?
    ensures Iterate(j).Success?
    ensures |Iterate(j).value| == 0 <==> !Truthy(j)
    ensures forall i :: 0 <= i < |Iterate(j).value| ==> Iterate(j).value[i].JString?
  {
    if j.JObject? && j.fields != map[] {
      var k :| k in j.fields;
      assert JString(k) in Iterate(j).value;
    }
  }

  // ---------------------------------------------------------------------------
  // A fixed order for a dict's keys

  /** Lexicographic order on strings. */
  predicate LexLe(a: string, b: string)
    decreases |a|
  {
    a == [] || (b != [] && (a[0] < b[0] || (a[0] == b[0] && LexLe(a[1..], b[1..]))))
  }

  lemma {:induction false} LexReflexive(a: string)
    ensures LexLe(a, a)
    decreases |a|
  {
    if a != [] {
      LexReflexive(a[1..]);
    }
  }

  lemma {:induction false} LexTotal(a: string, b: string)
    ensures LexLe(a, b) || LexLe(b, a)
    decreases |a|
  {
    if a != [] && b != [] && a[0] == b[0] {
      LexTotal(a[1..], b[1..]);
    }
  }

  lemma {:induction false} LexAntisymmetric(a: string, b: string)
    requires LexLe(a, b) && LexLe(b, a)
    ensures a == b
    decreases |a|
  {
    if a != [] {
      LexAntisymmetric(a[1..], b[1..]);
      assert a == [a[0]] + a[1..] && b == [b[0]] + b[1..];
    }
  }

  lemma {:induction false} LexTransitive(a: string, b: string, c: string)
    requires LexLe(a, b) && LexLe(b, c)
    ensures LexLe(a, c)
    decreases |a|
  {
    if a != [] && a[0] == b[0] && b[0] == c[0] {
      LexTransitive(a[1..], b[1..], c[1..]);
    }
  }

  predicate IsLeast(k: string, s: set<string>) {
    k in s && forall k' :: k' in s ==> LexLe(k, k')
  }

  lemma {:induction false} LeastExists(s: set<string>)
    requires s != {}
    ensures exists k :: IsLeast(k, s)
    decreases |s|
  {
    var x :| x in s;
    LexReflexive(x);
    if s != {x} {
      LeastExists(s - {x});
      var y :| IsLeast(y, s - {x});
      LexTotal(x, y);
      if LexLe(x, y) {
        forall k | k in s ensures LexLe(x, k) {
          if k != x {
            LexTransitive(x, y, k);
          }
        }
        assert IsLeast(x, s);
      } else {
        assert IsLeast(y, s);
      }
    } else {
      assert IsLeast(x, s);
    }
  }

  lemma LeastUnique(s: set<string>)
    ensures forall a, b :: IsLeast(a, s) && IsLeast(b, s) ==> a == b
  {
    forall a, b | IsLeast(a, s) && IsLeast(b, s) ensures a == b {
      LexAntisymmetric(a, b);
    }
  }

  /** The elements of a set of strings, each once, in lexicographic order. */
  function SortedKeys(s: set<string>): (r: seq<string>)
    ensures |r| == |s|
    ensures forall k :: k in r <==> k in s
    decreases |s|
  {
    if s == {} then []
    else
      LeastExists(s);
      LeastUnique(s);
      var k :| IsLeast(k, s);
      [k] + SortedKeys(s - {k})
  }
}
