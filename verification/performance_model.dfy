/** The rule-based performance score: five capped components, two penalties, a clamp
    to [0, 100], a verdict band and a list of advice sentences. Arithmetic is exact
    over `real`; the floats of the original are not modelled. */
module PerformanceModel {

  /** The metrics `_calculate_basic_score` reads out of `match_data`. */
  datatype Metrics = Metrics(
    kda: real,
    csPerMin: real,
    visionScore: real,
    damageDealt: real,
    objectivesSecured: real,
    deaths: real)

  /** Python's `min(x, cap)`. */
  function Cap(x: real, cap: real): (r: real)
    ensures r <= cap && r <= x
    ensures r == x || r == cap
  {
    if cap < x then cap else x
  }

  function KdaPoints(m: Metrics): real { Cap(m.kda * 10.0, 30.0) }
  function CsPoints(m: Metrics): real { Cap(m.csPerMin * 2.0, 20.0) }
  function VisionPoints(m: Metrics): real { Cap(m.visionScore * 0.5, 15.0) }
  function DamagePoints(m: Metrics): real { Cap(m.damageDealt / 1000.0, 20.0) }
  function ObjectivePoints(m: Metrics): real { Cap(m.objectivesSecured * 5.0, 15.0) }

  /** The sum of the five components before penalties. */
  function Components(m: Metrics): real {
    KdaPoints(m) + CsPoints(m) + VisionPoints(m) + DamagePoints(m) + ObjectivePoints(m)
  }

  /** The score after both penalties, before the clamp. */
  function Unclamped(m: Metrics): real {
    var afterDeaths := if m.deaths > 5.0 then Components(m) - (m.deaths - 5.0) * 2.0 else Components(m);
    if m.visionScore < 10.0 then afterDeaths - 5.0 else afterDeaths
  }

  /** `_calculate_basic_score`: `max(0, min(100, total))`. */
  function BasicScore(m: Metrics): (s: real)
    ensures 0.0 <= s <= 100.0
    ensures 0.0 <= Unclamped(m) <= 100.0 ==> s == Unclamped(m)
    ensures Unclamped(m) < 0.0 ==> s == 0.0
    ensures Unclamped(m) > 100.0 ==> s == 100.0
  {
    var capped := if 100.0 < Unclamped(m) then 100.0 else Unclamped(m);
    if capped < 0.0 then 0.0 else capped
  }

  /** Each component is capped at its maximum and is never more than its raw value. */
  lemma ComponentCaps(m: Metrics)
    ensures KdaPoints(m) <= 30.0 && KdaPoints(m) <= m.kda * 10.0
    ensures CsPoints(m) <= 20.0 && CsPoints(m) <= m.csPerMin * 2.0
    ensures VisionPoints(m) <= 15.0 && VisionPoints(m) <= m.visionScore * 0.5
    ensures DamagePoints(m) <= 20.0 && DamagePoints(m) <= m.damageDealt / 1000.0
    ensures ObjectivePoints(m) <= 15.0 && ObjectivePoints(m) <= m.objectivesSecured * 5.0
    ensures Components(m) <= 100.0
  {
  }

  /** At most 5 deaths cost nothing; each death beyond 5 costs exactly 2 points. */
  lemma DeathPenalty(m: Metrics)
    ensures m.deaths <= 5.0 ==> Unclamped(m) == Unclamped(m.(deaths := 0.0))
    ensures m.deaths > 5.0 ==> Unclamped(m) == Unclamped(m.(deaths := 5.0)) - (m.deaths - 5.0) * 2.0
  {
  }

  /** More deaths never raise the score. */
  lemma DeathsNeverHelp(m: Metrics, d1: real, d2: real)
    requires d1 <= d2
    ensures BasicScore(m.(deaths := d2)) <= BasicScore(m.(deaths := d1))
  {
    var m1, m2 := m.(deaths := d1), m.(deaths := d2);
    assert Components(m1) == Components(m2) == Components(m);
    assert m1.visionScore == m2.visionScore;
    assert Unclamped(m2) <= Unclamped(m1);
  }

  /** Vision below 10 costs exactly 5 points on top of the smaller vision component:
      raising it to 10 gains the missing component points plus the 5. */
  lemma VisionPenalty(m: Metrics)
    requires 0.0 <= m.visionScore < 10.0
    ensures Unclamped(m.(visionScore := 10.0)) - Unclamped(m) == (10.0 - m.visionScore) * 0.5 + 5.0
  {
    assert VisionPoints(m) == m.visionScore * 0.5;
    assert VisionPoints(m.(visionScore := 10.0)) == 5.0;
  }

  /** A player who maxes every component and dies at most 5 times scores 100. */
  lemma PerfectGameScoresHundred(m: Metrics)
    requires m.kda >= 3.0 && m.csPerMin >= 10.0 && m.visionScore >= 30.0
    requires m.damageDealt >= 20000.0 && m.objectivesSecured >= 3.0 && m.deaths <= 5.0
    ensures BasicScore(m) == 100.0
  {
    assert Components(m) == 100.0;
  }

  // ---------------------------------------------------------------------------
  // Verdict and advice

  datatype Verdict = Exceptional | Good | Average | BelowAverage

  /** The band chosen by the `if`/`elif` chain at 80, 60 and 40. */
  function VerdictOf(score: real): (v: Verdict) {
    if score >= 80.0 then Exceptional
    else if score >= 60.0 then Good
    else if score >= 40.0 then Average
    else BelowAverage
  }

  /** The position of a band from best to worst. */
  function Rank(v: Verdict): nat {
    match v
    case Exceptional => 0
    case Good => 1
    case Average => 2
    case BelowAverage => 3
  }

  /** Each band holds exactly the scores between its threshold and the next one up. */
  lemma VerdictBands(score: real)
    ensures VerdictOf(score) == Exceptional <==> score >= 80.0
    ensures VerdictOf(score) == Good <==> 60.0 <= score < 80.0
    ensures VerdictOf(score) == Average <==> 40.0 <= score < 60.0
    ensures VerdictOf(score) == BelowAverage <==> score < 40.0
  {
  }

  /** A higher score never gets a worse band. */
  lemma VerdictMonotone(s1: real, s2: real)
    requires s1 <= s2
    ensures Rank(VerdictOf(s2)) <= Rank(VerdictOf(s1))
  {
  }

  function VerdictText(v: Verdict): string {
    match v
    case Exceptional => "Exceptional performance! You dominated the game with excellent mechanics and decision-making."
    case Good => "Good performance. You made positive contributions to the team's success."
    case Average => "Average performance. There's room for improvement in several areas."
    case BelowAverage => "Below average performance. Focus on improving your fundamentals and decision-making."
  }

  /** The three pieces of advice, in the order they are appended. */
  datatype Tip = KdaTip | VisionTip | CsTip

  function TipIndex(t: Tip): nat {
    match t
    case KdaTip => 0
    case VisionTip => 1
    case CsTip => 2
  }

  function TipText(t: Tip): string {
    match t
    case KdaTip => " Your KDA suggests you need to work on survival and positioning."
    case VisionTip => " Vision control needs improvement - focus on warding and clearing enemy vision."
    case CsTip => " Your CS per minute is low - practice last hitting and wave management."
  }

  predicate Applies(t: Tip, m: Metrics) {
    match t
    case KdaTip => m.kda < 2.0
    case VisionTip => m.visionScore < 20.0
    case CsTip => m.csPerMin < 5.0
  }

  /** The tips whose condition holds, each checked on its own. */
  function Tips(m: Metrics): (r: seq<Tip>)
    ensures forall t :: t in r <==> Applies(t, m)
    ensures forall i, j :: 0 <= i < j < |r| ==> TipIndex(r[i]) < TipIndex(r[j])
  {
    var a := if Applies(KdaTip, m) then [KdaTip] else [];
    var b := if Applies(VisionTip, m) then a + [VisionTip] else a;
    if Applies(CsTip, m) then b + [CsTip] else b
  }

  function Join(ts: seq<Tip>, text: Tip -> string): string
    decreases |ts|
  {
    if ts == [] then "" else text(ts[0]) + Join(ts[1..], text)
  }

  /** The three independent `if`s that append advice, in the order they run. */
  function Advice(m: Metrics, text: Tip -> string): string {
    (if m.kda < 2.0 then text(KdaTip) else "")
    + (if m.visionScore < 20.0 then text(VisionTip) else "")
    + (if m.csPerMin < 5.0 then text(CsTip) else "")
  }

  /** `predict_performance`: the score, then the verdict sentence with each applicable
      piece of advice appended. */
  function PredictPerformance(m: Metrics): (r: (real, string))
    ensures 0.0 <= r.0 <= 100.0
    ensures r.0 == BasicScore(m)
    ensures r.1 == VerdictText(VerdictOf(r.0)) + Join(Tips(m), TipText)
  {
    var score := BasicScore(m);
    TipsJoin(m, TipText);
    (score, VerdictText(VerdictOf(score)) + Advice(m, TipText))
  }

  /** The appended advice spells out exactly the applicable tips, in their fixed order. */
  lemma TipsJoin(m: Metrics, text: Tip -> string)
    ensures Join(Tips(m), text) == Advice(m, text)
  {
    var a := if Applies(KdaTip, m) then [KdaTip] else [];
    var b := if Applies(VisionTip, m) then a + [VisionTip] else a;
    JoinAppend(a, VisionTip, text);
    JoinAppend(b, CsTip, text);
    assert Join([], text) == "";
    assert Join([KdaTip], text) == text(KdaTip) by {
      assert [KdaTip][1..] == [];
    }
  }

  lemma {:induction false} JoinAppend(ts: seq<Tip>, t: Tip, text: Tip -> string)
    ensures Join(ts + [t], text) == Join(ts, text) + text(t)
    decreases |ts|
  {
    if ts == [] {
      assert [t][1..] == [];
    } else {
      assert (ts + [t])[1..] == ts[1..] + [t];
      JoinAppend(ts[1..], t, text);
    }
  }

  /** The advice only ever extends the verdict sentence. */
  lemma AnalysisStartsWithVerdict(m: Metrics)
    ensures VerdictText(VerdictOf(BasicScore(m))) <= PredictPerformance(m).1
  {
  }

  /** Strong metrics get the verdict sentence alone. */
  lemma NoTipsForStrongGames(m: Metrics)
    requires m.kda >= 2.0 && m.visionScore >= 20.0 && m.csPerMin >= 5.0
    ensures PredictPerformance(m).1 == VerdictText(VerdictOf(BasicScore(m)))
  {
    assert Tips(m) == [];
  }
}
