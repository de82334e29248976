/**
 * The activity ranking engine (src/services/activityService.ts).
 *
 * Each scorer is written twice: a specification function built from the
 * threshold bands ("factors") of the scorer, and a method that mirrors the
 * source's step-by-step accumulation (`score += ...`, `reasons.push(...)`)
 * and is proved equal to it. `rankActivities` sorts a local array in place
 * with the runtime's stable sort, modelled by an insertion sort on an array.
 */
module ActivityService {
  import opened Wrappers
  import opened Types
  import opened Text

  /** Scores are capped at this value. */
  const MAX_SCORE: int := 10
  /** An activity is recommended from this score on. */
  const RECOMMENDED_FROM: int := 7
  /** Separator of the reason tags. */
  const SEPARATOR: string := ", "

  /** What one scorer returns: the activity, its score and the joined reason tags. */
  datatype ActivityScore = ActivityScore(kind: ActivityType, score: int, reason: string)

  /** One threshold band that fired: the points it adds and the tag it pushes. */
  datatype Factor = Factor(points: nat, tag: string)

  function Total(fs: seq<Factor>): nat
  {
    if fs == [] then 0 else fs[0].points + Total(fs[1..])
  }

  function Tags(fs: seq<Factor>): seq<string>
  {
    if fs == [] then [] else [fs[0].tag] + Tags(fs[1..])
  }

  lemma TotalAndTagsAppend(a: seq<Factor>, b: seq<Factor>)
    ensures Total(a + b) == Total(a) + Total(b)
    ensures Tags(a + b) == Tags(a) + Tags(b)
  {
    if a == [] {
      assert a + b == b;
    } else {
      assert (a + b)[0] == a[0];
      assert (a + b)[1..] == a[1..] + b;
      TotalAndTagsAppend(a[1..], b);
    }
  }

  lemma AppendFactor(fs: seq<Factor>, f: Factor)
    ensures Total(fs + [f]) == Total(fs) + f.points
    ensures Tags(fs + [f]) == Tags(fs) + [f.tag]
  {
    TotalAndTagsAppend(fs, [f]);
    assert [f][1..] == [];
  }

  lemma ThreeFactors(a: Factor, b: Factor, c: Factor)
    ensures Total([a, b, c]) == a.points + b.points + c.points
    ensures Tags([a, b, c]) == [a.tag, b.tag, c.tag]
  {
    assert [a, b, c][1..] == [b, c];
    assert [b, c][1..] == [c];
    assert [c][1..] == [];
    assert Total([c]) == c.points && Tags([c]) == [c.tag];
    assert Total([b, c]) == b.points + c.points && Tags([b, c]) == [b.tag, c.tag];
  }

  function Min(a: int, b: int): int
  {
    if a <= b then a else b
  }

  /** `Math.round`: the nearest integer, halves rounded up. */
  function MathRound(x: real): int
  {
    (x + 0.5).Floor
  }

  /** For a natural number, rounding its half is halving with the remainder rounded up. */
  lemma RoundHalfOfNat(n: nat)
    ensures MathRound(n as real / 2.0) == (n + 1) / 2
  {
    var q := (n + 1) / 2;
    assert n + 1 == 2 * q || n + 1 == 2 * q + 1;
    assert n as real / 2.0 + 0.5 == (n + 1) as real / 2.0;
    assert q as real <= (n + 1) as real / 2.0 < q as real + 1.0;
  }

  /** The shared tail of the skiing, surfing and outdoor scorers: `Math.min(10, Math.round(score / 2))`. */
  function Halved(kind: ActivityType, fs: seq<Factor>): ActivityScore
  {
    ActivityScore(kind, Min(MAX_SCORE, MathRound(Total(fs) as real / 2.0)), Join(Tags(fs), SEPARATOR))
  }

  /** The halving scorers compute `min(10, (raw + 1) div 2)` of their raw sum, and keep every tag. */
  lemma {:induction false} HalvedScore(kind: ActivityType, a: Factor, b: Factor, c: Factor)
    ensures Halved(kind, [a, b, c]).score == Min(MAX_SCORE, (a.points + b.points + c.points + 1) / 2)
    ensures Halved(kind, [a, b, c]).reason == Join([a.tag, b.tag, c.tag], SEPARATOR)
    ensures a.tag != "" ==> Halved(kind, [a, b, c]).reason != ""
  {
    ThreeFactors(a, b, c);
    RoundHalfOfNat(a.points + b.points + c.points);
    JoinStartsWithFirst([a.tag, b.tag, c.tag], SEPARATOR);
  }

  /** A running total and reason list that add up the three bands give the halved score. */
  lemma HalvedFrom(kind: ActivityType, a: Factor, b: Factor, c: Factor, score: int, reasons: seq<string>)
    requires score == a.points + b.points + c.points && reasons == [a.tag] + [b.tag] + [c.tag]
    ensures ActivityScore(kind, Min(MAX_SCORE, MathRound(score as real / 2.0)), Join(reasons, SEPARATOR)) == Halved(kind, [a, b, c])
  {
    ThreeFactors(a, b, c);
    assert reasons == [a.tag, b.tag, c.tag];
  }

  // ---------------------------------------------------------------- skiing

  function SkiTemperature(t: real): Factor
  {
    if t < -10.0 then Factor(3, "very cold")
    else if -10.0 <= t <= 0.0 then Factor(8, "perfect temperature")
    else if 0.0 < t <= 5.0 then Factor(5, "acceptable temperature")
    else Factor(1, "too warm")
  }

  /** `conditions.toLowerCase().includes('snow')`. */
  predicate MentionsSnow(conditions: string)
  {
    Includes(ToLower(conditions), "snow")
  }

  function SkiSnow(w: Weather): Factor
  {
    if MentionsSnow(w.conditions) then Factor(9, "snowy conditions")
    else if w.precipitation > 5.0 then Factor(4, "some precipitation")
    else Factor(2, "limited snow")
  }

  function SkiWind(v: real): Factor
  {
    if v < 20.0 then Factor(3, "calm winds")
    else if 20.0 <= v < 40.0 then Factor(1, "moderate winds")
    else Factor(0, "strong winds")
  }

  /** Skiing: cold and snowy is best; the score lies in [2, 10]. */
  function SkiingScore(w: Weather): (s: ActivityScore)
    ensures s.kind == Skiing && 2 <= s.score <= MAX_SCORE && s.reason != ""
  {
    var fs := [SkiTemperature(w.temperature), SkiSnow(w), SkiWind(w.windSpeed)];
    HalvedScore(Skiing, fs[0], fs[1], fs[2]);
    Halved(Skiing, fs)
  }

  /**
   * When the conditions mention snow, skiing gets the 9-point snow band and
   * the precipitation amount no longer matters.
   */
  lemma {:induction false} SnowOverridesPrecipitation(w: Weather, p: real)
    requires MentionsSnow(w.conditions)
    ensures SkiSnow(w) == Factor(9, "snowy conditions")
    ensures SkiingScore(w) == SkiingScore(w.(precipitation := p))
    ensures SkiingScore(w).score == Min(MAX_SCORE, (SkiTemperature(w.temperature).points + 9 + SkiWind(w.windSpeed).points + 1) / 2)
  {
    HalvedScore(Skiing, SkiTemperature(w.temperature), SkiSnow(w), SkiWind(w.windSpeed));
  }

  method ScoreSkiing(weather: Weather) returns (result: ActivityScore)
    ensures result == SkiingScore(weather)
  {
    var score := 0;
    var reasons: seq<string> := [];
    ghost var f1, f2, f3 := SkiTemperature(weather.temperature), SkiSnow(weather), SkiWind(weather.windSpeed);

    if weather.temperature < -10.0 {
      score := score + 3;
      reasons := reasons + ["very cold"];
    } else if -10.0 <= weather.temperature <= 0.0 {
      score := score + 8;
      reasons := reasons + ["perfect temperature"];
    } else if 0.0 < weather.temperature <= 5.0 {
      score := score + 5;
      reasons := reasons + ["acceptable temperature"];
    } else {
      score := score + 1;
      reasons := reasons + ["too warm"];
    }
    assert score == f1.points && reasons == [f1.tag];

    var snowy := MentionsSnow(weather.conditions);
    if snowy {
      score := score + 9;
      reasons := reasons + ["snowy conditions"];
    } else if weather.precipitation > 5.0 {
      score := score + 4;
      reasons := reasons + ["some precipitation"];
    } else {
      score := score + 2;
      reasons := reasons + ["limited snow"];
    }
    assert score == f1.points + f2.points && reasons == [f1.tag] + [f2.tag];

    if weather.windSpeed < 20.0 {
      score := score + 3;
      reasons := reasons + ["calm winds"];
    } else if 20.0 <= weather.windSpeed < 40.0 {
      score := score + 1;
      reasons := reasons + ["moderate winds"];
    } else {
      reasons := reasons + ["strong winds"];
    }
    assert score == f1.points + f2.points + f3.points && reasons == [f1.tag] + [f2.tag] + [f3.tag];

    result := ActivityScore(Skiing, Min(MAX_SCORE, MathRound(score as real / 2.0)), Join(reasons, SEPARATOR));
    HalvedFrom(Skiing, f1, f2, f3, score, reasons);
  }

  // ---------------------------------------------------------------- surfing

  function SurfTemperature(t: real): Factor
  {
    if t >= 20.0 then Factor(8, "warm temperature")
    else if t >= 15.0 then Factor(6, "mild temperature")
    else if t >= 10.0 then Factor(3, "cool temperature")
    else Factor(1, "cold temperature")
  }

  function SurfWind(v: real): Factor
  {
    if 10.0 <= v <= 30.0 then Factor(8, "good wave conditions")
    else if 30.0 < v <= 50.0 then Factor(5, "choppy conditions")
    else if v < 10.0 then Factor(3, "calm seas")
    else Factor(1, "too windy")
  }

  function SurfPrecipitation(p: real): Factor
  {
    if p == 0.0 then Factor(4, "clear skies")
    else if p < 2.0 then Factor(2, "light precipitation")
    else Factor(0, "rainy")
  }

  /** Surfing: warm with moderate wind is best; the score lies in [1, 10]. */
  function SurfingScore(w: Weather): (s: ActivityScore)
    ensures s.kind == Surfing && 1 <= s.score <= MAX_SCORE && s.reason != ""
  {
    var fs := [SurfTemperature(w.temperature), SurfWind(w.windSpeed), SurfPrecipitation(w.precipitation)];
    HalvedScore(Surfing, fs[0], fs[1], fs[2]);
    Halved(Surfing, fs)
  }

  method ScoreSurfing(weather: Weather) returns (result: ActivityScore)
    ensures result == SurfingScore(weather)
  {
    var score := 0;
    var reasons: seq<string> := [];
    ghost var f1, f2, f3 := SurfTemperature(weather.temperature), SurfWind(weather.windSpeed), SurfPrecipitation(weather.precipitation);

    if weather.temperature >= 20.0 {
      score := score + 8;
      reasons := reasons + ["warm temperature"];
    } else if weather.temperature >= 15.0 {
      score := score + 6;
      reasons := reasons + ["mild temperature"];
    } else if weather.temperature >= 10.0 {
      score := score + 3;
      reasons := reasons + ["cool temperature"];
    } else {
      score := score + 1;
      reasons := reasons + ["cold temperature"];
    }
    assert score == f1.points && reasons == [f1.tag];

    if 10.0 <= weather.windSpeed <= 30.0 {
      score := score + 8;
      reasons := reasons + ["good wave conditions"];
    } else if 30.0 < weather.windSpeed <= 50.0 {
      score := score + 5;
      reasons := reasons + ["choppy conditions"];
    } else if weather.windSpeed < 10.0 {
      score := score + 3;
      reasons := reasons + ["calm seas"];
    } else {
      score := score + 1;
      reasons := reasons + ["too windy"];
    }
    assert score == f1.points + f2.points && reasons == [f1.tag] + [f2.tag];

    if weather.precipitation == 0.0 {
      score := score + 4;
      reasons := reasons + ["clear skies"];
    } else if weather.precipitation < 2.0 {
      score := score + 2;
      reasons := reasons + ["light precipitation"];
    } else {
      reasons := reasons + ["rainy"];
    }
    assert score == f1.points + f2.points + f3.points && reasons == [f1.tag] + [f2.tag] + [f3.tag];

    result := ActivityScore(Surfing, Min(MAX_SCORE, MathRound(score as real / 2.0)), Join(reasons, SEPARATOR));
    HalvedFrom(Surfing, f1, f2, f3, score, reasons);
  }

  // ---------------------------------------------------------------- indoor sightseeing

  /** The base band and the bad-weather bands that fired, in the order they are checked. */
  function IndoorFactors(w: Weather): seq<Factor>
  {
    [Factor(6, "always available")]
    + (if w.precipitation > 5.0 then [Factor(3, "rainy outside")] else [])
    + (if w.temperature < 5.0 || w.temperature > 35.0 then [Factor(2, "extreme temperature")] else [])
    + (if w.windSpeed > 40.0 then [Factor(1, "windy outside")] else [])
  }

  /** Indoor sightseeing: always an option, better in bad weather; no halving. */
  function IndoorScore(w: Weather): (s: ActivityScore)
  {
    var fs := IndoorFactors(w);
    ActivityScore(IndoorSightseeing, Min(MAX_SCORE, Total(fs)), Join(Tags(fs), SEPARATOR))
  }

  /**
   * The indoor score in closed form, `min(10, 6 + 3·[precipitation > 5] +
   * 2·[temperature < 5 or > 35] + 1·[wind > 40])`, which lies in [6, 10];
   * the reason always starts with "always available".
   */
  lemma {:induction false} IndoorScoreFormula(w: Weather)
    ensures IndoorScore(w).kind == IndoorSightseeing
    ensures IndoorScore(w).score == Min(MAX_SCORE, 6
      + (if w.precipitation > 5.0 then 3 else 0)
      + (if w.temperature < 5.0 || w.temperature > 35.0 then 2 else 0)
      + (if w.windSpeed > 40.0 then 1 else 0))
    ensures 6 <= IndoorScore(w).score <= MAX_SCORE
    ensures StartsWith(IndoorScore(w).reason, "always available")
  {
    var base := [Factor(6, "always available")];
    var rain := if w.precipitation > 5.0 then [Factor(3, "rainy outside")] else [];
    var extreme := if w.temperature < 5.0 || w.temperature > 35.0 then [Factor(2, "extreme temperature")] else [];
    var wind := if w.windSpeed > 40.0 then [Factor(1, "windy outside")] else [];
    TotalAndTagsAppend(base, rain);
    TotalAndTagsAppend(base + rain, extreme);
    TotalAndTagsAppend(base + rain + extreme, wind);
    assert Total(rain) == (if w.precipitation > 5.0 then 3 else 0);
    assert Total(extreme) == (if w.temperature < 5.0 || w.temperature > 35.0 then 2 else 0);
    assert Total(wind) == (if w.windSpeed > 40.0 then 1 else 0);
    var tags := Tags(IndoorFactors(w));
    assert tags[0] == "always available";
    JoinStartsWithFirst(tags, SEPARATOR);
  }

  method ScoreIndoorSightseeing(weather: Weather) returns (result: ActivityScore)
    ensures result == IndoorScore(weather)
  {
    var score := 6;
    var reasons: seq<string> := ["always available"];
    ghost var fs: seq<Factor> := [Factor(6, "always available")];
    AppendFactor([], fs[0]);
    assert [] + fs == fs;

    if weather.precipitation > 5.0 {
      score := score + 3;
      reasons := reasons + ["rainy outside"];
      AppendFactor(fs, Factor(3, "rainy outside"));
      fs := fs + [Factor(3, "rainy outside")];
    }

    if weather.temperature < 5.0 || weather.temperature > 35.0 {
      score := score + 2;
      reasons := reasons + ["extreme temperature"];
      AppendFactor(fs, Factor(2, "extreme temperature"));
      fs := fs + [Factor(2, "extreme temperature")];
    }

    if weather.windSpeed > 40.0 {
      score := score + 1;
      reasons := reasons + ["windy outside"];
      AppendFactor(fs, Factor(1, "windy outside"));
      fs := fs + [Factor(1, "windy outside")];
    }

    assert score == Total(fs) && reasons == Tags(fs);
    assert fs == IndoorFactors(weather);
    result := ActivityScore(IndoorSightseeing, Min(MAX_SCORE, score), Join(reasons, SEPARATOR));
  }

  // ---------------------------------------------------------------- outdoor sightseeing

  function OutdoorTemperature(t: real): Factor
  {
    if 15.0 <= t <= 25.0 then Factor(8, "perfect temperature")
    else if 10.0 <= t <= 30.0 then Factor(6, "pleasant temperature")
    else if 5.0 <= t <= 35.0 then Factor(3, "acceptable temperature")
    else Factor(1, "extreme temperature")
  }

  function OutdoorPrecipitation(p: real): Factor
  {
    if p == 0.0 then Factor(8, "dry conditions")
    else if p < 2.0 then Factor(4, "light precipitation")
    else Factor(1, "rainy")
  }

  function OutdoorWind(v: real): Factor
  {
    if v < 20.0 then Factor(4, "calm conditions")
    else if v < 40.0 then Factor(2, "breezy")
    else Factor(0, "windy")
  }

  /** Outdoor sightseeing: mild, dry and calm is best; the score lies in [1, 10]. */
  function OutdoorScore(w: Weather): (s: ActivityScore)
    ensures s.kind == OutdoorSightseeing && 1 <= s.score <= MAX_SCORE && s.reason != ""
  {
    var fs := [OutdoorTemperature(w.temperature), OutdoorPrecipitation(w.precipitation), OutdoorWind(w.windSpeed)];
    HalvedScore(OutdoorSightseeing, fs[0], fs[1], fs[2]);
    Halved(OutdoorSightseeing, fs)
  }

  method ScoreOutdoorSightseeing(weather: Weather) returns (result: ActivityScore)
    ensures result == OutdoorScore(weather)
  {
    var score := 0;
    var reasons: seq<string> := [];
    ghost var f1, f2, f3 := OutdoorTemperature(weather.temperature), OutdoorPrecipitation(weather.precipitation), OutdoorWind(weather.windSpeed);

    if 15.0 <= weather.temperature <= 25.0 {
      score := score + 8;
      reasons := reasons + ["perfect temperature"];
    } else if 10.0 <= weather.temperature <= 30.0 {
      score := score + 6;
      reasons := reasons + ["pleasant temperature"];
    } else if 5.0 <= weather.temperature <= 35.0 {
      score := score + 3;
      reasons := reasons + ["acceptable temperature"];
    } else {
      score := score + 1;
      reasons := reasons + ["extreme temperature"];
    }
    assert score == f1.points && reasons == [f1.tag];

    if weather.precipitation == 0.0 {
      score := score + 8;
      reasons := reasons + ["dry conditions"];
    } else if weather.precipitation < 2.0 {
      score := score + 4;
      reasons := reasons + ["light precipitation"];
    } else {
      score := score + 1;
      reasons := reasons + ["rainy"];
    }
    assert score == f1.points + f2.points && reasons == [f1.tag] + [f2.tag];

    if weather.windSpeed < 20.0 {
      score := score + 4;
      reasons := reasons + ["calm conditions"];
    } else if weather.windSpeed < 40.0 {
      score := score + 2;
      reasons := reasons + ["breezy"];
    } else {
      reasons := reasons + ["windy"];
    }
    assert score == f1.points + f2.points + f3.points && reasons == [f1.tag] + [f2.tag] + [f3.tag];

    result := ActivityScore(OutdoorSightseeing, Min(MAX_SCORE, MathRound(score as real / 2.0)), Join(reasons, SEPARATOR));
    HalvedFrom(OutdoorSightseeing, f1, f2, f3, score, reasons);
  }

  // ---------------------------------------------------------------- the runtime's stable sort

  /**
   * One step of a stable insertion sort under the comparator
   * `(a, b) => b.score - a.score`: `x` goes after every element whose score
   * is at least its own.
   */
  function InsertByScore(t: seq<ActivityScore>, x: ActivityScore): seq<ActivityScore>
    decreases |t|
  {
    if t == [] || t[|t| - 1].score >= x.score then t + [x]
    else InsertByScore(t[..|t| - 1], x) + [t[|t| - 1]]
  }

  /** `Array.prototype.sort` with that comparator, which is stable. */
  function SortByScore(s: seq<ActivityScore>): seq<ActivityScore>
    decreases |s|
  {
    if s == [] then [] else InsertByScore(SortByScore(s[..|s| - 1]), s[|s| - 1])
  }

  predicate Descending(s: seq<ActivityScore>)
  {
    forall i, j :: 0 <= i < j < |s| ==> s[i].score >= s[j].score
  }

  /** The elements of `s` whose score is `v`, in order. */
  function WithScore(s: seq<ActivityScore>, v: int): seq<ActivityScore>
  {
    if s == [] then [] else (if s[0].score == v then [s[0]] else []) + WithScore(s[1..], v)
  }

  /** `x` comes first in a best-first ranking whose ties keep declaration order. */
  predicate RankedBefore(x: ActivityScore, y: ActivityScore)
  {
    x.score > y.score || (x.score == y.score && Ordinal(x.kind) < Ordinal(y.kind))
  }

  predicate RankOrdered(s: seq<ActivityScore>)
  {
    forall i, j :: 0 <= i < j < |s| ==> RankedBefore(s[i], s[j])
  }

  predicate InEnumOrder(s: seq<ActivityScore>)
  {
    forall i, j :: 0 <= i < j < |s| ==> Ordinal(s[i].kind) < Ordinal(s[j].kind)
  }

  lemma {:induction false} WithScoreAppend(a: seq<ActivityScore>, b: seq<ActivityScore>, v: int)
    ensures WithScore(a + b, v) == WithScore(a, v) + WithScore(b, v)
  {
    if a == [] {
      assert a + b == b;
    } else {
      assert (a + b)[0] == a[0];
      assert (a + b)[1..] == a[1..] + b;
      WithScoreAppend(a[1..], b, v);
    }
  }

  lemma {:induction false} InsertPermutes(t: seq<ActivityScore>, x: ActivityScore)
    ensures |InsertByScore(t, x)| == |t| + 1
    ensures multiset(InsertByScore(t, x)) == multiset(t) + multiset{x}
    decreases |t|
  {
    if !(t == [] || t[|t| - 1].score >= x.score) {
      InsertPermutes(t[..|t| - 1], x);
      assert t == t[..|t| - 1] + [t[|t| - 1]];
    }
  }

  lemma {:induction false} InsertDescending(t: seq<ActivityScore>, x: ActivityScore)
    requires Descending(t)
    ensures Descending(InsertByScore(t, x))
    decreases |t|
  {
    if !(t == [] || t[|t| - 1].score >= x.score) {
      var init, last := t[..|t| - 1], t[|t| - 1];
      InsertDescending(init, x);
      InsertPermutes(init, x);
      var u := InsertByScore(init, x);
      forall i | 0 <= i < |u| ensures u[i].score >= last.score {
        assert u[i] in multiset(u);
        if u[i] != x {
          assert u[i] in init;
        }
      }
    }
  }

  lemma {:induction false} InsertRankOrdered(t: seq<ActivityScore>, x: ActivityScore)
    requires RankOrdered(t)
    requires forall y :: y in t ==> Ordinal(y.kind) < Ordinal(x.kind)
    ensures RankOrdered(InsertByScore(t, x))
    decreases |t|
  {
    if t == [] || t[|t| - 1].score >= x.score {
      var r := t + [x];
      forall i, j | 0 <= i < j < |r| ensures RankedBefore(r[i], r[j]) {
        if j == |t| && i < |t| - 1 {
          assert RankedBefore(t[i], t[|t| - 1]);
        }
      }
    } else {
      var init, last := t[..|t| - 1], t[|t| - 1];
      InsertRankOrdered(init, x);
      InsertPermutes(init, x);
      var u := InsertByScore(init, x);
      forall i | 0 <= i < |u| ensures RankedBefore(u[i], last) {
        assert u[i] in multiset(u);
        if u[i] != x {
          assert u[i] in init;
        }
      }
    }
  }

  lemma {:induction false} InsertWithScore(t: seq<ActivityScore>, x: ActivityScore, v: int)
    ensures WithScore(InsertByScore(t, x), v) == WithScore(t, v) + (if x.score == v then [x] else [])
    decreases |t|
  {
    WithScoreAppend(t, [x], v);
    assert WithScore([x], v) == (if x.score == v then [x] else []) by {
      assert [x][1..] == [];
    }
    if !(t == [] || t[|t| - 1].score >= x.score) {
      var init, last := t[..|t| - 1], t[|t| - 1];
      InsertWithScore(init, x, v);
      WithScoreAppend(InsertByScore(init, x), [last], v);
      WithScoreAppend(init, [last], v);
      assert t == init + [last];
      assert WithScore([last], v) == (if last.score == v then [last] else []) by {
        assert [last][1..] == [];
      }
    }
  }

  /** The sort returns a permutation of its input. */
  lemma {:induction false} SortPermutes(s: seq<ActivityScore>)
    ensures |SortByScore(s)| == |s|
    ensures multiset(SortByScore(s)) == multiset(s)
    decreases |s|
  {
    if s != [] {
      SortPermutes(s[..|s| - 1]);
      InsertPermutes(SortByScore(s[..|s| - 1]), s[|s| - 1]);
      assert s == s[..|s| - 1] + [s[|s| - 1]];
    }
  }

  /** The sort puts scores in non-increasing order. */
  lemma {:induction false} SortDescending(s: seq<ActivityScore>)
    ensures Descending(SortByScore(s))
    decreases |s|
  {
    if s != [] {
      SortDescending(s[..|s| - 1]);
      InsertDescending(SortByScore(s[..|s| - 1]), s[|s| - 1]);
    }
  }

  /** Stability: the elements sharing a score keep their relative order. */
  lemma {:induction false} SortStable(s: seq<ActivityScore>, v: int)
    ensures WithScore(SortByScore(s), v) == WithScore(s, v)
    decreases |s|
  {
    if s != [] {
      var init, last := s[..|s| - 1], s[|s| - 1];
      SortStable(init, v);
      InsertWithScore(SortByScore(init), last, v);
      WithScoreAppend(init, [last], v);
      assert s == init + [last];
      assert WithScore([last], v) == (if last.score == v then [last] else []) by {
        assert [last][1..] == [];
      }
    }
  }

  /** Input in declaration order comes out best-first with ties in declaration order. */
  lemma {:induction false} SortRankOrdered(s: seq<ActivityScore>)
    requires InEnumOrder(s)
    ensures RankOrdered(SortByScore(s))
    decreases |s|
  {
    if s != [] {
      var init, last := s[..|s| - 1], s[|s| - 1];
      SortRankOrdered(init);
      SortPermutes(init);
      forall y | y in SortByScore(init) ensures Ordinal(y.kind) < Ordinal(last.kind) {
        assert y in multiset(SortByScore(init));
        assert y in init;
      }
      InsertRankOrdered(SortByScore(init), last);
    }
  }

  /**
   * Inserting `x` puts it right after the elements before `j`, when `j` is
   * where the elements scoring less than `x` begin.
   */
  lemma {:induction false} InsertPlaced(t: seq<ActivityScore>, x: ActivityScore, j: int)
    requires 0 <= j <= |t|
    requires forall k :: j <= k < |t| ==> t[k].score < x.score
    requires j == 0 || t[j - 1].score >= x.score
    ensures InsertByScore(t, x) == t[..j] + [x] + t[j..]
    decreases |t|
  {
    if |t| == j {
      assert t[..j] == t && t[j..] == [];
    } else {
      var init, last := t[..|t| - 1], t[|t| - 1];
      InsertPlaced(init, x, j);
      assert init[..j] == t[..j];
      assert init[j..] + [last] == t[j..];
    }
  }

  /** The array after the shifting loop: the elements before `j`, then `x`, then the shifted ones. */
  lemma ShiftedLayout(s: seq<ActivityScore>, t: seq<ActivityScore>, x: ActivityScore, j: int, i: int)
    requires 0 <= j <= i == |t| < |s|
    requires forall k :: 0 <= k < j ==> s[k] == t[k]
    requires s[j] == x
    requires forall k :: j < k <= i ==> s[k] == t[k - 1]
    ensures s[..i + 1] == t[..j] + [x] + t[j..i]
  {
    forall k | 0 <= k <= i ensures s[k] == (t[..j] + [x] + t[j..i])[k] {
    }
  }

  /**
   * Moves the elements of `a[..i]` that score less than `x` one place to the
   * right, from the back, and returns the slot this frees.
   */
  method ShiftSmaller(a: array<ActivityScore>, i: int, x: ActivityScore) returns (j: int)
    requires 0 <= i < a.Length
    modifies a
    ensures 0 <= j <= i
    ensures forall k :: 0 <= k < j ==> a[k] == old(a[k])
    ensures forall k :: j < k <= i ==> a[k] == old(a[k - 1])
    ensures forall k :: i < k < a.Length ==> a[k] == old(a[k])
    ensures forall k :: j <= k < i ==> old(a[k]).score < x.score
    ensures j == 0 || old(a[j - 1]).score >= x.score
  {
    j := i;
    while j > 0 && a[j - 1].score < x.score
      invariant 0 <= j <= i
      invariant forall k :: 0 <= k < j ==> a[k] == old(a[k])
      invariant forall k :: j < k <= i ==> a[k] == old(a[k - 1])
      invariant forall k :: i < k < a.Length ==> a[k] == old(a[k])
      invariant forall k :: j <= k < i ==> old(a[k]).score < x.score
    {
      a[j] := a[j - 1];
      j := j - 1;
    }
  }

  /** Inserts `a[i]` into the sorted prefix `a[..i]`, shifting the smaller elements right. */
  method InsertAt(a: array<ActivityScore>, i: int)
    requires 0 <= i < a.Length
    modifies a
    ensures a[..i + 1] == InsertByScore(old(a[..i]), old(a[i]))
    ensures a[i + 1..] == old(a[i + 1..])
  {
    var x := a[i];
    ghost var t := a[..i];
    var j := ShiftSmaller(a, i, x);
    a[j] := x;
    InsertPlaced(t, x, j);
    ShiftedLayout(a[..], t, x, j, i);
  }

  /** Sorts the array in place as the runtime's stable sort does, by insertion. */
  method SortScores(a: array<ActivityScore>)
    modifies a
    ensures a[..] == SortByScore(old(a[..]))
  {
    var i := 0;
    while i < a.Length
      invariant 0 <= i <= a.Length
      invariant a[..i] == SortByScore(old(a[..])[..i])
      invariant a[i..] == old(a[..])[i..]
    {
      ghost var before := a[..];
      InsertAt(a, i);
      assert old(a[..])[..i + 1][..i] == old(a[..])[..i];
      assert old(a[..])[..i + 1][i] == before[i];
      i := i + 1;
    }
    assert a[..] == a[..a.Length];
    assert old(a[..]) == old(a[..])[..a.Length];
  }

  // ---------------------------------------------------------------- ranking

  /** The four scorer results, in the order `rankActivities` lists them before sorting. */
  function Scores(w: Weather): seq<ActivityScore>
  {
    [SkiingScore(w), SurfingScore(w), IndoorScore(w), OutdoorScore(w)]
  }

  /** The record `scores.map(...)` builds: the type goes into `name`, `recommended` is `score >= 7`. */
  function ToActivity(s: ActivityScore): Activity
  {
    Activity(TypeName(s.kind), s.score, s.score >= RECOMMENDED_FROM, s.reason)
  }

  function MapSeq<A, B>(f: A -> B, s: seq<A>): seq<B>
  {
    seq(|s|, i requires 0 <= i < |s| => f(s[i]))
  }

  function ToActivities(ss: seq<ActivityScore>): seq<Activity>
  {
    MapSeq(ToActivity, ss)
  }

  function NameOf(a: Activity): string
  {
    a.name
  }

  /** Position of an activity type's string value in the enum declaration. */
  function NameOrdinal(name: string): int
  {
    if name == "SKIING" then 0
    else if name == "SURFING" then 1
    else if name == "INDOOR_SIGHTSEEING" then 2
    else if name == "OUTDOOR_SIGHTSEEING" then 3
    else 4
  }

  /** `rankActivities(city, weather)`: score, sort best-first, present. */
  function Ranking(city: City, w: Weather): ActivityRanking
  {
    ActivityRanking(city, w, ToActivities(SortByScore(Scores(w))))
  }

  lemma MapSeqAppend<A, B>(f: A -> B, u: seq<A>, v: seq<A>)
    ensures MapSeq(f, u + v) == MapSeq(f, u) + MapSeq(f, v)
  {
  }

  /** Mapping a function over two permutations of each other gives permutations of each other. */
  lemma {:induction false} MapPermutes<A, B>(f: A -> B, a: seq<A>, b: seq<A>)
    requires multiset(a) == multiset(b)
    ensures multiset(MapSeq(f, a)) == multiset(MapSeq(f, b))
    decreases |a|
  {
    if a == [] {
      assert |multiset(b)| == 0;
    } else {
      var x := a[0];
      assert x in multiset(b) by {
        assert x in multiset(a);
      }
      var k :| 0 <= k < |b| && b[k] == x;
      var rest := b[..k] + b[k + 1..];
      assert b == b[..k] + [x] + b[k + 1..];
      assert a == [x] + a[1..];
      assert multiset(a[1..]) == multiset(rest) by {
        assert multiset(a[1..]) == multiset(a) - multiset{x};
        assert multiset(rest) == multiset(b) - multiset{x};
      }
      MapPermutes(f, a[1..], rest);
      MapSeqAppend(f, [x], a[1..]);
      MapSeqAppend(f, b[..k], [x]);
      MapSeqAppend(f, b[..k] + [x], b[k + 1..]);
      MapSeqAppend(f, b[..k], b[k + 1..]);
    }
  }

  lemma ScoresInEnumOrder(w: Weather)
    ensures InEnumOrder(Scores(w))
  {
  }

  /** Before sorting, the presented names are the enum values in declaration order. */
  lemma ScoreNames(w: Weather)
    ensures MapSeq(NameOf, ToActivities(Scores(w))) == ["SKIING", "SURFING", "INDOOR_SIGHTSEEING", "OUTDOOR_SIGHTSEEING"]
  {
    var scores := Scores(w);
    var acts := ToActivities(scores);
    var names := MapSeq(NameOf, acts);
    assert |names| == 4;
    assert scores[0] == SkiingScore(w) && scores[1] == SurfingScore(w);
    assert scores[2] == IndoorScore(w) && scores[3] == OutdoorScore(w);
    assert scores[0].kind == Skiing && scores[1].kind == Surfing;
    assert scores[2].kind == IndoorSightseeing && scores[3].kind == OutdoorSightseeing;
    forall i | 0 <= i < 4
      ensures names[i] == TypeName(scores[i].kind)
    {
      assert acts[i] == ToActivity(scores[i]);
      assert names[i] == NameOf(acts[i]);
    }
    assert names == ["SKIING", "SURFING", "INDOOR_SIGHTSEEING", "OUTDOOR_SIGHTSEEING"];
  }

  /**
   * The ranking echoes the city and the weather and holds the four scorer
   * results, each exactly once: one entry per activity type.
   */
  lemma RankingIsPermutation(city: City, w: Weather)
    ensures Ranking(city, w).city == city && Ranking(city, w).weather == w
    ensures |Ranking(city, w).activities| == 4
    ensures multiset(Ranking(city, w).activities) == multiset(ToActivities(Scores(w)))
    ensures multiset(MapSeq(NameOf, Ranking(city, w).activities))
         == multiset{"SKIING", "SURFING", "INDOOR_SIGHTSEEING", "OUTDOOR_SIGHTSEEING"}
  {
    var sorted := SortByScore(Scores(w));
    SortPermutes(Scores(w));
    MapPermutes(ToActivity, sorted, Scores(w));
    MapPermutes(NameOf, ToActivities(sorted), ToActivities(Scores(w)));
    ScoreNames(w);
  }

  /** Presenting a best-first, ties-in-declaration-order list keeps both orders on the records. */
  lemma PresentedInOrder(sorted: seq<ActivityScore>)
    requires RankOrdered(sorted)
    ensures var acts := ToActivities(sorted);
      forall i, j :: 0 <= i < j < |acts| ==> acts[i].score >= acts[j].score
    ensures var acts := ToActivities(sorted);
      forall i, j :: 0 <= i < j < |acts| && acts[i].score == acts[j].score ==>
        NameOrdinal(acts[i].name) < NameOrdinal(acts[j].name)
  {
    var acts := ToActivities(sorted);
    forall i, j | 0 <= i < j < |acts|
      ensures acts[i].score >= acts[j].score
      ensures acts[i].score == acts[j].score ==> NameOrdinal(acts[i].name) < NameOrdinal(acts[j].name)
    {
      assert RankedBefore(sorted[i], sorted[j]);
      assert acts[i] == ToActivity(sorted[i]) && acts[j] == ToActivity(sorted[j]);
      assert NameOrdinal(TypeName(sorted[i].kind)) == Ordinal(sorted[i].kind);
      assert NameOrdinal(TypeName(sorted[j].kind)) == Ordinal(sorted[j].kind);
    }
  }

  /** Scores never increase along the ranking, and equal scores keep the declaration order. */
  lemma RankingBestFirst(city: City, w: Weather)
    ensures var acts := Ranking(city, w).activities;
      forall i, j :: 0 <= i < j < |acts| ==> acts[i].score >= acts[j].score
    ensures var acts := Ranking(city, w).activities;
      forall i, j :: 0 <= i < j < |acts| && acts[i].score == acts[j].score ==>
        NameOrdinal(acts[i].name) < NameOrdinal(acts[j].name)
  {
    ScoresInEnumOrder(w);
    SortRankOrdered(Scores(w));
    PresentedInOrder(SortByScore(Scores(w)));
  }

  /** A score in [1, 10] with a non-empty reason. */
  predicate WellFormed(s: ActivityScore)
  {
    1 <= s.score <= MAX_SCORE && s.reason != ""
  }

  /** Each of the four scorers yields a score in [1, 10] with a non-empty reason. */
  lemma ScoresWellFormed(w: Weather)
    ensures forall s :: s in Scores(w) ==> WellFormed(s)
  {
    IndoorScoreFormula(w);
    JoinStartsWithFirst(Tags(IndoorFactors(w)), SEPARATOR);
    assert StartsWith(IndoorScore(w).reason, "always available");
  }

  /** Presenting well-formed scores recommends exactly those scoring at least 7. */
  lemma PresentedEntries(sorted: seq<ActivityScore>)
    requires forall s :: s in sorted ==> WellFormed(s)
    ensures forall a :: a in ToActivities(sorted) ==>
      && a.recommended == (a.score >= RECOMMENDED_FROM)
      && 1 <= a.score <= MAX_SCORE
      && a.reason != ""
  {
    var acts := ToActivities(sorted);
    forall a | a in acts
      ensures a.recommended == (a.score >= RECOMMENDED_FROM) && 1 <= a.score <= MAX_SCORE && a.reason != ""
    {
      var i :| 0 <= i < |acts| && a == acts[i];
      assert a == ToActivity(sorted[i]);
      assert WellFormed(sorted[i]);
    }
  }

  /**
   * Every ranked activity is recommended exactly when its score is at least 7,
   * has a score in [1, 10] and a non-empty reason.
   */
  lemma RankingEntries(city: City, w: Weather)
    ensures forall a :: a in Ranking(city, w).activities ==>
      && a.recommended == (a.score >= RECOMMENDED_FROM)
      && 1 <= a.score <= MAX_SCORE
      && a.reason != ""
  {
    var sorted := SortByScore(Scores(w));
    SortPermutes(Scores(w));
    ScoresWellFormed(w);
    forall s | s in sorted ensures WellFormed(s) {
      assert s in multiset(sorted);
      assert s in Scores(w);
    }
    PresentedEntries(sorted);
  }

  /** `rankActivities`: four scorers, an in-place stable sort, then presentation. */
  method RankActivities(city: City, weather: Weather) returns (ranking: ActivityRanking)
    ensures ranking == Ranking(city, weather)
  {
    var skiing := ScoreSkiing(weather);
    var surfing := ScoreSurfing(weather);
    var indoor := ScoreIndoorSightseeing(weather);
    var outdoor := ScoreOutdoorSightseeing(weather);
    var scores := new ActivityScore[] [skiing, surfing, indoor, outdoor];
    assert scores[..] == Scores(weather);
    SortScores(scores);
    ranking := ActivityRanking(city, weather, ToActivities(scores[..]));
  }
}
