/**
 * The rankings the unit tests of the activity service pin down
 * (src/__tests__/unit/activityService.test.ts), worked out in full: every
 * entry's name, score, recommendation and reason, in the order presented.
 *
 * The tests build their weather with a `condition` field, while the scorers
 * read `conditions`; the examples below put the test's text in `conditions`,
 * which is what the tests mean.
 */
module ActivityExamples {
  import opened Wrappers
  import opened Types
  import opened Text
  import opened ActivityService

  /** Sorting four scores is inserting them one after the other. */
  lemma SortFour(a: ActivityScore, b: ActivityScore, c: ActivityScore, d: ActivityScore, r: seq<ActivityScore>)
    requires InsertByScore(InsertByScore(InsertByScore([a], b), c), d) == r
    ensures SortByScore([a, b, c, d]) == r
  {
    assert [a][..0] == [];
    assert SortByScore([a]) == [a];
    assert [a, b][..1] == [a];
    assert SortByScore([a, b]) == InsertByScore([a], b);
    assert [a, b, c][..2] == [a, b];
    assert SortByScore([a, b, c]) == InsertByScore(InsertByScore([a], b), c);
    assert [a, b, c, d][..3] == [a, b, c];
  }

  /** Presenting four scores is presenting each. */
  lemma PresentFour(a: ActivityScore, b: ActivityScore, c: ActivityScore, d: ActivityScore)
    ensures ToActivities([a, b, c, d]) == [ToActivity(a), ToActivity(b), ToActivity(c), ToActivity(d)]
  {
  }

  /** "Clear sky" has no 'n', so it does not mention snow. */
  lemma ClearSkyIsNotSnow(conditions: string)
    requires conditions == "Clear sky"
    ensures !MentionsSnow(conditions)
  {
    LackingCharNotIncluded(conditions, "snow", 1);
  }

  /** "Heavy rain" has no 's', so it does not mention snow. */
  lemma HeavyRainIsNotSnow(conditions: string)
    requires conditions == "Heavy rain"
    ensures !MentionsSnow(conditions)
  {
    LackingCharNotIncluded(conditions, "snow", 0);
  }

  lemma HeavySnowIsSnow(conditions: string)
    requires conditions == "Heavy snow"
    ensures MentionsSnow(conditions)
  {
    assert conditions[6..10] == "snow";
    IncludesLowered(conditions, "snow", 6);
  }

  // ---------------------------------------------------------------- a warm, clear, calm day

  /** The readings of the day, apart from its description. */
  predicate ClearWarmReadings(w: Weather)
  {
    20.0 <= w.temperature <= 25.0 && w.precipitation == 0.0 && w.windSpeed == 10.0
  }

  predicate ClearWarmDay(w: Weather)
  {
    ClearWarmReadings(w) && w.conditions == "Clear sky"
  }

  lemma ClearWarmDayScores(w: Weather)
    requires ClearWarmReadings(w) && !MentionsSnow(w.conditions)
    ensures Scores(w) == [
      ActivityScore(Skiing, 3, Join(["too warm", "limited snow", "calm winds"], SEPARATOR)),
      ActivityScore(Surfing, 10, Join(["warm temperature", "good wave conditions", "clear skies"], SEPARATOR)),
      ActivityScore(IndoorSightseeing, 6, Join(["always available"], SEPARATOR)),
      ActivityScore(OutdoorSightseeing, 10, Join(["perfect temperature", "dry conditions", "calm conditions"], SEPARATOR))]
  {
    HalvedScore(Skiing, Factor(1, "too warm"), Factor(2, "limited snow"), Factor(3, "calm winds"));
    HalvedScore(Surfing, Factor(8, "warm temperature"), Factor(8, "good wave conditions"), Factor(4, "clear skies"));
    var fs := [Factor(6, "always available")];
    assert IndoorFactors(w) == fs;
    assert fs[1..] == [];
    HalvedScore(OutdoorSightseeing, Factor(8, "perfect temperature"), Factor(8, "dry conditions"), Factor(4, "calm conditions"));
  }

  lemma ClearWarmDaySort(a: ActivityScore, b: ActivityScore, c: ActivityScore, d: ActivityScore)
    requires a.score == 3 && b.score == 10 && c.score == 6 && d.score == 10
    ensures SortByScore([a, b, c, d]) == [b, d, c, a]
  {
    assert InsertByScore([a], b) == [b, a] by {
      assert [a][..0] == [];
    }
    assert InsertByScore([b, a], c) == [b, c, a] by {
      assert [b, a][..1] == [b];
    }
    InsertPastTwo(b, c, a, d);
    SortFour(a, b, c, d, [b, d, c, a]);
  }

  /** An element that outscores the last two of three lands in second place. */
  lemma InsertPastTwo(x: ActivityScore, y: ActivityScore, z: ActivityScore, e: ActivityScore)
    requires x.score >= e.score > y.score && e.score > z.score
    ensures InsertByScore([x, y, z], e) == [x, e, y, z]
  {
    assert InsertByScore([x, y], e) == [x, e, y] by {
      assert [x, y][..1] == [x];
    }
    assert [x, y, z][..2] == [x, y];
  }

  /**
   * A warm, clear, calm day (20 to 25 degrees, as in the tests at 20, 22 and
   * 25 degrees): surfing and outdoor sightseeing share the top score and keep
   * their declaration order; skiing is last and not recommended.
   */
  lemma ClearWarmDayRanking(city: City, w: Weather)
    requires ClearWarmDay(w)
    ensures Ranking(city, w).activities == [
      Activity("SURFING", 10, true, Join(["warm temperature", "good wave conditions", "clear skies"], SEPARATOR)),
      Activity("OUTDOOR_SIGHTSEEING", 10, true, Join(["perfect temperature", "dry conditions", "calm conditions"], SEPARATOR)),
      Activity("INDOOR_SIGHTSEEING", 6, false, Join(["always available"], SEPARATOR)),
      Activity("SKIING", 3, false, Join(["too warm", "limited snow", "calm winds"], SEPARATOR))]
  {
    ClearSkyIsNotSnow(w.conditions);
    ClearWarmDayScores(w);
    ClearWarmDaySort(SkiingScore(w), SurfingScore(w), IndoorScore(w), OutdoorScore(w));
    PresentFour(SurfingScore(w), OutdoorScore(w), IndoorScore(w), SkiingScore(w));
  }

  // ---------------------------------------------------------------- cold, heavy snow

  /** The readings of the day, apart from its description. */
  predicate HeavySnowReadings(w: Weather)
  {
    w.temperature == -5.0 && w.precipitation == 10.0 && w.windSpeed == 15.0
  }

  predicate HeavySnowDay(w: Weather)
  {
    HeavySnowReadings(w) && w.conditions == "Heavy snow"
  }

  lemma HeavySnowDayScores(w: Weather)
    requires HeavySnowReadings(w) && MentionsSnow(w.conditions)
    ensures Scores(w) == [
      ActivityScore(Skiing, 10, Join(["perfect temperature", "snowy conditions", "calm winds"], SEPARATOR)),
      ActivityScore(Surfing, 5, Join(["cold temperature", "good wave conditions", "rainy"], SEPARATOR)),
      ActivityScore(IndoorSightseeing, 10, Join(["always available", "rainy outside", "extreme temperature"], SEPARATOR)),
      ActivityScore(OutdoorSightseeing, 3, Join(["extreme temperature", "rainy", "calm conditions"], SEPARATOR))]
  {
    assert SkiingScore(w) == ActivityScore(Skiing, 10, Join(["perfect temperature", "snowy conditions", "calm winds"], SEPARATOR)) by {
      HalvedScore(Skiing, Factor(8, "perfect temperature"), Factor(9, "snowy conditions"), Factor(3, "calm winds"));
    }
    assert SurfingScore(w) == ActivityScore(Surfing, 5, Join(["cold temperature", "good wave conditions", "rainy"], SEPARATOR)) by {
      HalvedScore(Surfing, Factor(1, "cold temperature"), Factor(8, "good wave conditions"), Factor(0, "rainy"));
    }
    assert IndoorScore(w) == ActivityScore(IndoorSightseeing, 10, Join(["always available", "rainy outside", "extreme temperature"], SEPARATOR)) by {
      var fs := [Factor(6, "always available"), Factor(3, "rainy outside"), Factor(2, "extreme temperature")];
      assert IndoorFactors(w) == fs;
      ThreeFactors(fs[0], fs[1], fs[2]);
    }
    assert OutdoorScore(w) == ActivityScore(OutdoorSightseeing, 3, Join(["extreme temperature", "rainy", "calm conditions"], SEPARATOR)) by {
      HalvedScore(OutdoorSightseeing, Factor(1, "extreme temperature"), Factor(1, "rainy"), Factor(4, "calm conditions"));
    }
  }

  lemma HeavySnowDaySort(a: ActivityScore, b: ActivityScore, c: ActivityScore, d: ActivityScore)
    requires a.score == 10 && b.score == 5 && c.score == 10 && d.score == 3
    ensures SortByScore([a, b, c, d]) == [a, c, b, d]
  {
    assert InsertByScore([a], b) == [a, b];
    assert InsertByScore([a, b], c) == [a, c, b] by {
      assert [a, b][..1] == [a];
    }
    assert InsertByScore([a, c, b], d) == [a, c, b, d];
    SortFour(a, b, c, d, [a, c, b, d]);
  }

  /**
   * Cold, heavy snow: skiing ties with indoor sightseeing at the top (skiing
   * first, by declaration order) and is recommended.
   */
  lemma HeavySnowDayRanking(city: City, w: Weather)
    requires HeavySnowDay(w)
    ensures Ranking(city, w).activities == [
      Activity("SKIING", 10, true, Join(["perfect temperature", "snowy conditions", "calm winds"], SEPARATOR)),
      Activity("INDOOR_SIGHTSEEING", 10, true, Join(["always available", "rainy outside", "extreme temperature"], SEPARATOR)),
      Activity("SURFING", 5, false, Join(["cold temperature", "good wave conditions", "rainy"], SEPARATOR)),
      Activity("OUTDOOR_SIGHTSEEING", 3, false, Join(["extreme temperature", "rainy", "calm conditions"], SEPARATOR))]
  {
    HeavySnowIsSnow(w.conditions);
    HeavySnowDayScores(w);
    HeavySnowDaySort(SkiingScore(w), SurfingScore(w), IndoorScore(w), OutdoorScore(w));
    PresentFour(SkiingScore(w), IndoorScore(w), SurfingScore(w), OutdoorScore(w));
  }

  // ---------------------------------------------------------------- mild, heavy rain

  /** The readings of the day, apart from its description. */
  predicate HeavyRainReadings(w: Weather)
  {
    w.temperature == 15.0 && w.precipitation == 20.0 && w.windSpeed == 30.0
  }

  predicate HeavyRainDay(w: Weather)
  {
    HeavyRainReadings(w) && w.conditions == "Heavy rain"
  }

  lemma HeavyRainDayScores(w: Weather)
    requires HeavyRainReadings(w) && !MentionsSnow(w.conditions)
    ensures Scores(w) == [
      ActivityScore(Skiing, 3, Join(["too warm", "some precipitation", "moderate winds"], SEPARATOR)),
      ActivityScore(Surfing, 7, Join(["mild temperature", "good wave conditions", "rainy"], SEPARATOR)),
      ActivityScore(IndoorSightseeing, 9, Join(["always available", "rainy outside"], SEPARATOR)),
      ActivityScore(OutdoorSightseeing, 6, Join(["perfect temperature", "rainy", "breezy"], SEPARATOR))]
  {
    HalvedScore(Skiing, Factor(1, "too warm"), Factor(4, "some precipitation"), Factor(1, "moderate winds"));
    HalvedScore(Surfing, Factor(6, "mild temperature"), Factor(8, "good wave conditions"), Factor(0, "rainy"));
    var fs := [Factor(6, "always available"), Factor(3, "rainy outside")];
    assert IndoorFactors(w) == fs;
    AppendFactor([fs[0]], fs[1]);
    assert [fs[0]] + [fs[1]] == fs;
    assert [fs[0]][1..] == [];
    HalvedScore(OutdoorSightseeing, Factor(8, "perfect temperature"), Factor(1, "rainy"), Factor(2, "breezy"));
  }

  lemma HeavyRainDaySort(a: ActivityScore, b: ActivityScore, c: ActivityScore, d: ActivityScore)
    requires a.score == 3 && b.score == 7 && c.score == 9 && d.score == 6
    ensures SortByScore([a, b, c, d]) == [c, b, d, a]
  {
    assert InsertByScore([a], b) == [b, a] by {
      assert [a][..0] == [];
    }
    assert InsertByScore([b], c) == [c, b] by {
      assert [b][..0] == [];
    }
    assert InsertByScore([b, a], c) == [c, b, a] by {
      assert [b, a][..1] == [b];
    }
    assert InsertByScore([c, b, a], d) == [c, b, d, a] by {
      assert [c, b, a][..2] == [c, b];
    }
    SortFour(a, b, c, d, [c, b, d, a]);
  }

  /** Mild, heavy rain: indoor sightseeing comes first; surfing is still recommended. */
  lemma HeavyRainDayRanking(city: City, w: Weather)
    requires HeavyRainDay(w)
    ensures Ranking(city, w).activities == [
      Activity("INDOOR_SIGHTSEEING", 9, true, Join(["always available", "rainy outside"], SEPARATOR)),
      Activity("SURFING", 7, true, Join(["mild temperature", "good wave conditions", "rainy"], SEPARATOR)),
      Activity("OUTDOOR_SIGHTSEEING", 6, false, Join(["perfect temperature", "rainy", "breezy"], SEPARATOR)),
      Activity("SKIING", 3, false, Join(["too warm", "some precipitation", "moderate winds"], SEPARATOR))]
  {
    HeavyRainIsNotSnow(w.conditions);
    HeavyRainDayScores(w);
    HeavyRainDaySort(SkiingScore(w), SurfingScore(w), IndoorScore(w), OutdoorScore(w));
    PresentFour(IndoorScore(w), SurfingScore(w), OutdoorScore(w), SkiingScore(w));
  }
}
