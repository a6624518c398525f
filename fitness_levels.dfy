/**
 * The four classifiers exactly as the source writes them: nested gender / age /
 * threshold conditionals returning a label, with "N/A" when nothing matches. Each is
 * proved equal to its table in Norms, and the band properties (coverage, inclusive
 * thresholds, monotonicity or its absence) are proved through that table.
 */
module FitnessLevels {
  import opened Wrappers
  import opened Text
  import opened Levels
  import opened Tiers
  import opened Norms

  /** A measurement rated against an optional band: "N/A" when no band applies. */
  function Classify(scale: Option<Scale>, m: real): Level {
    match scale
    case None => NotApplicable
    case Some(s) => Walk(s.tiers, s.floor, m)
  }

  // ---------------------------------------------------------------- push-ups

  /** `get_pushup_level(count, age, gender)`. */
  function PushupLevel(count: int, age: int, gender: string): (r: Level)
    ensures r == NotApplicable <==> SexOf(gender) == Unrecognised || age < 14
    ensures r in {Excellent, Average, BelowAverage, NotApplicable}
  {
    if Lower(gender) == "male" then
      if age >= 14 && age <= 17 then
        if count >= 35 then Excellent
        else if count >= 18 && count <= 25 then Average
        else BelowAverage
      else if age >= 18 && age <= 19 then
        if count >= 39 then Excellent
        else if count >= 22 && count <= 28 then Average
        else BelowAverage
      else if age >= 20 then
        if count >= 30 then Excellent
        else if count >= 17 && count <= 21 then Average
        else BelowAverage
      else NotApplicable
    else if Lower(gender) == "female" then
      if age >= 14 && age <= 17 then
        if count >= 28 then Excellent
        else if count >= 12 && count <= 18 then Average
        else BelowAverage
      else if age >= 18 && age <= 19 then
        if count >= 33 then Excellent
        else if count >= 15 && count <= 20 then Average
        else BelowAverage
      else if age >= 20 then
        if count >= 24 then Excellent
        else if count >= 12 && count <= 17 then Average
        else BelowAverage
      else NotApplicable
    else NotApplicable
  }

  /** The conditionals agree with the push-up table everywhere. */
  lemma PushupByNorms(count: int, age: int, gender: string)
    ensures PushupLevel(count, age, gender) ==
      match PushupNorms(SexOf(gender), age)
      case None => NotApplicable
      case Some(n) => n.Grade(count)
  {
  }

  /**
   * Within a band: "Excellent" exactly from the Excellent threshold up, "Average"
   * exactly on the closed Average range, "Below Average" for everything else,
   * including the counts strictly between the two.
   */
  lemma PushupWithinBand(count: int, age: int, gender: string)
    requires PushupNorms(SexOf(gender), age).Some?
    ensures var n := PushupNorms(SexOf(gender), age).value;
      && (PushupLevel(count, age, gender) == Excellent <==> count >= n.excellent)
      && (PushupLevel(count, age, gender) == Average <==> n.averageLow <= count <= n.averageHigh)
      && (PushupLevel(count, age, gender) == BelowAverage <==>
            count < n.averageLow || n.averageHigh < count < n.excellent)
  {
    PushupByNorms(count, age, gender);
    PushupNormsShape(SexOf(gender), age);
  }

  /**
   * Push-ups are not monotone: in every band, one more repetition than the top of
   * the Average range drops the label to "Below Average".
   */
  lemma PushupNotMonotone(age: int, gender: string)
    requires PushupNorms(SexOf(gender), age).Some?
    ensures var hi := PushupNorms(SexOf(gender), age).value.averageHigh;
      && PushupLevel(hi, age, gender) == Average
      && PushupLevel(hi + 1, age, gender) == BelowAverage
      && PushupLevel(hi + 1, age, gender).Rank() < PushupLevel(hi, age, gender).Rank()
  {
    var hi := PushupNorms(SexOf(gender), age).value.averageHigh;
    PushupWithinBand(hi, age, gender);
    PushupWithinBand(hi + 1, age, gender);
  }

  /** The Excellent threshold is inclusive: meeting it exactly is "Excellent", one less is not. */
  lemma PushupExcellentInclusive(age: int, gender: string)
    requires PushupNorms(SexOf(gender), age).Some?
    ensures var e := PushupNorms(SexOf(gender), age).value.excellent;
      PushupLevel(e, age, gender) == Excellent && PushupLevel(e - 1, age, gender) != Excellent
  {
    var e := PushupNorms(SexOf(gender), age).value.excellent;
    PushupWithinBand(e, age, gender);
    PushupWithinBand(e - 1, age, gender);
  }

  // ---------------------------------------------------------------- vertical jump

  /** `get_jump_level(jump_height_cm, age, gender)`, after the height is made a float. */
  function JumpLevel(height: real, age: int, gender: string): (r: Level)
    ensures r == NotApplicable <==> SexOf(gender) == Unrecognised || age < 16
  {
    if Lower(gender) == "male" then
      if age >= 16 && age <= 19 then
        if height >= 65.0 then Excellent
        else if height >= 50.0 then AboveAverage
        else if height >= 40.0 then Average
        else if height >= 30.0 then BelowAverage
        else Poor
      else if age >= 20 then
        if height >= 70.0 then Excellent
        else if height >= 56.0 then AboveAverage
        else if height >= 41.0 then Average
        else if height >= 31.0 then BelowAverage
        else Poor
      else NotApplicable
    else if Lower(gender) == "female" then
      if age >= 16 && age <= 19 then
        if height >= 58.0 then Excellent
        else if height >= 47.0 then AboveAverage
        else if height >= 36.0 then Average
        else if height >= 26.0 then BelowAverage
        else Poor
      else if age >= 20 then
        if height >= 60.0 then Excellent
        else if height >= 46.0 then AboveAverage
        else if height >= 31.0 then Average
        else if height >= 21.0 then BelowAverage
        else Poor
      else NotApplicable
    else NotApplicable
  }

  /** The conditionals agree with the jump table everywhere. */
  lemma JumpByNorms(height: real, age: int, gender: string)
    ensures JumpLevel(height, age, gender) == Classify(JumpScale(SexOf(gender), age), height)
  {
    var scale := JumpScale(SexOf(gender), age);
    if scale.Some? {
      var ts := scale.value.tiers;
      assert ts[1..] == [ts[1], ts[2], ts[3]];
      assert ts[2..] == [ts[2], ts[3]];
      assert ts[3..] == [ts[3]];
      assert Walk(ts[3..], Poor, height) == if height >= ts[3].threshold as real then ts[3].level else Poor;
      assert Walk(ts[2..], Poor, height) ==
        if height >= ts[2].threshold as real then ts[2].level else Walk(ts[3..], Poor, height);
      assert Walk(ts[1..], Poor, height) ==
        if height >= ts[1].threshold as real then ts[1].level else Walk(ts[2..], Poor, height);
    }
  }

  /** A greater height never earns a lower label within a band. */
  lemma JumpMonotone(h1: real, h2: real, age: int, gender: string)
    requires JumpScale(SexOf(gender), age).Some?
    requires h1 <= h2
    ensures JumpLevel(h1, age, gender).Rank() <= JumpLevel(h2, age, gender).Rank()
  {
    JumpByNorms(h1, age, gender);
    JumpByNorms(h2, age, gender);
    JumpScaleDescending(SexOf(gender), age);
    var s := JumpScale(SexOf(gender), age).value;
    WalkMonotone(s.tiers, s.floor, h1, h2);
  }

  /** Tier `i` of a jump band is earned exactly on `[threshold_i, threshold_(i-1))`, so thresholds are inclusive. */
  lemma JumpTier(height: real, age: int, gender: string, i: nat)
    requires JumpScale(SexOf(gender), age).Some?
    requires i < |JumpScale(SexOf(gender), age).value.tiers|
    ensures var ts := JumpScale(SexOf(gender), age).value.tiers;
      JumpLevel(height, age, gender) == ts[i].level <==>
        ts[i].threshold as real <= height && (i == 0 || height < ts[i - 1].threshold as real)
    ensures var ts := JumpScale(SexOf(gender), age).value.tiers;
      JumpLevel(height, age, gender) == Poor <==> height < ts[|ts| - 1].threshold as real
  {
    var s := JumpScale(SexOf(gender), age).value;
    JumpByNorms(height, age, gender);
    JumpScaleDescending(SexOf(gender), age);
    WalkSelects(s.tiers, s.floor, height, i);
    WalkFloor(s.tiers, s.floor, height);
  }

  // ---------------------------------------------------------------- sit-and-reach

  /** `get_reach_level(reach_cm, age, gender)`, after the reach is made a float. */
  function ReachLevel(reach: real, age: int, gender: string): (r: Level)
    ensures r == NotApplicable <==> SexOf(gender) == Unrecognised || age < 16 || age > 30
    ensures r != Poor
  {
    if Lower(gender) == "male" then
      if age >= 16 && age <= 19 then
        if reach >= 25.0 then Excellent
        else if reach >= 20.0 then AboveAverage
        else if reach >= 15.0 then Average
        else BelowAverage
      else if age >= 20 && age <= 30 then
        if reach >= 20.0 then Excellent
        else if reach >= 15.0 then AboveAverage
        else if reach >= 10.0 then Average
        else BelowAverage
      else NotApplicable
    else if Lower(gender) == "female" then
      if age >= 16 && age <= 19 then
        if reach >= 30.0 then Excellent
        else if reach >= 25.0 then AboveAverage
        else if reach >= 20.0 then Average
        else BelowAverage
      else if age >= 20 && age <= 30 then
        if reach >= 25.0 then Excellent
        else if reach >= 20.0 then AboveAverage
        else if reach >= 15.0 then Average
        else BelowAverage
      else NotApplicable
    else NotApplicable
  }

  /** The conditionals agree with the sit-and-reach table everywhere. */
  lemma ReachByNorms(reach: real, age: int, gender: string)
    ensures ReachLevel(reach, age, gender) == Classify(ReachScale(SexOf(gender), age), reach)
  {
    var scale := ReachScale(SexOf(gender), age);
    if scale.Some? {
      var ts := scale.value.tiers;
      assert ts[1..] == [ts[1], ts[2]];
      assert ts[2..] == [ts[2]];
      assert Walk(ts[2..], BelowAverage, reach) ==
        if reach >= ts[2].threshold as real then ts[2].level else BelowAverage;
      assert Walk(ts[1..], BelowAverage, reach) ==
        if reach >= ts[1].threshold as real then ts[1].level else Walk(ts[2..], BelowAverage, reach);
    }
  }

  /** A greater reach never earns a lower label within a band. */
  lemma ReachMonotone(r1: real, r2: real, age: int, gender: string)
    requires ReachScale(SexOf(gender), age).Some?
    requires r1 <= r2
    ensures ReachLevel(r1, age, gender).Rank() <= ReachLevel(r2, age, gender).Rank()
  {
    ReachByNorms(r1, age, gender);
    ReachByNorms(r2, age, gender);
    ReachScaleDescending(SexOf(gender), age);
    var s := ReachScale(SexOf(gender), age).value;
    WalkMonotone(s.tiers, s.floor, r1, r2);
  }

  /** Tier `i` of a reach band is earned exactly on `[threshold_i, threshold_(i-1))`; below the last, "Below Average". */
  lemma ReachTier(reach: real, age: int, gender: string, i: nat)
    requires ReachScale(SexOf(gender), age).Some?
    requires i < |ReachScale(SexOf(gender), age).value.tiers|
    ensures var ts := ReachScale(SexOf(gender), age).value.tiers;
      ReachLevel(reach, age, gender) == ts[i].level <==>
        ts[i].threshold as real <= reach && (i == 0 || reach < ts[i - 1].threshold as real)
    ensures var ts := ReachScale(SexOf(gender), age).value.tiers;
      ReachLevel(reach, age, gender) == BelowAverage <==> reach < ts[|ts| - 1].threshold as real
  {
    var s := ReachScale(SexOf(gender), age).value;
    ReachByNorms(reach, age, gender);
    ReachScaleDescending(SexOf(gender), age);
    WalkSelects(s.tiers, s.floor, reach, i);
    WalkFloor(s.tiers, s.floor, reach);
  }

  // ---------------------------------------------------------------- sit-ups

  /** `get_situp_level(count, age, gender)`. */
  function SitupLevel(count: int, age: int, gender: string): (r: Level)
    ensures r == NotApplicable <==> SexOf(gender) == Unrecognised || age < 16 || age > 39
    ensures r != Poor
  {
    if Lower(gender) == "male" then
      if age >= 16 && age <= 19 then
        if count >= 45 then Excellent
        else if count >= 36 then AboveAverage
        else if count >= 29 then Average
        else BelowAverage
      else if age >= 20 && age <= 29 then
        if count >= 49 then Excellent
        else if count >= 40 then AboveAverage
        else if count >= 34 then Average
        else BelowAverage
      else if age >= 30 && age <= 39 then
        if count >= 41 then Excellent
        else if count >= 33 then AboveAverage
        else if count >= 27 then Average
        else BelowAverage
      else NotApplicable
    else if Lower(gender) == "female" then
      if age >= 16 && age <= 19 then
        if count >= 42 then Excellent
        else if count >= 32 then AboveAverage
        else if count >= 25 then Average
        else BelowAverage
      else if age >= 20 && age <= 29 then
        if count >= 44 then Excellent
        else if count >= 36 then AboveAverage
        else if count >= 28 then Average
        else BelowAverage
      else if age >= 30 && age <= 39 then
        if count >= 38 then Excellent
        else if count >= 30 then AboveAverage
        else if count >= 24 then Average
        else BelowAverage
      else NotApplicable
    else NotApplicable
  }

  /** The conditionals agree with the sit-up table everywhere. */
  lemma SitupByNorms(count: int, age: int, gender: string)
    ensures SitupLevel(count, age, gender) == Classify(SitupScale(SexOf(gender), age), count as real)
  {
    var scale := SitupScale(SexOf(gender), age);
    var m := count as real;
    if scale.Some? {
      var ts := scale.value.tiers;
      assert ts[1..] == [ts[1], ts[2]];
      assert ts[2..] == [ts[2]];
      assert Walk(ts[2..], BelowAverage, m) ==
        if m >= ts[2].threshold as real then ts[2].level else BelowAverage;
      assert Walk(ts[1..], BelowAverage, m) ==
        if m >= ts[1].threshold as real then ts[1].level else Walk(ts[2..], BelowAverage, m);
    }
  }

  /** More sit-ups never earn a lower label within a band. */
  lemma SitupMonotone(c1: int, c2: int, age: int, gender: string)
    requires SitupScale(SexOf(gender), age).Some?
    requires c1 <= c2
    ensures SitupLevel(c1, age, gender).Rank() <= SitupLevel(c2, age, gender).Rank()
  {
    SitupByNorms(c1, age, gender);
    SitupByNorms(c2, age, gender);
    SitupScaleDescending(SexOf(gender), age);
    var s := SitupScale(SexOf(gender), age).value;
    WalkMonotone(s.tiers, s.floor, c1 as real, c2 as real);
  }

  /** Tier `i` of a sit-up band is earned exactly on `[threshold_i, threshold_(i-1))`; below the last, "Below Average". */
  lemma SitupTier(count: int, age: int, gender: string, i: nat)
    requires SitupScale(SexOf(gender), age).Some?
    requires i < |SitupScale(SexOf(gender), age).value.tiers|
    ensures var ts := SitupScale(SexOf(gender), age).value.tiers;
      SitupLevel(count, age, gender) == ts[i].level <==>
        ts[i].threshold <= count && (i == 0 || count < ts[i - 1].threshold)
    ensures var ts := SitupScale(SexOf(gender), age).value.tiers;
      SitupLevel(count, age, gender) == BelowAverage <==> count < ts[|ts| - 1].threshold
  {
    var s := SitupScale(SexOf(gender), age).value;
    SitupByNorms(count, age, gender);
    SitupScaleDescending(SexOf(gender), age);
    WalkSelects(s.tiers, s.floor, count as real, i);
    WalkFloor(s.tiers, s.floor, count as real);
  }

  // ---------------------------------------------------------------- worked cases

  /** Gender is matched case-insensitively. */
  lemma GenderSpellings()
    ensures SexOf("male") == Male && SexOf("MALE") == Male && SexOf("Male") == Male
    ensures SexOf("female") == Female && SexOf("Female") == Female
    ensures SexOf("other") == Unrecognised && SexOf("") == Unrecognised && SexOf("m") == Unrecognised
  {
    assert Lower("MALE") == "male";
    assert Lower("Male") == "male";
    assert Lower("Female") == "female";
    assert Lower("male") == "male";
    assert Lower("female") == "female";
    assert Lower("other")[0] == 'o';
    assert Lower("m") != "male";
  }

  /** The documented cases, each traced to its band and threshold. */
  lemma DocumentedCases()
    ensures PushupLevel(40, 16, "male") == Excellent
    ensures PushupLevel(35, 16, "male") == Excellent
    ensures PushupLevel(20, 16, "male") == Average
    ensures forall c :: 26 <= c <= 34 ==> PushupLevel(c, 16, "male") == BelowAverage
    ensures forall c :: 21 <= c <= 32 ==> PushupLevel(c, 18, "Female") == BelowAverage
    ensures PushupLevel(33, 19, "female") == Excellent
    ensures PushupLevel(50, 13, "male") == NotApplicable
    ensures PushupLevel(50, 30, "robot") == NotApplicable
    ensures JumpLevel(70.0, 25, "male") == Excellent
    ensures JumpLevel(69.0, 25, "male") == AboveAverage
    ensures JumpLevel(80.0, 15, "male") == NotApplicable
    ensures ReachLevel(22.0, 17, "female") == Average
    ensures ReachLevel(22.0, 31, "female") == NotApplicable
    ensures SitupLevel(50, 45, "male") == NotApplicable
    ensures SitupLevel(45, 16, "MALE") == Excellent
  {
    GenderSpellings();
  }
}
