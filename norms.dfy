/**
 * The norm tables behind the four classifiers, as data: for each gender and age
 * band, the thresholds and labels of one exercise. `None` marks an age or gender no
 * band covers. These tables are the reference the nested conditionals of
 * FitnessLevels are proved against.
 */
module Norms {
  import opened Wrappers
  import opened Levels
  import opened Tiers

  /**
   * A push-up band: "Excellent" from `excellent` up, "Average" on the closed range
   * `[averageLow, averageHigh]`, "Below Average" for every other count.
   */
  datatype PushupNorm = PushupNorm(excellent: int, averageLow: int, averageHigh: int) {
    function Grade(count: int): Level {
      if count >= excellent then Excellent
      else if averageLow <= count <= averageHigh then Average
      else BelowAverage
    }
  }

  /** Push-up bands: 14-17, 18-19 and 20 upwards for each gender. */
  function PushupNorms(sex: Sex, age: int): Option<PushupNorm> {
    match sex
    case Male =>
      if 14 <= age <= 17 then Some(PushupNorm(35, 18, 25))
      else if 18 <= age <= 19 then Some(PushupNorm(39, 22, 28))
      else if age >= 20 then Some(PushupNorm(30, 17, 21))
      else None
    case Female =>
      if 14 <= age <= 17 then Some(PushupNorm(28, 12, 18))
      else if 18 <= age <= 19 then Some(PushupNorm(33, 15, 20))
      else if age >= 20 then Some(PushupNorm(24, 12, 17))
      else None
    case Unrecognised => None
  }

  /** Vertical-jump bands in centimetres: 16-19 and 20 upwards, five labels with a "Poor" floor. */
  function JumpScale(sex: Sex, age: int): Option<Scale> {
    match sex
    case Male =>
      if 16 <= age <= 19 then
        Some(Scale([Tier(65, Excellent), Tier(50, AboveAverage), Tier(40, Average), Tier(30, BelowAverage)], Poor))
      else if age >= 20 then
        Some(Scale([Tier(70, Excellent), Tier(56, AboveAverage), Tier(41, Average), Tier(31, BelowAverage)], Poor))
      else None
    case Female =>
      if 16 <= age <= 19 then
        Some(Scale([Tier(58, Excellent), Tier(47, AboveAverage), Tier(36, Average), Tier(26, BelowAverage)], Poor))
      else if age >= 20 then
        Some(Scale([Tier(60, Excellent), Tier(46, AboveAverage), Tier(31, Average), Tier(21, BelowAverage)], Poor))
      else None
    case Unrecognised => None
  }

  /** Sit-and-reach bands in centimetres: 16-19 and 20-30 only, four labels. */
  function ReachScale(sex: Sex, age: int): Option<Scale> {
    match sex
    case Male =>
      if 16 <= age <= 19 then
        Some(Scale([Tier(25, Excellent), Tier(20, AboveAverage), Tier(15, Average)], BelowAverage))
      else if 20 <= age <= 30 then
        Some(Scale([Tier(20, Excellent), Tier(15, AboveAverage), Tier(10, Average)], BelowAverage))
      else None
    case Female =>
      if 16 <= age <= 19 then
        Some(Scale([Tier(30, Excellent), Tier(25, AboveAverage), Tier(20, Average)], BelowAverage))
      else if 20 <= age <= 30 then
        Some(Scale([Tier(25, Excellent), Tier(20, AboveAverage), Tier(15, Average)], BelowAverage))
      else None
    case Unrecognised => None
  }

  /** Sit-up bands: 16-19, 20-29 and 30-39 only, four labels. */
  function SitupScale(sex: Sex, age: int): Option<Scale> {
    match sex
    case Male =>
      if 16 <= age <= 19 then
        Some(Scale([Tier(45, Excellent), Tier(36, AboveAverage), Tier(29, Average)], BelowAverage))
      else if 20 <= age <= 29 then
        Some(Scale([Tier(49, Excellent), Tier(40, AboveAverage), Tier(34, Average)], BelowAverage))
      else if 30 <= age <= 39 then
        Some(Scale([Tier(41, Excellent), Tier(33, AboveAverage), Tier(27, Average)], BelowAverage))
      else None
    case Female =>
      if 16 <= age <= 19 then
        Some(Scale([Tier(42, Excellent), Tier(32, AboveAverage), Tier(25, Average)], BelowAverage))
      else if 20 <= age <= 29 then
        Some(Scale([Tier(44, Excellent), Tier(36, AboveAverage), Tier(28, Average)], BelowAverage))
      else if 30 <= age <= 39 then
        Some(Scale([Tier(38, Excellent), Tier(30, AboveAverage), Tier(24, Average)], BelowAverage))
      else None
    case Unrecognised => None
  }

  /** Every push-up band has a non-empty Average range and a gap between it and Excellent. */
  lemma PushupNormsShape(sex: Sex, age: int)
    ensures PushupNorms(sex, age).Some? ==>
      var n := PushupNorms(sex, age).value;
      n.averageLow <= n.averageHigh && n.averageHigh + 1 < n.excellent
  {
  }

  /** Every band of the three tiered tables is well formed. */
  lemma JumpScaleDescending(sex: Sex, age: int)
    requires JumpScale(sex, age).Some?
    ensures var s := JumpScale(sex, age).value; Descending(s.tiers, s.floor)
  {
    var s := JumpScale(sex, age).value;
    assert StepsDown(s.tiers, s.floor);
    StepsDownIsDescending(s.tiers, s.floor);
  }

  lemma ReachScaleDescending(sex: Sex, age: int)
    requires ReachScale(sex, age).Some?
    ensures var s := ReachScale(sex, age).value; Descending(s.tiers, s.floor)
  {
    var s := ReachScale(sex, age).value;
    assert StepsDown(s.tiers, s.floor);
    StepsDownIsDescending(s.tiers, s.floor);
  }

  lemma SitupScaleDescending(sex: Sex, age: int)
    requires SitupScale(sex, age).Some?
    ensures var s := SitupScale(sex, age).value; Descending(s.tiers, s.floor)
  {
    var s := SitupScale(sex, age).value;
    assert StepsDown(s.tiers, s.floor);
    StepsDownIsDescending(s.tiers, s.floor);
  }
}
