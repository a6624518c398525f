/**
 * A tiered norm: thresholds ordered from the highest requirement down, each with the
 * label a measurement earns when it meets or exceeds that threshold, and a floor label
 * for measurements below every threshold. This is the data-driven reading of the
 * jump, reach and sit-up tables; the lemmas here are what makes every such table
 * monotone and inclusive at its boundaries.
 */
module Tiers {
  import opened Levels

  datatype Tier = Tier(threshold: int, level: Level)

  datatype Scale = Scale(tiers: seq<Tier>, floor: Level)

  /**
   * Thresholds strictly decreasing, labels strictly decreasing in rank, every label
   * applicable, and the floor ranked below every tier.
   */
  ghost predicate Descending(tiers: seq<Tier>, floor: Level) {
    && floor != NotApplicable
    && (forall i :: 0 <= i < |tiers| ==> tiers[i].level.Rank() > floor.Rank())
    && (forall i, j :: 0 <= i < j < |tiers| ==>
          tiers[i].threshold > tiers[j].threshold && tiers[i].level.Rank() > tiers[j].level.Rank())
  }

  /** The same order checked between neighbours only: cheap to evaluate on a literal table. */
  predicate StepsDown(tiers: seq<Tier>, floor: Level) {
    if tiers == [] then floor != NotApplicable
    else
      && tiers[0].level.Rank() > (if |tiers| == 1 then floor.Rank() else tiers[1].level.Rank())
      && (|tiers| > 1 ==> tiers[0].threshold > tiers[1].threshold)
      && StepsDown(tiers[1..], floor)
  }

  /** Descending between neighbours is descending between every pair. */
  lemma {:induction false} StepsDownIsDescending(tiers: seq<Tier>, floor: Level)
    requires StepsDown(tiers, floor)
    ensures Descending(tiers, floor)
  {
    if tiers != [] {
      var rest := tiers[1..];
      StepsDownIsDescending(rest, floor);
      forall j | 0 < j < |tiers|
        ensures tiers[0].threshold > tiers[j].threshold && tiers[0].level.Rank() > tiers[j].level.Rank()
      {
        assert tiers[j] == rest[j - 1];
        if j > 1 {
          assert rest[0] == tiers[1];
        }
      }
      forall i, j | 0 <= i < j < |tiers|
        ensures tiers[i].threshold > tiers[j].threshold && tiers[i].level.Rank() > tiers[j].level.Rank()
      {
        if i > 0 {
          assert tiers[i] == rest[i - 1] && tiers[j] == rest[j - 1];
        }
      }
    }
  }

  /** The label of the first threshold `m` meets or exceeds, else the floor. */
  function Walk(tiers: seq<Tier>, floor: Level, m: real): Level {
    if tiers == [] then floor
    else if m >= tiers[0].threshold as real then tiers[0].level
    else Walk(tiers[1..], floor, m)
  }

  /** A walk never returns a label ranked above its first tier (or the floor, when there are no tiers). */
  lemma {:induction false} WalkBound(tiers: seq<Tier>, floor: Level, m: real)
    requires Descending(tiers, floor)
    ensures Walk(tiers, floor, m).Rank() <= (if tiers == [] then floor.Rank() else tiers[0].level.Rank())
    ensures Walk(tiers, floor, m) != NotApplicable
  {
    if tiers != [] && m < tiers[0].threshold as real {
      WalkBound(tiers[1..], floor, m);
      assert |tiers| > 1 ==> tiers[1..][0] == tiers[1];
    }
  }

  /** Tier `i` is chosen exactly when `m` lies in `[threshold_i, threshold_(i-1))`. */
  lemma {:induction false} WalkSelects(tiers: seq<Tier>, floor: Level, m: real, i: nat)
    requires Descending(tiers, floor)
    requires i < |tiers|
    ensures Walk(tiers, floor, m) == tiers[i].level <==>
      (tiers[i].threshold as real <= m && (i == 0 || m < tiers[i - 1].threshold as real))
  {
    if m >= tiers[0].threshold as real {
      if i > 0 {
        assert tiers[0].level.Rank() > tiers[i].level.Rank();
        assert i - 1 == 0 || tiers[0].threshold > tiers[i - 1].threshold;
      }
    } else if i == 0 {
      WalkBound(tiers[1..], floor, m);
      assert |tiers| > 1 ==> tiers[1..][0] == tiers[1];
    } else {
      WalkSelects(tiers[1..], floor, m, i - 1);
      assert tiers[1..][i - 1] == tiers[i];
      assert i - 1 > 0 ==> tiers[1..][i - 2] == tiers[i - 1];
    }
  }

  /** The floor is chosen exactly when `m` is below the last (lowest) threshold. */
  lemma {:induction false} WalkFloor(tiers: seq<Tier>, floor: Level, m: real)
    requires Descending(tiers, floor)
    ensures Walk(tiers, floor, m) == floor <==> (tiers == [] || m < tiers[|tiers| - 1].threshold as real)
  {
    if tiers != [] {
      if m >= tiers[0].threshold as real {
        assert tiers[0].threshold >= tiers[|tiers| - 1].threshold;
      } else {
        WalkFloor(tiers[1..], floor, m);
      }
    }
  }

  /** A larger measurement never earns a lower-ranked label. */
  lemma {:induction false} WalkMonotone(tiers: seq<Tier>, floor: Level, m1: real, m2: real)
    requires Descending(tiers, floor)
    requires m1 <= m2
    ensures Walk(tiers, floor, m1).Rank() <= Walk(tiers, floor, m2).Rank()
  {
    if tiers != [] && m2 < tiers[0].threshold as real {
      WalkMonotone(tiers[1..], floor, m1, m2);
    } else if tiers != [] && m1 < tiers[0].threshold as real {
      WalkBound(tiers[1..], floor, m1);
      assert |tiers| > 1 ==> tiers[1..][0] == tiers[1];
    }
  }
}
