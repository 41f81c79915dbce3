/**
 * The energy-degradation simulator of the power plant service: how much
 * energy (kWh) one solar plant produces over a span of days, given its age
 * in days at the start of the span.
 *
 * Doubles are modelled as exact reals, so `1000 / 365.0` is the rational
 * 200/73 and `0.005` is 1/200; every fact proved here is about the exact
 * formula, not about its IEEE-754 rounding.
 */
module Simulator {

  /** A plant produces nothing until it is older than this many days. */
  const RequiredAge: int := 60
  /** A plant produces nothing from this age on (25 years of 365 days). */
  const BreakdownAge: int := 25 * 365
  /** Nameplate rating of every plant, in kW. */
  const NameplateKW: real := 20.0
  /** Linear loss of efficiency per year of age. */
  const DecayPerYear: real := 0.005
  /** 1000 full sun hours per year, spread evenly over 365 days. */
  const FullSunHoursPerDay: real := 1000.0 / 365.0

  /** Largest energy one productive day can yield: a new plant at full rating. */
  const MaxDailyKWh: real := 20.0 * (1000.0 / 365.0)
  /** Every productive day yields more than this: the rating less 25 years of decay. */
  const MinDailyKWh: real := 17.5 * (1000.0 / 365.0)

  /**
   * The operability window: older than the commissioning age, younger than
   * the breakdown age. Inside it the unfloored decay formula stays above
   * 17.5 kW and below the rating.
   */
  predicate IsOperable(currentAge: int): (operable: bool)
    ensures operable ==> 17.5 < DailyOutputKW(currentAge) < NameplateKW
  {
    currentAge > RequiredAge && currentAge < BreakdownAge
  }

  /**
   * Power (kW) of a plant of the given age: the rating less 0.5% per year.
   * The formula has no floor: past 200 years it turns negative.
   */
  function DailyOutputKW(currentAge: int): (kw: real)
    ensures currentAge >= 0 ==> kw <= NameplateKW
    ensures kw < 0.0 <==> currentAge > 200 * 365
  {
    NameplateKW * (1.0 - currentAge as real / 365.0 * DecayPerYear)
  }

  /** Energy (kWh) produced on the day the plant has age `currentAge`. */
  function Contribution(currentAge: int): (kwh: real)
    ensures IsOperable(currentAge) ==> MinDailyKWh < kwh < MaxDailyKWh
    ensures !IsOperable(currentAge) ==> kwh == 0.0
  {
    if IsOperable(currentAge) then DailyOutputKW(currentAge) * FullSunHoursPerDay else 0.0
  }

  /** Number of days a span covers: a non-positive day count covers none. */
  function Horizon(days: int): nat
  {
    if days <= 0 then 0 else days
  }

  /**
   * Reference definition of the simulation: the energy produced over the
   * day offsets 0 .. days-1, the day at offset d being counted at age
   * initialAge + d.
   */
  function Output(initialAge: int, days: int): (kwh: real)
    decreases days
    ensures 0.0 <= kwh <= Horizon(days) as real * MaxDailyKWh
  {
    if days <= 0 then 0.0 else Contribution(initialAge) + Output(initialAge + 1, days - 1)
  }

  /** Number of days in the span whose age lies in the operability window. */
  function OperableDays(initialAge: int, days: int): (n: nat)
    decreases days
    ensures n <= Horizon(days)
  {
    if days <= 0 then 0
    else (if IsOperable(initialAge) then 1 else 0) + OperableDays(initialAge + 1, days - 1)
  }

  /**
   * One more day adds exactly the contribution of the age at the start of
   * that day offset: the shape of the accumulating loop.
   */
  lemma {:induction false} OutputStep(initialAge: int, d: int)
    requires d >= 0
    ensures Output(initialAge, d + 1) == Output(initialAge, d) + Contribution(initialAge + d)
    decreases d
  {
    if d > 0 {
      OutputStep(initialAge + 1, d - 1);
    }
  }

  /** Every productive day yields between MinDailyKWh and MaxDailyKWh; the others yield nothing. */
  lemma {:induction false} OutputBetweenOperableDays(initialAge: int, days: int)
    ensures OperableDays(initialAge, days) as real * MinDailyKWh <= Output(initialAge, days)
    ensures Output(initialAge, days) <= OperableDays(initialAge, days) as real * MaxDailyKWh
    ensures Output(initialAge, days) == 0.0 <==> OperableDays(initialAge, days) == 0
    decreases days
  {
    if days > 0 {
      OutputBetweenOperableDays(initialAge + 1, days - 1);
    }
  }

  /** A span has a productive day exactly when some age in it lies in the window. */
  lemma {:induction false} OperableDaysPositive(initialAge: int, days: int)
    ensures OperableDays(initialAge, days) > 0
        <==> exists a :: initialAge <= a < initialAge + days && IsOperable(a)
    decreases days
  {
    if days > 0 {
      OperableDaysPositive(initialAge + 1, days - 1);
      if !IsOperable(initialAge) && OperableDays(initialAge, days) == 0 {
        forall a | initialAge <= a < initialAge + days
          ensures !IsOperable(a)
        {
          if a > initialAge {
            assert initialAge + 1 <= a < initialAge + 1 + (days - 1);
          }
        }
      }
    }
  }

  /** A plant produces something over the span exactly when one of its ages lies in the window. */
  lemma OutputPositive(initialAge: int, days: int)
    ensures Output(initialAge, days) > 0.0
        <==> exists a :: initialAge <= a < initialAge + days && IsOperable(a)
  {
    OutputBetweenOperableDays(initialAge, days);
    OperableDaysPositive(initialAge, days);
  }

  /**
   * A plant whose whole span lies before commissioning ends, or at or after
   * breakdown, produces exactly nothing.
   */
  lemma {:induction false} OutputOutsideWindow(initialAge: int, days: int)
    requires initialAge + days <= RequiredAge + 1 || initialAge >= BreakdownAge
    ensures Output(initialAge, days) == 0.0
    decreases days
  {
    if days > 0 {
      OutputOutsideWindow(initialAge + 1, days - 1);
    }
  }

  /** Within the window, an older plant yields strictly less on a single day. */
  lemma ContributionDecreasing(younger: int, older: int)
    requires IsOperable(younger) && IsOperable(older) && younger < older
    ensures Contribution(older) < Contribution(younger)
  {
  }

  /**
   * Over the same number of days, an older plant produces strictly less,
   * as long as both spans stay inside the operability window.
   */
  lemma {:induction false} OutputDecreasingInAge(younger: int, older: int, days: int)
    requires RequiredAge < younger < older
    requires days > 0 && older + days - 1 < BreakdownAge
    ensures Output(older, days) < Output(younger, days)
    decreases days
  {
    ContributionDecreasing(younger, older);
    if days > 1 {
      OutputDecreasingInAge(younger + 1, older + 1, days - 1);
    }
  }

  /**
   * The service's per-plant simulation: walk the day offsets 0 .. days-1,
   * and add the day's output whenever the plant's age that day lies in the
   * operability window.
   */
  method CalculatePlantOutput(initialAge: int, days: int) returns (totalEnergy: real)
    ensures totalEnergy == Output(initialAge, days)
  {
    totalEnergy := 0.0;
    var day := 0;
    while day < days
      invariant 0 <= day <= Horizon(days)
      invariant totalEnergy == Output(initialAge, day)
    {
      var currentAge := initialAge + day;
      if IsOperable(currentAge) {
        var dailyOutput := DailyOutputKW(currentAge);
        totalEnergy := totalEnergy + dailyOutput * FullSunHoursPerDay;
      }
      OutputStep(initialAge, day);
      day := day + 1;
    }
  }
}
