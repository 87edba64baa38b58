/** The time-of-day surge policy of backend/server.js. The source reads the
    local clock; here the hour is a parameter. */
module Surge {

  /** The values `Date.prototype.getHours` can return. */
  type Hour = h: int | 0 <= h < 24

  /** The hard ceiling on any multiplier. */
  const SURGE_CAP: real := 2.0

  predicate IsPeakHour(hour: Hour)
  {
    (8 <= hour <= 10) || (17 <= hour <= 20)
  }

  predicate IsNightHour(hour: Hour)
  {
    hour >= 22 || hour <= 5
  }

  /** `getSurgeMultiplier`: the band's multiplier, clamped to the ceiling. */
  function SurgeMultiplier(hour: Hour): (r: real)
    ensures 1.0 <= r <= SURGE_CAP
  {
    var surge :=
      if IsPeakHour(hour) then 1.3
      else if IsNightHour(hour) then 1.2
      else 1.0;
    if surge < SURGE_CAP then surge else SURGE_CAP
  }

  /** The three bands, each stated as an equivalence: the peak bands win
      over the night band, and every other hour pays the plain fare. */
  lemma SurgeByHour(hour: Hour)
    ensures SurgeMultiplier(hour) == 1.3 <==> IsPeakHour(hour)
    ensures SurgeMultiplier(hour) == 1.2 <==> !IsPeakHour(hour) && IsNightHour(hour)
    ensures SurgeMultiplier(hour) == 1.0 <==> !IsPeakHour(hour) && !IsNightHour(hour)
  {
  }

  /** The ceiling is never reached by the current bands. */
  lemma SurgeBelowCap(hour: Hour)
    ensures SurgeMultiplier(hour) < SURGE_CAP
  {
  }
}
