# Cab fare comparison: a verified model of the fare engine and ride list

The system compares taxi fares between two places. Its backend resolves
the pickup and drop points, routes between them and prices every vehicle
class of three services: redTaxi, Ola and Uber. It resolves points with a
geocoder, or failing that with a small built-in gazetteer. It routes with a
routing service, or failing that along a straight great-circle line. Its
frontend turns the fare table into a list of rides, which it filters by
category, sorts by price and flags the cheapest.

This project models that logic in Dafny and proves what the code promises:

- `surge.dfy` (module `Surge`): the time-of-day surge multiplier.
- `fares.dfy` (module `Fares`): minimum fares, the rate card, the
  outstation markup, rounding to hundredths, and the nested loops that
  fill the fare table.
- `gazetteer.dfy` (module `Gazetteer`): the ordered fallback list of known
  places.
  - Each case-insensitive regular expression becomes a list of
    alternatives. An alternative is either a word, or a word followed later
    on the same line by another word.
  - A backtracking search is proved equal to the regular-expression meaning.
  - The lookup loop is proved to return the first match.
- `estimation.dfy` (module `Estimation`): the `/calculate` handler. It is a
  method over the two request fields plus the answers of the external
  services, which arrive as `Option` inputs.
  - The method also returns the sequence of external calls it makes.
  - Great-circle distance is a function parameter that is only known to be
    non-negative.
  - The clock is an hour parameter.
- `display.dfy` (module `PriceDisplay`): the integer parts of the price
  display.
  - The 32-bit FNV-1a hash as a loop over UTF-16 code units.
  - The rounding step, rounding to a step, and the order of a price range.
  - The lower bound on the shown arrival time.
- `labels.dfy` (module `Labels`) and `rides.dfy` (module `Rides`): ride
  captions, categories, flattening the fare table into rides, filtering,
  a stable insertion sort by price, and the cheapest flag.
- `text.dfy` (module `Text`), `rounding.dfy` (module `Rounding`) and
  `wrappers.dfy` (module `Wrappers`): the JavaScript string operations the
  code relies on (`toLowerCase`, `includes`, `trim`, line terminators),
  `Math.round`, which both the fare engine and the display use, and
  `Option`.

Amounts, distances and durations are exact `real` numbers. `Math.round(x)`
is `floor(x + 1/2)`.

## Model

| member | source | states |
|---|---|---|
| `Text.LowerChar` | frontend/src/FareResults.js:43 | a capital letter becomes its own small letter (the same letter, 32 code points on), and every other character is kept |
| `Text.UpperChar` | frontend/src/FareResults.js:58 | a small letter becomes its own capital, and every other character is kept |
| `Text.CaseRoundTrip` | frontend/src/FareResults.js:43 | upper-casing undoes lower-casing on capitals, and the other way round on small letters |
| `Text.Lower` | frontend/src/FareResults.js:43 | lower-casing keeps the length and lower-cases each character on its own, so every capital becomes its small letter |
| `Text.LowerIdempotent` | frontend/src/FareResults.js:43 | lower-casing an already lower-cased string changes nothing |
| `Text.ContainsIff` | frontend/src/FareResults.js:45-48 | `includes` holds exactly when the word occurs at some position |
| `Text.Trim` | backend/server.js:165-166 | the trimmed string is no longer than the input, and it neither starts nor ends with whitespace or a line terminator |
| `Text.TrimRemovesEnds` | backend/server.js:165-166 | `trim` yields a contiguous slice of the input, and everything cut from either end is whitespace |
| `Text.TrimEmptyIff` | backend/server.js:165-168 | a field trims to empty (and so is rejected) exactly when it consists only of whitespace |
| `Text.TrimKeeps` | backend/server.js:165-166 | a field that starts and ends with kept characters passes through `trim` unchanged |
| `Surge.SurgeMultiplier` | backend/server.js:54-65 | the multiplier always lies between 1.0 and the 2.0 cap |
| `Surge.SurgeByHour` | backend/server.js:58-62 | 1.3 exactly in hours 8-10 and 17-20; 1.2 exactly in other hours that are at least 22 or at most 5; 1.0 exactly otherwise |
| `Surge.SurgeBelowCap` | backend/server.js:64 | the 2.0 cap is never reached by the current bands |
| `Fares.MinFare` | backend/server.js:67-70 | a class in the table gets its own entry (no entry is zero, so the fallback to 40 never applies to it), any other class 40 |
| `Fares.ApplyMinFare` | backend/server.js:69-72 | the result is at least the fare and at least the class floor, and it is one of the two |
| `Fares.MinFareTable` | backend/server.js:67-71 | a listed class is floored at its own entry and an unknown class at 40; a fare at or above its floor is unchanged |
| `Fares.Round2` | backend/server.js:106 | the result is a whole number of hundredths, less than half a hundredth below the value and at most half a hundredth above it |
| `Fares.Round2AtLeast` | backend/server.js:106 | rounding never takes a value below a whole number it was at or above |
| `Fares.Round2Monotone` | backend/server.js:106 | rounding preserves order |
| `Fares.RateCardFloors` | backend/server.js:67-98 | every class on the rate card has its own minimum-fare entry |
| `Fares.Price` | backend/server.js:105-106 | a class price is never below the class minimum, and lies within half a hundredth of the floored, surged, marked-up fare |
| `Fares.OutstationBoundary` | backend/server.js:78-79 | the markup is 1.15 exactly beyond 40 km and 1.0 up to and including 40 km |
| `Fares.PriceMonotone` | backend/server.js:81-106 | with non-negative rates, a longer, slower or more surged trip never costs less |
| `Fares.CalculateFares` | backend/server.js:77-110 | the nested loops produce exactly the fare table: one priced entry per service and class of the rate card, in order |
| `Fares.PriceClasses` | backend/server.js:104-107 | the inner loop prices each class of one service in order |
| `Fares.FareTableShape` | backend/server.js:81-108 | the table has exactly redTaxi {micro, sedan, suv}, ola {mini, primeSedan, primeSUV, auto} and uber {uberGo, premier, uberXL, auto} |
| `Fares.FareTableAboveMinimum` | backend/server.js:102-108 | every table price is the rounded, floored, marked-up fare of its class and is at least the class's own minimum |
| `Fares.WorkedExample` | backend/server.js:83 | 5 km, 15 minutes and no surge price a redTaxi micro at 130 |
| `Gazetteer.OnLineFromIff` | backend/server.js:116-118 | the search for the second word agrees with "occurs later on the same line" |
| `Gazetteer.NearFromIff` | backend/server.js:116-118 | the backtracking search for `first.*second` from a start index agrees with the regular-expression meaning |
| `Gazetteer.NearMatches` | backend/server.js:116-119 | a `first.*second` alternative matches exactly when `first` occurs and `second` follows it on the same line |
| `Gazetteer.PatternMatchesIff` | backend/server.js:132 | a pattern matches exactly when one of its alternatives does |
| `Gazetteer.Lookup` | backend/server.js:129-135 | the lower-cased query resolves to the coordinate of the earliest entry whose pattern matches it, and to nothing exactly when no pattern matches |
| `Gazetteer.FirstMatchIsFirst` | backend/server.js:131-134 | the lookup yields the coordinate of the earliest matching entry, and nothing exactly when no entry matches |
| `Gazetteer.FallbackCoords` | backend/server.js:129-135 | the loop with early return computes the first-match lookup on the lower-cased query; null exactly when no pattern matches |
| `Gazetteer.CoimbatoreAirportExample` | backend/server.js:116-120 | "Coimbatore Airport" resolves to the airport, although the city entry further down also matches it |
| `Gazetteer.CityExamples` | backend/server.js:121-122 | "Chennai" and "Salem" fall through the airport and campus entries to their city coordinates |
| `Estimation.TrimmedField` | backend/server.js:165-166 | a string field is trimmed; the result is empty exactly when the field is missing or consists only of whitespace |
| `Estimation.FallbackRoute` | backend/server.js:149-157 | the fallback line has two points, stored longitude first, which read back as pickup and then drop |
| `Estimation.Max` | backend/server.js:265 | `Math.max` is at least both arguments and equals one of them |
| `Estimation.NotFoundNamesInput` | backend/server.js:233 | the not-found error quotes the input it could not resolve |
| `Estimation.Resolve` | backend/server.js:226-245 | a geocoder answer is used when there is one, and otherwise the gazetteer's coordinate; the endpoint stays unresolved exactly when both fail |
| `Estimation.FloorDistance` | backend/server.js:269 | a distance under 0.5 km becomes 5 km and any other is kept, so the result is at least 0.5 |
| `Estimation.FloorDuration` | backend/server.js:270 | a duration under 5 minutes becomes 15 and any other is kept, so the result is at least 5 |
| `Estimation.Recovery` | backend/server.js:290-318 | the catch path uses only the gazetteer and fails exactly when either end is unknown. Otherwise: the distance is positive (12 when the great circle gives 0, the great-circle distance otherwise), the duration is max(15, 2.5 times the distance), the route is the straight line, the outstation flag and fares follow the distance, and `estimated` is true |
| `Estimation.Calculate` | backend/server.js:162-289 | An empty field gives the validation 400 with no calls. Otherwise pickup is geocoded, then the 1100 ms pause, then drop; an unresolved end gives a 400 naming it, pickup checked first. Success routes once; distance is at least 0.5 and duration at least 5; the router's or the great-circle numbers are used. `estimated` holds exactly when the gazetteer or the routing fallback was used; a defect leads to the recovery path |
| `Estimation.ChennaiToSalemScenario` | backend/server.js:226-289 | with both services down, Chennai to Salem is resolved from the gazetteer and priced as an outstation estimate on a straight line |
| `PriceDisplay.Fnv1a` | frontend/src/FareResults.js:12-16 | the FNV-1a state is the offset basis 2166136261 for the empty string, and otherwise one more xor-and-multiply round on the state of all but the last code unit |
| `PriceDisplay.FnvFromAppend` | frontend/src/FareResults.js:13-16 | hashing a concatenation continues from the state that the first part left |
| `PriceDisplay.HashState` | frontend/src/FareResults.js:12-16 | the loop computes the FNV-1a state: start at 2166136261, then for each code unit xor it in and multiply by 16777619 modulo 2^32 |
| `PriceDisplay.FnvTestVectors` | frontend/src/FareResults.js:12-17 | the state for "", "a" and "foobar" matches the published FNV-1a test vectors |
| `PriceDisplay.HashTo01` | frontend/src/FareResults.js:17 | the hash value lies in [0, 1] |
| `Rounding.RoundHalfUp` | frontend/src/FareResults.js:21 | `Math.round` lands within half a unit, with ties going up |
| `PriceDisplay.PriceStep` | frontend/src/FareResults.js:30 | the step is 5, 10 or 20: 5 exactly below 200, 20 exactly from 600 |
| `PriceDisplay.PriceStepMonotone` | frontend/src/FareResults.js:30 | a dearer price never gets a finer step |
| `PriceDisplay.RoundToNearest` | frontend/src/FareResults.js:20-22 | the result is a whole number of steps, less than half a step below the value and at most half a step above it |
| `PriceDisplay.RangeEnds` | frontend/src/FareResults.js:39 | the range is printed smaller end first, and its ends are the two computed prices |
| `PriceDisplay.EtaMinutes` | frontend/src/FareResults.js:146 | the shown arrival time is never below 2 minutes, and is the rounded jittered duration whenever that is at least 2 |
| `Labels.ServiceName` | frontend/src/FareResults.js:53-54 | "uber" and "ola" (in any case) give "Uber" and "Ola", and anything else gives "RedTaxi" |
| `Labels.SpaceBeforeCapitals` | frontend/src/FareResults.js:57 | the spaced-out name never starts with a capital letter |
| `Labels.SpacingRoundTrip` | frontend/src/FareResults.js:57 | removing the inserted spaces gives back the class name, so spacing loses nothing |
| `Labels.SpaceBeforeCapitalsAppend` | frontend/src/FareResults.js:57 | the global replace works piece by piece over a concatenation |
| `Labels.CapitalizeFirst` | frontend/src/FareResults.js:58 | the first character becomes its upper case and the rest is unchanged; an empty string, or one that starts with a line terminator, is left as it is |
| `Labels.LabelFor` | frontend/src/FareResults.js:52-61 | the caption is the service's display name, a space, and the class name spaced out before each capital with its first character upper-cased |
| `Labels.LabelRecoversClass` | frontend/src/FareResults.js:56-60 | for a camel-case class name, lower-casing the first letter of the caption's class part and dropping the inserted spaces gives the class name back |
| `Labels.LabelOla` | frontend/src/FareResults.js:52-61 | ola with primeSedan is captioned "Ola Prime Sedan" |
| `Labels.LabelUber` | frontend/src/FareResults.js:52-61 | uber with uberXL is captioned "Uber Uber X L" |
| `Labels.LabelRedTaxi` | frontend/src/FareResults.js:52-61 | redTaxi with micro is captioned "RedTaxi Micro" |
| `Rides.CategoryFor` | frontend/src/FareResults.js:42-50 | the category is one of the chips other than "All", and it is "Auto" exactly when the class name contains "auto" in any case |
| `Rides.CategoryPriority` | frontend/src/FareResults.js:45-49 | "Cab XL", "Cab Premium" and "Cab Economy" are each characterised exactly by the order of the tests |
| `Rides.CategoryIgnoresCase` | frontend/src/FareResults.js:43 | a class name and its lower-cased form fall in the same category |
| `Rides.RateCardCategories` | frontend/src/FareResults.js:42-50 | primeSUV and uberXL are "Cab XL", primeSedan is "Cab Premium", auto is "Auto" and micro is "Cab Economy" |
| `Rides.Flatten` | frontend/src/FareResults.js:87-100 | the rides are listed service by service and class by class, one per (service, class) pair |
| `Rides.FlattenAppend` | frontend/src/FareResults.js:89-99 | flattening a concatenation of services concatenates their rides |
| `Rides.AllRides` | frontend/src/FareResults.js:87-100 | the nested pushes build exactly the flattened table, service by service and class by class; no fares gives no rides |
| `Rides.PushServiceRides` | frontend/src/FareResults.js:90-98 | the inner loop pushes one ride per class of one service, in order |
| `Rides.FlattenOnePerPair` | frontend/src/FareResults.js:87-100 | exactly one ride per (service, class) pair: the count matches, every pair has its ride, and every ride comes from a pair |
| `Rides.FlattenHasEveryPair` | frontend/src/FareResults.js:87-100 | every pair appears as a ride that carries its price |
| `Rides.FlattenOnlyPairs` | frontend/src/FareResults.js:87-100 | every ride comes from some pair |
| `Rides.ElevenRides` | frontend/src/FareResults.js:87-100 | the backend's fare table flattens to eleven rides |
| `Rides.Select` | frontend/src/FareResults.js:103 | a ride of the chosen category (any ride for "All") is kept exactly as often as it occurs, and any other ride is dropped |
| `Rides.InsertByPrice` | frontend/src/FareResults.js:104 | inserting into a price-sorted list keeps it sorted and adds exactly that ride |
| `Rides.SortByPrice` | frontend/src/FareResults.js:104 | the sorted list is in non-decreasing price order and is a permutation of its input |
| `Rides.Filtered` | frontend/src/FareResults.js:102-104 | `filtered` is in non-decreasing price order and holds each selected ride exactly as often as `allRides` does, and no other ride |
| `Rides.FilteredSpec` | frontend/src/FareResults.js:102-104 | `filtered` holds exactly the selected rides, each as often as in the input, in non-decreasing price order; for "All" it is a permutation of every ride |
| `Rides.AllSelected` | frontend/src/FareResults.js:103 | the "All" filter keeps the whole list as it is |
| `Rides.MinPrice` | frontend/src/FareResults.js:106 | the minimum is the price of some ride and no ride is cheaper |
| `Rides.CheapestPrice` | frontend/src/FareResults.js:106 | null exactly for an empty list, and otherwise the minimum price |
| `Rides.IsCheapest` | frontend/src/FareResults.js:144 | a ride is flagged exactly when there is a cheapest price and the ride is within 0.01 of it |
| `Rides.FirstIsCheapest` | frontend/src/FareResults.js:144 | the first ride shown is always flagged cheapest, and no flagged ride costs more than 0.01 above any listed ride |

## Left out

- Network I/O is not modelled: the geocoder and router requests, their timeouts, and the whole `/suggest` endpoint. Their answers are `Option` inputs. `None` covers an error, a timeout, an empty answer and an unparsable coordinate alike, as the handler treats them.
- `delay(1100)` is modelled only as a `Wait` call between the two geocoder calls. Its wall-clock effect is not modelled.
- Estimation.Calculate: the body of `haversineKm` is not modelled. Its trigonometry is a function parameter known only to be non-negative.
- Estimation.Calculate: the exception path is selected by a `defect` input. The model does not say which statement throws, because every external call has its own `catch`.
- Estimation.Recovery: `haversineKm(...) || 12` is modelled for a zero distance only. Reals have no NaN.
- Estimation.Calculate: `toFixed(2)` on the reported distance and duration is not modelled, and neither is the exact JSON layout. The estimate carries the unrounded numbers.
- Estimation.TrimmedField: a missing request body, whose destructuring throws outside the handler's `try`, is not modelled. A non-string field is modelled as `None`.
- Console logging, Express setup, CORS and `app.listen` are not modelled.
- The clock is not modelled. `getHours` becomes an `Hour` parameter.
- Floating point is not modelled. Amounts are exact reals, so IEEE rounding of the products and of `Math.round(x * 100) / 100` is not captured.
- Text.LowerChar, Text.UpperChar, Text.Lower: `toLowerCase` and `toUpperCase` are modelled for ASCII letters only. The class and service names the code compares are ASCII, but the geocoding query is free text. For example, JavaScript lower-cases U+212A KELVIN SIGN to `k`, so a query of U+212A followed by "ovai" finds Coimbatore in the source; `Gazetteer.Lookup` finds nothing for it.
- Fares.MinFare: keys inherited from `Object.prototype` (such as `"constructor"`) are treated as missing. In JavaScript they would produce NaN. The rate card never uses such a key.
- PriceDisplay.HashState: the seed string ``${service}:${type}:${distanceKm}`` is not modelled, because it needs JavaScript number-to-string conversion. The hash takes the UTF-16 code units directly. The xor and `Math.imul` of one round are combined in `FnvStep`.
- The cosmetic jitter of `formatEstimatedPrice` is not modelled: the `showRange` choice, `r % 0.07`, and the approximate single price. Nor is its string formatting. Only the step, the rounding and the order of the range ends are modelled.
- Rides.SortByPrice: the insertion sort is stable like `Array.prototype.sort`, but stability is not stated in its contract. Only sortedness and permutation are proved.
- Rides.Select: its contract does not state that `filter` keeps the input order. Membership and exact multiplicity are proved, and the list is sorted next anyway.
- The React rendering and selection state of `FareResults` are not part of this model. Neither are `frontend/src/App.js` and `frontend/src/MapComponent.js`.
