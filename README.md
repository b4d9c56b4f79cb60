# Paragliding forecast core, modelled in Dafny

The project takes one weather sample per launch site and day and turns it into a flying recommendation. It does this in two places:

- the batch script `scripts/fetch-weather.ts`, the newer copy;
- the web application's service `project/src/services/weatherService.ts`, an older copy.

Both copies run the same pipeline:

1. pick the hourly sample closest to noon, from 10:00–14:00;
2. derive the cloud base (LCL) and the trigger temperature (TCON);
3. score thermal strength on a 0–10 tiered scale;
4. estimate the top of usable lift;
5. match the wind direction against the site's orientation sector;
6. classify soaring, thermal and overall flyability as good, marginal or poor, with a reason;
7. assemble seven day records per site, using a "no data" placeholder where no model produced a day.

The script also rates cross-country (XC) potential. The service also suggests a launch time and labels bearings with 16-point compass names.

The model has three modules:

- `Common` (`common.dfy`) holds the JavaScript primitives the rules are built from:
  - `Math.round`, which rounds halves towards +∞;
  - rounding to one decimal;
  - `Math.min` and `Math.max`;
  - truthiness of an optional number, with `|| 0` and `|| undefined`;
  - JavaScript's `%`, where the remainder takes the sign of the dividend.

  It also holds `Option` and the three-valued `Flyability`.
- `FetchWeather` (`fetch_weather.dfy`) models the script.
- `WeatherService` (`weather_service.dfy`) models the service.

The two rule sets are kept apart:

- the soaring limits differ;
- the orientation tables differ;
- the top-of-lift algorithms differ;
- so do the day records.

Where the service's code is the script's, line for line, the service module calls the script module's members, and their rows in the table below stand for both copies:

- `calculateLCL` (project/src/services/weatherService.ts:418-431) is `FetchWeather.CalculateLCL`;
- `calculateThermalStrength` (433-486) is `FetchWeather.CalculateThermalStrength`;
- `analyzeRain` (520-565) is `FetchWeather.AnalyzeRain`;
- the noon-sample search (152-173 and 287-306) is `FetchWeather.SelectNoonIndex`.

Lemmas show that the service's thermal and overall classifiers agree with the script's. These two were copied over because the service's site record has no site type.

**How state is modelled**

- Quantities are `real`.
- Site elevation is an `int`, because every site in the tables has a whole-foot elevation. The record-level floor depends on this: a computed record's rounded `topOfLift` is at least launch + 500 ft only because launch + 500 is a whole number. With a fractional elevation, `Math.round` could put it up to half a foot under.
- Code that builds its result through successive assignments is a `method` proved equal to a specification `function`. This covers:
  - the thermal-strength accumulator;
  - the wind reduction;
  - both top-of-lift computations.
- Every `forEach`, `reduce` and `for` loop is a `method` with loop invariants, proved against a function. This covers:
  - the candidate-index collection;
  - the closest-to-noon reduction;
  - the hourly extraction;
  - the rain-hour collection;
  - the per-site seven-day loop;
  - the service's loop over sites.
- Each hourly sample is a row whose date key and local hour are already parsed.
- Message strings are datatypes that carry the numbers they print (`Conditions`, `XcReason`, `RainInfo`).

**Behaviour of the code worth knowing**

- Neither copy picks a best launch hour from the hourly data. The script always writes `'12:00 PM'`, and the service uses only its rule table. See `FetchWeather.WellFormedDay` and `WeatherService.CalculateLaunchTime`.
- Today and tomorrow do not fall back to the seven-day model when the short-range response has no usable sample. They become the placeholder instead, once the short-range fetch has returned data (`FetchWeather.NoFallbackForShortRangeDays`).
- The placeholder record does not have the same shape as a computed record. In both copies it has no rain summary and no boundary-layer depth. The script's placeholder also has no hourly data.
- The script's thermal classifier has a cloud-cover rule, but that rule returns what the fall-through returns, so cloud cover never matters (`FetchWeather.ThermalFlyabilityIgnoresCloudCover`).
- The near-adiabatic branch of the script's top-of-lift estimate cannot be reached (`FetchWeather.NearAdiabaticBranchUnreachable`). Every lapse rate the estimator returns is at most 5.0, so the difference from 5.4 is always more than 0.3.

## Model

| member | source | states |
|---|---|---|
| Common.Round | scripts/fetch-weather.ts:111 | `Math.round` lands within half a unit of its argument |
| Common.RoundTenth | scripts/fetch-weather.ts:229 | rounding to one decimal stays within 0.05 and has one decimal digit |
| Common.JsRem | project/src/services/weatherService.ts:823 | JavaScript `%`: magnitude below the divisor, Euclidean remainder for non-negative dividends, sign of the dividend otherwise |
| Common.RoundMonotone | scripts/fetch-weather.ts:111 | `Math.round` is monotone |
| Common.RoundShift | project/src/services/weatherService.ts:823 | rounding commutes with adding a whole number |
| FetchWeather.CalculateLCL | scripts/fetch-weather.ts:104-112 | cloud base never below launch + 500 ft; equals launch + spread·125·5/9·3.28084 ft once the spread is ≥ 2.2 °F; at zero spread the base is launch + 500 ft and TCON is the rounded dew point; when the temperature is at least the dew point, TCON is at least the temperature − 0.5 (rounding can put it just under) |
| FetchWeather.CalculateLCLMonotone | scripts/fetch-weather.ts:104-112 | a warmer surface never lowers the cloud base or TCON |
| FetchWeather.EstimateEnvLapseRate | scripts/fetch-weather.ts:115-122 | rate is one of the six steps in [2.5, 5.0]; 2.5 whenever the lifted index is ≥ 4; 5.0 exactly when LI < −4 and CAPE > 1000 |
| FetchWeather.NearAdiabaticBranchUnreachable | scripts/fetch-weather.ts:154-160 | 5.4 minus any estimated rate exceeds 0.3, so the `lapseRateDiff <= 0.3` branch never runs |
| FetchWeather.WindPenalty | scripts/fetch-weather.ts:126-128 | deduction is 0, 300, 600 or 1000 ft; none up to 10 mph, 1000 ft exactly above 20 mph |
| FetchWeather.WindPenaltyMonotone | scripts/fetch-weather.ts:126-128 | more wind never deducts less |
| FetchWeather.WindReduced | scripts/fetch-weather.ts:124-130 | reduced top never below launch + 500 ft, at most half a foot above the input (or the floor), at most 1000.5 ft below it |
| FetchWeather.ApplyWindReduction | scripts/fetch-weather.ts:124-130 | the step-by-step reduction equals WindReduced, so it is floored at launch + 500 ft |
| FetchWeather.ThermalDepthAgl | scripts/fetch-weather.ts:157-164 | thermal depth from lapse rate and inversion is between 1000 and 7000 ft |
| FetchWeather.WeakThermalScaledBelow | scripts/fetch-weather.ts:170-173 | the weak-thermal factor never raises a top that is at or above launch |
| FetchWeather.WindReducedBelow | scripts/fetch-weather.ts:124-130 | a top at least 500 ft under the cloud base stays under it after the wind reduction |
| FetchWeather.TopOfUsableLift | scripts/fetch-weather.ts:132-176 | top of usable lift never below launch + 500 ft, on the boundary-layer path and on the lapse-rate path |
| FetchWeather.TopOfUsableLiftBelowCloudBase | scripts/fetch-weather.ts:146-175 | when the cloud base is at least launch + 500 ft, the top never exceeds the cloud base (cap plus 500 ft sink allowance) |
| FetchWeather.CalculateTopOfUsableLift | scripts/fetch-weather.ts:132-176 | the reassigning computation equals TopOfUsableLift and is floored at launch + 500 ft |
| FetchWeather.SpreadPoints | scripts/fetch-weather.ts:190-197 | spread tier in [0, 5]: nothing up to 6 °F, 5 points exactly above 45 °F |
| FetchWeather.SpreadPointsMonotone | scripts/fetch-weather.ts:190-197 | a larger spread never scores less |
| FetchWeather.TemperaturePoints | scripts/fetch-weather.ts:199-204 | temperature tier in [−1, 2]: −1 exactly below 60 °F, 0 at exactly 60 °F, 2 exactly above 90 °F |
| FetchWeather.CapePoints | scripts/fetch-weather.ts:206-209 | CAPE tier in [−0.5, 1.5] with each band's value stated both ways |
| FetchWeather.LiftedIndexPoints | scripts/fetch-weather.ts:211-214 | first match wins: every LI > 2 (also > 4) subtracts exactly 1, the −1.5 branch never contributes |
| FetchWeather.BoundaryLayerPoints | scripts/fetch-weather.ts:216-217 | no contribution without a truthy depth; +0.5 exactly above 8000, −0.5 exactly below 3000 |
| FetchWeather.ElevationPoints | scripts/fetch-weather.ts:219-221 | elevation tier in [0, 1], zero exactly between 2000 and 3000 ft |
| FetchWeather.WindPoints | scripts/fetch-weather.ts:223-227 | wind tier in [−2, 0.5] with the overlapping 8–15 / 5–10 bands resolved first-match |
| FetchWeather.RawThermalScore | scripts/fetch-weather.ts:187-227 | the unclamped sum lies in [−5.5, 11.5] |
| FetchWeather.ThermalStrength | scripts/fetch-weather.ts:229 | the clamped score lies in [0, 10] with one decimal |
| FetchWeather.CalculateThermalStrength | scripts/fetch-weather.ts:178-230 | the accumulating computation equals ThermalStrength: in [0, 10], one decimal |
| FetchWeather.CheckWindDirectionMatch | scripts/fetch-weather.ts:232-257 | an orientation not in the 18-entry table never matches; a match implies a bearing in [0, 360] |
| FetchWeather.SouthWestToWestExample | scripts/fetch-weather.ts:241 | 260° matches "SW-W", 90° does not |
| FetchWeather.DetermineSoaringFlyability | scripts/fetch-weather.ts:259-272 | never marginal; good exactly when the direction matches, wind is 8..maxWind and gust ≤ maxWind; poor on a mismatch |
| FetchWeather.DetermineThermalFlyability | scripts/fetch-weather.ts:274-293 | poor on mismatch, deficit > 15 or wind over the limit; good exactly when the direction matches, strength ≥ 5, deficit ≤ 5 and wind is 3..maxWind; marginal only for strength > 6 in wind under 3 mph or strength ≥ 3 with deficit ≤ 8 |
| FetchWeather.ThermalFlyabilityIgnoresCloudCover | scripts/fetch-weather.ts:282-283 | the verdict is the same for every cloud cover |
| FetchWeather.DetermineFlyability | scripts/fetch-weather.ts:295-351 | verdict and reason agree; mismatch gives poor "Wind direction unfavorable"; then deficit > 15 poor "Too cool"; then deficit in (8, 12] marginal and (12, 15] poor "Cool"; then over the limit poor "Too strong"; good requires strength ≥ 5, deficit ≤ 5, wind in [2, 0.8·maxWind], gust ≤ 1.5·maxWind and no overcast-with-stable-air; strength ≥ 7, deficit ≤ 3, wind in [2, 0.7·maxWind] with those gust and cloud conditions is good |
| FetchWeather.CalculateXCPotential | scripts/fetch-weather.ts:353-370 | ridge-soaring sites are always low "Ridge site"; high exactly when strength ≥ 7, ceiling AGL ≥ 4000 and wind ≤ 15 on a non-soaring site; moderate exactly under the stated alternatives; "Low ceiling" only under 2000 ft AGL |
| FetchWeather.CandidateIndices | scripts/fetch-weather.ts:528-536 | the collected indices are exactly the rows of the target date with hour 10–14, in increasing order |
| FetchWeather.NoonIndex | scripts/fetch-weather.ts:528-546 | the chosen sample, when there is one, is a candidate row |
| FetchWeather.ReduceClosest | scripts/fetch-weather.ts:542-546 | the `reduce` fold (a later index replaces the kept one only when strictly closer to 12:00) returns one of the candidates |
| FetchWeather.ReduceClosestPosition | scripts/fetch-weather.ts:542-546 | the reduction returns the first candidate with the least distance from 12:00 |
| FetchWeather.NoonIndexNoneIff | scripts/fetch-weather.ts:538-540 | no sample exactly when no row of the date has hour 10–14 |
| FetchWeather.NoonIndexIsChoice | scripts/fetch-weather.ts:542-546 | the chosen sample minimises |hour − 12| and beats every earlier candidate strictly (earliest on ties) |
| FetchWeather.NoonChoiceUnique | scripts/fetch-weather.ts:542-546 | at most one index satisfies that characterisation |
| FetchWeather.NoonSampleWins | scripts/fetch-weather.ts:542-546 | when the date has a 12:00 row, a 12:00 row is chosen |
| FetchWeather.CollectTargetIndices | scripts/fetch-weather.ts:528-536 | the forEach loop computes CandidateIndices |
| FetchWeather.ReduceToClosest | scripts/fetch-weather.ts:542-546 | the reduce loop computes the closest-to-noon candidate |
| FetchWeather.SelectNoonIndex | scripts/fetch-weather.ts:528-546 | collection plus reduction computes NoonIndex |
| FetchWeather.HourlyPoints | scripts/fetch-weather.ts:418-448 | the breakdown has no more points than rows, all between 06:00 and 18:00 |
| FetchWeather.HourlyPointSource | scripts/fetch-weather.ts:425-444 | every point comes from a row of the date in the 06–18 window |
| FetchWeather.HourlyPointPresent | scripts/fetch-weather.ts:425-444 | every row of the date in the window yields its point |
| FetchWeather.ExtractHourlyData | scripts/fetch-weather.ts:418-448 | the forEach loop computes HourlyPoints |
| FetchWeather.RainHours | scripts/fetch-weather.ts:375-387 | no more rain hours than rows |
| FetchWeather.RainHourSource | scripts/fetch-weather.ts:375-387 | every rain hour comes from a row of the date with precipitation > 0.01 or probability > 40 |
| FetchWeather.RainHourPresent | scripts/fetch-weather.ts:375-387 | every such row yields a rain hour |
| FetchWeather.CountBetween | scripts/fetch-weather.ts:391-393 | a window count never exceeds the number of rain hours |
| FetchWeather.MinHour | scripts/fetch-weather.ts:405-406 | the earliest rain hour is one of them and no later than any |
| FetchWeather.MaxHour | scripts/fetch-weather.ts:405-407 | the latest rain hour is one of them and no earlier than any |
| FetchWeather.RainyPeriods | scripts/fetch-weather.ts:399-402 | morning / afternoon / evening are listed exactly when 3 / 3 / 2 rain hours fall in them |
| FetchWeather.SummarizeRain | scripts/fetch-weather.ts:389-415 | nothing exactly without rain hours; "all day" exactly from 10 hours; otherwise the named periods exactly when some period has enough rain; without a period, "around" exactly when all rain hours are the same hour, else the span from the earliest to the latest rain hour (both endpoints are rain hours, all hours lie between) |
| FetchWeather.AnalyzeRain | scripts/fetch-weather.ts:372-416 | the collecting loop computes SummarizeRain of the rain hours |
| FetchWeather.ForecastFromSample | scripts/fetch-weather.ts:548-646 | every computed day: top ≥ launch + 500, strength in [0, 10] with one decimal, soaring never marginal, mismatch makes all three poor, good needs strength ≥ 5, reason agrees, launch time '12:00 PM', ridge sites low XC, hourly points within 06–18 |
| FetchWeather.DayForecast | scripts/fetch-weather.ts:515-647 | no record without an hourly block, and none exactly when no row of the date has hour 10–14; every record produced is well formed |
| FetchWeather.ProcessDataForDay | scripts/fetch-weather.ts:515-647 | equals DayForecast: none without an hourly block or a 10–14 sample, else the record of the chosen sample |
| FetchWeather.BuildDayForecast | scripts/fetch-weather.ts:548-646 | the step-by-step record equals ForecastFromSample |
| FetchWeather.Sentinel | scripts/fetch-weather.ts:699-721 | the placeholder: top = site elevation, all three verdicts poor, '12:00 PM', "Forecast not available", low / "No data", no hourly or rain data; never a well-formed day |
| FetchWeather.DayRecord | scripts/fetch-weather.ts:687-723 | the day's record carries its date and is the placeholder or a well-formed day; with both fetches failed it is the placeholder |
| FetchWeather.DayRecordShape | scripts/fetch-weather.ts:686-723 | each day carries its date and is either well formed or the placeholder, and the reason tells which |
| FetchWeather.NoFallbackForShortRangeDays | scripts/fetch-weather.ts:690-694 | today and tomorrow become the placeholder when the short-range response has no usable sample, whatever the seven-day model holds |
| FetchWeather.ForecastDay | scripts/fetch-weather.ts:687-723 | one loop pass yields DayRecord |
| FetchWeather.FetchWeatherForSite | scripts/fetch-weather.ts:649-730 | exactly seven records, record i is DayRecord for date i, in date order |
| WeatherService.StrengthBandTop | project/src/services/weatherService.ts:501-509 | band relative to cloud base: +1000 from strength 7, +500 from 5, −500 from 3, at least launch + 500 below 3 |
| WeatherService.WindDeduction | project/src/services/weatherService.ts:511-515 | 0, 400 or 800 ft: none up to 10 mph, 800 exactly above 15 mph |
| WeatherService.TopOfLift | project/src/services/weatherService.ts:488-518 | never below launch + 500 ft; within 800 ft below the band; equals the floored band in wind ≤ 10 mph |
| WeatherService.StrongThermalsTopAboveCloudBase | project/src/services/weatherService.ts:501-504 | unlike the script, strength ≥ 5 in light wind puts the top at least 500 ft above the cloud base |
| WeatherService.TopOfLiftMonotoneFromThree | project/src/services/weatherService.ts:501-506 | from strength 3 upwards more strength never lowers the top |
| WeatherService.WeakBandCanExceedModerateBand | project/src/services/weatherService.ts:505-508 | across strength 3 the top can drop (launch + 600 at 2.9, launch + 500 at 3 with a 1000 ft cloud base) |
| WeatherService.CalculateTopOfLift | project/src/services/weatherService.ts:488-518 | the reassigning computation equals TopOfLift, whose parameters do not include blDepth: the boundary-layer assignment is always overwritten |
| WeatherService.CheckWindDirectionMatch | project/src/services/weatherService.ts:567-589 | an orientation not in the 14-entry table never matches |
| WeatherService.NewerOrientationsNeverMatch | project/src/services/weatherService.ts:567-589 | "SSW", "S-NW", "SSE-WNW" and "NE-SE" are unknown here and never match |
| WeatherService.DetermineSoaringFlyability | project/src/services/weatherService.ts:639-655 | poor on mismatch, wind < 8 or > 20, gust > 20; good exactly for 10–14 mph with gust ≤ 20; marginal exactly for the rest of 8–20 |
| WeatherService.SoaringIgnoresSite | project/src/services/weatherService.ts:639-655 | the verdict does not depend on the site (fixed 20 mph limits) |
| WeatherService.DetermineThermalFlyability | project/src/services/weatherService.ts:657-681 | poor on mismatch, deficit > 15 or wind over the limit; strength ≥ 5, deficit ≤ 5, wind 3..maxWind gives good and good implies it |
| WeatherService.ThermalFlyabilityAgreesWithScript | project/src/services/weatherService.ts:657-681 | equals the script's thermal classifier for the same limits |
| WeatherService.DetermineFlyability | project/src/services/weatherService.ts:683-740 | verdict and reason agree; mismatch, too cool and cool rules in order as in the script; good requires strength ≥ 5, deficit ≤ 5, wind in [2, 0.8·maxWind], gust ≤ 1.5·maxWind |
| WeatherService.FlyabilityAgreesWithScript | project/src/services/weatherService.ts:683-740 | equals the script's overall classifier for the same limits |
| WeatherService.CalculateLaunchTime | project/src/services/weatherService.ts:591-637 | one of seven fixed times; thermal-good/soaring-poor gives 11:00 (strength ≥ 7), 11:30 or 12:00 (strength < 5); soaring-good/thermal-poor gives 9:00 exactly from 15 mph, else 10:00 or 10:30; both poor gives 12:00 PM; 1:00 PM only for marginal thermals with deficit > 5 |
| WeatherService.GetWindDirection | project/src/services/weatherService.ts:821-824 | a label exactly unless the rounded index is negative and not a multiple of 16; every non-negative bearing gets one of the 16 labels; the label is the rounded index mod 16 |
| WeatherService.CompassExamples | project/src/services/weatherService.ts:821-824 | 0°, 350° and 360° read N; 90° E; 180° S; 270° W; −20° has no label |
| WeatherService.NorthSector | project/src/services/weatherService.ts:821-824 | every bearing in [348.75, 360] or [0, 11.25) reads N |
| WeatherService.WindDirectionFullTurn | project/src/services/weatherService.ts:821-824 | adding 360° to a non-negative bearing keeps its label |
| WeatherService.ForecastFromSample | project/src/services/weatherService.ts:173-270 | every computed day: top ≥ launch + 500, strength in [0, 10] with one decimal, mismatch makes all three poor, good needs strength ≥ 5, reason agrees, launch time from the fixed set, no boundary-layer depth |
| WeatherService.DayForecast | project/src/services/weatherService.ts:279-416 | no record without an hourly block, and none exactly when no row of the date has hour 10–14; every record produced is well formed |
| WeatherService.ProcessDataForDay | project/src/services/weatherService.ts:279-416 | equals DayForecast (both processors: CAPE and LI from the short-range rows with `|| 0`, zero for the seven-day model) |
| WeatherService.BuildDayForecast | project/src/services/weatherService.ts:173-270 | the step-by-step record equals ForecastFromSample |
| WeatherService.Sentinel | project/src/services/weatherService.ts:787-808 | the placeholder: top = site elevation, all three verdicts poor, '12:00 PM', "Forecast not available"; never a well-formed day |
| WeatherService.DayRecord | project/src/services/weatherService.ts:772-810 | the day's record carries its date and is the placeholder or a well-formed day; with both fetches failed it is the placeholder |
| WeatherService.DayRecordShape | project/src/services/weatherService.ts:772-810 | each day carries its date, a launch time from the fixed set, and is either well formed or the placeholder, told apart by the reason |
| WeatherService.ForecastDay | project/src/services/weatherService.ts:773-809 | one pass of the per-day loop yields DayRecord |
| WeatherService.ForecastSite | project/src/services/weatherService.ts:770-810 | exactly seven records per site, record i is DayRecord for date i |
| WeatherService.GetWeatherForecast | project/src/services/weatherService.ts:742-819 | one forecast per site in site order, each the site's seven day records |

## Left out

- The HTTP fetches are I/O, so they are parameters of the model: each model response is an `Option`, and None stands for a failed or absent fetch. This covers `fetchHRRRData` and `fetchECMWFData` in both files.
- The service's response cache and its rate limiting are clock-based state. A cached response appears only as the `Some` value the fetch parameter carries.
- The delays, logging and the JSON file write in the script's `main` are I/O.
- Dates and time zones are not modelled: `new Date`, `toISOString`, `getHours` and the Pacific-date helper. Hourly rows arrive already parsed into a date key and a local hour, and the seven target dates are a parameter.
- The wording of the message strings is not modelled. The `Conditions`, `XcReason` and `RainInfo` constructors carry the numbers a message would print. So does the hour formatting in the rain summary.
- The service's 850/700 mb wind fields are left out, because they are always undefined.
- Exceptions are not modelled. The `try`/`catch` around day processing turns a thrown error into null, and so into the placeholder. The model assumes well-typed rows with every field present, so a response with a missing array cannot be expressed.
- Site orientations are assumed to be ordinary strings. An orientation that names a built-in property of JavaScript objects (`constructor`, `toString`, `valueOf`, `__proto__`, …) makes the table lookup return a non-array, so `ranges.some` throws and the day becomes the placeholder. In the model such an orientation is simply not in the table: `FetchWeather.CheckWindDirectionMatch` and `WeatherService.CheckWindDirectionMatch` return false, and a computed day is produced.
- Arithmetic is exact over reals, not IEEE-754 doubles.
- The service's loop runs over its fixed site table; in the model the list of sites is a parameter.
- Presentation code, the document generators and the site tables are not part of this model.
- FetchWeather.WindReduced: the bounds around the input are stated with half-foot slack, because of the `Math.round` inside the floor.
