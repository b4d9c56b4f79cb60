/**
 * The forecasting core of the web application's weather service
 * (project/src/services/weatherService.ts), an older copy of the batch
 * script's rules.
 *
 * Where the service's code is textually the script's (cloud base and TCON,
 * the thermal-strength accumulator, the rain summary and the midday-sample
 * search), the members of FetchWeather are used directly. What differs has
 * its own definitions here: the top-of-lift bands, the smaller orientation
 * table, the soaring rule with fixed 20 mph limits, the launch-time table,
 * the compass labels, the day record without XC fields, and the loop over
 * all sites.
 */
module WeatherService {
  import opened Common
  import FW = FetchWeather

  // ---------------------------------------------------------------------
  // Data model
  // ---------------------------------------------------------------------

  /** Static launch-site descriptor of the web application (no site type). */
  datatype LaunchSite = LaunchSite(
    id: string,
    name: string,
    elevation: int,
    latitude: real,
    longitude: real,
    orientation: string,
    maxWind: real)

  /**
   * One day of a site forecast. The 850/700 mb wind fields are always
   * undefined in this copy and are not represented.
   */
  datatype WeatherCondition = WeatherCondition(
    date: string,
    windSpeed: real,
    windDirection: real,
    windGust: real,
    temperature: real,
    dewPoint: real,
    tcon: real,
    thermalStrength: real,
    topOfLift: real,
    flyability: Flyability,
    conditions: FW.Conditions,
    soaringFlyability: Flyability,
    thermalFlyability: Flyability,
    launchTime: string,
    blDepth: Option<real>,
    cape: real,
    liftedIndex: real,
    convergence: real,
    relativeHumidity: real,
    cloudCover: real,
    windDirectionMatch: bool,
    rainInfo: Option<FW.RainInfo>)

  datatype SiteForecast = SiteForecast(site: LaunchSite, forecast: seq<WeatherCondition>)

  // ---------------------------------------------------------------------
  // Top of lift: strength bands around the cloud base
  // ---------------------------------------------------------------------

  /** Height of the strength band relative to the cloud base, before the wind. */
  function StrengthBandTop(lclMSL: real, thermalStrength: real, elevationFt: real): (top: real)
    ensures thermalStrength >= 7.0 ==> top == lclMSL + 1000.0
    ensures 5.0 <= thermalStrength < 7.0 ==> top == lclMSL + 500.0
    ensures 3.0 <= thermalStrength < 5.0 ==> top == lclMSL - 500.0
    ensures thermalStrength < 3.0 ==> top >= elevationFt + 500.0
  {
    if thermalStrength >= 7.0 then lclMSL + 1000.0
    else if thermalStrength >= 5.0 then lclMSL + 500.0
    else if thermalStrength >= 3.0 then lclMSL - 500.0
    else elevationFt + Max(500.0, (lclMSL - elevationFt) * 0.6)
  }

  /** Feet taken off by the wind. */
  function WindDeduction(windSpeed: real): (feet: real)
    ensures feet in {0.0, 400.0, 800.0}
    ensures windSpeed <= 10.0 <==> feet == 0.0
    ensures windSpeed > 15.0 <==> feet == 800.0
  {
    if windSpeed > 15.0 then 800.0
    else if windSpeed > 10.0 then 400.0
    else 0.0
  }

  /** Top of lift, feet MSL; the boundary-layer depth plays no part (see CalculateTopOfLift). */
  function TopOfLift(lclMSL: real, thermalStrength: real, windSpeed: real, elevationFt: real): (r: real)
    ensures r >= elevationFt + 500.0
    ensures r >= StrengthBandTop(lclMSL, thermalStrength, elevationFt) - 800.0
    ensures r <= Max(elevationFt + 500.0, StrengthBandTop(lclMSL, thermalStrength, elevationFt))
    ensures windSpeed <= 10.0 ==> r == Max(elevationFt + 500.0, StrengthBandTop(lclMSL, thermalStrength, elevationFt))
  {
    Max(elevationFt + 500.0, StrengthBandTop(lclMSL, thermalStrength, elevationFt) - WindDeduction(windSpeed))
  }

  /**
   * Unlike the script, this copy puts the top of lift above the cloud base
   * for thermals of strength 5 or more in light wind.
   */
  lemma StrongThermalsTopAboveCloudBase(lclMSL: real, thermalStrength: real, windSpeed: real, elevationFt: real)
    requires lclMSL >= elevationFt + 500.0
    requires thermalStrength >= 5.0 && windSpeed <= 10.0
    ensures TopOfLift(lclMSL, thermalStrength, windSpeed, elevationFt) >= lclMSL + 500.0
  {
  }

  /** From strength 3 upwards a stronger thermal never lowers the top of lift. */
  lemma TopOfLiftMonotoneFromThree(lclMSL: real, s1: real, s2: real, windSpeed: real, elevationFt: real)
    requires 3.0 <= s1 <= s2
    ensures TopOfLift(lclMSL, s1, windSpeed, elevationFt) <= TopOfLift(lclMSL, s2, windSpeed, elevationFt)
  {
  }

  /**
   * Below strength 3 the band is 60% of the cloud-base height, which can
   * lie above the 3-to-5 band (cloud base - 500 ft): with the cloud base
   * 1000 ft above launch, strength 2.9 gives launch + 600 ft and strength
   * 3 gives launch + 500 ft.
   */
  lemma WeakBandCanExceedModerateBand()
    ensures TopOfLift(1000.0, 2.9, 5.0, 0.0) == 600.0
    ensures TopOfLift(1000.0, 3.0, 5.0, 0.0) == 500.0
  {
  }

  /**
   * The top of lift, by successive reassignments. The boundary-layer
   * assignment is overwritten by the strength band in every case, so the
   * result equals TopOfLift whatever blDepth is.
   */
  method CalculateTopOfLift(
    lclMSL: real, thermalStrength: real, windSpeed: real, elevationFt: real, blDepth: Option<real>)
    returns (r: real)
    ensures r == TopOfLift(lclMSL, thermalStrength, windSpeed, elevationFt)
  {
    var topOfLift := lclMSL;

    if Truthy(blDepth) {
      topOfLift := Max(topOfLift, elevationFt + blDepth.value * 0.9);
    }

    if thermalStrength >= 7.0 {
      topOfLift := lclMSL + 1000.0;
    } else if thermalStrength >= 5.0 {
      topOfLift := lclMSL + 500.0;
    } else if thermalStrength >= 3.0 {
      topOfLift := lclMSL - 500.0;
    } else {
      topOfLift := elevationFt + Max(500.0, (lclMSL - elevationFt) * 0.6);
    }

    if windSpeed > 15.0 {
      topOfLift := topOfLift - 800.0;
    } else if windSpeed > 10.0 {
      topOfLift := topOfLift - 400.0;
    }

    r := Max(elevationFt + 500.0, topOfLift);
  }

  // ---------------------------------------------------------------------
  // Wind-direction match (the older, smaller table)
  // ---------------------------------------------------------------------

  const OrientationRanges: map<string, seq<FW.Sector>> := map[
    "N" := [FW.Sector(345.0, 360.0), FW.Sector(0.0, 15.0)],
    "NE" := [FW.Sector(15.0, 75.0)],
    "E" := [FW.Sector(75.0, 105.0)],
    "SE" := [FW.Sector(105.0, 165.0)],
    "S" := [FW.Sector(165.0, 195.0)],
    "SW" := [FW.Sector(195.0, 255.0)],
    "W" := [FW.Sector(255.0, 285.0)],
    "NW" := [FW.Sector(285.0, 345.0)],
    "SW-W" := [FW.Sector(195.0, 285.0)],
    "W-NW" := [FW.Sector(245.0, 345.0)],
    "SW-NW" := [FW.Sector(195.0, 345.0)],
    "W-SW" := [FW.Sector(225.0, 285.0)],
    "E-SE" := [FW.Sector(75.0, 165.0)],
    "NW-N" := [FW.Sector(315.0, 360.0), FW.Sector(0.0, 15.0)]
  ]

  function CheckWindDirectionMatch(windDir: real, siteOrientation: string): (r: bool)
    ensures siteOrientation !in OrientationRanges ==> !r
  {
    if siteOrientation !in OrientationRanges then false
    else
      var ranges := OrientationRanges[siteOrientation];
      exists i :: 0 <= i < |ranges| && ranges[i].min <= windDir <= ranges[i].max
  }

  /** The composite orientations the script added are unknown here and never match. */
  lemma NewerOrientationsNeverMatch(windDir: real)
    ensures !CheckWindDirectionMatch(windDir, "SSW")
    ensures !CheckWindDirectionMatch(windDir, "S-NW")
    ensures !CheckWindDirectionMatch(windDir, "SSE-WNW")
    ensures !CheckWindDirectionMatch(windDir, "NE-SE")
  {
    assert "SSW" !in OrientationRanges;
    assert "S-NW" !in OrientationRanges;
    assert "SSE-WNW" !in OrientationRanges;
    assert "NE-SE" !in OrientationRanges;
  }

  // ---------------------------------------------------------------------
  // Flyability classifiers
  // ---------------------------------------------------------------------

  /** Ridge-soaring verdict with limits fixed at 20 mph; the site is not consulted. */
  function DetermineSoaringFlyability(
    site: LaunchSite, windSpeed: real, windGust: real, windDirectionMatch: bool): (r: Flyability)
    ensures !windDirectionMatch || windSpeed < 8.0 || windSpeed > 20.0 || windGust > 20.0 ==> r == Poor
    ensures r == Good <==> windDirectionMatch && 10.0 <= windSpeed <= 14.0 && windGust <= 20.0
    ensures r == Marginal <==>
      windDirectionMatch && 8.0 <= windSpeed <= 20.0 && windGust <= 20.0 && !(10.0 <= windSpeed <= 14.0)
  {
    if !windDirectionMatch then Poor
    else if windSpeed < 8.0 then Poor
    else if windSpeed > 20.0 then Poor
    else if windGust > 20.0 then Poor
    else if windSpeed >= 10.0 && windSpeed <= 14.0 && windGust <= 20.0 then Good
    else if windSpeed >= 8.0 && windSpeed <= 20.0 && windGust <= 20.0 then Marginal
    else Poor
  }

  /** The site's own wind limit plays no part in the soaring verdict. */
  lemma SoaringIgnoresSite(s1: LaunchSite, s2: LaunchSite, windSpeed: real, windGust: real, windDirectionMatch: bool)
    ensures DetermineSoaringFlyability(s1, windSpeed, windGust, windDirectionMatch)
         == DetermineSoaringFlyability(s2, windSpeed, windGust, windDirectionMatch)
  {
  }

  function DetermineThermalFlyability(
    site: LaunchSite, temperature: real, tcon: real, thermalStrength: real,
    windSpeed: real, windDirectionMatch: bool, cloudCover: real): (r: Flyability)
    ensures !windDirectionMatch ==> r == Poor
    ensures tcon - temperature > 15.0 ==> r == Poor
    ensures windSpeed > site.maxWind ==> r == Poor
    ensures (windDirectionMatch && thermalStrength >= 5.0 && tcon - temperature <= 5.0
             && 3.0 <= windSpeed <= site.maxWind) ==> r == Good
    ensures r == Good ==>
      windDirectionMatch && thermalStrength >= 5.0 && tcon - temperature <= 5.0
      && 3.0 <= windSpeed <= site.maxWind
  {
    var tempDeficit := tcon - temperature;
    if !windDirectionMatch then Poor
    else if tempDeficit > 15.0 then Poor
    else if windSpeed > site.maxWind then Poor
    else if windSpeed < 3.0 then (if thermalStrength > 6.0 then Marginal else Poor)
    else if thermalStrength >= 7.0 && tempDeficit <= 3.0 && windSpeed <= site.maxWind * 0.7 then Good
    else if thermalStrength >= 5.0 && tempDeficit <= 5.0 then Good
    else if thermalStrength >= 3.0 && tempDeficit <= 8.0 then Marginal
    else if cloudCover > 75.0 && thermalStrength < 5.0 then Poor
    else Poor
  }

  /** The script's site descriptor with the same wind limit and orientation. */
  predicate SameLimits(site: LaunchSite, scriptSite: FW.LaunchSite) {
    site.maxWind == scriptSite.maxWind && site.orientation == scriptSite.orientation
  }

  /** The two copies of the thermal classifier agree. */
  lemma ThermalFlyabilityAgreesWithScript(
    site: LaunchSite, scriptSite: FW.LaunchSite, temperature: real, tcon: real, thermalStrength: real,
    windSpeed: real, windDirectionMatch: bool, cloudCover: real)
    requires SameLimits(site, scriptSite)
    ensures DetermineThermalFlyability(site, temperature, tcon, thermalStrength, windSpeed, windDirectionMatch, cloudCover)
         == FW.DetermineThermalFlyability(scriptSite, temperature, tcon, thermalStrength, windSpeed, windDirectionMatch, cloudCover)
  {
  }

  /** Overall verdict and reason, rule for rule the script's. */
  function DetermineFlyability(
    site: LaunchSite, temperature: real, tcon: real, windSpeed: real, windGust: real,
    thermalStrength: real, topOfLift: real, windDirectionMatch: bool,
    cloudCover: real, cape: real, liftedIndex: real): (v: FW.Verdict)
    ensures FW.Agrees(v) && v.conditions != FW.ForecastNotAvailable
    ensures !windDirectionMatch ==> v == FW.Verdict(Poor, FW.WindDirectionUnfavorable(site.orientation))
    ensures windDirectionMatch && tcon - temperature > 15.0 ==>
      v == FW.Verdict(Poor, FW.TooCool(tcon, Round(temperature)))
    ensures windDirectionMatch && 8.0 < tcon - temperature <= 15.0 ==>
      v.conditions == FW.Cool(tcon, Round(temperature))
      && (v.flyability == Marginal <==> tcon - temperature <= 12.0)
    ensures v.flyability == Good ==>
      windDirectionMatch && tcon - temperature <= 5.0 && thermalStrength >= 5.0
      && 2.0 <= windSpeed <= site.maxWind * 0.8 && windGust <= site.maxWind * 1.5
  {
    var tempDeficit := tcon - temperature;
    if !windDirectionMatch then
      FW.Verdict(Poor, FW.WindDirectionUnfavorable(site.orientation))
    else if tempDeficit > 15.0 then
      FW.Verdict(Poor, FW.TooCool(tcon, Round(temperature)))
    else if tempDeficit > 8.0 then
      FW.Verdict(if tempDeficit > 12.0 then Poor else Marginal, FW.Cool(tcon, Round(temperature)))
    else if windSpeed > site.maxWind then
      FW.Verdict(Poor, FW.TooStrong(windSpeed, site.maxWind))
    else if windGust > site.maxWind * 1.5 then
      FW.Verdict(Marginal, FW.StrongGusts(windGust))
    else if windSpeed < 2.0 then
      if thermalStrength > 6.0 then FW.Verdict(Marginal, FW.LightWindsStrongThermals)
      else FW.Verdict(Poor, FW.TooLightWeakThermals)
    else if cloudCover > 75.0 && liftedIndex > 2.0 then
      FW.Verdict(Marginal, FW.OvercastLimitsThermals(Round(cloudCover)))
    else if thermalStrength >= 8.0 && windSpeed <= site.maxWind * 0.6 && tempDeficit <= 2.0 && cape > 400.0 then
      FW.Verdict(Good, FW.ExcellentPostFrontal(thermalStrength, Round(cape)))
    else if thermalStrength >= 7.0 && windSpeed <= site.maxWind * 0.7 && tempDeficit <= 3.0 then
      FW.Verdict(Good, FW.Excellent(thermalStrength, RoundTenth(topOfLift / 1000.0)))
    else if thermalStrength >= 5.0 && windSpeed <= site.maxWind * 0.8 && tempDeficit <= 5.0 then
      FW.Verdict(Good, FW.GoodThermals(thermalStrength, RoundTenth(topOfLift / 1000.0)))
    else if thermalStrength >= 3.0 && windSpeed <= site.maxWind * 0.9 && tempDeficit <= 8.0 then
      FW.Verdict(Marginal, FW.ModerateThermals(thermalStrength, RoundTenth(topOfLift / 1000.0)))
    else
      FW.Verdict(Poor, FW.StableConditions(thermalStrength))
  }

  /** The two copies of the overall classifier agree. */
  lemma FlyabilityAgreesWithScript(
    site: LaunchSite, scriptSite: FW.LaunchSite, temperature: real, tcon: real, windSpeed: real,
    windGust: real, thermalStrength: real, topOfLift: real, windDirectionMatch: bool,
    cloudCover: real, cape: real, liftedIndex: real)
    requires SameLimits(site, scriptSite)
    ensures DetermineFlyability(site, temperature, tcon, windSpeed, windGust, thermalStrength, topOfLift,
                                windDirectionMatch, cloudCover, cape, liftedIndex)
         == FW.DetermineFlyability(scriptSite, temperature, tcon, windSpeed, windGust, thermalStrength, topOfLift,
                                   windDirectionMatch, cloudCover, cape, liftedIndex)
  {
  }

  // ---------------------------------------------------------------------
  // Launch time
  // ---------------------------------------------------------------------

  const LaunchTimes: set<string> :=
    {"9:00 AM", "10:00 AM", "10:30 AM", "11:00 AM", "11:30 AM", "12:00 PM", "1:00 PM"}

  /** Suggested launch time from the two sub-verdicts; the first matching rule wins. */
  function CalculateLaunchTime(
    thermalFlyability: Flyability, soaringFlyability: Flyability, thermalStrength: real,
    windSpeed: real, temperature: real, tcon: real): (t: string)
    ensures t in LaunchTimes
    ensures thermalFlyability == Good && soaringFlyability == Poor ==>
      t in {"11:00 AM", "11:30 AM", "12:00 PM"}
      && (t == "11:00 AM" <==> thermalStrength >= 7.0)
      && (t == "12:00 PM" <==> thermalStrength < 5.0)
    ensures soaringFlyability == Good && thermalFlyability == Poor ==>
      t in {"9:00 AM", "10:00 AM", "10:30 AM"} && (t == "9:00 AM" <==> windSpeed >= 15.0)
    ensures thermalFlyability == Poor && soaringFlyability == Poor ==> t == "12:00 PM"
    ensures t == "1:00 PM" ==> thermalFlyability == Marginal && tcon - temperature > 5.0
    ensures t == "9:00 AM" ==> soaringFlyability == Good
  {
    var tempDeficit := tcon - temperature;
    if thermalFlyability == Good && soaringFlyability == Poor then
      if thermalStrength >= 7.0 then "11:00 AM"
      else if thermalStrength >= 5.0 then "11:30 AM"
      else "12:00 PM"
    else if soaringFlyability == Good && thermalFlyability == Poor then
      if windSpeed >= 15.0 then "9:00 AM"
      else if windSpeed >= 12.0 then "10:00 AM"
      else "10:30 AM"
    else if soaringFlyability == Good && thermalFlyability == Good then
      if thermalStrength >= 6.0 && tempDeficit <= 3.0 then "11:00 AM" else "10:30 AM"
    else if soaringFlyability == Marginal && thermalFlyability == Good then
      if thermalStrength >= 7.0 then "11:30 AM" else "12:00 PM"
    else if soaringFlyability == Good && thermalFlyability == Marginal then
      "10:00 AM"
    else if thermalFlyability == Marginal then
      if tempDeficit <= 5.0 then "12:00 PM" else "1:00 PM"
    else if soaringFlyability == Marginal then
      "11:00 AM"
    else
      "12:00 PM"
  }

  // ---------------------------------------------------------------------
  // Compass labels
  // ---------------------------------------------------------------------

  const Directions: seq<string> :=
    ["N", "NNE", "NE", "ENE", "E", "ESE", "SE", "SSE", "S", "SSW", "SW", "WSW", "W", "WNW", "NW", "NNW"]

  /**
   * The 16-point compass label of a bearing: the nearest multiple of 22.5°,
   * taken with JavaScript's `%`. A bearing that rounds to a negative index
   * which is not a multiple of 16 reads past the array and gives undefined.
   */
  function GetWindDirection(degrees: real): (r: Option<string>)
    ensures r.None? <==> Round(degrees / 22.5) < 0 && (-Round(degrees / 22.5)) % 16 != 0
    ensures degrees >= 0.0 ==> r.Some? && r.value in Directions
    ensures r.Some? ==> r.value == Directions[Round(degrees / 22.5) % 16]
  {
    var idx := JsRem(Round(degrees / 22.5), 16);
    if idx >= 0 then Some(Directions[idx]) else None
  }

  /** Bearings near north, 360° included, read "N"; the cardinal points read as such. */
  lemma CompassExamples()
    ensures GetWindDirection(0.0) == Some("N")
    ensures GetWindDirection(360.0) == Some("N")
    ensures GetWindDirection(350.0) == Some("N")
    ensures GetWindDirection(90.0) == Some("E")
    ensures GetWindDirection(180.0) == Some("S")
    ensures GetWindDirection(270.0) == Some("W")
    ensures GetWindDirection(-20.0) == None
  {
    assert Round(360.0 / 22.5) == 16;
    assert Round(350.0 / 22.5) == 16;
    assert Round(90.0 / 22.5) == 4;
    assert Round(180.0 / 22.5) == 8;
    assert Round(270.0 / 22.5) == 12;
    assert Round(-20.0 / 22.5) == -1;
  }

  /** Every bearing within 11.25° of north, on either side of 360°, reads "N". */
  lemma NorthSector(degrees: real)
    requires 348.75 <= degrees <= 360.0 || 0.0 <= degrees < 11.25
    ensures GetWindDirection(degrees) == Some("N")
  {
    var n := Round(degrees / 22.5);
    if degrees >= 348.75 {
      assert 15.5 <= degrees / 22.5 <= 16.0;
      assert n == 16;
    } else {
      assert 0.0 <= degrees / 22.5 < 0.5;
      assert n == 0;
    }
  }

  /** A full turn does not change the label of a non-negative bearing. */
  lemma WindDirectionFullTurn(degrees: real)
    requires degrees >= 0.0
    ensures GetWindDirection(degrees + 360.0) == GetWindDirection(degrees)
  {
    var x := degrees / 22.5;
    assert (degrees + 360.0) / 22.5 == x + 16.0;
    RoundShift(x, 16);
    var n := Round(x);
    assert (n + 16) % 16 == n % 16;
    assert GetWindDirection(degrees) == Some(Directions[n % 16]);
    assert GetWindDirection(degrees + 360.0) == Some(Directions[(n + 16) % 16]);
  }

  // ---------------------------------------------------------------------
  // One day from one model
  // ---------------------------------------------------------------------

  /** The day forecast from the midday sample `n`; the seven-day model has no CAPE or lifted index. */
  function ForecastFromSample(
    site: LaunchSite, rows: seq<FW.HourlyRow>, targetDate: string, n: nat, isHRRR: bool): (w: WeatherCondition)
    requires n < |rows|
    ensures WellFormedDay(site, targetDate, w)
  {
    var row := rows[n];
    var elevationFt := site.elevation as real;
    var windSpeed := Round(row.windSpeed) as real;
    var windGust := Round(row.windGust) as real;
    var cape := if isHRRR then OrZero(row.cape) else 0.0;
    var liftedIndex := if isHRRR then OrZero(row.liftedIndex) else 0.0;
    var lcl := FW.CalculateLCL(row.temperature, row.dewPoint, elevationFt);
    var strength := FW.ThermalStrength(row.temperature, row.dewPoint, windSpeed, elevationFt, cape, liftedIndex, None);
    var top := TopOfLift(lcl.lclMSL, strength, windSpeed, elevationFt);
    var directionMatch := CheckWindDirectionMatch(row.windDirection, site.orientation);
    var soaring := DetermineSoaringFlyability(site, windSpeed, windGust, directionMatch);
    var thermal := DetermineThermalFlyability(site, row.temperature, lcl.tcon as real, strength, windSpeed,
                                              directionMatch, row.cloudCover);
    var verdict := DetermineFlyability(site, row.temperature, lcl.tcon as real, windSpeed, windGust, strength,
                                       top, directionMatch, row.cloudCover, cape, liftedIndex);
    assert Round(top) >= site.elevation + 500;
    WeatherCondition(
      targetDate, windSpeed, row.windDirection, windGust,
      Round(row.temperature) as real, Round(row.dewPoint) as real, lcl.tcon as real,
      strength, Round(top) as real, verdict.flyability, verdict.conditions, soaring, thermal,
      CalculateLaunchTime(thermal, soaring, strength, windSpeed, row.temperature, lcl.tcon as real),
      None, Round(cape) as real, RoundTenth(liftedIndex), 0.0,
      Round(row.relativeHumidity) as real, Round(row.cloudCover) as real,
      directionMatch, FW.SummarizeRain(FW.RainHours(rows, targetDate)))
  }

  /** A day forecast from one model response, or None when it has no usable sample. */
  function DayForecast(site: LaunchSite, data: FW.ModelResponse, targetDate: string, isHRRR: bool)
    : (r: Option<WeatherCondition>)
    ensures data.hourly.None? ==> r.None?
    ensures data.hourly.Some? ==>
      (r.None? <==> forall j :: 0 <= j < |data.hourly.value| ==> !FW.IsCandidate(data.hourly.value[j], targetDate))
    ensures r.Some? ==> WellFormedDay(site, targetDate, r.value)
  {
    if data.hourly.None? then None
    else
      FW.NoonIndexNoneIff(data.hourly.value, targetDate);
      match FW.NoonIndex(data.hourly.value, targetDate)
      case None => None
      case Some(n) => Some(ForecastFromSample(site, data.hourly.value, targetDate, n, isHRRR))
  }

  /** What every computed day record satisfies. */
  predicate WellFormedDay(site: LaunchSite, targetDate: string, w: WeatherCondition) {
    && w.date == targetDate
    && w.topOfLift >= site.elevation as real + 500.0
    && 0.0 <= w.thermalStrength <= 10.0 && IsTenth(w.thermalStrength)
    && (!w.windDirectionMatch ==>
          w.flyability == Poor && w.soaringFlyability == Poor && w.thermalFlyability == Poor)
    && (w.flyability == Good ==> w.thermalStrength >= 5.0)
    && FW.Agrees(FW.Verdict(w.flyability, w.conditions))
    && w.conditions != FW.ForecastNotAvailable
    && w.launchTime in LaunchTimes
    && w.blDepth.None?
  }

  /**
   * processHRRRDataForDay and processECMWFDataForDay in one: they differ
   * only in where CAPE and the lifted index come from, selected by isHRRR.
   */
  method ProcessDataForDay(site: LaunchSite, data: FW.ModelResponse, targetDate: string, isHRRR: bool)
    returns (r: Option<WeatherCondition>)
    ensures r == DayForecast(site, data, targetDate, isHRRR)
  {
    if data.hourly.None? {
      return None;
    }
    var hourly := data.hourly.value;
    var noon := FW.SelectNoonIndex(hourly, targetDate);
    if noon.None? {
      return None;
    }
    var w := BuildDayForecast(site, hourly, targetDate, noon.value, isHRRR);
    r := Some(w);
  }

  /** The record built from the midday sample, step by step. */
  method BuildDayForecast(site: LaunchSite, hourly: seq<FW.HourlyRow>, targetDate: string, noonIndex: nat, isHRRR: bool)
    returns (w: WeatherCondition)
    requires noonIndex < |hourly|
    ensures w == ForecastFromSample(site, hourly, targetDate, noonIndex, isHRRR)
  {
    var row := hourly[noonIndex];
    var temperature := row.temperature;
    var dewPoint := row.dewPoint;
    var windSpeed := Round(row.windSpeed) as real;
    var windDirection := row.windDirection;
    var windGust := Round(row.windGust) as real;
    var relativeHumidity := row.relativeHumidity;
    var cloudCover := row.cloudCover;

    var cape := if isHRRR then OrZero(row.cape) else 0.0;
    var liftedIndex := if isHRRR then OrZero(row.liftedIndex) else 0.0;
    var blDepth: Option<real> := None;

    var elevationFt := site.elevation as real;
    var lcl := FW.CalculateLCL(temperature, dewPoint, elevationFt);
    var thermalStrength := FW.CalculateThermalStrength(
      temperature, dewPoint, windSpeed, elevationFt, cape, liftedIndex, blDepth);
    var topOfLift := CalculateTopOfLift(lcl.lclMSL, thermalStrength, windSpeed, elevationFt, blDepth);

    var windDirectionMatch := CheckWindDirectionMatch(windDirection, site.orientation);
    var soaringFlyability := DetermineSoaringFlyability(site, windSpeed, windGust, windDirectionMatch);
    var thermalFlyability := DetermineThermalFlyability(
      site, temperature, lcl.tcon as real, thermalStrength, windSpeed, windDirectionMatch, cloudCover);
    var verdict := DetermineFlyability(
      site, temperature, lcl.tcon as real, windSpeed, windGust, thermalStrength, topOfLift,
      windDirectionMatch, cloudCover, cape, liftedIndex);
    var launchTime := CalculateLaunchTime(
      thermalFlyability, soaringFlyability, thermalStrength, windSpeed, temperature, lcl.tcon as real);
    var rainInfo := FW.AnalyzeRain(hourly, targetDate);

    w := WeatherCondition(
      targetDate, windSpeed, windDirection, windGust,
      Round(temperature) as real, Round(dewPoint) as real, lcl.tcon as real,
      thermalStrength, Round(topOfLift) as real, verdict.flyability, verdict.conditions,
      soaringFlyability, thermalFlyability, launchTime, blDepth,
      Round(cape) as real, RoundTenth(liftedIndex), 0.0,
      Round(relativeHumidity) as real, Round(cloudCover) as real,
      windDirectionMatch, rainInfo);
  }

  // ---------------------------------------------------------------------
  // Seven days for every site
  // ---------------------------------------------------------------------

  /** The placeholder record of a day no model could produce. */
  function Sentinel(site: LaunchSite, targetDate: string): (w: WeatherCondition)
    ensures w.date == targetDate && w.topOfLift == site.elevation as real
    ensures w.conditions == FW.ForecastNotAvailable && w.launchTime == "12:00 PM"
    ensures w.flyability == Poor && w.soaringFlyability == Poor && w.thermalFlyability == Poor
    ensures !WellFormedDay(site, targetDate, w)
  {
    WeatherCondition(
      targetDate, 0.0, 0.0, 0.0, 0.0, 0.0, 0.0, 0.0, site.elevation as real,
      Poor, FW.ForecastNotAvailable, Poor, Poor, "12:00 PM",
      None, 0.0, 0.0, 0.0, 0.0, 0.0, false, None)
  }

  /** Day `i`: the short-range model for today and tomorrow when fetched, else the seven-day model. */
  function DayRecord(
    site: LaunchSite, i: nat, targetDate: string,
    hrrrData: Option<FW.ModelResponse>, ecmwfData: Option<FW.ModelResponse>): (w: WeatherCondition)
    ensures w.date == targetDate
    ensures w == Sentinel(site, targetDate) || WellFormedDay(site, targetDate, w)
    ensures hrrrData.None? && ecmwfData.None? ==> w == Sentinel(site, targetDate)
  {
    var day :=
      if i <= 1 && hrrrData.Some? then DayForecast(site, hrrrData.value, targetDate, true)
      else if ecmwfData.Some? then DayForecast(site, ecmwfData.value, targetDate, false)
      else None;
    if day.Some? then day.value else Sentinel(site, targetDate)
  }

  /** A day record is a well-formed forecast or the placeholder, told apart by its reason. */
  lemma DayRecordShape(
    site: LaunchSite, i: nat, targetDate: string,
    hrrrData: Option<FW.ModelResponse>, ecmwfData: Option<FW.ModelResponse>)
    ensures var w := DayRecord(site, i, targetDate, hrrrData, ecmwfData);
      w.date == targetDate
      && w.topOfLift >= site.elevation as real
      && w.launchTime in LaunchTimes
      && (w == Sentinel(site, targetDate) || WellFormedDay(site, targetDate, w))
      && (w.conditions == FW.ForecastNotAvailable <==> w == Sentinel(site, targetDate))
  {
  }

  /** One pass of the per-day loop. */
  method ForecastDay(
    site: LaunchSite, i: nat, targetDate: string,
    hrrrData: Option<FW.ModelResponse>, ecmwfData: Option<FW.ModelResponse>) returns (w: WeatherCondition)
    ensures w == DayRecord(site, i, targetDate, hrrrData, ecmwfData)
  {
    var dayForecast: Option<WeatherCondition> := None;
    if i <= 1 && hrrrData.Some? {
      dayForecast := ProcessDataForDay(site, hrrrData.value, targetDate, true);
    } else if ecmwfData.Some? {
      dayForecast := ProcessDataForDay(site, ecmwfData.value, targetDate, false);
    }
    if dayForecast.Some? {
      w := dayForecast.value;
    } else {
      w := Sentinel(site, targetDate);
    }
  }

  /** The seven day records of one site, in date order. */
  predicate IsSiteForecast(
    sf: SiteForecast, site: LaunchSite, targetDates: seq<string>,
    hrrrData: Option<FW.ModelResponse>, ecmwfData: Option<FW.ModelResponse>)
    requires |targetDates| == 7
  {
    sf.site == site && |sf.forecast| == 7
    && forall i :: 0 <= i < 7 ==> sf.forecast[i] == DayRecord(site, i, targetDates[i], hrrrData, ecmwfData)
  }

  /** The inner loop over the seven target dates of one site. */
  method ForecastSite(
    site: LaunchSite, targetDates: seq<string>,
    hrrrData: Option<FW.ModelResponse>, ecmwfData: Option<FW.ModelResponse>) returns (sf: SiteForecast)
    requires |targetDates| == 7
    ensures IsSiteForecast(sf, site, targetDates, hrrrData, ecmwfData)
  {
    var forecastData: seq<WeatherCondition> := [];
    var i := 0;
    while i < |targetDates|
      invariant 0 <= i <= |targetDates|
      invariant |forecastData| == i
      invariant forall k :: 0 <= k < i ==>
        forecastData[k] == DayRecord(site, k, targetDates[k], hrrrData, ecmwfData)
    {
      var record := ForecastDay(site, i, targetDates[i], hrrrData, ecmwfData);
      var next := forecastData + [record];
      forall k | 0 <= k < i + 1
        ensures next[k] == DayRecord(site, k, targetDates[k], hrrrData, ecmwfData)
      {
        if k < i {
          assert next[k] == forecastData[k];
        }
      }
      forecastData := next;
      i := i + 1;
    }
    sf := SiteForecast(site, forecastData);
  }

  /**
   * Seven-day forecasts for every site, in site order. The clock and the
   * two fetches per site are parameters: `targetDates` are the Pacific
   * dates of today and the next six days; entry s of `hrrrBySite` and
   * `ecmwfBySite` is what the fetch (or its cache fallback) returned for
   * site s, None when it returned null.
   */
  method GetWeatherForecast(
    sites: seq<LaunchSite>, targetDates: seq<string>,
    hrrrBySite: seq<Option<FW.ModelResponse>>, ecmwfBySite: seq<Option<FW.ModelResponse>>)
    returns (forecasts: seq<SiteForecast>)
    requires |targetDates| == 7
    requires |hrrrBySite| == |sites| && |ecmwfBySite| == |sites|
    ensures |forecasts| == |sites|
    ensures forall s :: 0 <= s < |sites| ==>
      IsSiteForecast(forecasts[s], sites[s], targetDates, hrrrBySite[s], ecmwfBySite[s])
  {
    forecasts := [];
    var s := 0;
    while s < |sites|
      invariant 0 <= s <= |sites|
      invariant |forecasts| == s
      invariant forall j :: 0 <= j < s ==>
        IsSiteForecast(forecasts[j], sites[j], targetDates, hrrrBySite[j], ecmwfBySite[j])
    {
      var sf := ForecastSite(sites[s], targetDates, hrrrBySite[s], ecmwfBySite[s]);
      forecasts := forecasts + [sf];
      s := s + 1;
    }
  }
}
