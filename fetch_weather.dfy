/**
 * The forecasting core of the batch script that scores every launch site for
 * seven days (scripts/fetch-weather.ts).
 *
 * Pure threshold rules are functions; the steps that the script writes as
 * successive updates of a local variable (thermal strength, wind reduction,
 * top of lift) and its loops (noon-sample search, hourly extraction, rain
 * hours, the seven-day assembly) are methods, each proved equal to a
 * specification function whose properties are proved separately.
 *
 * Numbers are reals (no IEEE-754 rounding). A fetched hourly row arrives
 * already parsed into its date key and local hour.
 */
module FetchWeather {
  import opened Common

  // ---------------------------------------------------------------------
  // Data model
  // ---------------------------------------------------------------------

  datatype SiteType = Thermal | Soaring | Mixed

  /** Static launch-site descriptor; elevation in feet MSL, maxWind in mph. */
  datatype LaunchSite = LaunchSite(
    id: string,
    name: string,
    elevation: int,
    latitude: real,
    longitude: real,
    orientation: string,
    maxWind: real,
    siteType: SiteType)

  /** A local clock hour, as Date.getHours() returns it. */
  type Hour = h: int | 0 <= h < 24

  /**
   * One timestep of the upstream hourly arrays. The optional fields are the
   * ones a response may lack (the seven-day source has no CAPE, lifted index
   * or boundary-layer height).
   */
  datatype HourlyRow = HourlyRow(
    date: string,
    hour: Hour,
    temperature: real,
    dewPoint: real,
    relativeHumidity: real,
    cloudCover: real,
    windSpeed: real,
    windDirection: real,
    windGust: real,
    cape: Option<real>,
    liftedIndex: Option<real>,
    boundaryLayerHeight: Option<real>,
    precipitation: Option<real>,
    precipitationProbability: Option<real>)

  /** A fetched response; `hourly` is absent when the payload has no hourly block. */
  datatype ModelResponse = ModelResponse(hourly: Option<seq<HourlyRow>>)

  datatype HourlyDataPoint = HourlyDataPoint(
    hour: Hour,
    temperature: real,
    tcon: real,
    windSpeed: real,
    windDirection: real,
    windGust: real,
    cloudCover: real)

  /** Cloud base (feet MSL) and thermal trigger temperature (whole °F). */
  datatype Lcl = Lcl(lclMSL: real, tcon: int)

  /**
   * The human-readable reason of the overall verdict. Each constructor is
   * one message template; its fields are the numbers the template embeds.
   */
  datatype Conditions =
    | WindDirectionUnfavorable(orientation: string)
    | TooCool(needs: real, forecast: int)
    | Cool(needs: real, forecast: int)
    | TooStrong(windSpeed: real, limit: real)
    | StrongGusts(gust: real)
    | LightWindsStrongThermals
    | TooLightWeakThermals
    | OvercastLimitsThermals(cloudCover: int)
    | ExcellentPostFrontal(strength: real, cape: int)
    | Excellent(strength: real, topThousands: real)
    | GoodThermals(strength: real, topThousands: real)
    | ModerateThermals(strength: real, topThousands: real)
    | StableConditions(strength: real)
    | ForecastNotAvailable

  datatype Verdict = Verdict(flyability: Flyability, conditions: Conditions)

  datatype XcPotential = High | Moderate | Low

  datatype XcReason =
    | RidgeSiteLocalSoaring
    | HighCeiling(thousandsAgl: int, strength: real)
    | GoodForLocalXc
    | LowCeiling
    | WeakThermals
    | NoData

  datatype XcResult = XcResult(potential: XcPotential, reason: XcReason)

  datatype Period = Morning | Afternoon | Evening

  /** The rain summary of a day; hours are local clock hours. */
  datatype RainInfo =
    | AllDay
    | InPeriods(periods: seq<Period>)
    | Around(hour: Hour)
    | Between(first: Hour, last: Hour)

  datatype RainHour = RainHour(hour: Hour, precip: real, prob: real)

  /** One day of a site forecast. */
  datatype WeatherCondition = WeatherCondition(
    date: string,
    windSpeed: real,
    windDirection: real,
    windGust: real,
    temperature: real,
    dewPoint: real,
    tcon: real,
    thermalStrength: real,
    topOfLift: real,
    flyability: Flyability,
    conditions: Conditions,
    soaringFlyability: Flyability,
    thermalFlyability: Flyability,
    launchTime: string,
    xcPotential: XcPotential,
    xcReason: XcReason,
    hourlyData: Option<seq<HourlyDataPoint>>,
    blDepth: Option<real>,
    cape: real,
    liftedIndex: real,
    convergence: real,
    relativeHumidity: real,
    cloudCover: real,
    windDirectionMatch: bool,
    rainInfo: Option<RainInfo>)

  datatype SiteForecast = SiteForecast(site: LaunchSite, forecast: seq<WeatherCondition>)

  // ---------------------------------------------------------------------
  // Cloud base and trigger temperature
  // ---------------------------------------------------------------------

  // Conversions are written as literals so that the solver sees linear
  // arithmetic: 3.28084 feet per metre; 5.4 °F per 1000 ft, the dry
  // adiabatic lapse rate; 125 m of cloud base per °C of spread.

  /** Altitude lost to the glider's own sink, feet. */
  const GliderSinkAdj: real := 500.0

  function CalculateLCL(tempF: real, dewPointF: real, elevationFt: real): (r: Lcl)
    ensures r.lclMSL >= elevationFt + 500.0
    ensures tempF - dewPointF >= 2.2 ==> r.lclMSL == elevationFt + (tempF - dewPointF) * (125.0 * 5.0 / 9.0 * 3.28084)
    ensures tempF == dewPointF ==> r.lclMSL == elevationFt + 500.0 && r.tcon == Round(dewPointF)
    ensures tempF >= dewPointF ==> r.tcon as real >= tempF - 0.5
  {
    var tempC := (tempF - 32.0) * 5.0 / 9.0;
    var dewPointC := (dewPointF - 32.0) * 5.0 / 9.0;
    var lclAglM := 125.0 * (tempC - dewPointC);
    var lclAglFt := lclAglM * 3.28084;
    var lclMsl := Max(elevationFt + 500.0, elevationFt + lclAglFt);
    var tcon := dewPointF + (lclAglFt / 1000.0) * 5.4;
    Lcl(lclMsl, Round(tcon))
  }

  /** A wider spread never lowers the cloud base or the trigger temperature. */
  lemma CalculateLCLMonotone(t1: real, t2: real, dewPointF: real, elevationFt: real)
    requires t1 <= t2
    ensures CalculateLCL(t1, dewPointF, elevationFt).lclMSL <= CalculateLCL(t2, dewPointF, elevationFt).lclMSL
    ensures CalculateLCL(t1, dewPointF, elevationFt).tcon <= CalculateLCL(t2, dewPointF, elevationFt).tcon
  {
    var a1 := 125.0 * ((t1 - 32.0) * 5.0 / 9.0 - (dewPointF - 32.0) * 5.0 / 9.0) * 3.28084;
    var a2 := 125.0 * ((t2 - 32.0) * 5.0 / 9.0 - (dewPointF - 32.0) * 5.0 / 9.0) * 3.28084;
    assert a1 <= a2;
    RoundMonotone(dewPointF + (a1 / 1000.0) * 5.4, dewPointF + (a2 / 1000.0) * 5.4);
  }

  // ---------------------------------------------------------------------
  // Lapse rate and top of usable lift
  // ---------------------------------------------------------------------

  /** Assumed environmental lapse rate (°F/1000 ft) from instability proxies. */
  function EstimateEnvLapseRate(cape: real, liftedIndex: real): (rate: real)
    ensures 2.5 <= rate <= 5.0
    ensures rate in {5.0, 4.5, 4.0, 3.5, 3.0, 2.5}
    ensures liftedIndex >= 4.0 ==> rate == 2.5
    ensures rate == 5.0 <==> liftedIndex < -4.0 && cape > 1000.0
  {
    if liftedIndex < -4.0 && cape > 1000.0 then 5.0
    else if liftedIndex < -2.0 && cape > 500.0 then 4.5
    else if liftedIndex < 0.0 && cape > 200.0 then 4.0
    else if liftedIndex < 2.0 then 3.5
    else if liftedIndex < 4.0 then 3.0
    else 2.5
  }

  /**
   * The difference between the dry adiabatic and the assumed environmental
   * lapse rate is never within 0.3 of zero, so the temperature/dew-point
   * spread branch of the fallback path is never taken.
   */
  lemma NearAdiabaticBranchUnreachable(cape: real, liftedIndex: real)
    ensures 5.4 - EstimateEnvLapseRate(cape, liftedIndex) > 0.3
  {
  }

  /** Feet taken off the top of lift by wind shear. */
  function WindPenalty(windSpeed: real): (feet: real)
    ensures feet in {0.0, 300.0, 600.0, 1000.0}
    ensures windSpeed <= 10.0 <==> feet == 0.0
    ensures windSpeed > 20.0 <==> feet == 1000.0
  {
    if windSpeed > 20.0 then 1000.0
    else if windSpeed > 15.0 then 600.0
    else if windSpeed > 10.0 then 300.0
    else 0.0
  }

  /** Stronger wind never raises the penalty-reduced ceiling. */
  lemma WindPenaltyMonotone(w1: real, w2: real)
    requires w1 <= w2
    ensures WindPenalty(w1) <= WindPenalty(w2)
  {
  }

  /** The wind-reduced, rounded top of lift, floored at launch + 500 ft. */
  function WindReduced(topOfLift: real, windSpeed: real, elevationFt: real): (r: real)
    ensures r >= elevationFt + 500.0
    ensures r <= Max(elevationFt + 500.0, topOfLift + 0.5)
    ensures r >= topOfLift - 1000.5
    ensures windSpeed <= 10.0 ==> r == Max(elevationFt + 500.0, Round(topOfLift) as real)
  {
    Max(elevationFt + 500.0, Round(topOfLift - WindPenalty(windSpeed)) as real)
  }

  method ApplyWindReduction(topOfLift: real, windSpeed: real, elevationFt: real) returns (r: real)
    ensures r == WindReduced(topOfLift, windSpeed, elevationFt)
    ensures r >= elevationFt + 500.0
  {
    var reduced := topOfLift;
    if windSpeed > 20.0 {
      reduced := reduced - 1000.0;
    } else if windSpeed > 15.0 {
      reduced := reduced - 600.0;
    } else if windSpeed > 10.0 {
      reduced := reduced - 300.0;
    }
    r := Max(elevationFt + 500.0, Round(reduced) as real);
  }

  /** `(temperature && dewPoint) ? temperature - dewPoint : 20`. */
  function SpreadOrDefault(temperature: Option<real>, dewPoint: Option<real>): real {
    if Truthy(temperature) && Truthy(dewPoint) then temperature.value - dewPoint.value else 20.0
  }

  /** Thermal depth above launch on the lapse-rate path, feet. */
  function ThermalDepthAgl(cape: real, liftedIndex: real, temperature: Option<real>, dewPoint: Option<real>): (depth: real)
    ensures 1000.0 <= depth <= 7000.0
  {
    var lapseRateDiff := 5.4 - EstimateEnvLapseRate(cape, liftedIndex);
    if lapseRateDiff <= 0.3 then
      Min(SpreadOrDefault(temperature, dewPoint) * 180.0, 6000.0)
    else
      var inversionStrength := Max(5.0, liftedIndex * 2.5 + 10.0);
      Min((inversionStrength / lapseRateDiff) * 1000.0, 7000.0)
  }

  /** Weak thermals (strength below 5) reach only part of the theoretical ceiling. */
  function WeakThermalScaled(topOfLift: real, thermalStrength: real, elevationFt: real): real {
    if thermalStrength < 5.0 then
      elevationFt + (topOfLift - elevationFt) * (0.6 + thermalStrength / 12.5)
    else
      topOfLift
  }

  /**
   * Top of usable lift, feet MSL: from the boundary-layer height when the
   * model supplies one above 100 m, otherwise from the lapse-rate estimate.
   */
  function TopOfUsableLift(
    lclMSL: real, thermalStrength: real, windSpeed: real, elevationFt: real,
    cape: real, liftedIndex: real, boundaryLayerHeight: Option<real>,
    temperature: Option<real>, dewPoint: Option<real>): (r: real)
    ensures r >= elevationFt + 500.0
  {
    if Truthy(boundaryLayerHeight) && boundaryLayerHeight.value > 100.0 then
      var top := Min(elevationFt + boundaryLayerHeight.value * 3.28084 * 0.85, lclMSL) - GliderSinkAdj;
      WindReduced(top, windSpeed, elevationFt)
    else
      var top := Min(elevationFt + ThermalDepthAgl(cape, liftedIndex, temperature, dewPoint), lclMSL) - GliderSinkAdj;
      WindReduced(WeakThermalScaled(top, thermalStrength, elevationFt), windSpeed, elevationFt)
  }

  /** Scaling the height above launch by the weak-thermal factor never raises it. */
  lemma WeakThermalScaledBelow(topOfLift: real, thermalStrength: real, elevationFt: real)
    requires elevationFt <= topOfLift
    ensures WeakThermalScaled(topOfLift, thermalStrength, elevationFt) <= topOfLift
  {
    if thermalStrength < 5.0 {
      var x := topOfLift - elevationFt;
      var f := 0.6 + thermalStrength / 12.5;
      assert f < 1.0;
      if f < 0.0 {
        assert x * f <= 0.0;
      } else {
        assert x * (1.0 - f) >= 0.0;
      }
      assert x * f <= x;
    }
  }

  /** A top at least 500 ft under the cloud base stays under it after the wind reduction. */
  lemma WindReducedBelow(topOfLift: real, windSpeed: real, elevationFt: real, lclMSL: real)
    requires lclMSL >= elevationFt + 500.0 && topOfLift <= lclMSL - 500.0
    ensures WindReduced(topOfLift, windSpeed, elevationFt) <= lclMSL
  {
  }

  /**
   * The cloud base caps the top of usable lift on both paths: whenever the
   * cloud base is at least launch + 500 ft (which CalculateLCL guarantees),
   * the top of lift does not exceed it.
   */
  lemma TopOfUsableLiftBelowCloudBase(
    lclMSL: real, thermalStrength: real, windSpeed: real, elevationFt: real,
    cape: real, liftedIndex: real, boundaryLayerHeight: Option<real>,
    temperature: Option<real>, dewPoint: Option<real>)
    requires lclMSL >= elevationFt + 500.0
    ensures TopOfUsableLift(lclMSL, thermalStrength, windSpeed, elevationFt, cape, liftedIndex,
                            boundaryLayerHeight, temperature, dewPoint) <= lclMSL
  {
    if Truthy(boundaryLayerHeight) && boundaryLayerHeight.value > 100.0 {
      var top := Min(elevationFt + boundaryLayerHeight.value * 3.28084 * 0.85, lclMSL) - GliderSinkAdj;
      WindReducedBelow(top, windSpeed, elevationFt, lclMSL);
    } else {
      var depth := ThermalDepthAgl(cape, liftedIndex, temperature, dewPoint);
      var top := Min(elevationFt + depth, lclMSL) - GliderSinkAdj;
      assert elevationFt <= top <= lclMSL - 500.0;
      WeakThermalScaledBelow(top, thermalStrength, elevationFt);
      var scaled := WeakThermalScaled(top, thermalStrength, elevationFt);
      WindReducedBelow(scaled, windSpeed, elevationFt, lclMSL);
    }
  }

  method CalculateTopOfUsableLift(
    lclMSL: real, thermalStrength: real, windSpeed: real, elevationFt: real,
    cape: real, liftedIndex: real, boundaryLayerHeight: Option<real>,
    temperature: Option<real>, dewPoint: Option<real>) returns (r: real)
    ensures r == TopOfUsableLift(lclMSL, thermalStrength, windSpeed, elevationFt, cape, liftedIndex,
                                 boundaryLayerHeight, temperature, dewPoint)
    ensures r >= elevationFt + 500.0
  {
    if Truthy(boundaryLayerHeight) && boundaryLayerHeight.value > 100.0 {
      var blHeightFt := boundaryLayerHeight.value * 3.28084;
      var topOfLift := elevationFt + blHeightFt * 0.85;
      topOfLift := Min(topOfLift, lclMSL);
      topOfLift := topOfLift - GliderSinkAdj;
      r := ApplyWindReduction(topOfLift, windSpeed, elevationFt);
      assert r == TopOfUsableLift(lclMSL, thermalStrength, windSpeed, elevationFt, cape, liftedIndex,
                                  boundaryLayerHeight, temperature, dewPoint);
    } else {
      var thermalAgl := ThermalDepthAgl(cape, liftedIndex, temperature, dewPoint);
      var topOfLift := elevationFt + thermalAgl;
      topOfLift := Min(topOfLift, lclMSL);
      topOfLift := topOfLift - GliderSinkAdj;
      ghost var capped := topOfLift;
      if thermalStrength < 5.0 {
        var factor := 0.6 + thermalStrength / 12.5;
        topOfLift := elevationFt + (topOfLift - elevationFt) * factor;
        assert topOfLift == WeakThermalScaled(capped, thermalStrength, elevationFt);
      }
      r := ApplyWindReduction(topOfLift, windSpeed, elevationFt);
      assert r == TopOfUsableLift(lclMSL, thermalStrength, windSpeed, elevationFt, cape, liftedIndex,
                                  boundaryLayerHeight, temperature, dewPoint);
    }
  }

  // ---------------------------------------------------------------------
  // Thermal strength: one first-match tier per category, summed
  // ---------------------------------------------------------------------

  /** Points for the temperature/dew-point spread. */
  function SpreadPoints(spread: real): (p: real)
    ensures 0.0 <= p <= 5.0
    ensures spread <= 6.0 <==> p == 0.0
    ensures spread > 45.0 <==> p == 5.0
  {
    if spread > 45.0 then 5.0
    else if spread > 35.0 then 4.5
    else if spread > 25.0 then 4.0
    else if spread > 18.0 then 3.0
    else if spread > 15.0 then 2.5
    else if spread > 12.0 then 2.0
    else if spread > 8.0 then 1.5
    else if spread > 6.0 then 1.0
    else 0.0
  }

  /** A drier surface layer never scores fewer spread points. */
  lemma SpreadPointsMonotone(s1: real, s2: real)
    requires s1 <= s2
    ensures SpreadPoints(s1) <= SpreadPoints(s2)
  {
  }

  /** Points for the surface temperature; exactly 60 °F falls between the tiers. */
  function TemperaturePoints(tempF: real): (p: real)
    ensures -1.0 <= p <= 2.0
    ensures tempF < 60.0 <==> p == -1.0
    ensures tempF == 60.0 ==> p == 0.0
    ensures tempF > 90.0 <==> p == 2.0
  {
    if tempF > 90.0 then 2.0
    else if tempF > 80.0 then 1.5
    else if tempF > 70.0 then 1.0
    else if tempF > 65.0 then 0.5
    else if tempF > 60.0 then 0.3
    else if tempF < 60.0 then -1.0
    else 0.0
  }

  function CapePoints(cape: real): (p: real)
    ensures -0.5 <= p <= 1.5
    ensures cape < 50.0 <==> p == -0.5
    ensures 50.0 <= cape <= 400.0 <==> p == 0.0
    ensures cape > 1500.0 <==> p == 1.5
  {
    if cape > 1500.0 then 1.5
    else if cape > 800.0 then 1.0
    else if cape > 400.0 then 0.5
    else if cape < 50.0 then -0.5
    else 0.0
  }

  /**
   * Points for the lifted index. The `> 2` tier precedes the `> 4` tier, so
   * every lifted index above 2 costs exactly one point and the 1.5-point
   * tier is never reached.
   */
  function LiftedIndexPoints(liftedIndex: real): (p: real)
    ensures liftedIndex > 2.0 ==> p == -1.0
    ensures p != -1.5
    ensures -2.0 <= liftedIndex <= 2.0 <==> p == 0.0
    ensures liftedIndex < -4.0 <==> p == 1.0
  {
    if liftedIndex < -4.0 then 1.0
    else if liftedIndex < -2.0 then 0.5
    else if liftedIndex > 2.0 then -1.0
    else if liftedIndex > 4.0 then -1.5
    else 0.0
  }

  /** Points for the boundary-layer depth, when the model supplies one. */
  function BoundaryLayerPoints(blDepth: Option<real>): (p: real)
    ensures !Truthy(blDepth) ==> p == 0.0
    ensures p == 0.5 <==> Truthy(blDepth) && blDepth.value > 8000.0
    ensures p == -0.5 <==> Truthy(blDepth) && blDepth.value < 3000.0
  {
    if Truthy(blDepth) && blDepth.value > 8000.0 then 0.5
    else if Truthy(blDepth) && blDepth.value < 3000.0 then -0.5
    else 0.0
  }

  function ElevationPoints(elevationFt: real): (p: real)
    ensures 0.0 <= p <= 1.0
    ensures 2000.0 <= elevationFt <= 3000.0 <==> p == 0.0
  {
    if elevationFt > 5000.0 then 1.0
    else if elevationFt > 3000.0 then 0.5
    else if elevationFt < 2000.0 then 0.3
    else 0.0
  }

  /**
   * Points for the wind speed. The 8-15 mph tier precedes the overlapping
   * 5-10 mph tier, so the latter only pays for 5 <= speed < 8.
   */
  function WindPoints(windSpeed: real): (p: real)
    ensures -2.0 <= p <= 0.5
    ensures 8.0 <= windSpeed <= 15.0 <==> p == 0.5
    ensures 5.0 <= windSpeed < 8.0 <==> p == 0.3
    ensures (3.0 <= windSpeed < 5.0 || 15.0 < windSpeed <= 18.0) <==> p == 0.0
    ensures windSpeed > 25.0 <==> p == -2.0
  {
    if windSpeed > 25.0 then -2.0
    else if windSpeed > 18.0 then -1.0
    else if windSpeed >= 8.0 && windSpeed <= 15.0 then 0.5
    else if windSpeed >= 5.0 && windSpeed <= 10.0 then 0.3
    else if windSpeed < 3.0 then -0.5
    else 0.0
  }

  /** The unclamped score: one tier from each category, summed. */
  function RawThermalScore(
    tempF: real, dewPointF: real, windSpeed: real, elevationFt: real,
    cape: real, liftedIndex: real, blDepth: Option<real>): (score: real)
    ensures -5.5 <= score <= 11.5
  {
    SpreadPoints(tempF - dewPointF) + TemperaturePoints(tempF) + CapePoints(cape)
    + LiftedIndexPoints(liftedIndex) + BoundaryLayerPoints(blDepth)
    + ElevationPoints(elevationFt) + WindPoints(windSpeed)
  }

  /** Thermal strength on the 0-10 scale, one decimal. */
  function ThermalStrength(
    tempF: real, dewPointF: real, windSpeed: real, elevationFt: real,
    cape: real, liftedIndex: real, blDepth: Option<real>): (strength: real)
    ensures 0.0 <= strength <= 10.0
    ensures IsTenth(strength)
  {
    var raw := RawThermalScore(tempF, dewPointF, windSpeed, elevationFt, cape, liftedIndex, blDepth);
    Max(0.0, Min(10.0, RoundTenth(raw)))
  }

  method CalculateThermalStrength(
    tempF: real, dewPointF: real, windSpeed: real, elevationFt: real,
    cape: real, liftedIndex: real, blDepth: Option<real>) returns (r: real)
    ensures r == ThermalStrength(tempF, dewPointF, windSpeed, elevationFt, cape, liftedIndex, blDepth)
    ensures 0.0 <= r <= 10.0 && IsTenth(r)
  {
    var tempDewSpread := tempF - dewPointF;
    var strength := 0.0;

    if tempDewSpread > 45.0 { strength := strength + 5.0; }
    else if tempDewSpread > 35.0 { strength := strength + 4.5; }
    else if tempDewSpread > 25.0 { strength := strength + 4.0; }
    else if tempDewSpread > 18.0 { strength := strength + 3.0; }
    else if tempDewSpread > 15.0 { strength := strength + 2.5; }
    else if tempDewSpread > 12.0 { strength := strength + 2.0; }
    else if tempDewSpread > 8.0 { strength := strength + 1.5; }
    else if tempDewSpread > 6.0 { strength := strength + 1.0; }

    assert strength == SpreadPoints(tempDewSpread);
    ghost var acc := strength;

    if tempF > 90.0 { strength := strength + 2.0; }
    else if tempF > 80.0 { strength := strength + 1.5; }
    else if tempF > 70.0 { strength := strength + 1.0; }
    else if tempF > 65.0 { strength := strength + 0.5; }
    else if tempF > 60.0 { strength := strength + 0.3; }
    else if tempF < 60.0 { strength := strength - 1.0; }

    assert strength == acc + TemperaturePoints(tempF);
    acc := strength;

    if cape > 1500.0 { strength := strength + 1.5; }
    else if cape > 800.0 { strength := strength + 1.0; }
    else if cape > 400.0 { strength := strength + 0.5; }
    else if cape < 50.0 { strength := strength - 0.5; }

    assert strength == acc + CapePoints(cape);
    acc := strength;

    if liftedIndex < -4.0 { strength := strength + 1.0; }
    else if liftedIndex < -2.0 { strength := strength + 0.5; }
    else if liftedIndex > 2.0 { strength := strength - 1.0; }
    else if liftedIndex > 4.0 { strength := strength - 1.5; }

    assert strength == acc + LiftedIndexPoints(liftedIndex);
    acc := strength;

    if Truthy(blDepth) && blDepth.value > 8000.0 { strength := strength + 0.5; }
    else if Truthy(blDepth) && blDepth.value < 3000.0 { strength := strength - 0.5; }

    assert strength == acc + BoundaryLayerPoints(blDepth);
    acc := strength;

    if elevationFt > 5000.0 { strength := strength + 1.0; }
    else if elevationFt > 3000.0 { strength := strength + 0.5; }
    else if elevationFt < 2000.0 { strength := strength + 0.3; }

    assert strength == acc + ElevationPoints(elevationFt);
    acc := strength;

    if windSpeed > 25.0 { strength := strength - 2.0; }
    else if windSpeed > 18.0 { strength := strength - 1.0; }
    else if windSpeed >= 8.0 && windSpeed <= 15.0 { strength := strength + 0.5; }
    else if windSpeed >= 5.0 && windSpeed <= 10.0 { strength := strength + 0.3; }
    else if windSpeed < 3.0 { strength := strength - 0.5; }

    assert strength == acc + WindPoints(windSpeed);
    assert strength == RawThermalScore(tempF, dewPointF, windSpeed, elevationFt, cape, liftedIndex, blDepth);

    r := Max(0.0, Min(10.0, RoundTenth(strength)));
  }

  // ---------------------------------------------------------------------
  // Wind-direction match
  // ---------------------------------------------------------------------

  /** A closed compass range of wind directions, degrees. */
  datatype Sector = Sector(min: real, max: real)

  /** Flyable wind-direction ranges by site orientation. */
  const OrientationRanges: map<string, seq<Sector>> := map[
    "N" := [Sector(345.0, 360.0), Sector(0.0, 15.0)],
    "NE" := [Sector(15.0, 75.0)],
    "E" := [Sector(75.0, 105.0)],
    "SE" := [Sector(105.0, 165.0)],
    "S" := [Sector(165.0, 195.0)],
    "SSW" := [Sector(180.0, 225.0)],
    "SW" := [Sector(195.0, 255.0)],
    "W" := [Sector(255.0, 285.0)],
    "NW" := [Sector(285.0, 345.0)],
    "SW-W" := [Sector(195.0, 285.0)],
    "W-NW" := [Sector(245.0, 345.0)],
    "SW-NW" := [Sector(195.0, 345.0)],
    "S-NW" := [Sector(165.0, 345.0)],
    "SSE-WNW" := [Sector(150.0, 300.0)],
    "W-SW" := [Sector(225.0, 285.0)],
    "E-SE" := [Sector(75.0, 165.0)],
    "NE-SE" := [Sector(30.0, 165.0)],
    "NW-N" := [Sector(315.0, 360.0), Sector(0.0, 15.0)]
  ]

  function CheckWindDirectionMatch(windDir: real, siteOrientation: string): (r: bool)
    ensures siteOrientation !in OrientationRanges ==> !r
    ensures r ==> 0.0 <= windDir <= 360.0
  {
    if siteOrientation !in OrientationRanges then false
    else
      var ranges := OrientationRanges[siteOrientation];
      exists i :: 0 <= i < |ranges| && ranges[i].min <= windDir <= ranges[i].max
  }

  /** A south-west to west site: 260° matches, 90° does not. */
  lemma SouthWestToWestExample()
    ensures CheckWindDirectionMatch(260.0, "SW-W")
    ensures !CheckWindDirectionMatch(90.0, "SW-W")
  {
    var ranges := OrientationRanges["SW-W"];
    assert ranges == [Sector(195.0, 285.0)];
    assert ranges[0].min <= 260.0 <= ranges[0].max;
  }

  // ---------------------------------------------------------------------
  // Flyability classifiers
  // ---------------------------------------------------------------------

  /**
   * Ridge-soaring verdict. It is never 'marginal', and the 10-16 mph rule
   * is subsumed by the general rule after it: the verdict is 'good' exactly
   * when the direction matches, 8 mph <= speed <= the site limit and the gust
   * stays within the limit.
   */
  function DetermineSoaringFlyability(
    site: LaunchSite, windSpeed: real, windGust: real, windDirectionMatch: bool): (r: Flyability)
    ensures r != Marginal
    ensures !windDirectionMatch ==> r == Poor
    ensures r == Good <==>
      windDirectionMatch && 8.0 <= windSpeed <= site.maxWind && windGust <= site.maxWind
  {
    if !windDirectionMatch then Poor
    else if windSpeed < 8.0 then Poor
    else if windSpeed > site.maxWind then Poor
    else if windGust > site.maxWind * 1.25 then Poor
    else if windSpeed >= 10.0 && windSpeed <= 16.0 && windGust <= site.maxWind then Good
    else if windSpeed >= 8.0 && windSpeed <= site.maxWind && windGust <= site.maxWind then Good
    else Poor
  }

  /** Thermal verdict; the deficit is how far the forecast falls short of TCON. */
  function DetermineThermalFlyability(
    site: LaunchSite, temperature: real, tcon: real, thermalStrength: real,
    windSpeed: real, windDirectionMatch: bool, cloudCover: real): (r: Flyability)
    ensures !windDirectionMatch ==> r == Poor
    ensures tcon - temperature > 15.0 ==> r == Poor
    ensures windSpeed > site.maxWind ==> r == Poor
    ensures r == Good ==>
      windDirectionMatch && thermalStrength >= 5.0 && tcon - temperature <= 5.0
      && 3.0 <= windSpeed <= site.maxWind
    ensures (windDirectionMatch && thermalStrength >= 5.0 && tcon - temperature <= 5.0
             && 3.0 <= windSpeed <= site.maxWind) ==> r == Good
    ensures r == Marginal ==>
      windDirectionMatch && windSpeed <= site.maxWind
      && ((windSpeed < 3.0 && thermalStrength > 6.0 && tcon - temperature <= 15.0)
          || (windSpeed >= 3.0 && thermalStrength >= 3.0 && tcon - temperature <= 8.0))
  {
    var tempDeficit := tcon - temperature;
    if !windDirectionMatch then Poor
    else if tempDeficit > 15.0 then Poor
    else if windSpeed > site.maxWind then Poor
    else if windSpeed < 3.0 then (if thermalStrength > 6.0 then Marginal else Poor)
    else if thermalStrength >= 7.0 && tempDeficit <= 3.0 && windSpeed <= site.maxWind * 0.7 then Good
    else if thermalStrength >= 5.0 && tempDeficit <= 5.0 then Good
    else if thermalStrength >= 3.0 && tempDeficit <= 8.0 then Marginal
    else if cloudCover > 75.0 && thermalStrength < 5.0 then Poor
    else Poor
  }

  /** The verdict each message template is issued with. */
  predicate Agrees(v: Verdict) {
    match v.conditions
    case WindDirectionUnfavorable(_) => v.flyability == Poor
    case TooCool(_, _) => v.flyability == Poor
    case Cool(_, _) => v.flyability != Good
    case TooStrong(_, _) => v.flyability == Poor
    case StrongGusts(_) => v.flyability == Marginal
    case LightWindsStrongThermals => v.flyability == Marginal
    case TooLightWeakThermals => v.flyability == Poor
    case OvercastLimitsThermals(_) => v.flyability == Marginal
    case ExcellentPostFrontal(_, _) => v.flyability == Good
    case Excellent(_, _) => v.flyability == Good
    case GoodThermals(_, _) => v.flyability == Good
    case ModerateThermals(_, _) => v.flyability == Marginal
    case StableConditions(_) => v.flyability == Poor
    case ForecastNotAvailable => v.flyability == Poor
  }

  /**
   * Overall verdict and its reason: the first rule that applies wins. The
   * deficit is how far the forecast temperature falls short of TCON.
   */
  function DetermineFlyability(
    site: LaunchSite, temperature: real, tcon: real, windSpeed: real, windGust: real,
    thermalStrength: real, topOfLift: real, windDirectionMatch: bool,
    cloudCover: real, cape: real, liftedIndex: real): (v: Verdict)
    ensures Agrees(v) && v.conditions != ForecastNotAvailable
    ensures !windDirectionMatch ==> v == Verdict(Poor, WindDirectionUnfavorable(site.orientation))
    ensures windDirectionMatch && tcon - temperature > 15.0 ==>
      v == Verdict(Poor, TooCool(tcon, Round(temperature)))
    ensures windDirectionMatch && 8.0 < tcon - temperature <= 15.0 ==>
      v.conditions == Cool(tcon, Round(temperature))
      && (v.flyability == Marginal <==> tcon - temperature <= 12.0)
    ensures windDirectionMatch && tcon - temperature <= 8.0 && windSpeed > site.maxWind ==>
      v == Verdict(Poor, TooStrong(windSpeed, site.maxWind))
    ensures v.flyability == Good ==>
      windDirectionMatch && tcon - temperature <= 5.0 && thermalStrength >= 5.0
      && 2.0 <= windSpeed <= site.maxWind * 0.8 && windGust <= site.maxWind * 1.5
      && !(cloudCover > 75.0 && liftedIndex > 2.0)
    ensures (windDirectionMatch && tcon - temperature <= 3.0 && thermalStrength >= 7.0
             && 2.0 <= windSpeed <= site.maxWind * 0.7 && windGust <= site.maxWind * 1.5
             && !(cloudCover > 75.0 && liftedIndex > 2.0)) ==> v.flyability == Good
  {
    var tempDeficit := tcon - temperature;
    if !windDirectionMatch then
      Verdict(Poor, WindDirectionUnfavorable(site.orientation))
    else if tempDeficit > 15.0 then
      Verdict(Poor, TooCool(tcon, Round(temperature)))
    else if tempDeficit > 8.0 then
      Verdict(if tempDeficit > 12.0 then Poor else Marginal, Cool(tcon, Round(temperature)))
    else if windSpeed > site.maxWind then
      Verdict(Poor, TooStrong(windSpeed, site.maxWind))
    else if windGust > site.maxWind * 1.5 then
      Verdict(Marginal, StrongGusts(windGust))
    else if windSpeed < 2.0 then
      if thermalStrength > 6.0 then Verdict(Marginal, LightWindsStrongThermals)
      else Verdict(Poor, TooLightWeakThermals)
    else if cloudCover > 75.0 && liftedIndex > 2.0 then
      Verdict(Marginal, OvercastLimitsThermals(Round(cloudCover)))
    else if thermalStrength >= 8.0 && windSpeed <= site.maxWind * 0.6 && tempDeficit <= 2.0 && cape > 400.0 then
      Verdict(Good, ExcellentPostFrontal(thermalStrength, Round(cape)))
    else if thermalStrength >= 7.0 && windSpeed <= site.maxWind * 0.7 && tempDeficit <= 3.0 then
      Verdict(Good, Excellent(thermalStrength, RoundTenth(topOfLift / 1000.0)))
    else if thermalStrength >= 5.0 && windSpeed <= site.maxWind * 0.8 && tempDeficit <= 5.0 then
      Verdict(Good, GoodThermals(thermalStrength, RoundTenth(topOfLift / 1000.0)))
    else if thermalStrength >= 3.0 && windSpeed <= site.maxWind * 0.9 && tempDeficit <= 8.0 then
      Verdict(Marginal, ModerateThermals(thermalStrength, RoundTenth(topOfLift / 1000.0)))
    else
      Verdict(Poor, StableConditions(thermalStrength))
  }

  // ---------------------------------------------------------------------
  // Cross-country potential
  // ---------------------------------------------------------------------

  function CalculateXCPotential(topOfLift: real, thermalStrength: real, windSpeed: real, site: LaunchSite): (x: XcResult)
    ensures site.siteType == Soaring ==> x == XcResult(Low, RidgeSiteLocalSoaring)
    ensures x.potential == High <==>
      site.siteType != Soaring && thermalStrength >= 7.0
      && topOfLift - site.elevation as real >= 4000.0 && windSpeed <= 15.0
    ensures x.potential == Moderate <==>
      site.siteType != Soaring && x.potential != High
      && ((thermalStrength >= 5.0 && topOfLift - site.elevation as real >= 3000.0)
          || (thermalStrength >= 6.0 && windSpeed <= 12.0))
    ensures x.potential == High ==> x.reason.HighCeiling? && x.reason.thousandsAgl >= 4
    ensures x.reason == LowCeiling ==> x.potential == Low && topOfLift - site.elevation as real < 2000.0
    ensures x.reason != NoData
  {
    var ceilingAgl := topOfLift - site.elevation as real;
    if site.siteType == Soaring then XcResult(Low, RidgeSiteLocalSoaring)
    else if thermalStrength >= 7.0 && ceilingAgl >= 4000.0 && windSpeed <= 15.0 then
      XcResult(High, HighCeiling(Round(ceilingAgl / 1000.0), thermalStrength))
    else if (thermalStrength >= 5.0 && ceilingAgl >= 3000.0) || (thermalStrength >= 6.0 && windSpeed <= 12.0) then
      XcResult(Moderate, GoodForLocalXc)
    else
      XcResult(Low, if ceilingAgl < 2000.0 then LowCeiling else WeakThermals)
  }

  /** The cloud-cover rule of the thermal classifier can only yield the verdict its fall-through yields. */
  lemma ThermalFlyabilityIgnoresCloudCover(
    site: LaunchSite, temperature: real, tcon: real, thermalStrength: real,
    windSpeed: real, windDirectionMatch: bool, c1: real, c2: real)
    ensures DetermineThermalFlyability(site, temperature, tcon, thermalStrength, windSpeed, windDirectionMatch, c1)
         == DetermineThermalFlyability(site, temperature, tcon, thermalStrength, windSpeed, windDirectionMatch, c2)
  {
  }

  // ---------------------------------------------------------------------
  // Choosing the representative midday sample
  // ---------------------------------------------------------------------

  /** A sample of the target date between 10:00 and 14:00 local time. */
  predicate IsCandidate(row: HourlyRow, targetDate: string) {
    row.date == targetDate && 10 <= row.hour <= 14
  }

  function NoonDistance(row: HourlyRow): nat {
    if row.hour >= 12 then row.hour - 12 else 12 - row.hour
  }

  /** Indices of the candidate samples, in array order (the forEach/push pass). */
  function CandidateIndices(rows: seq<HourlyRow>, targetDate: string): (idx: seq<nat>)
    ensures forall k :: 0 <= k < |idx| ==> idx[k] < |rows| && IsCandidate(rows[idx[k]], targetDate)
    ensures forall i :: 0 <= i < |rows| && IsCandidate(rows[i], targetDate) ==> i in idx
    ensures forall k, l :: 0 <= k < l < |idx| ==> idx[k] < idx[l]
  {
    if |rows| == 0 then []
    else
      var n := |rows| - 1;
      CandidateIndices(rows[..n], targetDate) + (if IsCandidate(rows[n], targetDate) then [n] else [])
  }

  /** The reduce pass: a later index replaces the kept one only when strictly closer to noon. */
  function ReduceClosest(rows: seq<HourlyRow>, idx: seq<nat>): (c: nat)
    requires |idx| > 0
    requires forall k :: 0 <= k < |idx| ==> idx[k] < |rows|
    ensures c in idx
  {
    if |idx| == 1 then idx[0]
    else
      var closest := ReduceClosest(rows, idx[..|idx| - 1]);
      var current := idx[|idx| - 1];
      if NoonDistance(rows[current]) < NoonDistance(rows[closest]) then current else closest
  }

  function NoonIndex(rows: seq<HourlyRow>, targetDate: string): (r: Option<nat>)
    ensures r.Some? ==> r.value < |rows| && IsCandidate(rows[r.value], targetDate)
  {
    var idx := CandidateIndices(rows, targetDate);
    if |idx| == 0 then None else Some(ReduceClosest(rows, idx))
  }

  /**
   * The meaning of the chosen sample: it is a candidate, no candidate is
   * closer to noon, and every earlier candidate is strictly farther away
   * (ties go to the earliest sample).
   */
  predicate IsNoonChoice(rows: seq<HourlyRow>, targetDate: string, r: nat) {
    r < |rows| && IsCandidate(rows[r], targetDate)
    && (forall j :: 0 <= j < |rows| && IsCandidate(rows[j], targetDate) ==>
          NoonDistance(rows[r]) <= NoonDistance(rows[j]))
    && (forall j :: 0 <= j < r && IsCandidate(rows[j], targetDate) ==>
          NoonDistance(rows[r]) < NoonDistance(rows[j]))
  }

  /** The reduce keeps the earliest index among those closest to noon; `p` is its position. */
  lemma {:induction false} ReduceClosestPosition(rows: seq<HourlyRow>, idx: seq<nat>) returns (p: nat)
    requires |idx| > 0
    requires forall k :: 0 <= k < |idx| ==> idx[k] < |rows|
    ensures p < |idx| && idx[p] == ReduceClosest(rows, idx)
    ensures forall q :: 0 <= q < |idx| ==> NoonDistance(rows[idx[p]]) <= NoonDistance(rows[idx[q]])
    ensures forall q :: 0 <= q < p ==> NoonDistance(rows[idx[p]]) < NoonDistance(rows[idx[q]])
  {
    if |idx| == 1 {
      p := 0;
    } else {
      var last := |idx| - 1;
      var init := idx[..last];
      var p0 := ReduceClosestPosition(rows, init);
      assert forall q :: 0 <= q < last ==> idx[q] == init[q];
      if NoonDistance(rows[idx[last]]) < NoonDistance(rows[init[p0]]) {
        p := last;
      } else {
        p := p0;
      }
    }
  }

  lemma NoonIndexNoneIff(rows: seq<HourlyRow>, targetDate: string)
    ensures NoonIndex(rows, targetDate).None? <==>
      (forall j :: 0 <= j < |rows| ==> !IsCandidate(rows[j], targetDate))
  {
    var idx := CandidateIndices(rows, targetDate);
    if |idx| > 0 {
      assert IsCandidate(rows[idx[0]], targetDate);
    }
  }

  /** The chosen sample is the earliest candidate closest to noon. */
  lemma NoonIndexIsChoice(rows: seq<HourlyRow>, targetDate: string)
    ensures NoonIndex(rows, targetDate).Some? ==> IsNoonChoice(rows, targetDate, NoonIndex(rows, targetDate).value)
  {
    var idx := CandidateIndices(rows, targetDate);
    if |idx| > 0 {
      var p := ReduceClosestPosition(rows, idx);
      var r := idx[p];
      forall j | 0 <= j < |rows| && IsCandidate(rows[j], targetDate)
        ensures NoonDistance(rows[r]) <= NoonDistance(rows[j])
        ensures j < r ==> NoonDistance(rows[r]) < NoonDistance(rows[j])
      {
        var q :| 0 <= q < |idx| && idx[q] == j;
        if j < r {
          assert q < p;
        }
      }
    }
  }

  /** At most one sample can be the noon choice. */
  lemma NoonChoiceUnique(rows: seq<HourlyRow>, targetDate: string, r1: nat, r2: nat)
    requires IsNoonChoice(rows, targetDate, r1) && IsNoonChoice(rows, targetDate, r2)
    ensures r1 == r2
  {
    assert NoonDistance(rows[r1]) == NoonDistance(rows[r2]);
  }

  /** A sample taken at 12:00 on the target date, when there is one, is the one used. */
  lemma NoonSampleWins(rows: seq<HourlyRow>, targetDate: string, j: nat)
    requires j < |rows| && rows[j].date == targetDate && rows[j].hour == 12
    ensures NoonIndex(rows, targetDate).Some?
    ensures rows[NoonIndex(rows, targetDate).value].hour == 12
  {
    NoonIndexNoneIff(rows, targetDate);
    NoonIndexIsChoice(rows, targetDate);
    assert IsCandidate(rows[j], targetDate);
  }

  /** The forEach pass that collects the candidate indices. */
  method CollectTargetIndices(rows: seq<HourlyRow>, targetDate: string) returns (targetIndices: seq<nat>)
    ensures targetIndices == CandidateIndices(rows, targetDate)
  {
    targetIndices := [];
    var i := 0;
    while i < |rows|
      invariant 0 <= i <= |rows|
      invariant targetIndices == CandidateIndices(rows[..i], targetDate)
    {
      assert rows[..i + 1][..i] == rows[..i];
      if rows[i].date == targetDate && rows[i].hour >= 10 && rows[i].hour <= 14 {
        targetIndices := targetIndices + [i];
      }
      i := i + 1;
    }
    assert rows[..|rows|] == rows;
  }

  /** The reduce pass over the candidate indices. */
  method ReduceToClosest(rows: seq<HourlyRow>, targetIndices: seq<nat>) returns (closest: nat)
    requires |targetIndices| > 0
    requires forall j :: 0 <= j < |targetIndices| ==> targetIndices[j] < |rows|
    ensures closest == ReduceClosest(rows, targetIndices)
  {
    closest := targetIndices[0];
    assert closest == ReduceClosest(rows, targetIndices[..1]);
    var k := 1;
    while k < |targetIndices|
      invariant 1 <= k <= |targetIndices|
      invariant closest == ReduceClosest(rows, targetIndices[..k])
    {
      assert targetIndices[..k + 1][..k] == targetIndices[..k];
      var current := targetIndices[k];
      if NoonDistance(rows[current]) < NoonDistance(rows[closest]) {
        closest := current;
      }
      k := k + 1;
    }
    assert targetIndices[..k] == targetIndices;
  }

  /** The candidate search followed by the reduce to the sample closest to noon. */
  method SelectNoonIndex(rows: seq<HourlyRow>, targetDate: string) returns (r: Option<nat>)
    ensures r == NoonIndex(rows, targetDate)
  {
    var targetIndices := CollectTargetIndices(rows, targetDate);
    if |targetIndices| == 0 {
      return None;
    }
    var noonIndex := ReduceToClosest(rows, targetIndices);
    r := Some(noonIndex);
  }

  // ---------------------------------------------------------------------
  // Hourly detail, 06:00-18:00
  // ---------------------------------------------------------------------

  predicate InDaylightWindow(row: HourlyRow, targetDate: string) {
    row.date == targetDate && 6 <= row.hour <= 18
  }

  function HourlyPoint(site: LaunchSite, row: HourlyRow): HourlyDataPoint {
    HourlyDataPoint(
      row.hour,
      Round(row.temperature) as real,
      CalculateLCL(row.temperature, row.dewPoint, site.elevation as real).tcon as real,
      Round(row.windSpeed) as real,
      row.windDirection,
      Round(row.windGust) as real,
      Round(row.cloudCover) as real)
  }

  /** The hourly detail of the target date, in array order. */
  function HourlyPoints(site: LaunchSite, rows: seq<HourlyRow>, targetDate: string): (pts: seq<HourlyDataPoint>)
    ensures |pts| <= |rows|
    ensures forall k :: 0 <= k < |pts| ==> 6 <= pts[k].hour <= 18
  {
    if |rows| == 0 then []
    else
      var n := |rows| - 1;
      HourlyPoints(site, rows[..n], targetDate)
      + (if InDaylightWindow(rows[n], targetDate) then [HourlyPoint(site, rows[n])] else [])
  }

  /** Every point comes from a row of the target date inside the window; `i` is that row. */
  lemma {:induction false} HourlyPointSource(site: LaunchSite, rows: seq<HourlyRow>, targetDate: string, k: nat)
    returns (i: nat)
    requires k < |HourlyPoints(site, rows, targetDate)|
    ensures i < |rows| && InDaylightWindow(rows[i], targetDate)
    ensures HourlyPoints(site, rows, targetDate)[k] == HourlyPoint(site, rows[i])
  {
    var n := |rows| - 1;
    var init := HourlyPoints(site, rows[..n], targetDate);
    if k < |init| {
      i := HourlyPointSource(site, rows[..n], targetDate, k);
      assert rows[..n][i] == rows[i];
    } else {
      i := n;
    }
  }

  /** Every row of the target date inside the window yields a point; `k` is its position. */
  lemma {:induction false} HourlyPointPresent(site: LaunchSite, rows: seq<HourlyRow>, targetDate: string, i: nat)
    returns (k: nat)
    requires i < |rows| && InDaylightWindow(rows[i], targetDate)
    ensures k < |HourlyPoints(site, rows, targetDate)|
    ensures HourlyPoints(site, rows, targetDate)[k] == HourlyPoint(site, rows[i])
  {
    var n := |rows| - 1;
    var init := HourlyPoints(site, rows[..n], targetDate);
    if i < n {
      assert rows[..n][i] == rows[i];
      k := HourlyPointPresent(site, rows[..n], targetDate, i);
    } else {
      k := |init|;
    }
  }

  method ExtractHourlyData(site: LaunchSite, rows: seq<HourlyRow>, targetDate: string)
    returns (result: seq<HourlyDataPoint>)
    ensures result == HourlyPoints(site, rows, targetDate)
  {
    result := [];
    var i := 0;
    while i < |rows|
      invariant 0 <= i <= |rows|
      invariant result == HourlyPoints(site, rows[..i], targetDate)
    {
      assert rows[..i + 1][..i] == rows[..i];
      var row := rows[i];
      if row.date == targetDate && row.hour >= 6 && row.hour <= 18 {
        var lcl := CalculateLCL(row.temperature, row.dewPoint, site.elevation as real);
        result := result + [HourlyDataPoint(
          row.hour,
          Round(row.temperature) as real,
          lcl.tcon as real,
          Round(row.windSpeed) as real,
          row.windDirection,
          Round(row.windGust) as real,
          Round(row.cloudCover) as real)];
      }
      i := i + 1;
    }
    assert rows[..|rows|] == rows;
  }

  // ---------------------------------------------------------------------
  // Rain summary
  // ---------------------------------------------------------------------

  /** A sample counts as rain above 0.01 precipitation or above 40 % probability. */
  predicate IsRainy(row: HourlyRow, targetDate: string) {
    row.date == targetDate
    && (OrZero(row.precipitation) > 0.01 || OrZero(row.precipitationProbability) > 40.0)
  }

  function RainHours(rows: seq<HourlyRow>, targetDate: string): (rh: seq<RainHour>)
    ensures |rh| <= |rows|
  {
    if |rows| == 0 then []
    else
      var n := |rows| - 1;
      var row := rows[n];
      RainHours(rows[..n], targetDate)
      + (if IsRainy(row, targetDate)
         then [RainHour(row.hour, OrZero(row.precipitation), OrZero(row.precipitationProbability))]
         else [])
  }

  /** Every rain hour comes from a rainy sample of the target date; `i` is that sample. */
  lemma {:induction false} RainHourSource(rows: seq<HourlyRow>, targetDate: string, k: nat) returns (i: nat)
    requires k < |RainHours(rows, targetDate)|
    ensures i < |rows| && IsRainy(rows[i], targetDate)
    ensures RainHours(rows, targetDate)[k]
         == RainHour(rows[i].hour, OrZero(rows[i].precipitation), OrZero(rows[i].precipitationProbability))
  {
    var n := |rows| - 1;
    var init := RainHours(rows[..n], targetDate);
    if k < |init| {
      i := RainHourSource(rows[..n], targetDate, k);
      assert rows[..n][i] == rows[i];
    } else {
      i := n;
    }
  }

  /** Every rainy sample of the target date yields a rain hour; `k` is its position. */
  lemma {:induction false} RainHourPresent(rows: seq<HourlyRow>, targetDate: string, i: nat) returns (k: nat)
    requires i < |rows| && IsRainy(rows[i], targetDate)
    ensures k < |RainHours(rows, targetDate)|
    ensures RainHours(rows, targetDate)[k].hour == rows[i].hour
  {
    var n := |rows| - 1;
    var init := RainHours(rows[..n], targetDate);
    if i < n {
      assert rows[..n][i] == rows[i];
      k := RainHourPresent(rows[..n], targetDate, i);
    } else {
      k := |init|;
    }
  }

  /** Number of rain hours with lo <= hour < hi. */
  function CountBetween(rh: seq<RainHour>, lo: int, hi: int): (c: nat)
    ensures c <= |rh|
  {
    if |rh| == 0 then 0
    else CountBetween(rh[..|rh| - 1], lo, hi) + (if lo <= rh[|rh| - 1].hour < hi then 1 else 0)
  }

  function MinHour(rh: seq<RainHour>): (h: Hour)
    requires |rh| > 0
    ensures exists k :: 0 <= k < |rh| && rh[k].hour == h
    ensures forall k :: 0 <= k < |rh| ==> h <= rh[k].hour
  {
    if |rh| == 1 then rh[0].hour
    else
      var m := MinHour(rh[1..]);
      assert forall k :: 1 <= k < |rh| ==> rh[k] == rh[1..][k - 1];
      if rh[0].hour <= m then rh[0].hour else m
  }

  function MaxHour(rh: seq<RainHour>): (h: Hour)
    requires |rh| > 0
    ensures exists k :: 0 <= k < |rh| && rh[k].hour == h
    ensures forall k :: 0 <= k < |rh| ==> rh[k].hour <= h
  {
    if |rh| == 1 then rh[0].hour
    else
      var m := MaxHour(rh[1..]);
      assert forall k :: 1 <= k < |rh| ==> rh[k] == rh[1..][k - 1];
      if rh[0].hour >= m then rh[0].hour else m
  }

  /** The periods with enough rain: 3 morning hours, 3 afternoon hours, 2 evening hours. */
  function RainyPeriods(rh: seq<RainHour>): (ps: seq<Period>)
    ensures |ps| <= 3
    ensures Morning in ps <==> CountBetween(rh, 6, 12) >= 3
    ensures Afternoon in ps <==> CountBetween(rh, 12, 18) >= 3
    ensures Evening in ps <==> CountBetween(rh, 18, 24) >= 2
  {
    (if CountBetween(rh, 6, 12) >= 3 then [Morning] else [])
    + (if CountBetween(rh, 12, 18) >= 3 then [Afternoon] else [])
    + (if CountBetween(rh, 18, 24) >= 2 then [Evening] else [])
  }

  function SummarizeRain(rh: seq<RainHour>): (r: Option<RainInfo>)
    ensures r.None? <==> |rh| == 0
    ensures r == Some(AllDay) <==> |rh| >= 10
    ensures r.Some? && r.value.InPeriods? ==>
      0 < |r.value.periods| <= 3 && r.value.periods == RainyPeriods(rh)
    ensures r.Some? && r.value.Around? ==> forall k :: 0 <= k < |rh| ==> rh[k].hour == r.value.hour
    ensures r.Some? && r.value.Between? ==>
      r.value.first < r.value.last
      && (forall k :: 0 <= k < |rh| ==> r.value.first <= rh[k].hour <= r.value.last)
      && (exists k :: 0 <= k < |rh| && rh[k].hour == r.value.first)
      && (exists k :: 0 <= k < |rh| && rh[k].hour == r.value.last)
    ensures 0 < |rh| < 10 ==> (r.value.InPeriods? <==> |RainyPeriods(rh)| > 0)
    ensures 0 < |rh| < 10 && |RainyPeriods(rh)| == 0 ==>
      (r.value.Around? <==> forall k :: 0 <= k < |rh| ==> rh[k].hour == rh[0].hour)
  {
    if |rh| == 0 then None
    else if |rh| >= 10 then Some(AllDay)
    else
      var periods := RainyPeriods(rh);
      if |periods| == 0 then
        var minHour := MinHour(rh);
        var maxHour := MaxHour(rh);
        if minHour == maxHour then Some(Around(minHour)) else Some(Between(minHour, maxHour))
      else
        Some(InPeriods(periods))
  }

  method AnalyzeRain(rows: seq<HourlyRow>, targetDate: string) returns (r: Option<RainInfo>)
    ensures r == SummarizeRain(RainHours(rows, targetDate))
  {
    var rainHours: seq<RainHour> := [];
    var i := 0;
    while i < |rows|
      invariant 0 <= i <= |rows|
      invariant rainHours == RainHours(rows[..i], targetDate)
    {
      assert rows[..i + 1][..i] == rows[..i];
      var row := rows[i];
      if row.date == targetDate {
        var precip := OrZero(row.precipitation);
        var prob := OrZero(row.precipitationProbability);
        if precip > 0.01 || prob > 40.0 {
          rainHours := rainHours + [RainHour(row.hour, precip, prob)];
        }
      }
      i := i + 1;
    }
    assert rows[..|rows|] == rows;
    r := SummarizeRain(rainHours);
  }

  // ---------------------------------------------------------------------
  // One day from one model
  // ---------------------------------------------------------------------

  /** The day forecast built from the midday sample `n`. */
  function ForecastFromSample(
    site: LaunchSite, rows: seq<HourlyRow>, targetDate: string, n: nat, isHRRR: bool): (w: WeatherCondition)
    requires n < |rows|
    ensures WellFormedDay(site, targetDate, w)
  {
    var row := rows[n];
    var elevationFt := site.elevation as real;
    var windSpeed := Round(row.windSpeed) as real;
    var windGust := Round(row.windGust) as real;
    var cape := if isHRRR then OrZero(row.cape) else 0.0;
    var liftedIndex := if isHRRR then OrZero(row.liftedIndex) else 0.0;
    var blh := if isHRRR then OrUndefined(row.boundaryLayerHeight) else None;
    var lcl := CalculateLCL(row.temperature, row.dewPoint, elevationFt);
    var strength := ThermalStrength(row.temperature, row.dewPoint, windSpeed, elevationFt, cape, liftedIndex, blh);
    var top := TopOfUsableLift(lcl.lclMSL, strength, windSpeed, elevationFt, cape, liftedIndex, blh,
                               Some(row.temperature), Some(row.dewPoint));
    var directionMatch := CheckWindDirectionMatch(row.windDirection, site.orientation);
    var verdict := DetermineFlyability(site, row.temperature, lcl.tcon as real, windSpeed, windGust, strength,
                                       top, directionMatch, row.cloudCover, cape, liftedIndex);
    var xc := CalculateXCPotential(top, strength, windSpeed, site);
    assert Round(top) >= site.elevation + 500;
    WeatherCondition(
      targetDate, windSpeed, row.windDirection, windGust,
      Round(row.temperature) as real, Round(row.dewPoint) as real, lcl.tcon as real,
      strength, Round(top) as real, verdict.flyability, verdict.conditions,
      DetermineSoaringFlyability(site, windSpeed, windGust, directionMatch),
      DetermineThermalFlyability(site, row.temperature, lcl.tcon as real, strength, windSpeed,
                                 directionMatch, row.cloudCover),
      "12:00 PM", xc.potential, xc.reason,
      Some(HourlyPoints(site, rows, targetDate)), blh,
      Round(cape) as real, RoundTenth(liftedIndex), 0.0,
      Round(row.relativeHumidity) as real, Round(row.cloudCover) as real,
      directionMatch, SummarizeRain(RainHours(rows, targetDate)))
  }

  /** A day forecast from one model response, or None when the response has no usable sample. */
  function DayForecast(site: LaunchSite, data: ModelResponse, targetDate: string, isHRRR: bool)
    : (r: Option<WeatherCondition>)
    ensures data.hourly.None? ==> r.None?
    ensures data.hourly.Some? ==>
      (r.None? <==> forall j :: 0 <= j < |data.hourly.value| ==> !IsCandidate(data.hourly.value[j], targetDate))
    ensures r.Some? ==> WellFormedDay(site, targetDate, r.value)
  {
    if data.hourly.None? then None
    else
      NoonIndexNoneIff(data.hourly.value, targetDate);
      match NoonIndex(data.hourly.value, targetDate)
      case None => None
      case Some(n) =>
        Some(ForecastFromSample(site, data.hourly.value, targetDate, n, isHRRR))
  }

  /** What every computed day record satisfies. */
  predicate WellFormedDay(site: LaunchSite, targetDate: string, w: WeatherCondition) {
    && w.date == targetDate
    && w.topOfLift >= site.elevation as real + 500.0
    && 0.0 <= w.thermalStrength <= 10.0 && IsTenth(w.thermalStrength)
    && w.soaringFlyability != Marginal
    && (!w.windDirectionMatch ==>
          w.flyability == Poor && w.soaringFlyability == Poor && w.thermalFlyability == Poor)
    && (w.flyability == Good ==> w.thermalStrength >= 5.0)
    && Agrees(Verdict(w.flyability, w.conditions))
    && w.conditions != ForecastNotAvailable
    && w.launchTime == "12:00 PM"
    && (site.siteType == Soaring ==> w.xcPotential == Low)
    && w.hourlyData.Some?
    && (forall k :: 0 <= k < |w.hourlyData.value| ==> 6 <= w.hourlyData.value[k].hour <= 18)
  }

  /**
   * A day forecast from one model response: the midday sample is located
   * and every rule applied to it. Returns None when the response has no
   * hourly block or no sample between 10:00 and 14:00 of the target date.
   */
  method ProcessDataForDay(site: LaunchSite, data: ModelResponse, targetDate: string, isHRRR: bool)
    returns (r: Option<WeatherCondition>)
    ensures r == DayForecast(site, data, targetDate, isHRRR)
  {
    if data.hourly.None? {
      return None;
    }
    var hourly := data.hourly.value;
    var noon := SelectNoonIndex(hourly, targetDate);
    if noon.None? {
      return None;
    }
    var w := BuildDayForecast(site, hourly, targetDate, noon.value, isHRRR);
    r := Some(w);
  }

  /** The record built from the midday sample, step by step as the rules are applied. */
  method BuildDayForecast(site: LaunchSite, hourly: seq<HourlyRow>, targetDate: string, noonIndex: nat, isHRRR: bool)
    returns (w: WeatherCondition)
    requires noonIndex < |hourly|
    ensures w == ForecastFromSample(site, hourly, targetDate, noonIndex, isHRRR)
  {
    var hourlyData := ExtractHourlyData(site, hourly, targetDate);

    var row := hourly[noonIndex];
    var temperature := row.temperature;
    var dewPoint := row.dewPoint;
    var windSpeed := Round(row.windSpeed) as real;
    var windDirection := row.windDirection;
    var windGust := Round(row.windGust) as real;
    var relativeHumidity := row.relativeHumidity;
    var cloudCover := row.cloudCover;

    var cape := if isHRRR then OrZero(row.cape) else 0.0;
    var liftedIndex := if isHRRR then OrZero(row.liftedIndex) else 0.0;
    var boundaryLayerHeight := if isHRRR then OrUndefined(row.boundaryLayerHeight) else None;

    var elevationFt := site.elevation as real;
    var lcl := CalculateLCL(temperature, dewPoint, elevationFt);
    var thermalStrength := CalculateThermalStrength(
      temperature, dewPoint, windSpeed, elevationFt, cape, liftedIndex, boundaryLayerHeight);
    var topOfLift := CalculateTopOfUsableLift(
      lcl.lclMSL, thermalStrength, windSpeed, elevationFt, cape, liftedIndex, boundaryLayerHeight,
      Some(temperature), Some(dewPoint));

    var windDirectionMatch := CheckWindDirectionMatch(windDirection, site.orientation);
    var soaringFlyability := DetermineSoaringFlyability(site, windSpeed, windGust, windDirectionMatch);
    var thermalFlyability := DetermineThermalFlyability(
      site, temperature, lcl.tcon as real, thermalStrength, windSpeed, windDirectionMatch, cloudCover);
    var verdict := DetermineFlyability(
      site, temperature, lcl.tcon as real, windSpeed, windGust, thermalStrength, topOfLift,
      windDirectionMatch, cloudCover, cape, liftedIndex);

    var rainInfo := AnalyzeRain(hourly, targetDate);
    var launchTime := "12:00 PM";
    var xc := CalculateXCPotential(topOfLift, thermalStrength, windSpeed, site);

    w := WeatherCondition(
      targetDate, windSpeed, windDirection, windGust,
      Round(temperature) as real, Round(dewPoint) as real, lcl.tcon as real,
      thermalStrength, Round(topOfLift) as real, verdict.flyability, verdict.conditions,
      soaringFlyability, thermalFlyability, launchTime, xc.potential, xc.reason,
      Some(hourlyData), boundaryLayerHeight,
      Round(cape) as real, RoundTenth(liftedIndex), 0.0,
      Round(relativeHumidity) as real, Round(cloudCover) as real,
      windDirectionMatch, rainInfo);
  }

  // ---------------------------------------------------------------------
  // Seven days for one site
  // ---------------------------------------------------------------------

  /** The placeholder record of a day no model could produce. */
  function Sentinel(site: LaunchSite, targetDate: string): (w: WeatherCondition)
    ensures w.date == targetDate && w.topOfLift == site.elevation as real
    ensures w.conditions == ForecastNotAvailable && w.launchTime == "12:00 PM"
    ensures w.flyability == Poor && w.soaringFlyability == Poor && w.thermalFlyability == Poor
    ensures w.xcPotential == Low && w.xcReason == NoData
    ensures w.hourlyData.None? && w.rainInfo.None?
    ensures !WellFormedDay(site, targetDate, w)
  {
    WeatherCondition(
      targetDate, 0.0, 0.0, 0.0, 0.0, 0.0, 0.0, 0.0, site.elevation as real,
      Poor, ForecastNotAvailable, Poor, Poor, "12:00 PM", Low, NoData,
      None, None, 0.0, 0.0, 0.0, 0.0, 0.0, false, None)
  }

  /**
   * Day `i` (0 = today): the short-range model for today and tomorrow when
   * its fetch succeeded, otherwise the seven-day model when its fetch
   * succeeded; the placeholder when the chosen model yields nothing.
   */
  function DayRecord(
    site: LaunchSite, i: nat, targetDate: string,
    hrrrData: Option<ModelResponse>, ecmwfData: Option<ModelResponse>): (w: WeatherCondition)
    ensures w.date == targetDate
    ensures w == Sentinel(site, targetDate) || WellFormedDay(site, targetDate, w)
    ensures hrrrData.None? && ecmwfData.None? ==> w == Sentinel(site, targetDate)
  {
    var day :=
      if i <= 1 && hrrrData.Some? then DayForecast(site, hrrrData.value, targetDate, true)
      else if ecmwfData.Some? then DayForecast(site, ecmwfData.value, targetDate, false)
      else None;
    if day.Some? then day.value else Sentinel(site, targetDate)
  }

  /** A day record is either a well-formed forecast or the placeholder, never anything else. */
  lemma DayRecordShape(
    site: LaunchSite, i: nat, targetDate: string,
    hrrrData: Option<ModelResponse>, ecmwfData: Option<ModelResponse>)
    ensures var w := DayRecord(site, i, targetDate, hrrrData, ecmwfData);
      w.date == targetDate
      && w.topOfLift >= site.elevation as real
      && (w == Sentinel(site, targetDate) || WellFormedDay(site, targetDate, w))
      && (w.conditions == ForecastNotAvailable <==> w == Sentinel(site, targetDate))
  {
  }

  /**
   * Today and tomorrow never fall back to the seven-day model once the
   * short-range fetch succeeded: if it has no usable sample, the day is the
   * placeholder whatever the seven-day model holds.
   */
  lemma NoFallbackForShortRangeDays(
    site: LaunchSite, i: nat, targetDate: string, hrrr: ModelResponse, ecmwfData: Option<ModelResponse>)
    requires i <= 1
    requires DayForecast(site, hrrr, targetDate, true).None?
    ensures DayRecord(site, i, targetDate, Some(hrrr), ecmwfData) == Sentinel(site, targetDate)
  {
  }

  /** One pass of the per-day loop: pick the model, process it, fall back to the placeholder. */
  method ForecastDay(
    site: LaunchSite, i: nat, targetDate: string,
    hrrrData: Option<ModelResponse>, ecmwfData: Option<ModelResponse>) returns (w: WeatherCondition)
    ensures w == DayRecord(site, i, targetDate, hrrrData, ecmwfData)
  {
    var dayForecast: Option<WeatherCondition> := None;
    if i <= 1 && hrrrData.Some? {
      dayForecast := ProcessDataForDay(site, hrrrData.value, targetDate, true);
    } else if ecmwfData.Some? {
      dayForecast := ProcessDataForDay(site, ecmwfData.value, targetDate, false);
    }
    if dayForecast.Some? {
      w := dayForecast.value;
    } else {
      w := Sentinel(site, targetDate);
    }
  }

  /**
   * The seven-day forecast of one site. The clock, the two HTTP fetches and
   * their failures are parameters: `targetDates` are the Pacific dates of
   * today and the next six days, and a failed fetch is None.
   */
  method FetchWeatherForSite(
    site: LaunchSite, targetDates: seq<string>,
    hrrrData: Option<ModelResponse>, ecmwfData: Option<ModelResponse>) returns (sf: SiteForecast)
    requires |targetDates| == 7
    ensures sf.site == site && |sf.forecast| == 7
    ensures forall i :: 0 <= i < 7 ==> sf.forecast[i] == DayRecord(site, i, targetDates[i], hrrrData, ecmwfData)
    ensures forall i :: 0 <= i < 7 ==> sf.forecast[i].date == targetDates[i]
  {
    var forecastData: seq<WeatherCondition> := [];
    var i := 0;
    while i < |targetDates|
      invariant 0 <= i <= |targetDates|
      invariant |forecastData| == i
      invariant forall k :: 0 <= k < i ==>
        forecastData[k] == DayRecord(site, k, targetDates[k], hrrrData, ecmwfData)
    {
      var record := ForecastDay(site, i, targetDates[i], hrrrData, ecmwfData);
      var next := forecastData + [record];
      forall k | 0 <= k < i + 1
        ensures next[k] == DayRecord(site, k, targetDates[k], hrrrData, ecmwfData)
      {
        if k < i {
          assert next[k] == forecastData[k];
        }
      }
      forecastData := next;
      i := i + 1;
    }
    sf := SiteForecast(site, forecastData);
    forall k | 0 <= k < 7
      ensures sf.forecast[k].date == targetDates[k]
    {
      DayRecordShape(site, k, targetDates[k], hrrrData, ecmwfData);
    }
  }
}
