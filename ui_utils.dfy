/**
 * The numeric helpers of `UIUtils` that the sky screen and the status screens
 * use: signal-to-margin conversions for the average-signal meter, dp to pixel
 * conversion, the time-to-first-fix text, the numeric part of the DMS and DDM
 * coordinate formats, unit conversions and the constellation display names.
 * Floats and doubles are modelled as reals.
 */
module UIUtils {
  import opened Optional
  import opened JavaNumerics
  import opened MathUtils

  // ---------------------------------------------------------------------------
  // Signal value to left margin (the avg SNR / C/N0 meter)
  // ---------------------------------------------------------------------------

  /** The ends of a legend scale (dB for SNR, dB-Hz for C/N0). */
  datatype LegendScale = LegendScale(min: real, max: real)

  /** A usable legend scale: its minimum lies below its maximum. */
  type Scale = s: LegendScale | s.min < s.max witness LegendScale(0.0, 1.0)

  /** The sky view's `MIN/MAX_VALUE_SNR` and `MIN/MAX_VALUE_CN0` constants. */
  datatype ScaleConstants = ScaleConstants(snr: Scale, cn0: Scale)

  /** The affine image of `value` on `[minPx, maxPx]`, cast to `int` as `(int) MathUtils.mapToRange(...)` does. */
  function MarginPx(value: real, scale: Scale, minPx: Int32, maxPx: Int32): (r: Int32)
    ensures value == scale.min ==> r == minPx
    ensures value == scale.max ==> r == maxPx
  {
    JavaIntCast(MapToRange(value, scale.min, scale.max, minPx as real, maxPx as real))
  }

  function SnrToIndicatorLeftMarginPx(snr: real, minIndicatorMarginPx: Int32, maxIndicatorMarginPx: Int32,
                                      legend: ScaleConstants): (r: Int32)
    ensures snr == legend.snr.min ==> r == minIndicatorMarginPx
    ensures snr == legend.snr.max ==> r == maxIndicatorMarginPx
  {
    MarginPx(snr, legend.snr, minIndicatorMarginPx, maxIndicatorMarginPx)
  }

  function SnrToTextViewLeftMarginPx(snr: real, minTextViewMarginPx: Int32, maxTextViewMarginPx: Int32,
                                     legend: ScaleConstants): (r: Int32)
    ensures snr == legend.snr.min ==> r == minTextViewMarginPx
    ensures snr == legend.snr.max ==> r == maxTextViewMarginPx
  {
    MarginPx(snr, legend.snr, minTextViewMarginPx, maxTextViewMarginPx)
  }

  function Cn0ToIndicatorLeftMarginPx(cn0: real, minIndicatorMarginPx: Int32, maxIndicatorMarginPx: Int32,
                                      legend: ScaleConstants): (r: Int32)
    ensures cn0 == legend.cn0.min ==> r == minIndicatorMarginPx
    ensures cn0 == legend.cn0.max ==> r == maxIndicatorMarginPx
  {
    MarginPx(cn0, legend.cn0, minIndicatorMarginPx, maxIndicatorMarginPx)
  }

  function Cn0ToTextViewLeftMarginPx(cn0: real, minTextViewMarginPx: Int32, maxTextViewMarginPx: Int32,
                                     legend: ScaleConstants): (r: Int32)
    ensures cn0 == legend.cn0.min ==> r == minTextViewMarginPx
    ensures cn0 == legend.cn0.max ==> r == maxTextViewMarginPx
  {
    MarginPx(cn0, legend.cn0, minTextViewMarginPx, maxTextViewMarginPx)
  }

  /**
   * A margin is the affine image truncated toward zero: inside the `int` range
   * it lies within one pixel of the exact image, on the side nearer zero.
   */
  lemma MarginIsTruncatedAffineImage(value: real, scale: Scale, minPx: Int32, maxPx: Int32)
    ensures var y := minPx as real + (value - scale.min) * (maxPx - minPx) as real / (scale.max - scale.min);
            var r := MarginPx(value, scale, minPx, maxPx);
            (0.0 <= y < INT_MAX as real ==> r as real <= y < r as real + 1.0) &&
            (INT_MIN as real <= y < 0.0 ==> r as real - 1.0 < y <= r as real)
  {
    var y := minPx as real + (value - scale.min) * (maxPx - minPx) as real / (scale.max - scale.min);
    assert MapToRange(value, scale.min, scale.max, minPx as real, maxPx as real) == y;
  }

  /** A stronger signal never moves a margin to the left when the margin range is not reversed. */
  lemma MarginMonotone(v1: real, v2: real, scale: Scale, minPx: Int32, maxPx: Int32)
    requires v1 <= v2 && minPx <= maxPx
    ensures MarginPx(v1, scale, minPx, maxPx) <= MarginPx(v2, scale, minPx, maxPx)
  {
    MapToRangeMonotone(v1, v2, scale.min, scale.max, minPx as real, maxPx as real);
    JavaIntCastMonotone(MapToRange(v1, scale.min, scale.max, minPx as real, maxPx as real),
                        MapToRange(v2, scale.min, scale.max, minPx as real, maxPx as real));
  }

  /** All four conversions are non-decreasing in the signal value. */
  lemma ConversionsMonotone(v1: real, v2: real, minPx: Int32, maxPx: Int32, legend: ScaleConstants)
    requires v1 <= v2 && minPx <= maxPx
    ensures SnrToIndicatorLeftMarginPx(v1, minPx, maxPx, legend) <= SnrToIndicatorLeftMarginPx(v2, minPx, maxPx, legend)
    ensures SnrToTextViewLeftMarginPx(v1, minPx, maxPx, legend) <= SnrToTextViewLeftMarginPx(v2, minPx, maxPx, legend)
    ensures Cn0ToIndicatorLeftMarginPx(v1, minPx, maxPx, legend) <= Cn0ToIndicatorLeftMarginPx(v2, minPx, maxPx, legend)
    ensures Cn0ToTextViewLeftMarginPx(v1, minPx, maxPx, legend) <= Cn0ToTextViewLeftMarginPx(v2, minPx, maxPx, legend)
  {
    MarginMonotone(v1, v2, legend.snr, minPx, maxPx);
    MarginMonotone(v1, v2, legend.cn0, minPx, maxPx);
  }

  /** The indicator and the text-view conversions of one unit differ only in the bounds passed to them. */
  lemma IndicatorAndTextViewConversionsAgree(v: real, minPx: Int32, maxPx: Int32, legend: ScaleConstants)
    ensures SnrToIndicatorLeftMarginPx(v, minPx, maxPx, legend) == SnrToTextViewLeftMarginPx(v, minPx, maxPx, legend)
    ensures Cn0ToIndicatorLeftMarginPx(v, minPx, maxPx, legend) == Cn0ToTextViewLeftMarginPx(v, minPx, maxPx, legend)
  {
  }

  /**
   * Out-of-range signals are not clamped: a value far enough above the scale
   * maximum is placed to the right of `maxPx`.
   */
  lemma MarginNotClampedAboveScale(value: real, scale: Scale, minPx: Int32, maxPx: Int32)
    requires minPx < maxPx < INT_MAX
    requires value >= scale.max + (scale.max - scale.min) / (maxPx - minPx) as real
    ensures MarginPx(value, scale, minPx, maxPx) > maxPx
  {
    MapToRangeBeyondMax(value, scale.min, scale.max, minPx as real, maxPx as real);
    JavaIntCastMonotone((maxPx + 1) as real, MapToRange(value, scale.min, scale.max, minPx as real, maxPx as real));
    JavaIntCastOfInt(maxPx + 1);
  }

  /** Extrapolation past the scale: 150 on a 0..100 scale over 0..200 px gives 300 px. */
  lemma MarginExtrapolatesExample()
    ensures MarginPx(150.0, LegendScale(0.0, 100.0), 0, 200) == 300
    ensures MarginPx(50.0, LegendScale(0.0, 100.0), 0, 200) == 100
  {
    JavaIntCastOfInt(300);
    JavaIntCastOfInt(100);
  }

  // ---------------------------------------------------------------------------
  // dp to pixels
  // ---------------------------------------------------------------------------

  /**
   * `(int) (x + 0.5f)`: from -0.5 up the nearest pixel with halves rounded
   * up; below that the truncation moves the result toward zero.
   */
  function HalfUpCast(x: real): (px: Int32)
    ensures -0.5 <= x && x + 0.5 < INT_MAX as real ==> px as real - 0.5 <= x < px as real + 0.5
    ensures INT_MIN as real < x + 0.5 < 0.0 ==> px as real - 1.5 < x <= px as real - 0.5
  {
    JavaIntCast(x + 0.5)
  }

  lemma HalfUpCastMonotone(x1: real, x2: real)
    requires x1 <= x2
    ensures HalfUpCast(x1) <= HalfUpCast(x2)
  {
    JavaIntCastMonotone(x1 + 0.5, x2 + 0.5);
  }

  /** `(int) (dp * density + 0.5f)`: the Android formula for converting dp to pixels. */
  function DpToPixels(dp: real, density: real): (px: Int32)
    ensures px == HalfUpCast(dp * density)
  {
    HalfUpCast(dp * density)
  }

  /**
   * For non-negative products the result is the nearest pixel with halves
   * rounded up; for negative ones the truncation moves toward zero, so -31.5
   * becomes -31 and -16 dp at density 2 becomes -31 px, not -32.
   */
  lemma DpToPixelsNegativeExamples()
    ensures DpToPixels(-31.5, 1.0) == -31
    ensures DpToPixels(-16.0, 2.0) == -31
    ensures DpToPixels(31.5, 1.0) == 32
    ensures DpToPixels(7.0, 2.0) == 14
  {
  }

  lemma DpToPixelsMonotone(dp1: real, dp2: real, density: real)
    requires dp1 <= dp2 && 0.0 <= density
    ensures DpToPixels(dp1, density) <= DpToPixels(dp2, density)
  {
    MulMonotone(dp1, dp2, density);
    HalfUpCastMonotone(dp1 * density, dp2 * density);
  }

  // ---------------------------------------------------------------------------
  // Time to first fix
  // ---------------------------------------------------------------------------

  const SEC_SUFFIX: string := " sec"

  /** `getTtffString`: empty for 0, otherwise the whole seconds (toward zero) and " sec". */
  function GetTtffString(ttff: Int32): (s: string)
    ensures s == "" <==> ttff == 0
    ensures ttff != 0 ==> |s| > |SEC_SUFFIX| && s[|s| - |SEC_SUFFIX|..] == SEC_SUFFIX
  {
    if ttff == 0 then "" else LongToString(TruncDiv(ttff, 1000)) + SEC_SUFFIX
  }

  /** Reads the seconds back out of a time-to-first-fix text; `None` for the empty text. */
  function ParseTtffSeconds(s: string): Option<int> {
    if |s| > |SEC_SUFFIX| && s[|s| - |SEC_SUFFIX|..] == SEC_SUFFIX then ParseLong(s[..|s| - |SEC_SUFFIX|])
    else None
  }

  lemma TtffRoundTrip(ttff: Int32)
    ensures ParseTtffSeconds(GetTtffString(ttff)) == if ttff == 0 then None else Some(TruncDiv(ttff, 1000))
  {
    if ttff != 0 {
      var n := TruncDiv(ttff, 1000);
      var s := GetTtffString(ttff);
      assert s[..|s| - |SEC_SUFFIX|] == LongToString(n);
      LongToStringRoundTrip(n);
    }
  }

  lemma TtffExamples()
    ensures GetTtffString(38500) == "38 sec"
    ensures GetTtffString(999) == "0 sec"
    ensures GetTtffString(-1500) == "-1 sec"
  {
    assert NatToDecimal(38) == "38";
  }

  // ---------------------------------------------------------------------------
  // Coordinates: degrees-minutes-seconds and degrees-decimal-minutes
  // ---------------------------------------------------------------------------

  const COORDINATE_LATITUDE: string := "lat"
  const COORDINATE_LONGITUDE: string := "lon"

  /** The hemisphere letter of a coordinate: S or W exactly when it is negative. */
  function Hemisphere(coordinate: real, latOrLon: string): (c: char)
    ensures latOrLon == COORDINATE_LATITUDE ==> (c == 'S' <==> coordinate < 0.0) && (c == 'N' <==> 0.0 <= coordinate)
    ensures latOrLon != COORDINATE_LATITUDE ==> (c == 'W' <==> coordinate < 0.0) && (c == 'E' <==> 0.0 <= coordinate)
  {
    if latOrLon == COORDINATE_LATITUDE then (if coordinate < 0.0 then 'S' else 'N')
    else (if coordinate < 0.0 then 'W' else 'E')
  }

  /** Mountain View: a northern latitude and a western longitude. */
  lemma HemisphereExamples()
    ensures Hemisphere(37.42, COORDINATE_LATITUDE) == 'N'
    ensures Hemisphere(-122.08, COORDINATE_LONGITUDE) == 'W'
    ensures Hemisphere(0.0, COORDINATE_LONGITUDE) == 'E'
  {
  }

  /** `BigDecimal.setScale(k, RoundingMode.HALF_UP)` as an integer count of units 1/`unitsPerOne`. */
  function HalfUpUnits(x: real, unitsPerOne: nat): (n: int)
    requires 0 < unitsPerOne
    ensures var y := x * unitsPerOne as real;
            0.0 <= x ==> 0 <= n && n as real - 0.5 <= y < n as real + 0.5
  {
    if x >= 0.0 then (x * unitsPerOne as real + 0.5).Floor
    else -((-x * unitsPerOne as real + 0.5).Floor)
  }

  /**
   * `value` is `x` rounded half-up to a multiple of 1/`unitsPerOne`: a whole
   * number of units, and the nearest one with halves rounded up.
   */
  predicate RoundedHalfUp(value: real, x: real, unitsPerOne: nat) {
    var v, y := value * unitsPerOne as real, x * unitsPerOne as real;
    v.Floor as real == v && v - 0.5 <= y < v + 0.5
  }

  /** Dividing the half-up count of units back into a value rounds `x` half-up. */
  lemma HalfUpUnitsRounds(x: real, unitsPerOne: nat)
    requires 0.0 <= x && 0 < unitsPerOne
    ensures RoundedHalfUp(HalfUpUnits(x, unitsPerOne) as real / unitsPerOne as real, x, unitsPerOne)
  {
    var n := HalfUpUnits(x, unitsPerOne);
    var k := unitsPerOne as real;
    assert (n as real / k) * k == n as real;
  }

  /** Minutes rounded half-up to thousandths stay in [0, 60] and within half a thousandth of `x`. */
  lemma ThousandthsRounding(x: real)
    requires 0.0 <= x < 60.0
    ensures var v := HalfUpUnits(x, 1000) as real / 1000.0;
            0.0 <= v <= 60.0 && AbsReal(v - x) <= 0.0005 && RoundedHalfUp(v, x, 1000)
  {
    HalfUpUnitsRounds(x, 1000);
  }

  /** The numbers `getDMSFromLocation` formats, and its hemisphere letter. */
  datatype Dms = Dms(hemisphere: char, degrees: Int32, minutes: Int32, seconds: real)

  /** The numbers `getDDMFromLocation` formats, and its hemisphere letter. */
  datatype Ddm = Ddm(hemisphere: char, degrees: Int32, minutes: real)

  /** The fractional part of a coordinate, in minutes: |coordinate - trunc(coordinate)| * 60. */
  function FractionMinutes(coordinate: real): (m: real)
    ensures 0.0 <= m < 60.0
    ensures AbsReal(coordinate) == Abs(Trunc(coordinate)) as real + m / 60.0
  {
    AbsReal((coordinate - Trunc(coordinate) as real) * 60.0)
  }

  /**
   * `getDMSFromLocation` as written: degrees truncated toward zero, whole
   * minutes of the remainder, and the seconds left over rounded half-up to
   * hundredths.
   */
  function DmsFromLocation(coordinate: real, latOrLon: string): (d: Dms)
    ensures d.hemisphere == Hemisphere(coordinate, latOrLon)
    ensures Abs(Trunc(coordinate)) <= INT_MAX ==> d.degrees == Abs(Trunc(coordinate))
    ensures 0 <= d.minutes <= 59 && d.minutes == FractionMinutes(coordinate).Floor
    ensures 0.0 <= d.seconds <= 60.0
    ensures RoundedHalfUp(d.seconds, (FractionMinutes(coordinate) - d.minutes as real) * 60.0, 100)
  {
    var minTemp := FractionMinutes(coordinate);
    var minutes := minTemp.Floor;
    HalfUpUnitsRounds((minTemp - minutes as real) * 60.0, 100);
    var seconds := HalfUpUnits((minTemp - minutes as real) * 60.0, 100) as real / 100.0;
    Dms(Hemisphere(coordinate, latOrLon), Wrap32(Abs(Trunc(coordinate))), minutes, seconds)
  }

  /** The DMS numbers put back together lie within half a hundredth of a second of |coordinate|. */
  lemma DmsReconstructs(coordinate: real, latOrLon: string)
    requires Abs(Trunc(coordinate)) <= INT_MAX
    ensures var d := DmsFromLocation(coordinate, latOrLon);
            AbsReal(d.degrees as real * 3600.0 + d.minutes as real * 60.0 + d.seconds - AbsReal(coordinate) * 3600.0) <= 0.005
  {
    var minTemp := FractionMinutes(coordinate);
    var minutes := minTemp.Floor;
    var rest := (minTemp - minutes as real) * 60.0;
    var n := HalfUpUnits(rest, 100);
    assert AbsReal(n as real / 100.0 - rest) <= 0.005;
  }

  /**
   * The seconds are rounded after the minutes are fixed, so a remainder of
   * 59.995 seconds or more prints as 60.00 seconds without a carry into the
   * minutes: 1 + 0.99995/60 degrees gives N 1° 0' 60.00".
   */
  lemma DmsSecondsReachSixty()
    ensures DmsFromLocation(1.0 + 19999.0 / 1200000.0, COORDINATE_LATITUDE) == Dms('N', 1, 0, 60.0)
  {
    var c := 1.0 + 19999.0 / 1200000.0;
    assert Trunc(c) == 1;
    assert FractionMinutes(c) == 0.99995;
    assert HalfUpUnits(0.99995 * 60.0, 100) == 6000;
  }

  /**
   * DMS with the rounding done first, on the whole coordinate in hundredths of
   * a second, so that the carry reaches the minutes and the degrees.
   */
  function DmsFromLocationCarried(coordinate: real, latOrLon: string): (d: Dms)
    ensures d.hemisphere == Hemisphere(coordinate, latOrLon)
    ensures 0 <= d.minutes <= 59
    ensures 0.0 <= d.seconds < 60.0
  {
    var n := HalfUpUnits(AbsReal(coordinate), 360000);
    Dms(Hemisphere(coordinate, latOrLon), Wrap32(n / 360000), (n % 360000) / 6000, (n % 6000) as real / 100.0)
  }

  lemma DmsCarriedReconstructs(coordinate: real, latOrLon: string)
    requires HalfUpUnits(AbsReal(coordinate), 360000) / 360000 <= INT_MAX
    ensures var d := DmsFromLocationCarried(coordinate, latOrLon);
            AbsReal(d.degrees as real * 3600.0 + d.minutes as real * 60.0 + d.seconds - AbsReal(coordinate) * 3600.0) <= 0.005
  {
    var n := HalfUpUnits(AbsReal(coordinate), 360000);
    var d := DmsFromLocationCarried(coordinate, latOrLon);
    assert n == (n / 360000) * 360000 + ((n % 360000) / 6000) * 6000 + n % 6000;
    assert d.degrees as real * 3600.0 + d.minutes as real * 60.0 + d.seconds == n as real / 100.0;
  }

  lemma DmsCarriedExample()
    ensures DmsFromLocationCarried(1.0 + 19999.0 / 1200000.0, COORDINATE_LATITUDE) == Dms('N', 1, 1, 0.0)
  {
    assert HalfUpUnits(1.0 + 19999.0 / 1200000.0, 360000) == 366000;
  }

  /** `getDDMFromLocation` as written: degrees truncated toward zero and the remainder in minutes rounded half-up to thousandths. */
  function DdmFromLocation(coordinate: real, latOrLon: string): (d: Ddm)
    ensures d.hemisphere == Hemisphere(coordinate, latOrLon)
    ensures Abs(Trunc(coordinate)) <= INT_MAX ==> d.degrees == Abs(Trunc(coordinate))
    ensures 0.0 <= d.minutes <= 60.0
    ensures AbsReal(d.minutes - FractionMinutes(coordinate)) <= 0.0005
    ensures RoundedHalfUp(d.minutes, FractionMinutes(coordinate), 1000)
  {
    ThousandthsRounding(FractionMinutes(coordinate));
    var minutes := HalfUpUnits(FractionMinutes(coordinate), 1000) as real / 1000.0;
    Ddm(Hemisphere(coordinate, latOrLon), Wrap32(Abs(Trunc(coordinate))), minutes)
  }

  /** The same missing carry: 1 + 59.9996/60 degrees gives N 1° 60.000'. */
  lemma DdmMinutesReachSixty()
    ensures DdmFromLocation(1.0 + 599996.0 / 600000.0, COORDINATE_LATITUDE) == Ddm('N', 1, 60.0)
  {
    var c := 1.0 + 599996.0 / 600000.0;
    assert Trunc(c) == 1;
    assert FractionMinutes(c) == 59.9996;
    assert HalfUpUnits(59.9996, 1000) == 60000;
  }

  /** DDM with the rounding done first, on the whole coordinate in thousandths of a minute. */
  function DdmFromLocationCarried(coordinate: real, latOrLon: string): (d: Ddm)
    ensures d.hemisphere == Hemisphere(coordinate, latOrLon)
    ensures 0.0 <= d.minutes < 60.0
  {
    var n := HalfUpUnits(AbsReal(coordinate), 60000);
    Ddm(Hemisphere(coordinate, latOrLon), Wrap32(n / 60000), (n % 60000) as real / 1000.0)
  }

  lemma DdmCarriedReconstructs(coordinate: real, latOrLon: string)
    requires HalfUpUnits(AbsReal(coordinate), 60000) / 60000 <= INT_MAX
    ensures var d := DdmFromLocationCarried(coordinate, latOrLon);
            AbsReal(d.degrees as real * 60.0 + d.minutes - AbsReal(coordinate) * 60.0) <= 0.0005
  {
    var n := HalfUpUnits(AbsReal(coordinate), 60000);
    var d := DdmFromLocationCarried(coordinate, latOrLon);
    assert n == (n / 60000) * 60000 + n % 60000;
    assert d.degrees as real * 60.0 + d.minutes == n as real / 1000.0;
  }

  lemma DdmCarriedExample()
    ensures DdmFromLocationCarried(1.0 + 599996.0 / 600000.0, COORDINATE_LATITUDE) == Ddm('N', 2, 0.0)
  {
    assert HalfUpUnits(1.0 + 599996.0 / 600000.0, 60000) == 120000;
  }

  // ---------------------------------------------------------------------------
  // Unit conversions
  // ---------------------------------------------------------------------------

  /** Meters to feet; one international foot is exactly 0.3048 m. */
  function ToFeet(meters: real): (feet: real)
    ensures feet * 0.3048 == meters
  {
    meters * 1000.0 / 25.4 / 12.0
  }

  /** Meters per second to kilometers per hour: 3.6 km/h per m/s. */
  function ToKilometersPerHour(metersPerSecond: real): (kmh: real)
    ensures kmh == metersPerSecond * 3.6
  {
    metersPerSecond * 3600.0 / 1000.0
  }

  /** Meters per second to miles per hour; one mile per hour is exactly 0.44704 m/s. */
  function ToMilesPerHour(metersPerSecond: real): (mph: real)
    ensures mph * 0.44704 == metersPerSecond
  {
    ToKilometersPerHour(metersPerSecond) / 1.609344
  }

  /** Miles per hour is kilometers per hour over the international mile, 1.609344 km. */
  lemma MilesPerHourFromKilometersPerHour(metersPerSecond: real)
    ensures ToMilesPerHour(metersPerSecond) * 1.609344 == ToKilometersPerHour(metersPerSecond)
  {
  }

  // ---------------------------------------------------------------------------
  // Constellation display names
  // ---------------------------------------------------------------------------

  datatype GnssType = Navstar | Galileo | Glonass | Beidou | Qzss | Irnss | Sbas | Unknown

  /** The string resources `getGnssDisplayName` looks up (their text is not part of this model). */
  datatype DisplayNameRes =
    | SkyLegendShapeNavstar | SkyLegendShapeGalileo | SkyLegendShapeGlonass | SkyLegendShapeBeidou
    | SkyLegendShapeQzss | SkyLegendShapeIrnss | SbasName | UnknownName

  function GetGnssDisplayName(gnssType: GnssType): (r: DisplayNameRes)
    ensures r == UnknownName <==> gnssType == Unknown
    ensures r == SbasName <==> gnssType == Sbas
  {
    match gnssType
    case Navstar => SkyLegendShapeNavstar
    case Galileo => SkyLegendShapeGalileo
    case Glonass => SkyLegendShapeGlonass
    case Beidou => SkyLegendShapeBeidou
    case Qzss => SkyLegendShapeQzss
    case Irnss => SkyLegendShapeIrnss
    case Sbas => SbasName
    case Unknown => UnknownName
  }

  /** The constellation a display-name resource belongs to. */
  function ConstellationOf(r: DisplayNameRes): GnssType {
    match r
    case SkyLegendShapeNavstar => Navstar
    case SkyLegendShapeGalileo => Galileo
    case SkyLegendShapeGlonass => Glonass
    case SkyLegendShapeBeidou => Beidou
    case SkyLegendShapeQzss => Qzss
    case SkyLegendShapeIrnss => Irnss
    case SbasName => Sbas
    case UnknownName => Unknown
  }

  /** Every constellation has its own name: the table is one-to-one and onto. */
  lemma DisplayNameTableIsBijective(t: GnssType, r: DisplayNameRes)
    ensures ConstellationOf(GetGnssDisplayName(t)) == t
    ensures GetGnssDisplayName(ConstellationOf(r)) == r
  {
  }
}
