# GPSTest sky screen: the average-signal meter and the UI helpers it relies on

GPSTest's sky screen (`GpsSkyFragment`) has a horizontal meter under the sky
plot. It shows the average signal strength of two groups of satellites: the
"in view" cohort and the cohort "used in fix". Each cohort has a label with
the average and a small indicator, both sitting on the meter. On every
satellite update the fragment does four things:

- It picks the unit. C/N0 in dB-Hz is used unless the legacy `GpsStatus` API
  delivered the satellites and their values still look like SNR; then SNR
  in dB is used.
- It turns each cohort's average into left margins in pixels with the
  `UIUtils` conversions.
- It slides one of the two labels 16 dp left so they do not overlap.
- It either animates each visible view to its new margin, or places a
  hidden view there and shows it.

The model has four modules:

- `JavaNumerics` (`java_numerics.dfy`): the Java semantics the code relies
  on. That is 32-bit `int` addition and subtraction with wrap-around,
  `Math.abs`, the saturating `(int)` cast of a float (truncation toward
  zero), `long` division, and `Long.toString` with a reader for it.
- `MathUtils` (`math_utils.dfy`): `mapToRange` as an affine map,
  `isValidFloat` over a float type that has NaN and the infinities, and the
  `(int) (d * t)` product cast the animation uses.
- `UIUtils` (`ui_utils.dfy`): the four signal-to-margin conversions,
  `dpToPixels`, `getTtffString`, the numbers behind the DMS and DDM
  coordinate texts, the unit conversions and the constellation display-name
  table.
- `SkyScreen` (`sky_fragment.dfy`): the meter's bounds, the choice of scale,
  the label-separation rule, the per-frame motion `applyTransformation`
  computes, and the class `GpsSkyFragment`. The class holds the
  `mUseLegacyGnssApi` flag, the legend unit and the four meter views, and
  its methods are the two status callbacks, `updateSnrCn0AvgMeterText`,
  `updateSnrCn0Avgs` and one animation frame.

Floats and doubles are modelled as reals. The legend constants
`MIN/MAX_VALUE_SNR` and `MIN/MAX_VALUE_CN0` belong to the sky view, so they
are a parameter (`ScaleConstants`) whose only constraint is minimum <
maximum. The sky view's state during an update is a value (`SkyViewState`):
its two averages, its own legacy-API flag and its `isSnrBad` verdict.
Android resources are parameters too (`MeterResources`): the dimension
resources and the display density.

## Model

| member | source | states |
|---|---|---|
| JavaNumerics.Wrap32 | GPSTest/src/main/java/com/android/gpstest/GpsSkyFragment.java:326-331 | Java `int` `+`/`-`: the result is congruent to the exact value modulo 2^32 and equals it whenever it fits in an `int` |
| JavaNumerics.JavaAbs | GPSTest/src/main/java/com/android/gpstest/GpsSkyFragment.java:520-524 | `Math.abs(int)` is the magnitude, except that `Integer.MIN_VALUE` maps to itself |
| JavaNumerics.JavaIntCast | GPSTest/src/main/java/com/android/gpstest/util/UIUtils.java:110 | the `(int)` cast of a float truncates toward zero inside the `int` range and saturates at either end |
| JavaNumerics.TruncDiv | GPSTest/src/main/java/com/android/gpstest/util/UIUtils.java:161 | `TimeUnit.MILLISECONDS.toSeconds` divides by 1000 rounding toward zero: quotient and remainder bounds for both signs |
| JavaNumerics.DecimalRoundTrip | GPSTest/src/main/java/com/android/gpstest/util/UIUtils.java:161 | reading back the decimal digits of a natural number gives that number |
| JavaNumerics.LongToString | GPSTest/src/main/java/com/android/gpstest/util/UIUtils.java:161 | the text `long` concatenation writes: a leading minus sign exactly for a negative number, followed by the decimal digits of its magnitude |
| JavaNumerics.LongToStringRoundTrip | GPSTest/src/main/java/com/android/gpstest/util/UIUtils.java:161 | the text `Long.toString` writes, minus sign included, parses back to the same number |
| MathUtils.MapToRange | GPSTest/src/main/java/com/android/gpstest/util/UIUtils.java:176 | the range map sends `inMin` to `outMin` and `inMax` to `outMax`, and its offset from `outMin` is proportional to the input's offset from `inMin` |
| MathUtils.MapToRangeMonotone | GPSTest/src/main/java/com/android/gpstest/util/UIUtils.java:176 | with increasing input and non-decreasing output ranges, a larger value never maps lower |
| MathUtils.MapToRangeBeyondMax | GPSTest/src/main/java/com/android/gpstest/util/UIUtils.java:176 | the map extrapolates: one output unit's worth of input past `inMax` maps at least one unit past `outMax` |
| MathUtils.ScaledCastMonotone | GPSTest/src/main/java/com/android/gpstest/GpsSkyFragment.java:520-524 | `(int) (d * t)` for a non-negative `d` is non-decreasing in `t` |
| MathUtils.ScaledCastEnds | GPSTest/src/main/java/com/android/gpstest/GpsSkyFragment.java:520-524 | `(int) (d * 0)` is 0 and `(int) (d * 1)` is `d` |
| MathUtils.ScaledCastOfFraction | GPSTest/src/main/java/com/android/gpstest/GpsSkyFragment.java:520-524 | for a time in [0, 1], `(int) (d * t)` lies in [0, d] |
| UIUtils.MarginPx | GPSTest/src/main/java/com/android/gpstest/util/UIUtils.java:175-219 | a value at the scale minimum gives the minimum margin, and one at the scale maximum gives the maximum margin |
| UIUtils.SnrToIndicatorLeftMarginPx | GPSTest/src/main/java/com/android/gpstest/util/UIUtils.java:175-177 | the SNR scale's ends map to the indicator bounds |
| UIUtils.SnrToTextViewLeftMarginPx | GPSTest/src/main/java/com/android/gpstest/util/UIUtils.java:189-191 | the SNR scale's ends map to the label bounds |
| UIUtils.Cn0ToIndicatorLeftMarginPx | GPSTest/src/main/java/com/android/gpstest/util/UIUtils.java:203-205 | the C/N0 scale's ends map to the indicator bounds |
| UIUtils.Cn0ToTextViewLeftMarginPx | GPSTest/src/main/java/com/android/gpstest/util/UIUtils.java:217-219 | the C/N0 scale's ends map to the label bounds |
| UIUtils.MarginIsTruncatedAffineImage | GPSTest/src/main/java/com/android/gpstest/util/UIUtils.java:175-219 | inside the `int` range a margin is within one pixel of the exact affine image, on the side nearer zero |
| UIUtils.MarginMonotone | GPSTest/src/main/java/com/android/gpstest/util/UIUtils.java:175-219 | a stronger signal never gets a smaller margin when `minPx <= maxPx` |
| UIUtils.ConversionsMonotone | GPSTest/src/main/java/com/android/gpstest/util/UIUtils.java:175-219 | each of the four conversions is non-decreasing in the signal |
| UIUtils.IndicatorAndTextViewConversionsAgree | GPSTest/src/main/java/com/android/gpstest/util/UIUtils.java:175-219 | for one unit, the indicator and label conversions are the same function of the bounds passed in |
| UIUtils.MarginNotClampedAboveScale | GPSTest/src/main/java/com/android/gpstest/util/UIUtils.java:175-219 | a signal far enough above the scale maximum lands right of `maxPx`: there is no clamping |
| UIUtils.MarginExtrapolatesExample | GPSTest/src/main/java/com/android/gpstest/util/UIUtils.java:175-219 | 150 on a 0..100 scale over 0..200 px gives 300 px, and 50 gives 100 px |
| UIUtils.HalfUpCast | GPSTest/src/main/java/com/android/gpstest/util/UIUtils.java:110 | `(int) (x + 0.5f)`: for x of at least -0.5, the nearest pixel with halves rounded up (so -0.2 gives 0); below that, the truncation moves the result toward zero |
| UIUtils.HalfUpCastMonotone | GPSTest/src/main/java/com/android/gpstest/util/UIUtils.java:110 | `(int) (x + 0.5f)` is non-decreasing in x |
| UIUtils.DpToPixels | GPSTest/src/main/java/com/android/gpstest/util/UIUtils.java:106-111 | the pixel count is the product `dp * density` rounded as `HalfUpCast` states |
| UIUtils.DpToPixelsNegativeExamples | GPSTest/src/main/java/com/android/gpstest/util/UIUtils.java:110 | -16 dp at density 2 is -31 px, -31.5 becomes -31, 31.5 becomes 32, and 7 dp at density 2 is 14 px |
| UIUtils.DpToPixelsMonotone | GPSTest/src/main/java/com/android/gpstest/util/UIUtils.java:106-111 | at a non-negative density, more dp never gives fewer pixels |
| UIUtils.GetTtffString | GPSTest/src/main/java/com/android/gpstest/util/UIUtils.java:157-163 | the text is empty exactly when the time is 0; otherwise it ends in " sec" |
| UIUtils.TtffRoundTrip | GPSTest/src/main/java/com/android/gpstest/util/UIUtils.java:157-163 | the number before " sec" is exactly the milliseconds divided by 1000, rounded toward zero; the empty text is read as no value |
| UIUtils.TtffExamples | GPSTest/src/main/java/com/android/gpstest/util/UIUtils.java:155-163 | 38500 ms gives "38 sec", 999 ms gives "0 sec" and -1500 ms gives "-1 sec" |
| UIUtils.Hemisphere | GPSTest/src/main/java/com/android/gpstest/util/UIUtils.java:349-357 | S, or W for a longitude, exactly when the coordinate is negative; N or E otherwise |
| UIUtils.HemisphereExamples | GPSTest/src/main/java/com/android/gpstest/util/UIUtils.java:349-357 | latitude 37.42 is N; longitude -122.08 is W; longitude 0 is E |
| UIUtils.HalfUpUnits | GPSTest/src/main/java/com/android/gpstest/util/UIUtils.java:347 | `setScale(k, HALF_UP)` of a non-negative value is the nearest unit, with halves rounded up |
| UIUtils.HalfUpUnitsRounds | GPSTest/src/main/java/com/android/gpstest/util/UIUtils.java:347 | a non-negative value after `setScale(k, HALF_UP)` is a whole number of units and the nearest one to the input, with halves rounded up |
| UIUtils.ThousandthsRounding | GPSTest/src/main/java/com/android/gpstest/util/UIUtils.java:372 | a minutes remainder in [0, 60) rounded half-up to thousandths stays in [0, 60] and within 0.0005 of the exact value |
| UIUtils.FractionMinutes | GPSTest/src/main/java/com/android/gpstest/util/UIUtils.java:345 | the minutes remainder lies in [0, 60), and whole degrees plus it over 60 give back the coordinate's magnitude |
| UIUtils.DmsFromLocation | GPSTest/src/main/java/com/android/gpstest/util/UIUtils.java:342-360 | the hemisphere letter; degrees are |trunc(coordinate)|; minutes are an integer in 0..59. Seconds lie in [0, 60] and are the remainder after the whole minutes, rounded half-up to hundredths |
| UIUtils.DmsReconstructs | GPSTest/src/main/java/com/android/gpstest/util/UIUtils.java:342-360 | degrees·3600 + minutes·60 + seconds is within 0.005 s of |coordinate|·3600 |
| UIUtils.DmsSecondsReachSixty | GPSTest/src/main/java/com/android/gpstest/util/UIUtils.java:346-347 | 1 + 0.99995/60 degrees gives N 1° 0' 60.00": the rounding does not carry into the minutes |
| UIUtils.DmsFromLocationCarried | GPSTest/src/main/java/com/android/gpstest/util/UIUtils.java:342-360 | when rounding is done first, minutes lie in 0..59 and seconds in [0, 60) |
| UIUtils.DmsCarriedReconstructs | GPSTest/src/main/java/com/android/gpstest/util/UIUtils.java:342-360 | the carried form also lies within 0.005 s of the coordinate |
| UIUtils.DmsCarriedExample | GPSTest/src/main/java/com/android/gpstest/util/UIUtils.java:342-360 | the input that gives 60.00" as written gives N 1° 1' 0.00" when carried |
| UIUtils.DdmFromLocation | GPSTest/src/main/java/com/android/gpstest/util/UIUtils.java:369-383 | the hemisphere letter; degrees are |trunc(coordinate)|. Minutes lie in [0, 60] and are the exact remainder in minutes, rounded half-up to thousandths |
| UIUtils.DdmMinutesReachSixty | GPSTest/src/main/java/com/android/gpstest/util/UIUtils.java:371-372 | 1 + 59.9996/60 degrees gives N 1° 60.000': the rounding does not carry into the degrees |
| UIUtils.DdmFromLocationCarried | GPSTest/src/main/java/com/android/gpstest/util/UIUtils.java:369-383 | when rounding is done first, minutes lie in [0, 60) |
| UIUtils.DdmCarriedReconstructs | GPSTest/src/main/java/com/android/gpstest/util/UIUtils.java:369-383 | degrees·60 + minutes is within 0.0005' of |coordinate|·60 |
| UIUtils.DdmCarriedExample | GPSTest/src/main/java/com/android/gpstest/util/UIUtils.java:369-383 | the input that gives 60.000' as written gives N 2° 0.000' when carried |
| UIUtils.ToFeet | GPSTest/src/main/java/com/android/gpstest/util/UIUtils.java:390-392 | feet times 0.3048 is the metres |
| UIUtils.ToKilometersPerHour | GPSTest/src/main/java/com/android/gpstest/util/UIUtils.java:399-401 | km/h is m/s times 3.6 |
| UIUtils.ToMilesPerHour | GPSTest/src/main/java/com/android/gpstest/util/UIUtils.java:408-410 | mph times 0.44704 is the m/s |
| UIUtils.MilesPerHourFromKilometersPerHour | GPSTest/src/main/java/com/android/gpstest/util/UIUtils.java:399-410 | mph times 1.609344 is the km/h |
| UIUtils.GetGnssDisplayName | GPSTest/src/main/java/com/android/gpstest/util/UIUtils.java:660-680 | the "unknown" name is used exactly for an unknown constellation, and the SBAS name exactly for SBAS |
| UIUtils.DisplayNameTableIsBijective | GPSTest/src/main/java/com/android/gpstest/util/UIUtils.java:660-680 | the display-name table is one-to-one and onto: each constellation has its own resource and each resource names one constellation |
| SkyScreen.Bounds | GPSTest/src/main/java/com/android/gpstest/GpsSkyFragment.java:326-331 | each minimum margin is the `(int)` cast of its dimension resource; without overflow, the meter width is the cast width less `dpToPixels(7)` |
| SkyScreen.BoundsShareMeterWidth | GPSTest/src/main/java/com/android/gpstest/GpsSkyFragment.java:326-331 | when the sums do not overflow, both margin ranges are exactly one meter width long |
| SkyScreen.BoundsOrdered | GPSTest/src/main/java/com/android/gpstest/GpsSkyFragment.java:326-331 | for a meter of non-negative width whose sums do not overflow, each minimum margin is at most its maximum |
| SkyScreen.NonOverlapOffsetNotPositive | GPSTest/src/main/java/com/android/gpstest/GpsSkyFragment.java:334 | at a non-negative density, -16 dp converts to a non-positive pixel offset, so the slide points left |
| SkyScreen.MeterUnit | GPSTest/src/main/java/com/android/gpstest/GpsSkyFragment.java:339 | C/N0 exactly when the legacy API is not in use or the SNR is bad; SNR exactly otherwise |
| SkyScreen.TextViewMarginPx | GPSTest/src/main/java/com/android/gpstest/GpsSkyFragment.java:339-347 | under C/N0 the label margin is `cn0ToTextViewLeftMarginPx` and under SNR `snrToTextViewLeftMarginPx`, both on the label bounds |
| SkyScreen.IndicatorMarginPx | GPSTest/src/main/java/com/android/gpstest/GpsSkyFragment.java:414-422 | under C/N0 the indicator margin is `cn0ToIndicatorLeftMarginPx` and under SNR `snrToIndicatorLeftMarginPx`, both on the indicator bounds |
| SkyScreen.LabelAndIndicatorShareScale | GPSTest/src/main/java/com/android/gpstest/GpsSkyFragment.java:337-362 | a cohort's label and indicator use the same scale: C/N0 exactly when the legacy API is off or the SNR is bad. The scale's ends map to each view's bounds |
| SkyScreen.CohortOrderPreserved | GPSTest/src/main/java/com/android/gpstest/GpsSkyFragment.java:337-362 | the cohort with the weaker average is never placed right of the stronger one, for labels and for indicators |
| SkyScreen.MeterKeepsCohortOrder | GPSTest/src/main/java/com/android/gpstest/GpsSkyFragment.java:326-362 | on the bounds the fragment computes, the weaker cohort is never placed right of the stronger one, for labels and for indicators |
| SkyScreen.CohortTextMargin | GPSTest/src/main/java/com/android/gpstest/GpsSkyFragment.java:337-362 | a label margin is present (not `null`) exactly when the average is a valid float, and is then the selected conversion |
| SkyScreen.CohortIndicatorMargin | GPSTest/src/main/java/com/android/gpstest/GpsSkyFragment.java:413-422 | an indicator margin exists exactly for a valid average, and is then the selected conversion |
| SkyScreen.ApplyNonOverlapOffset | GPSTest/src/main/java/com/android/gpstest/GpsSkyFragment.java:365-372 | a lone label is left unchanged. With two labels exactly one moves by the offset: the in-view label when it is not right of the used one (ties included), the used label otherwise |
| SkyScreen.NonOverlapSeparatesLabels | GPSTest/src/main/java/com/android/gpstest/GpsSkyFragment.java:365-372 | with a leftward offset and no overflow, the left label moves by the offset, the right one stays, and the two end at least |offset| apart |
| SkyScreen.PlannedLabels | GPSTest/src/main/java/com/android/gpstest/GpsSkyFragment.java:337-372 | after the slide, each label margin is present exactly when its cohort's average is valid |
| SkyScreen.Span | GPSTest/src/main/java/com/android/gpstest/GpsSkyFragment.java:520-524 | when the difference fits in an `int`, `Math.abs(currentMargin - goal)` is the true distance |
| SkyScreen.FrameStep | GPSTest/src/main/java/com/android/gpstest/GpsSkyFragment.java:520-524 | a frame's step is between 0 and the distance for a time in [0, 1]: 0 at time 0 and the whole distance at time 1 |
| SkyScreen.FrameLeftMargin | GPSTest/src/main/java/com/android/gpstest/GpsSkyFragment.java:517-525 | every frame's margin lies between the start and the goal; it is the start at time 0 and the goal at time 1 |
| SkyScreen.FrameDisplacement | GPSTest/src/main/java/com/android/gpstest/GpsSkyFragment.java:517-525 | a frame moves the view from its start by exactly that frame's step |
| SkyScreen.FrameProgressMonotone | GPSTest/src/main/java/com/android/gpstest/GpsSkyFragment.java:517-525 | a later time never leaves the view nearer its start than an earlier one |
| SkyScreen.ApplyFrame | GPSTest/src/main/java/com/android/gpstest/GpsSkyFragment.java:517-531 | a frame sets the left margin to the animation's `FrameLeftMargin` for that time. Visibility, the animation and the other margins are kept, and a view with no animation is unchanged |
| SkyScreen.Animate | GPSTest/src/main/java/com/android/gpstest/GpsSkyFragment.java:502-538 | the new animation starts from the view's current left margin and heads to the goal; the view itself is not moved yet |
| SkyScreen.Place | GPSTest/src/main/java/com/android/gpstest/GpsSkyFragment.java:427-432 | a hidden view gets the goal as its left margin at once and becomes visible; its other margins are kept |
| SkyScreen.ShowAt | GPSTest/src/main/java/com/android/gpstest/GpsSkyFragment.java:402-432 | a valid cohort's view becomes visible. A visible view keeps its margins and gets a new animation from its left margin to the goal; a hidden one takes the goal as its left margin at once. Top, right and bottom margins are kept |
| SkyScreen.Hide | GPSTest/src/main/java/com/android/gpstest/GpsSkyFragment.java:433-436 | an invalid cohort's view becomes invisible where it is; its margins and animation are kept |
| SkyScreen.ShowAtReachesGoal | GPSTest/src/main/java/com/android/gpstest/GpsSkyFragment.java:402-432 | after an update a valid cohort's view is visible. A hidden one is at the goal at once; a visible one starts where it was, ends at the goal, and stays between the two. Top, right and bottom margins never change |
| SkyScreen.CohortVisibility | GPSTest/src/main/java/com/android/gpstest/GpsSkyFragment.java:379-493 | after an update, a cohort's label and indicator are visible exactly when its average is valid. An invalid average empties the label and hides both views |
| SkyScreen.LegendUnit | GPSTest/src/main/java/com/android/gpstest/GpsSkyFragment.java:300-318 | the legend shows C/N0 exactly when the fragment's flag is off or a sky view exists and reports bad SNR |
| SkyScreen.LegendAgreesWithMeter | GPSTest/src/main/java/com/android/gpstest/GpsSkyFragment.java:299-362 | the legend (from the fragment's flag) and the meter placement (from the sky view's flag) name the same unit exactly when the two flags agree or the SNR is bad |
| SkyScreen.GpsSkyFragment.constructor | GPSTest/src/main/java/com/android/gpstest/GpsSkyFragment.java:67 | a new fragment starts with the legacy-API flag off. Its legend, label texts and views are those it is given |
| SkyScreen.GpsSkyFragment.OnSatelliteStatusChanged | GPSTest/src/main/java/com/android/gpstest/GpsSkyFragment.java:151-156 | the modern callback clears the flag, sets the legend to C/N0 and performs the meter update `AvgsUpdated` describes |
| SkyScreen.GpsSkyFragment.OnGpsStatusChanged | GPSTest/src/main/java/com/android/gpstest/GpsSkyFragment.java:178-195 | events other than satellite status change nothing. A satellite-status event sets the flag, chooses the legend from `isSnrBad`, and updates the meter |
| SkyScreen.GpsSkyFragment.UpdateSnrCn0AvgMeterText | GPSTest/src/main/java/com/android/gpstest/GpsSkyFragment.java:299-319 | the legend shows C/N0 exactly when the flag is off or a sky view exists and reports bad SNR; otherwise SNR |
| SkyScreen.GpsSkyFragment.TextViewMarginFor | GPSTest/src/main/java/com/android/gpstest/GpsSkyFragment.java:339-347 | the label margin is the label-bounds image of the average on the C/N0 scale when the legacy API is off or the SNR is bad, and on the SNR scale otherwise |
| SkyScreen.GpsSkyFragment.IndicatorMarginFor | GPSTest/src/main/java/com/android/gpstest/GpsSkyFragment.java:413-422 | the indicator margin is the indicator-bounds image of the average on the C/N0 scale when the legacy API is off or the SNR is bad, and on the SNR scale otherwise |
| SkyScreen.GpsSkyFragment.LabelMarginsFor | GPSTest/src/main/java/com/android/gpstest/GpsSkyFragment.java:337-372 | the two `Integer` label margins computed step by step equal `PlannedLabels`: present exactly for valid averages, then separated |
| SkyScreen.GpsSkyFragment.UpdateSnrCn0Avgs | GPSTest/src/main/java/com/android/gpstest/GpsSkyFragment.java:321-494 | with no sky view nothing changes. Otherwise both cohorts' texts and views are the `CohortUpdated` image of the old views, which gives the visibility, goal and separation lemmas above |
| SkyScreen.GpsSkyFragment.ApplyTransformation | GPSTest/src/main/java/com/android/gpstest/GpsSkyFragment.java:517-531 | one frame moves only the animated view, as `ApplyFrame` states; the other three views are unchanged |

## Left out

- Floating point: floats and doubles are reals, so IEEE rounding is not modelled. That covers `dp * scale + 0.5f` in `float`, the `float` result of the speed conversions, and `BigDecimal(double)` seeing the double's exact binary value.
- NaN and the infinities reach only `isValidFloat` (`MathUtils.JFloat`). The conversions are applied only to finite averages, as in the source.
- The source of `MathUtils.mapToRange` and `MathUtils.isValidFloat` is not part of this model. They are modelled as the affine map their callers document and as "finite", respectively.
- The values of the sky view's `MIN/MAX_VALUE_SNR` and `MIN/MAX_VALUE_CN0` are not part of this model. They are the `ScaleConstants` parameter.
- How `GpsSkyView` computes its averages, `isSnrBad` and `isUsingLegacyGpsApi`, and its drawing and projection, are left out. The fragment only reads them, so they are a `SkyViewState` value.
- Text formatting: `String.format("%.1f")`, the DMS/DDM format strings and locales are left out. Labels carry the average as a number (`LabelText`). DMS/DDM give the numbers and the hemisphere letter the format string receives.
- `UIUtils.GetGnssDisplayName` returns the string resource, not its localized text.
- The legend's seven `TextView` strings are modelled only as the unit they show (`SignalUnit`).
- Colours, drawables, backgrounds and padding on the labels and indicators are left out. They do not affect placement.
- The 300 ms duration, the `FastOutSlowInInterpolator` and what the UI thread schedules are left out. `ApplyTransformation` takes the interpolated time as a parameter, and a view keeps the last animation started on it.
- The `animation.reset()` call in `animateSnrCn0Indicator` is left out. The source resets the passed-in field, which is never assigned, so that call never affects anything.
- Null checks on views (`v == null`), view lookup, inflation and the fragment lifecycle are left out. All four views always exist in the model.
- The remaining `GpsSkyFragment` behaviour is outside the modelled core: the lock icon, the theme, dark-mode resources and the listener wiring.
- `SkyScreen.GpsSkyFragment.OnSatelliteStatusChanged` and `OnGpsStatusChanged` do not model the status object being passed on to the sky view. The sky view's resulting state is their `sky` parameter.

## Findings

| source | as written | input that shows it | evidently intended | confidence | as-written member | corrected member |
|---|---|---|---|---|---|---|
| GPSTest/src/main/java/com/android/gpstest/util/UIUtils.java:346-347 | DMS seconds are rounded to hundredths after the whole minutes are fixed, so there is no carry | 1 + 0.99995/60 degrees, latitude: N 1° 0' 60.00" | N 1° 1' 0.00": seconds always below 60 | medium, not executed | UIUtils.DmsSecondsReachSixty | UIUtils.DmsFromLocationCarried |
| GPSTest/src/main/java/com/android/gpstest/util/UIUtils.java:371-372 | DDM minutes are rounded to thousandths after the whole degrees are fixed, so there is no carry | 1 + 59.9996/60 degrees, latitude: N 1° 60.000' | N 2° 0.000': minutes always below 60 | medium, not executed | UIUtils.DdmMinutesReachSixty | UIUtils.DdmFromLocationCarried |
