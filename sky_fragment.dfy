/**
 * The average-signal meter of the sky screen (`GpsSkyFragment`): the legend
 * choice between SNR and C/N0, the placement of the "in view" and "used"
 * labels and indicators along the meter, the rule that keeps the two labels
 * apart, and the per-frame movement of an indicator toward its new place.
 */
module SkyScreen {
  import opened Optional
  import opened JavaNumerics
  import opened MathUtils
  import opened UIUtils

  /** What the fragment reads from its `GpsSkyView` during an update. */
  datatype SkyViewState = SkyViewState(
    snrCn0InViewAvg: JFloat,
    snrCn0UsedAvg: JFloat,
    usingLegacyGpsApi: bool,
    snrBad: bool)

  /** The meter's dimension resources (`getDimension`, in pixels) and the display density. */
  datatype MeterResources = MeterResources(
    meterWidth: real,
    indicatorMinLeftMargin: real,
    textViewMinLeftMargin: real,
    density: real)

  /** The left-margin ranges of the indicators and of the labels, in pixels. */
  datatype MeterBounds = MeterBounds(
    meterWidthPx: Int32,
    minIndicatorMarginPx: Int32,
    maxIndicatorMarginPx: Int32,
    minTextViewMarginPx: Int32,
    maxTextViewMarginPx: Int32)

  /** Padding taken off the meter width. */
  const METER_PADDING_DP: real := 7.0

  /** How far one of two labels is slid to keep them from overlapping. */
  const TEXTVIEW_NON_OVERLAP_OFFSET_DP: real := -16.0

  /**
   * The margin ranges `updateSnrCn0Avgs` computes: each minimum is the cast
   * of its dimension resource, and the meter width is the cast width less
   * 7 dp of padding.
   */
  function Bounds(res: MeterResources): (b: MeterBounds)
    ensures b.minIndicatorMarginPx == JavaIntCast(res.indicatorMinLeftMargin)
    ensures b.minTextViewMarginPx == JavaIntCast(res.textViewMinLeftMargin)
    ensures var w := JavaIntCast(res.meterWidth) - DpToPixels(METER_PADDING_DP, res.density);
            INT_MIN <= w <= INT_MAX ==> b.meterWidthPx == w
  {
    var meterWidthPx := Wrap32(JavaIntCast(res.meterWidth) - DpToPixels(METER_PADDING_DP, res.density));
    var minIndicatorMarginPx := JavaIntCast(res.indicatorMinLeftMargin);
    var minTextViewMarginPx := JavaIntCast(res.textViewMinLeftMargin);
    MeterBounds(meterWidthPx,
                minIndicatorMarginPx, Wrap32(meterWidthPx + minIndicatorMarginPx),
                minTextViewMarginPx, Wrap32(meterWidthPx + minTextViewMarginPx))
  }

  /** Both margin ranges are one meter width long and start at their own minimum. */
  lemma BoundsShareMeterWidth(res: MeterResources)
    ensures var b := Bounds(res);
            (INT_MIN <= b.meterWidthPx + b.minIndicatorMarginPx <= INT_MAX ==>
               b.maxIndicatorMarginPx - b.minIndicatorMarginPx == b.meterWidthPx) &&
            (INT_MIN <= b.meterWidthPx + b.minTextViewMarginPx <= INT_MAX ==>
               b.maxTextViewMarginPx - b.minTextViewMarginPx == b.meterWidthPx)
  {
  }

  /**
   * For a meter of non-negative width whose sums do not overflow, each range
   * runs left to right from its minimum, so the monotonicity of the
   * conversions carries over to the meter.
   */
  lemma BoundsOrdered(res: MeterResources)
    requires 0 <= Bounds(res).meterWidthPx
    requires Bounds(res).meterWidthPx + Bounds(res).minIndicatorMarginPx <= INT_MAX
    requires Bounds(res).meterWidthPx + Bounds(res).minTextViewMarginPx <= INT_MAX
    ensures Bounds(res).minIndicatorMarginPx <= Bounds(res).maxIndicatorMarginPx
    ensures Bounds(res).minTextViewMarginPx <= Bounds(res).maxTextViewMarginPx
  {
    BoundsShareMeterWidth(res);
  }

  /** The non-overlap offset never points right on a display of non-negative density. */
  lemma NonOverlapOffsetNotPositive(density: real)
    requires 0.0 <= density
    ensures DpToPixels(TEXTVIEW_NON_OVERLAP_OFFSET_DP, density) <= 0
  {
    DpToPixelsMonotone(TEXTVIEW_NON_OVERLAP_OFFSET_DP, 0.0, density);
  }

  // ---------------------------------------------------------------------------
  // Scale choice and cohort margins
  // ---------------------------------------------------------------------------

  datatype SignalUnit = Cn0 | Snr

  /** C/N0 unless the legacy API is in use and its values still look like SNR. */
  function MeterUnit(usingLegacyApi: bool, snrBad: bool): (u: SignalUnit)
    ensures u == Cn0 <==> !usingLegacyApi || snrBad
    ensures u == Snr <==> usingLegacyApi && !snrBad
  {
    if !usingLegacyApi || snrBad then Cn0 else Snr
  }

  function ScaleOf(unit: SignalUnit, legend: ScaleConstants): Scale {
    match unit
    case Cn0 => legend.cn0
    case Snr => legend.snr
  }

  /**
   * A label's left margin for a cohort average, on the scale the sky view's
   * state selects: the `UIUtils` label conversion of that unit.
   */
  function TextViewMarginPx(avg: real, sky: SkyViewState, b: MeterBounds, legend: ScaleConstants): (px: Int32)
    ensures MeterUnit(sky.usingLegacyGpsApi, sky.snrBad) == Cn0 ==>
              px == Cn0ToTextViewLeftMarginPx(avg, b.minTextViewMarginPx, b.maxTextViewMarginPx, legend)
    ensures MeterUnit(sky.usingLegacyGpsApi, sky.snrBad) == Snr ==>
              px == SnrToTextViewLeftMarginPx(avg, b.minTextViewMarginPx, b.maxTextViewMarginPx, legend)
  {
    MarginPx(avg, ScaleOf(MeterUnit(sky.usingLegacyGpsApi, sky.snrBad), legend), b.minTextViewMarginPx, b.maxTextViewMarginPx)
  }

  /**
   * An indicator's left margin for a cohort average, on the scale the sky
   * view's state selects: the `UIUtils` indicator conversion of that unit.
   */
  function IndicatorMarginPx(avg: real, sky: SkyViewState, b: MeterBounds, legend: ScaleConstants): (px: Int32)
    ensures MeterUnit(sky.usingLegacyGpsApi, sky.snrBad) == Cn0 ==>
              px == Cn0ToIndicatorLeftMarginPx(avg, b.minIndicatorMarginPx, b.maxIndicatorMarginPx, legend)
    ensures MeterUnit(sky.usingLegacyGpsApi, sky.snrBad) == Snr ==>
              px == SnrToIndicatorLeftMarginPx(avg, b.minIndicatorMarginPx, b.maxIndicatorMarginPx, legend)
  {
    MarginPx(avg, ScaleOf(MeterUnit(sky.usingLegacyGpsApi, sky.snrBad), legend), b.minIndicatorMarginPx, b.maxIndicatorMarginPx)
  }

  /**
   * The label and the indicator of a cohort are placed on the same scale:
   * C/N0 exactly when the legacy API is not in use or the SNR looks bad, SNR
   * otherwise; each then spans its own margin range.
   */
  lemma LabelAndIndicatorShareScale(avg: real, sky: SkyViewState, b: MeterBounds, legend: ScaleConstants)
    ensures var s := ScaleOf(MeterUnit(sky.usingLegacyGpsApi, sky.snrBad), legend);
            TextViewMarginPx(avg, sky, b, legend) == MarginPx(avg, s, b.minTextViewMarginPx, b.maxTextViewMarginPx) &&
            IndicatorMarginPx(avg, sky, b, legend) == MarginPx(avg, s, b.minIndicatorMarginPx, b.maxIndicatorMarginPx)
    ensures var s := ScaleOf(MeterUnit(sky.usingLegacyGpsApi, sky.snrBad), legend);
            (avg == s.min ==> TextViewMarginPx(avg, sky, b, legend) == b.minTextViewMarginPx &&
                              IndicatorMarginPx(avg, sky, b, legend) == b.minIndicatorMarginPx) &&
            (avg == s.max ==> TextViewMarginPx(avg, sky, b, legend) == b.maxTextViewMarginPx &&
                              IndicatorMarginPx(avg, sky, b, legend) == b.maxIndicatorMarginPx)
  {
  }

  /** Both cohorts use one scale, so the weaker average is never placed to the right of the stronger one. */
  lemma CohortOrderPreserved(inViewAvg: real, usedAvg: real, sky: SkyViewState, b: MeterBounds, legend: ScaleConstants)
    requires inViewAvg <= usedAvg
    requires b.minTextViewMarginPx <= b.maxTextViewMarginPx && b.minIndicatorMarginPx <= b.maxIndicatorMarginPx
    ensures TextViewMarginPx(inViewAvg, sky, b, legend) <= TextViewMarginPx(usedAvg, sky, b, legend)
    ensures IndicatorMarginPx(inViewAvg, sky, b, legend) <= IndicatorMarginPx(usedAvg, sky, b, legend)
  {
    ConversionsMonotone(inViewAvg, usedAvg, b.minTextViewMarginPx, b.maxTextViewMarginPx, legend);
    ConversionsMonotone(inViewAvg, usedAvg, b.minIndicatorMarginPx, b.maxIndicatorMarginPx, legend);
  }

  /** On the meter's own bounds, the weaker cohort's label and indicator are never right of the stronger one's. */
  lemma MeterKeepsCohortOrder(inViewAvg: real, usedAvg: real, sky: SkyViewState, res: MeterResources, legend: ScaleConstants)
    requires inViewAvg <= usedAvg
    requires 0 <= Bounds(res).meterWidthPx
    requires Bounds(res).meterWidthPx + Bounds(res).minIndicatorMarginPx <= INT_MAX
    requires Bounds(res).meterWidthPx + Bounds(res).minTextViewMarginPx <= INT_MAX
    ensures TextViewMarginPx(inViewAvg, sky, Bounds(res), legend) <= TextViewMarginPx(usedAvg, sky, Bounds(res), legend)
    ensures IndicatorMarginPx(inViewAvg, sky, Bounds(res), legend) <= IndicatorMarginPx(usedAvg, sky, Bounds(res), legend)
  {
    BoundsOrdered(res);
    CohortOrderPreserved(inViewAvg, usedAvg, sky, Bounds(res), legend);
  }

  /** A cohort's label margin, absent (the source's `null`) exactly when its average is not a valid float. */
  function CohortTextMargin(avg: JFloat, sky: SkyViewState, b: MeterBounds, legend: ScaleConstants): (m: Option<Int32>)
    ensures m.Some? <==> IsValidFloat(avg)
    ensures m.Some? ==> m.value == TextViewMarginPx(avg.value, sky, b, legend)
  {
    if IsValidFloat(avg) then Some(TextViewMarginPx(avg.value, sky, b, legend)) else None
  }

  /** A cohort's indicator margin, computed only for a valid average. */
  function CohortIndicatorMargin(avg: JFloat, sky: SkyViewState, b: MeterBounds, legend: ScaleConstants): (m: Option<Int32>)
    ensures m.Some? <==> IsValidFloat(avg)
    ensures m.Some? ==> m.value == IndicatorMarginPx(avg.value, sky, b, legend)
  {
    if IsValidFloat(avg) then Some(IndicatorMarginPx(avg.value, sky, b, legend)) else None
  }

  // ---------------------------------------------------------------------------
  // Keeping the two labels apart
  // ---------------------------------------------------------------------------

  datatype LabelMargins = LabelMargins(inView: Option<Int32>, used: Option<Int32>)

  /** `after` is `before` moved by `offset`, with Java `int` addition. */
  predicate ShiftedBy(before: Option<Int32>, after: Option<Int32>, offset: Int32) {
    before.Some? && after == Some(Wrap32(before.value + offset))
  }

  /**
   * When both labels are shown, exactly one of them is moved by `offset`: the
   * "in view" label when it is not to the right of the "used" one (so also on
   * a tie), the "used" label otherwise. A lone label is left where it is.
   */
  function ApplyNonOverlapOffset(m: LabelMargins, offset: Int32): (r: LabelMargins)
    ensures r.inView.Some? == m.inView.Some? && r.used.Some? == m.used.Some?
    ensures m.inView.None? || m.used.None? ==> r == m
    ensures m.inView.Some? && m.used.Some? ==>
              (m.inView.value <= m.used.value && ShiftedBy(m.inView, r.inView, offset) && r.used == m.used) ||
              (m.inView.value > m.used.value && ShiftedBy(m.used, r.used, offset) && r.inView == m.inView)
  {
    if m.inView.Some? && m.used.Some? then
      if m.inView.value <= m.used.value then m.(inView := Some(Wrap32(m.inView.value + offset)))
      else m.(used := Some(Wrap32(m.used.value + offset)))
    else m
  }

  /**
   * With a leftward offset that does not overflow, the left one of the two
   * labels moves left by |offset| and the right one stays, so afterwards they
   * are at least |offset| apart.
   */
  lemma NonOverlapSeparatesLabels(m: LabelMargins, offset: Int32)
    requires m.inView.Some? && m.used.Some? && offset <= 0
    requires INT_MIN <= Min(m.inView.value, m.used.value) + offset
    ensures var r := ApplyNonOverlapOffset(m, offset);
            r.inView.Some? && r.used.Some? &&
            Min(r.inView.value, r.used.value) == Min(m.inView.value, m.used.value) + offset &&
            Max(r.inView.value, r.used.value) == Max(m.inView.value, m.used.value) &&
            Abs(r.inView.value - r.used.value) >= Abs(offset)
  {
  }

  /** The label margins an update settles on. */
  function PlannedLabels(sky: SkyViewState, b: MeterBounds, legend: ScaleConstants, offset: Int32): (r: LabelMargins)
    ensures r.inView.Some? <==> IsValidFloat(sky.snrCn0InViewAvg)
    ensures r.used.Some? <==> IsValidFloat(sky.snrCn0UsedAvg)
  {
    ApplyNonOverlapOffset(LabelMargins(CohortTextMargin(sky.snrCn0InViewAvg, sky, b, legend),
                                       CohortTextMargin(sky.snrCn0UsedAvg, sky, b, legend)), offset)
  }

  // ---------------------------------------------------------------------------
  // Views and their animation
  // ---------------------------------------------------------------------------

  datatype Visibility = Visible | Invisible | Gone

  datatype Margins = Margins(left: Int32, top: Int32, right: Int32, bottom: Int32)

  /** The animation `animateSnrCn0Indicator` starts: from the left margin at its start toward the goal. */
  datatype MarginAnimation = MarginAnimation(currentMargin: Int32, goalLeftMarginPx: Int32)

  /** An indicator or label view: its visibility, its layout margins and the animation attached to it. */
  datatype MeterView = MeterView(visibility: Visibility, margins: Margins, animation: Option<MarginAnimation>)

  /** A label's text: empty, or the average it shows (formatted with one decimal). */
  datatype LabelText = EmptyText | AverageText(average: real)

  /** The distance `Math.abs(currentMargin - goal)` is exact: it fits in an `int`. */
  predicate SpanFits(currentMargin: Int32, goal: Int32) {
    -INT_MAX <= currentMargin - goal <= INT_MAX
  }

  /** `Math.abs(currentMargin - goal)` on `int`s. */
  function Span(currentMargin: Int32, goal: Int32): (d: Int32)
    ensures SpanFits(currentMargin, goal) ==> d == Abs(currentMargin - goal)
  {
    JavaAbs(Wrap32(currentMargin - goal))
  }

  /**
   * The distance `(int) (Math.abs(currentMargin - goal) * interpolatedTime)`
   * covered by a frame: for a time in [0, 1] part of the distance, none of it
   * at 0 and all of it at 1.
   */
  function FrameStep(currentMargin: Int32, goal: Int32, interpolatedTime: real): (step: Int32)
    ensures SpanFits(currentMargin, goal) && 0.0 <= interpolatedTime <= 1.0 ==>
              0 <= step <= Abs(currentMargin - goal)
    ensures SpanFits(currentMargin, goal) && interpolatedTime == 0.0 ==> step == 0
    ensures SpanFits(currentMargin, goal) && interpolatedTime == 1.0 ==> step == Abs(currentMargin - goal)
  {
    var d := Span(currentMargin, goal);
    if SpanFits(currentMargin, goal) && 0.0 <= interpolatedTime <= 1.0 then
      ScaledCastOfFraction(d, interpolatedTime);
      ScaledCastEnds(d);
      ScaledCast(d, interpolatedTime)
    else
      ScaledCast(d, interpolatedTime)
  }

  /** The left margin `applyTransformation` sets for an interpolated time. */
  function FrameLeftMargin(currentMargin: Int32, goal: Int32, interpolatedTime: real): (newLeft: Int32)
    ensures SpanFits(currentMargin, goal) && 0.0 <= interpolatedTime <= 1.0 ==>
              Min(currentMargin, goal) <= newLeft <= Max(currentMargin, goal)
    ensures SpanFits(currentMargin, goal) && interpolatedTime == 0.0 ==> newLeft == currentMargin
    ensures SpanFits(currentMargin, goal) && interpolatedTime == 1.0 ==> newLeft == goal
  {
    var step := FrameStep(currentMargin, goal, interpolatedTime);
    if goal > currentMargin then Wrap32(currentMargin + step) else Wrap32(currentMargin - step)
  }

  /** A frame moves the view by exactly the frame's step, toward the goal. */
  lemma FrameDisplacement(currentMargin: Int32, goal: Int32, t: real)
    requires SpanFits(currentMargin, goal) && 0.0 <= t <= 1.0
    ensures Abs(FrameLeftMargin(currentMargin, goal, t) - currentMargin) == FrameStep(currentMargin, goal, t)
  {
  }

  /** Later frames are never nearer the start than earlier ones. */
  lemma FrameProgressMonotone(currentMargin: Int32, goal: Int32, t1: real, t2: real)
    requires SpanFits(currentMargin, goal) && 0.0 <= t1 <= t2 <= 1.0
    ensures Abs(FrameLeftMargin(currentMargin, goal, t1) - currentMargin) <=
            Abs(FrameLeftMargin(currentMargin, goal, t2) - currentMargin)
  {
    FrameDisplacement(currentMargin, goal, t1);
    FrameDisplacement(currentMargin, goal, t2);
    ScaledCastMonotone(Span(currentMargin, goal), t1, t2);
  }

  /** One frame of the view's animation: the left margin moves, the other margins stay. */
  function ApplyFrame(v: MeterView, interpolatedTime: real): (w: MeterView)
    ensures w.visibility == v.visibility && w.animation == v.animation
    ensures w.margins.top == v.margins.top && w.margins.right == v.margins.right && w.margins.bottom == v.margins.bottom
    ensures v.animation.None? ==> w == v
    ensures v.animation.Some? ==>
              w.margins.left == FrameLeftMargin(v.animation.value.currentMargin, v.animation.value.goalLeftMarginPx,
                                                interpolatedTime)
  {
    match v.animation
    case None => v
    case Some(a) =>
      v.(margins := v.margins.(left := FrameLeftMargin(a.currentMargin, a.goalLeftMarginPx, interpolatedTime)))
  }

  /** `animateSnrCn0Indicator`: a new animation from the current left margin replaces the view's animation. */
  function Animate(v: MeterView, goal: Int32): (w: MeterView)
    ensures w.visibility == v.visibility && w.margins == v.margins
    ensures w.animation == Some(MarginAnimation(v.margins.left, goal))
  {
    v.(animation := Some(MarginAnimation(v.margins.left, goal)))
  }

  /** A hidden view is placed at once and made visible. */
  function Place(v: MeterView, goal: Int32): (w: MeterView)
    ensures w.visibility == Visible && w.animation == v.animation
    ensures w.margins == v.margins.(left := goal)
  {
    v.(margins := v.margins.(left := goal), visibility := Visible)
  }

  /** What an update does to a view whose cohort has a valid average. */
  function ShowAt(v: MeterView, goal: Int32): (w: MeterView)
    ensures w.visibility == Visible
    ensures w.margins.top == v.margins.top && w.margins.right == v.margins.right && w.margins.bottom == v.margins.bottom
    ensures v.visibility != Visible ==> w.margins.left == goal && w.animation == v.animation
    ensures v.visibility == Visible ==> w.margins == v.margins && w.animation == Some(MarginAnimation(v.margins.left, goal))
  {
    if v.visibility == Visible then Animate(v, goal) else Place(v, goal)
  }

  /** An invalid average hides the view where it is; its margins and animation are kept. */
  function Hide(v: MeterView): (w: MeterView)
    ensures w.visibility == Invisible && w.margins == v.margins && w.animation == v.animation
  {
    v.(visibility := Invisible)
  }

  /**
   * After `ShowAt` the view is visible and, at once or by the last frame of
   * its animation, at the goal; no frame leaves the stretch between the old
   * margin and the goal, and the top, right and bottom margins never change.
   */
  lemma ShowAtReachesGoal(v: MeterView, goal: Int32, t: real)
    requires SpanFits(v.margins.left, goal) && 0.0 <= t <= 1.0
    ensures var w := ShowAt(v, goal);
            w.visibility == Visible &&
            w.margins.top == v.margins.top && w.margins.right == v.margins.right && w.margins.bottom == v.margins.bottom
    ensures v.visibility != Visible ==> ShowAt(v, goal).margins.left == goal
    ensures v.visibility == Visible ==>
              ApplyFrame(ShowAt(v, goal), 0.0).margins == v.margins &&
              ApplyFrame(ShowAt(v, goal), 1.0).margins == v.margins.(left := goal) &&
              Min(v.margins.left, goal) <= ApplyFrame(ShowAt(v, goal), t).margins.left <= Max(v.margins.left, goal)
  {
  }

  /** How one cohort's label text, label view and indicator view change in an update. */
  predicate CohortUpdated(avg: JFloat, textMargin: Option<Int32>, indicator: Option<Int32>,
                          oldText: MeterView, oldIndicator: MeterView,
                          newLabel: LabelText, newText: MeterView, newIndicator: MeterView)
  {
    if IsValidFloat(avg) then
      textMargin.Some? && indicator.Some? && newLabel == AverageText(avg.value) &&
      newText == ShowAt(oldText, textMargin.value) && newIndicator == ShowAt(oldIndicator, indicator.value)
    else
      newLabel == EmptyText && newText == Hide(oldText) && newIndicator == Hide(oldIndicator)
  }

  /**
   * After an update a cohort's label and indicator are visible exactly when
   * its average is valid; an invalid average empties the label text.
   */
  lemma CohortVisibility(avg: JFloat, textMargin: Option<Int32>, indicator: Option<Int32>,
                         oldText: MeterView, oldIndicator: MeterView,
                         newLabel: LabelText, newText: MeterView, newIndicator: MeterView)
    requires CohortUpdated(avg, textMargin, indicator, oldText, oldIndicator, newLabel, newText, newIndicator)
    ensures newText.visibility == Visible <==> IsValidFloat(avg)
    ensures newIndicator.visibility == Visible <==> IsValidFloat(avg)
    ensures !IsValidFloat(avg) ==> newLabel == EmptyText && newText.visibility == Invisible && newIndicator.visibility == Invisible
    ensures IsValidFloat(avg) ==> newLabel == AverageText(avg.value)
  {
  }

  // ---------------------------------------------------------------------------
  // The fragment
  // ---------------------------------------------------------------------------

  /** The events of the legacy `GpsStatus` listener. */
  datatype GpsStatusEvent = GpsEventStarted | GpsEventStopped | GpsEventFirstFix | GpsEventSatelliteStatus

  datatype ViewId = InViewTextView | InViewIndicator | UsedTextView | UsedIndicator

  /** The legend's unit for the fragment's flag and the sky view, if there is one. */
  function LegendUnit(useLegacyGnssApi: bool, sky: Option<SkyViewState>): (u: SignalUnit)
    ensures u == Cn0 <==> !useLegacyGnssApi || (sky.Some? && sky.value.snrBad)
  {
    MeterUnit(useLegacyGnssApi, sky.Some? && sky.value.snrBad)
  }

  /**
   * The legend follows the fragment's flag and the meter follows the sky
   * view's own flag: they name the same unit exactly when the two flags agree
   * or the SNR looks bad.
   */
  lemma LegendAgreesWithMeter(useLegacyGnssApi: bool, sky: SkyViewState)
    ensures LegendUnit(useLegacyGnssApi, Some(sky)) == MeterUnit(sky.usingLegacyGpsApi, sky.snrBad) <==>
            useLegacyGnssApi == sky.usingLegacyGpsApi || sky.snrBad
  {
  }

  class GpsSkyFragment {
    /** Set by whichever status callback delivered the latest satellites. */
    var useLegacyGnssApi: bool
    /** Which labels the C/N0 legend shows. */
    var legendUnit: SignalUnit
    var inViewAvgText: LabelText
    var usedAvgText: LabelText
    var inViewTextView: MeterView
    var inViewIndicator: MeterView
    var usedTextView: MeterView
    var usedIndicator: MeterView
    const resources: MeterResources
    const legend: ScaleConstants

    /**
     * The fragment over freshly inflated views, before any status update: the
     * legend, label texts and views are whatever the layout gave them.
     */
    constructor (resources: MeterResources, legend: ScaleConstants, legendUnit: SignalUnit,
                 inViewAvgText: LabelText, usedAvgText: LabelText,
                 inViewTextView: MeterView, inViewIndicator: MeterView,
                 usedTextView: MeterView, usedIndicator: MeterView)
      ensures this.resources == resources && this.legend == legend
      ensures !useLegacyGnssApi && this.legendUnit == legendUnit
      ensures this.inViewAvgText == inViewAvgText && this.usedAvgText == usedAvgText
      ensures this.inViewTextView == inViewTextView && this.inViewIndicator == inViewIndicator
      ensures this.usedTextView == usedTextView && this.usedIndicator == usedIndicator
    {
      this.resources := resources;
      this.legend := legend;
      useLegacyGnssApi := false;
      this.legendUnit := legendUnit;
      this.inViewAvgText := inViewAvgText;
      this.usedAvgText := usedAvgText;
      this.inViewTextView := inViewTextView;
      this.inViewIndicator := inViewIndicator;
      this.usedTextView := usedTextView;
      this.usedIndicator := usedIndicator;
    }

    /** `onSatelliteStatusChanged(GnssStatus)`: the modern API delivered the satellites. */
    method OnSatelliteStatusChanged(sky: SkyViewState)
      modifies this
      ensures !useLegacyGnssApi && legendUnit == Cn0
      ensures !sky.usingLegacyGpsApi ==> legendUnit == MeterUnit(sky.usingLegacyGpsApi, sky.snrBad)
      ensures AvgsUpdated(sky, old(inViewTextView), old(inViewIndicator), old(usedTextView), old(usedIndicator))
    {
      useLegacyGnssApi := false;
      UpdateSnrCn0AvgMeterText(Some(sky));
      UpdateSnrCn0Avgs(Some(sky));
    }

    /** `onGpsStatusChanged`: only a satellite-status event of the legacy API touches the meter. */
    method OnGpsStatusChanged(event: GpsStatusEvent, sky: SkyViewState)
      modifies this
      ensures event != GpsEventSatelliteStatus ==> unchanged(this)
      ensures event == GpsEventSatelliteStatus ==>
                useLegacyGnssApi && legendUnit == MeterUnit(true, sky.snrBad) &&
                (sky.usingLegacyGpsApi ==> legendUnit == MeterUnit(sky.usingLegacyGpsApi, sky.snrBad)) &&
                AvgsUpdated(sky, old(inViewTextView), old(inViewIndicator), old(usedTextView), old(usedIndicator))
    {
      match event
      case GpsEventSatelliteStatus =>
        useLegacyGnssApi := true;
        UpdateSnrCn0AvgMeterText(Some(sky));
        UpdateSnrCn0Avgs(Some(sky));
      case _ =>
    }

    /** `updateSnrCn0AvgMeterText`: C/N0 labels unless the legacy API is in use and the SNR looks sound. */
    method UpdateSnrCn0AvgMeterText(sky: Option<SkyViewState>)
      modifies this`legendUnit
      ensures legendUnit == LegendUnit(useLegacyGnssApi, sky)
      ensures legendUnit == Cn0 <==> !useLegacyGnssApi || (sky.Some? && sky.value.snrBad)
    {
      if !useLegacyGnssApi || (sky.Some? && sky.value.snrBad) {
        legendUnit := Cn0;
      } else {
        legendUnit := Snr;
      }
    }

    /** The new meter state after an update from `sky`, in terms of the views before it. */
    ghost predicate AvgsUpdated(sky: SkyViewState, oldInViewText: MeterView, oldInViewIndicator: MeterView,
                                oldUsedText: MeterView, oldUsedIndicator: MeterView)
      reads this
    {
      var b := Bounds(resources);
      var labels := PlannedLabels(sky, b, legend, DpToPixels(TEXTVIEW_NON_OVERLAP_OFFSET_DP, resources.density));
      CohortUpdated(sky.snrCn0InViewAvg, labels.inView, CohortIndicatorMargin(sky.snrCn0InViewAvg, sky, b, legend),
                    oldInViewText, oldInViewIndicator, inViewAvgText, inViewTextView, inViewIndicator) &&
      CohortUpdated(sky.snrCn0UsedAvg, labels.used, CohortIndicatorMargin(sky.snrCn0UsedAvg, sky, b, legend),
                    oldUsedText, oldUsedIndicator, usedAvgText, usedTextView, usedIndicator)
    }

    /** A label's margin for an average: the C/N0 or the SNR conversion, as the sky view's state selects. */
    method TextViewMarginFor(avg: real, s: SkyViewState, b: MeterBounds) returns (px: Int32)
      ensures px == TextViewMarginPx(avg, s, b, legend)
      ensures px == MarginPx(avg, ScaleOf(MeterUnit(s.usingLegacyGpsApi, s.snrBad), legend),
                             b.minTextViewMarginPx, b.maxTextViewMarginPx)
    {
      if !s.usingLegacyGpsApi || s.snrBad {
        px := Cn0ToTextViewLeftMarginPx(avg, b.minTextViewMarginPx, b.maxTextViewMarginPx, legend);
      } else {
        px := SnrToTextViewLeftMarginPx(avg, b.minTextViewMarginPx, b.maxTextViewMarginPx, legend);
      }
    }

    /** An indicator's margin for an average, on the scale the sky view's state selects. */
    method IndicatorMarginFor(avg: real, s: SkyViewState, b: MeterBounds) returns (px: Int32)
      ensures px == IndicatorMarginPx(avg, s, b, legend)
      ensures px == MarginPx(avg, ScaleOf(MeterUnit(s.usingLegacyGpsApi, s.snrBad), legend),
                             b.minIndicatorMarginPx, b.maxIndicatorMarginPx)
    {
      if !s.usingLegacyGpsApi || s.snrBad {
        px := Cn0ToIndicatorLeftMarginPx(avg, b.minIndicatorMarginPx, b.maxIndicatorMarginPx, legend);
      } else {
        px := SnrToIndicatorLeftMarginPx(avg, b.minIndicatorMarginPx, b.maxIndicatorMarginPx, legend);
      }
    }

    /**
     * The first half of `updateSnrCn0Avgs`: each label's margin on the meter
     * (absent for an invalid average), then the slide that keeps two labels apart.
     */
    method LabelMarginsFor(s: SkyViewState, b: MeterBounds)
      returns (leftInViewTextViewMarginPx: Option<Int32>, leftUsedTextViewMarginPx: Option<Int32>)
      ensures LabelMargins(leftInViewTextViewMarginPx, leftUsedTextViewMarginPx) ==
              PlannedLabels(s, b, legend, DpToPixels(TEXTVIEW_NON_OVERLAP_OFFSET_DP, resources.density))
    {
      leftInViewTextViewMarginPx := None;
      if IsValidFloat(s.snrCn0InViewAvg) {
        var px := TextViewMarginFor(s.snrCn0InViewAvg.value, s, b);
        leftInViewTextViewMarginPx := Some(px);
      }
      leftUsedTextViewMarginPx := None;
      if IsValidFloat(s.snrCn0UsedAvg) {
        var px := TextViewMarginFor(s.snrCn0UsedAvg.value, s, b);
        leftUsedTextViewMarginPx := Some(px);
      }
      assert leftInViewTextViewMarginPx == CohortTextMargin(s.snrCn0InViewAvg, s, b, legend);
      assert leftUsedTextViewMarginPx == CohortTextMargin(s.snrCn0UsedAvg, s, b, legend);

      // Slide one of two labels so they do not overlap.
      if leftInViewTextViewMarginPx.Some? && leftUsedTextViewMarginPx.Some? {
        var offset := DpToPixels(TEXTVIEW_NON_OVERLAP_OFFSET_DP, resources.density);
        if leftInViewTextViewMarginPx.value <= leftUsedTextViewMarginPx.value {
          leftInViewTextViewMarginPx := Some(Wrap32(leftInViewTextViewMarginPx.value + offset));
        } else {
          leftUsedTextViewMarginPx := Some(Wrap32(leftUsedTextViewMarginPx.value + offset));
        }
      }
    }

    /** `updateSnrCn0Avgs`: place or hide each cohort's label and indicator. */
    method UpdateSnrCn0Avgs(sky: Option<SkyViewState>)
      modifies this`inViewAvgText, this`usedAvgText, this`inViewTextView, this`inViewIndicator,
               this`usedTextView, this`usedIndicator
      ensures sky.None? ==> unchanged(this)
      ensures sky.Some? ==>
                AvgsUpdated(sky.value, old(inViewTextView), old(inViewIndicator), old(usedTextView), old(usedIndicator))
    {
      if sky.None? {
        return;
      }
      var s := sky.value;
      var b := Bounds(resources);
      var leftInViewTextViewMarginPx, leftUsedTextViewMarginPx := LabelMarginsFor(s, b);

      // The satellites in view.
      if IsValidFloat(s.snrCn0InViewAvg) {
        inViewAvgText := AverageText(s.snrCn0InViewAvg.value);
        if inViewTextView.visibility == Visible {
          inViewTextView := Animate(inViewTextView, leftInViewTextViewMarginPx.value);
        } else {
          inViewTextView := Place(inViewTextView, leftInViewTextViewMarginPx.value);
        }
        var leftIndicatorMarginPx := IndicatorMarginFor(s.snrCn0InViewAvg.value, s, b);
        if inViewIndicator.visibility == Visible {
          inViewIndicator := Animate(inViewIndicator, leftIndicatorMarginPx);
        } else {
          inViewIndicator := Place(inViewIndicator, leftIndicatorMarginPx);
        }
      } else {
        inViewAvgText := EmptyText;
        inViewTextView := Hide(inViewTextView);
        inViewIndicator := Hide(inViewIndicator);
      }

      // The satellites used in the fix.
      if IsValidFloat(s.snrCn0UsedAvg) {
        usedAvgText := AverageText(s.snrCn0UsedAvg.value);
        if usedTextView.visibility == Visible {
          usedTextView := Animate(usedTextView, leftUsedTextViewMarginPx.value);
        } else {
          usedTextView := Place(usedTextView, leftUsedTextViewMarginPx.value);
        }
        var leftMarginPx := IndicatorMarginFor(s.snrCn0UsedAvg.value, s, b);
        if usedIndicator.visibility == Visible {
          usedIndicator := Animate(usedIndicator, leftMarginPx);
        } else {
          usedIndicator := Place(usedIndicator, leftMarginPx);
        }
      } else {
        usedAvgText := EmptyText;
        usedTextView := Hide(usedTextView);
        usedIndicator := Hide(usedIndicator);
      }
    }

    /** One frame of the animation attached to view `id`; the other views are untouched. */
    method ApplyTransformation(id: ViewId, interpolatedTime: real)
      modifies this`inViewTextView, this`inViewIndicator, this`usedTextView, this`usedIndicator
      ensures inViewTextView == if id == InViewTextView then ApplyFrame(old(inViewTextView), interpolatedTime) else old(inViewTextView)
      ensures inViewIndicator == if id == InViewIndicator then ApplyFrame(old(inViewIndicator), interpolatedTime) else old(inViewIndicator)
      ensures usedTextView == if id == UsedTextView then ApplyFrame(old(usedTextView), interpolatedTime) else old(usedTextView)
      ensures usedIndicator == if id == UsedIndicator then ApplyFrame(old(usedIndicator), interpolatedTime) else old(usedIndicator)
    {
      match id
      case InViewTextView => inViewTextView := ApplyFrame(inViewTextView, interpolatedTime);
      case InViewIndicator => inViewIndicator := ApplyFrame(inViewIndicator, interpolatedTime);
      case UsedTextView => usedTextView := ApplyFrame(usedTextView, interpolatedTime);
      case UsedIndicator => usedIndicator := ApplyFrame(usedIndicator, interpolatedTime);
    }
  }
}
