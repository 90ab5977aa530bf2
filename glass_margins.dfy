/** GlassMargins: the frame-border and caption sizes derived from system
    metrics, tagged with the non-client scaler, and the MARGINS handed to the
    frame-extension call. Margins the caller supplied (non-zero "user
    margins") are never overwritten by the computed ones. */
module Frame {
  import opened CppInt
  import opened Win32
  import opened Dpi
  import opened Scaling

  /** The system metrics `Invalidate` queries, in the non-client scaler's pixels. */
  datatype SystemMetrics = SystemMetrics(
    cxPaddedBorder: int, cxSizeFrame: int, cySizeFrame: int, cyCaption: int, cxEdge: int, cyEdge: int)

  /** Every metric and every sum `Invalidate` forms is a C++ `int`. */
  predicate MetricsFit(m: SystemMetrics) {
    && InInt32(m.cxPaddedBorder) && InInt32(m.cxSizeFrame) && InInt32(m.cySizeFrame)
    && InInt32(m.cyCaption) && InInt32(m.cxEdge) && InInt32(m.cyEdge)
    && InInt32(m.cySizeFrame + m.cxPaddedBorder)
    && InInt32(m.cySizeFrame + m.cxPaddedBorder + m.cyCaption)
    && InInt32(m.cxSizeFrame + m.cxPaddedBorder)
  }

  /** Caption height: sizing frame, padded border and caption bar together;
      with non-negative metrics it covers each of them. */
  function CaptionHeight(m: SystemMetrics): (h: int)
    ensures MetricsFit(m) ==> InInt32(h)
    ensures m.cySizeFrame >= 0 && m.cxPaddedBorder >= 0 && m.cyCaption >= 0 ==>
              h >= m.cyCaption && h >= m.cySizeFrame + m.cxPaddedBorder
  {
    m.cySizeFrame + m.cxPaddedBorder + m.cyCaption
  }

  /** Frame border width: the edge metric from Windows 10 on, the sizing frame
      plus the padded border before. */
  function FrameBorderX(m: SystemMetrics, isWin10: bool): (b: int)
    ensures MetricsFit(m) ==> InInt32(b)
    ensures isWin10 ==> b == m.cxEdge
    ensures !isWin10 ==> b - m.cxPaddedBorder == m.cxSizeFrame
  {
    if isWin10 then m.cxEdge else m.cxSizeFrame + m.cxPaddedBorder
  }

  /** Frame border height, chosen the same way. Before Windows 10 the caption
      row is exactly the border height plus the caption bar. */
  function FrameBorderY(m: SystemMetrics, isWin10: bool): (b: int)
    ensures MetricsFit(m) ==> InInt32(b)
    ensures isWin10 ==> b == m.cyEdge
    ensures !isWin10 ==> CaptionHeight(m) == b + m.cyCaption
  {
    if isWin10 then m.cyEdge else m.cySizeFrame + m.cxPaddedBorder
  }

  /** Static `HasMargins(MARGINS)`: some inset is non-zero. */
  function HasAnyMargin(m: Margins): (r: bool)
    ensures r <==> m != NO_MARGINS
  {
    m.cxLeftWidth != 0 || m.cxRightWidth != 0 || m.cyTopHeight != 0 || m.cyBottomHeight != 0
  }

  /** The MARGINS after one `Invalidate`. With user margins nothing changes.
      Otherwise the top inset becomes the caption height in the content
      scaler when the caption is rendered in the client area, and before
      Windows 10 left, right and bottom are set to exactly one pixel. */
  function InvalidatedMargins(current: Margins, user: Margins, captionTop: Option<int>, isWin10: bool)
    : (m: Margins)
    ensures HasAnyMargin(user) ==> m == current
    ensures !HasAnyMargin(user) ==>
              m.cyTopHeight == (if captionTop.Some? then captionTop.value else current.cyTopHeight)
    ensures !HasAnyMargin(user) && !isWin10 ==>
              m.cxLeftWidth == 1 && m.cxRightWidth == 1 && m.cyBottomHeight == 1
    ensures !HasAnyMargin(user) && isWin10 ==>
              m.cxLeftWidth == current.cxLeftWidth && m.cxRightWidth == current.cxRightWidth
              && m.cyBottomHeight == current.cyBottomHeight
  {
    if HasAnyMargin(user) then current
    else
      var top := if captionTop.Some? then current.(cyTopHeight := captionTop.value) else current;
      if isWin10 then top
      else top.(cxLeftWidth := 1, cxRightWidth := 1, cyBottomHeight := 1)
  }

  /** What one DPI-change recomputation feeds `InvalidatedMargins`. */
  datatype Recompute = Recompute(captionTop: Option<int>, isWin10: bool)

  /** The MARGINS after a series of `Invalidate` calls. */
  function InvalidatedMarginsAll(current: Margins, user: Margins, steps: seq<Recompute>): Margins
    decreases |steps|
  {
    if steps == [] then current
    else InvalidatedMarginsAll(InvalidatedMargins(current, user, steps[0].captionTop, steps[0].isWin10),
                               user, steps[1..])
  }

  /** User margins survive any number of DPI changes, whatever the metrics,
      the OS version and the caption placement. */
  lemma {:induction false} UserMarginsSurvive(user: Margins, steps: seq<Recompute>)
    requires HasAnyMargin(user)
    ensures InvalidatedMarginsAll(user, user, steps) == user
    decreases |steps|
  {
    if steps != [] {
      UserMarginsSurvive(user, steps[1..]);
    }
  }

  /** Before Windows 10 the frame-extension call is always made after an
      `Invalidate`: either the user margins are in force or the one-pixel
      fixup makes the margins non-zero. */
  lemma LegacyInvalidateHasMargins(current: Margins, user: Margins, captionTop: Option<int>)
    requires HasAnyMargin(user) ==> current == user
    ensures HasAnyMargin(InvalidatedMargins(current, user, captionTop, false))
  {
  }

  /** Recomputing twice with the same inputs gives what recomputing once gave. */
  lemma InvalidatedMarginsIdempotent(current: Margins, user: Margins, captionTop: Option<int>, isWin10: bool)
    ensures var once := InvalidatedMargins(current, user, captionTop, isWin10);
            InvalidatedMargins(once, user, captionTop, isWin10) == once
  {
  }

  class GlassMargins {
    var frameBorderXWidth: ScaledValue
    var frameBorderYWidth: ScaledValue
    var captionWidth: ScaledValue
    var margins: Margins
    /** The constructor's copy; nothing assigns it afterwards. */
    const userMargins: Margins
    /** The window's content scaler. */
    const dpiScaler: DpiScaler
    /** The scaler frame metrics are measured in; the same object as
        `dpiScaler` under per-monitor-v2 DPI awareness. */
    const ncDpiScaler: DpiScaler

    /** A stored measurement: one rescalable component of kind `k` in the non-client scaler. */
    predicate Measures(v: ScaledValue, k: Kind) {
      v.Valid() && v.kind == k && v.scaler == ncDpiScaler && v.rescale
    }

    ghost predicate Valid()
      reads this
    {
      && Measures(frameBorderXWidth, DimensionX)
      && Measures(frameBorderYWidth, DimensionY)
      && Measures(captionWidth, DimensionY)
      && (HasAnyMargin(userMargins) ==> margins == userMargins)
    }

    /** `GlassMargins(MARGINS, scaler, ncScaler)`: current and user margins
        both start as the argument, the three sizes as zero in the non-client scaler. */
    constructor (initial: Margins, dpi: DpiScaler, ncDpi: DpiScaler)
      ensures Valid()
      ensures margins == initial && userMargins == initial
      ensures dpiScaler == dpi && ncDpiScaler == ncDpi
      ensures frameBorderXWidth == Zero(DimensionX, ncDpi)
      ensures frameBorderYWidth == Zero(DimensionY, ncDpi)
      ensures captionWidth == Zero(DimensionY, ncDpi)
    {
      frameBorderXWidth := Zero(DimensionX, ncDpi);
      frameBorderYWidth := Zero(DimensionY, ncDpi);
      captionWidth := Zero(DimensionY, ncDpi);
      margins := initial;
      userMargins := initial;
      dpiScaler := dpi;
      ncDpiScaler := ncDpi;
    }

    /** `HasMargins()`: the margins currently in force are not all zero. */
    predicate HasMargins()
      reads this
      ensures HasMargins() <==> margins != NO_MARGINS
    {
      HasAnyMargin(margins)
    }

    /** `HasUserMargins()`: depends on the constant copy only, so it is the
        same for the whole life of the object. */
    predicate HasUserMargins()
      ensures HasUserMargins() <==> userMargins != NO_MARGINS
    {
      HasAnyMargin(userMargins)
    }

    /** The caption height as `Invalidate` stores it, before any re-projection. */
    function CaptionValue(m: SystemMetrics): (v: ScaledValue)
      requires MetricsFit(m)
      ensures Measures(v, DimensionY) && v.values == [CaptionHeight(m)]
    {
      ScaledValue(DimensionY, [CaptionHeight(m)], ncDpiScaler, true)
    }

    /** `Invalidate`: recompute the three sizes from the metrics, then, unless
        the caller supplied margins, update the MARGINS (the caption row
        only when the caption is drawn in the client area). */
    method Invalidate(metrics: SystemMetrics, isWin10: bool, renderCaptionInClient: bool)
      requires Valid() && MetricsFit(metrics)
      requires renderCaptionInClient && !HasUserMargins() ==> CanScaleTo(CaptionValue(metrics), dpiScaler)
      modifies this
      ensures Valid()
      ensures captionWidth == CaptionValue(metrics)
      ensures frameBorderXWidth == ScaledValue(DimensionX, [FrameBorderX(metrics, isWin10)], ncDpiScaler, true)
      ensures frameBorderYWidth == ScaledValue(DimensionY, [FrameBorderY(metrics, isWin10)], ncDpiScaler, true)
      ensures margins == InvalidatedMargins(old(margins), userMargins,
                           if renderCaptionInClient && !HasUserMargins()
                           then Some(ScaleTo(captionWidth, dpiScaler).values[0]) else None,
                           isWin10)
    {
      captionWidth := ScaledValue(DimensionY, [CaptionHeight(metrics)], ncDpiScaler, true);
      if isWin10 {
        frameBorderXWidth := ScaledValue(DimensionX, [metrics.cxEdge], ncDpiScaler, true);
        frameBorderYWidth := ScaledValue(DimensionY, [metrics.cyEdge], ncDpiScaler, true);
      } else {
        frameBorderXWidth := ScaledValue(DimensionX, [metrics.cxSizeFrame + metrics.cxPaddedBorder], ncDpiScaler, true);
        frameBorderYWidth := ScaledValue(DimensionY, [metrics.cySizeFrame + metrics.cxPaddedBorder], ncDpiScaler, true);
      }

      if HasUserMargins() {
        return;
      }

      if renderCaptionInClient {
        margins := margins.(cyTopHeight := ScaleTo(captionWidth, dpiScaler).values[0]);
      }

      if !isWin10 {
        margins := margins.(cxLeftWidth := 1, cxRightWidth := 1, cyBottomHeight := 1);
      }
    }

    /** `GetFrameBorderXWidth(scaler)`: the stored border width expressed in
        `s`; in the non-client scaler itself it is the stored value. */
    function GetFrameBorderXWidth(s: DpiScaler): (r: ScaledValue)
      reads this, ncDpiScaler, s
      requires Valid() && CanScaleTo(frameBorderXWidth, s)
      ensures r.Valid() && r.kind == DimensionX && r.scaler == s
      ensures s == ncDpiScaler ==> r == frameBorderXWidth
    {
      ScaleTo(frameBorderXWidth, s)
    }

    /** `GetFrameBorderYWidth(scaler)`: the stored border height expressed in `s`. */
    function GetFrameBorderYWidth(s: DpiScaler): (r: ScaledValue)
      reads this, ncDpiScaler, s
      requires Valid() && CanScaleTo(frameBorderYWidth, s)
      ensures r.Valid() && r.kind == DimensionY && r.scaler == s
      ensures s == ncDpiScaler ==> r == frameBorderYWidth
    {
      ScaleTo(frameBorderYWidth, s)
    }

    /** `GetCaptionWidth(scaler)`: the stored caption height expressed in `s`. */
    function GetCaptionWidth(s: DpiScaler): (r: ScaledValue)
      reads this, ncDpiScaler, s
      requires Valid() && CanScaleTo(captionWidth, s)
      ensures r.Valid() && r.kind == DimensionY && r.scaler == s
      ensures s == ncDpiScaler ==> r == captionWidth
    {
      ScaleTo(captionWidth, s)
    }
  }
}
