/** The first version of the glass window: a scaler kept in unsigned (`UINT`)
    percentages, margins computed once in the constructor, the 3 by 3
    non-client hit-test grid, and the rules by which the non-client window
    procedure claims a message before the default handling sees it. */
module Legacy {
  import opened CppInt
  import opened Win32
  import opened Dpi
  import opened Frame

  /** Both components of a DPI pair are `UINT` values. */
  predicate IsUintPair(d: DpiPair) {
    0 <= d.x < UINT32_MODULUS && 0 <= d.y < UINT32_MODULUS
  }

  /** The largest value `ScaleX`/`ScaleY` can return: `(2^32 - 1) / 100`. */
  const MAX_SCALED: int := 42949672

  class LegacyDpiScaler {
    var xPercent: uint32
    var yPercent: uint32

    /** `DpiScaler(HWND)`: starts at 0/0; a successful per-monitor query is
        used and nothing else is tried; otherwise the device-caps values
        (`int`s stored into `UINT`s) are used when a screen DC exists. */
    constructor (monitorDpi: Option<DpiPair>, systemDpi: Option<DpiPair>)
      requires monitorDpi.Some? ==> IsUintPair(monitorDpi.value)
      ensures monitorDpi.Some? ==>
                xPercent == ToUint32(monitorDpi.value.x * 100) / 96
                && yPercent == ToUint32(monitorDpi.value.y * 100) / 96
      ensures monitorDpi.None? && systemDpi.Some? ==>
                xPercent == ToUint32(ToUint32(systemDpi.value.x) * 100) / 96
                && yPercent == ToUint32(ToUint32(systemDpi.value.y) * 100) / 96
      ensures monitorDpi.None? && systemDpi.None? ==> xPercent == 0 && yPercent == 0 && IsUnset()
    {
      xPercent, yPercent := 0, 0;
      new;
      if monitorDpi.Some? {
        Invalidate(monitorDpi.value.x, monitorDpi.value.y);
        return;
      }
      if systemDpi.None? {
        return;
      }
      Invalidate(ToUint32(systemDpi.value.x), ToUint32(systemDpi.value.y));
    }

    /** `ScaleX(UINT)`: `raw * x% / 100U` in unsigned arithmetic, so the
        product wraps modulo 2^32 before the division. The result is at most
        `MAX_SCALED` and so always fits the `int` it is stored into; when
        the product does not wrap it is the truncated quotient. */
    function ScaleX(raw: uint32): (r: uint32)
      reads this
      ensures r <= MAX_SCALED && InInt32(r)
      ensures raw * xPercent < UINT32_MODULUS ==> 100 * r <= raw * xPercent < 100 * r + 100
    {
      ToUint32(raw * xPercent) / 100
    }

    /** `ScaleY(UINT)`: the same on the vertical percentage. */
    function ScaleY(raw: uint32): (r: uint32)
      reads this
      ensures r <= MAX_SCALED && InInt32(r)
      ensures raw * yPercent < UINT32_MODULUS ==> 100 * r <= raw * yPercent < 100 * r + 100
    {
      ToUint32(raw * yPercent) / 100
    }

    /** `operator!`: either percentage is zero, so their product is. */
    predicate IsUnset()
      reads this
      ensures IsUnset() <==> xPercent * yPercent == 0
    {
      xPercent == 0 || yPercent == 0
    }

    /** `Invalidate(UINT, UINT)`: `dpi * 100U / 96`, the product wrapping modulo 2^32. */
    method Invalidate(newXDpi: uint32, newYDpi: uint32)
      modifies this
      ensures xPercent == ToUint32(newXDpi * 100) / 96 && yPercent == ToUint32(newYDpi * 100) / 96
      ensures newXDpi * 100 < UINT32_MODULUS ==> xPercent == PercentOf(newXDpi)
      ensures newYDpi * 100 < UINT32_MODULUS ==> yPercent == PercentOf(newYDpi)
    {
      xPercent := ToUint32(newXDpi * 100) / 96;
      yPercent := ToUint32(newYDpi * 100) / 96;
    }
  }

  /** Below the wrap-around the unsigned scaler agrees with the signed one:
      same percentage for the same DPI, same scaled value for the same
      measurement. */
  lemma UnsignedAgreesWithSigned(u: LegacyDpiScaler, s: DpiScaler, raw: uint32)
    requires u.xPercent == s.xPercent && u.yPercent == s.yPercent
    requires raw * u.xPercent < UINT32_MODULUS && raw * u.yPercent < UINT32_MODULUS
    requires InInt32(raw * s.xPercent) && InInt32(raw * s.yPercent)
    ensures u.ScaleX(raw) == s.ScaleX(raw) && u.ScaleY(raw) == s.ScaleY(raw)
  {
    DivNonNegative(raw * s.xPercent, 100);
    DivNonNegative(raw * s.yPercent, 100);
  }

  /** A DPI so large that `dpi * 100` wraps gives a percentage unrelated to the
      DPI: 42949673 DPI scales to 0 percent and leaves the scaler unset. */
  lemma InvalidateWrapsOnHugeDpi()
    ensures ToUint32(42949673 * 100) / 96 == 0
    ensures PercentOf(42949673) == 44739242
  {
  }

  /** `GlassMargins::GlassOptions`. */
  datatype GlassOptions = UseSystemBorder | UseSolidSheet

  /** The margins the constructor sets: the whole window for a solid sheet,
      otherwise the sizing frame on the left, right and bottom and the
      frame plus caption at the top. */
  function LegacyMargins(options: GlassOptions, cxFrame: int, cyFrame: int, cyCaption: int): (m: Margins)
    ensures options == UseSolidSheet ==> m == SHEET_OF_GLASS
    ensures options == UseSystemBorder ==>
              m.cxLeftWidth == m.cxRightWidth == cxFrame
              && m.cyTopHeight == cyFrame + cyCaption && m.cyBottomHeight == cyFrame
  {
    match options
    case UseSolidSheet => SHEET_OF_GLASS
    case UseSystemBorder => Margins(cxFrame, cxFrame, cyFrame + cyCaption, cyFrame)
  }

  class LegacyGlassMargins {
    var margins: Margins
    var cxFrame: int
    var cyFrame: int
    var cyCaption: int

    /** `GlassMargins(options, scaler)`: the three frame sizes are the system
        metrics (converted to `UINT`) scaled by the window's scaler, then the
        margins are filled in according to the option. */
    constructor (options: GlassOptions, scaler: LegacyDpiScaler, metrics: SystemMetrics)
      ensures cxFrame == scaler.ScaleX(ToUint32(metrics.cxSizeFrame))
      ensures cyFrame == scaler.ScaleY(ToUint32(metrics.cySizeFrame))
      ensures cyCaption == scaler.ScaleY(ToUint32(metrics.cyCaption))
      ensures margins == LegacyMargins(options, cxFrame, cyFrame, cyCaption)
      ensures Valid()
    {
      cxFrame := scaler.ScaleX(ToUint32(metrics.cxSizeFrame));
      cyFrame := scaler.ScaleY(ToUint32(metrics.cySizeFrame));
      cyCaption := scaler.ScaleY(ToUint32(metrics.cyCaption));
      new;
      match options {
        case UseSolidSheet =>
          margins := SHEET_OF_GLASS;
        case UseSystemBorder =>
          margins := Margins(cxFrame, cxFrame, cyFrame + cyCaption, cyFrame);
      }
    }

    /** The frame sizes are results of an unsigned scale, so they lie in `[0, MAX_SCALED]`. */
    ghost predicate Valid()
      reads this
    {
      0 <= cxFrame <= MAX_SCALED && 0 <= cyFrame <= MAX_SCALED && 0 <= cyCaption <= MAX_SCALED
    }
  }

  /** System-border margins are never negative and are non-zero as soon as
      any frame size is: unlike -1, they never ask for a sheet of glass. */
  lemma SystemBorderMarginsNonNegative(cxFrame: int, cyFrame: int, cyCaption: int)
    requires 0 <= cxFrame && 0 <= cyFrame && 0 <= cyCaption
    ensures var m := LegacyMargins(UseSystemBorder, cxFrame, cyFrame, cyCaption);
            && m.cxLeftWidth >= 0 && m.cxRightWidth >= 0 && m.cyTopHeight >= 0 && m.cyBottomHeight >= 0
            && (HasAnyMargin(m) <==> cxFrame != 0 || cyFrame != 0 || cyCaption != 0)
            && m != SHEET_OF_GLASS
  {
  }

  // Hit-test codes.
  const HTNOWHERE: int := 0
  const HTCAPTION: int := 2
  const HTLEFT: int := 10
  const HTRIGHT: int := 11
  const HTTOP: int := 12
  const HTTOPLEFT: int := 13
  const HTTOPRIGHT: int := 14
  const HTBOTTOM: int := 15
  const HTBOTTOMLEFT: int := 16
  const HTBOTTOMRIGHT: int := 17

  /** The row of the grid: 0 in the band of frame plus caption at the top,
      2 in the frame band at the bottom, 1 (the centre) otherwise. */
  function HitRow(y: int, window: WinRect, cyFrame: int, cyCaption: int): (row: nat)
    ensures row <= 2
    ensures row == 0 <==> window.top <= y < window.top + cyFrame + cyCaption
    ensures row == 2 <==> !(window.top <= y < window.top + cyFrame + cyCaption)
                          && window.bottom - cyFrame <= y < window.bottom
  {
    if y >= window.top && y < window.top + cyFrame + cyCaption then 0
    else if y < window.bottom && y >= window.bottom - cyFrame then 2
    else 1
  }

  /** The column of the grid: 0 in the left frame band, 2 in the right
      frame band, 1 otherwise. The right band's width is the vertical frame
      size `cyFrame`, not `cxFrame`. */
  function HitCol(x: int, window: WinRect, cxFrame: int, cyFrame: int): (col: nat)
    ensures col <= 2
    ensures col == 0 <==> window.left <= x < window.left + cxFrame
    ensures col == 2 <==> !(window.left <= x < window.left + cxFrame)
                          && window.right - cyFrame <= x < window.right
  {
    if x >= window.left && x < window.left + cxFrame then 0
    else if x < window.right && x >= window.right - cyFrame then 2
    else 1
  }

  /** The ten codes the grid holds. */
  const GRID_CODES: set<int> := {HTNOWHERE, HTCAPTION, HTLEFT, HTRIGHT, HTTOP, HTTOPLEFT, HTTOPRIGHT,
                                  HTBOTTOM, HTBOTTOMLEFT, HTBOTTOMRIGHT}

  /** The cell a hit-test code belongs to: the top-middle cell has two codes,
      every other cell one, and a code outside the grid counts as the centre. */
  function CellOf(code: int): (cell: (nat, nat))
    ensures cell.0 <= 2 && cell.1 <= 2
    ensures code !in GRID_CODES ==> cell == (1, 1)
  {
    if code == HTTOPLEFT then (0, 0)
    else if code == HTTOP || code == HTCAPTION then (0, 1)
    else if code == HTTOPRIGHT then (0, 2)
    else if code == HTLEFT then (1, 0)
    else if code == HTRIGHT then (1, 2)
    else if code == HTBOTTOMLEFT then (2, 0)
    else if code == HTBOTTOM then (2, 1)
    else if code == HTBOTTOMRIGHT then (2, 2)
    else (1, 1)
  }

  /** `grid[row][col]`: every cell has its own code (the top-middle cell two,
      chosen by `onResizeBorder`), so the code tells which cell the point is in. */
  function GridCode(row: nat, col: nat, onResizeBorder: bool): (code: int)
    requires row <= 2 && col <= 2
    ensures code in GRID_CODES
    ensures CellOf(code) == (row, col)
    ensures code == HTTOP <==> row == 0 && col == 1 && onResizeBorder
    ensures code == HTCAPTION <==> row == 0 && col == 1 && !onResizeBorder
  {
    if row == 0 then
      (if col == 0 then HTTOPLEFT else if col == 1 then (if onResizeBorder then HTTOP else HTCAPTION) else HTTOPRIGHT)
    else if row == 1 then
      (if col == 0 then HTLEFT else if col == 1 then HTNOWHERE else HTRIGHT)
    else
      (if col == 0 then HTBOTTOMLEFT else if col == 1 then HTBOTTOM else HTBOTTOMRIGHT)
  }

  /** Every `int` the hit test computes from the window rectangle, the frame
      rectangle and the margins is in range. */
  predicate HitTestFits(m: LegacyGlassMargins, window: WinRect, frameTop: int)
    reads m
  {
    && InInt32(window.top + m.cyFrame) && InInt32(window.top + m.cyFrame + m.cyCaption)
    && InInt32(window.bottom - m.cyFrame) && InInt32(window.left + m.cxFrame)
    && InInt32(window.right - m.cyFrame) && InInt32(window.top - frameTop)
  }

  /** `OnNcHitTest(hwnd, x, y)`: the window rectangle and the top of the
      frame rectangle the OS reports are parameters. Row and column start at
      the centre; the top-middle cell is the resize border above the
      client-area offset of the frame and the caption below it. */
  function OnNcHitTest(m: LegacyGlassMargins, window: WinRect, frameTop: int, x: int, y: int): (code: int)
    reads m
    requires HitTestFits(m, window, frameTop)
    ensures code in GRID_CODES
    ensures CellOf(code) == (HitRow(y, window, m.cyFrame, m.cyCaption), HitCol(x, window, m.cxFrame, m.cyFrame))
    ensures code == HTTOP <==>
              (HitRow(y, window, m.cyFrame, m.cyCaption) == 0 && HitCol(x, window, m.cxFrame, m.cyFrame) == 1
               && y < window.top - frameTop)
    ensures code == HTNOWHERE <==>
              (HitRow(y, window, m.cyFrame, m.cyCaption) == 1 && HitCol(x, window, m.cxFrame, m.cyFrame) == 1)
  {
    var row := HitRow(y, window, m.cyFrame, m.cyCaption);
    var col := HitCol(x, window, m.cxFrame, m.cyFrame);
    var onResizeBorder := row == 0 && y < window.top - frameTop;
    GridCode(row, col, onResizeBorder)
  }

  /** With system-border margins the caption band that the hit test treats as
      the top row is exactly the top glass margin. */
  lemma CaptionBandIsTopMargin(m: LegacyGlassMargins, window: WinRect, frameTop: int, y: int)
    requires HitTestFits(m, window, frameTop)
    requires m.margins == LegacyMargins(UseSystemBorder, m.cxFrame, m.cyFrame, m.cyCaption)
    ensures HitRow(y, window, m.cyFrame, m.cyCaption) == 0
            <==> window.top <= y < window.top + m.margins.cyTopHeight
  {
  }

  /** The messages the non-client procedure distinguishes. */
  datatype Message = Activate | Size | NcCalcSize | NcHitTest | OtherMessage

  /** `NcWndProc`: the default DWM handling runs first and reports whether
      it handled the message and with what result (`dwmHandled`,
      `dwmResult`); `hitCode` is what `OnNcHitTest` answers for the message's
      point. Activation is always claimed with result 0. A size message
      returns 0 straight away and keeps DWM's verdict. A size calculation
      with a non-zero `wParam` is claimed with result 0. A hit test DWM left
      at 0 takes the computed code, and is claimed unless that code is
      `HTNOWHERE`. */
  method NcWndProc(msg: Message, wParam: int, dwmHandled: bool, dwmResult: int, hitCode: int)
    returns (lresult: int, handled: bool)
    ensures msg == Activate ==> handled && lresult == 0
    ensures msg == Size ==> handled == dwmHandled && lresult == 0
    ensures msg == NcCalcSize && wParam != 0 ==> handled && lresult == 0
    ensures msg == NcCalcSize && wParam == 0 ==> handled == dwmHandled && lresult == dwmResult
    ensures msg == NcHitTest && dwmResult == 0 ==>
              lresult == hitCode && (handled <==> dwmHandled || hitCode != HTNOWHERE)
    ensures msg == NcHitTest && dwmResult != 0 ==> handled == dwmHandled && lresult == dwmResult
    ensures msg == OtherMessage ==> handled == dwmHandled && lresult == dwmResult
  {
    lresult := dwmResult;
    handled := dwmHandled;
    match msg {
      case Activate =>
        handled := true;
        lresult := 0;
      case Size =>
        return 0, handled;
      case NcCalcSize =>
        if wParam != 0 {
          handled := true;
          lresult := 0;
        }
      case NcHitTest =>
        if lresult == 0 {
          lresult := hitCode;
          if lresult != HTNOWHERE {
            handled := true;
          }
        }
      case OtherMessage =>
    }
  }
}
