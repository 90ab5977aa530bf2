/** The window shell's frame and geometry rules: how `Params` flags become
    window-style toggles, how toggles combine with the base styles, which
    scaler the non-client area is measured in, the order of updates on a DPI
    change, and the client-rect inset. */
module Shell {
  import opened CppInt
  import opened Win32
  import opened Dpi
  import opened Scaling
  import opened Frame

  // Window styles (`DWORD`) the shell combines.
  const WS_OVERLAPPEDWINDOW: bv32 := 0x00CF_0000
  const WS_POPUPWINDOW: bv32 := 0x8088_0000
  const WS_THICKFRAME: bv32 := 0x0004_0000
  const WS_EX_TOPMOST: bv32 := 0x0000_0008
  const WS_EX_WINDOWEDGE: bv32 := 0x0000_0100
  const WS_EX_CLIENTEDGE: bv32 := 0x0000_0200
  const WS_EX_OVERLAPPEDWINDOW: bv32 := WS_EX_WINDOWEDGE | WS_EX_CLIENTEDGE
  const WS_EX_APPWINDOW: bv32 := 0x0004_0000

  /** The styles a window gets before its toggles are applied. */
  const BASE_STYLE: bv32 := WS_OVERLAPPEDWINDOW | WS_POPUPWINDOW
  const BASE_EX_STYLE: bv32 := WS_EX_APPWINDOW | WS_EX_OVERLAPPEDWINDOW

  // `Params::Flags`.
  const QUIT_ON_DESTROY: bv32 := 1
  const SOLID_GLASS: bv32 := 2
  const ALWAYS_ON_TOP: bv32 := 4
  const FIXED_SIZE: bv32 := 8
  const VISUAL_DEBUG: bv32 := 16
  const DEFAULT_FLAGS: bv32 := QUIT_ON_DESTROY | SOLID_GLASS

  /** `COLOR_WINDOW`, the system colour of the default background brush. */
  const COLOR_WINDOW: int := 5

  /** A background brush: a system colour (`(HBRUSH)(index + 1)`) or the stock black brush. */
  datatype Brush = SysColorBrush(colorIndex: int) | BlackStockBrush

  /** The flag values are distinct single bits and the default is quit-on-destroy plus solid glass. */
  lemma FlagBits()
    ensures QUIT_ON_DESTROY & SOLID_GLASS == 0 && QUIT_ON_DESTROY & ALWAYS_ON_TOP == 0
    ensures QUIT_ON_DESTROY & FIXED_SIZE == 0 && QUIT_ON_DESTROY & VISUAL_DEBUG == 0
    ensures SOLID_GLASS & ALWAYS_ON_TOP == 0 && SOLID_GLASS & FIXED_SIZE == 0 && SOLID_GLASS & VISUAL_DEBUG == 0
    ensures ALWAYS_ON_TOP & FIXED_SIZE == 0 && ALWAYS_ON_TOP & VISUAL_DEBUG == 0
    ensures FIXED_SIZE & VISUAL_DEBUG == 0
    ensures DEFAULT_FLAGS == 3
  {
  }

  /** `styles ^= aStyleToggles`: a toggle flips a base style bit either way. */
  function WindowStyle(toggles: bv32): (s: bv32)
    ensures s ^ toggles == BASE_STYLE
  {
    BASE_STYLE ^ toggles
  }

  /** `exStyles ^= aExStyleToggles`. */
  function WindowExStyle(toggles: bv32): (s: bv32)
    ensures s ^ toggles == BASE_EX_STYLE
  {
    BASE_EX_STYLE ^ toggles
  }

  /** Applying the same toggles twice restores the base styles. */
  lemma ToggleTwiceRestores(toggles: bv32)
    ensures WindowStyle(WindowStyle(toggles) ^ BASE_STYLE ^ toggles) == BASE_STYLE
    ensures (BASE_STYLE ^ toggles) ^ toggles == BASE_STYLE
    ensures (BASE_EX_STYLE ^ toggles) ^ toggles == BASE_EX_STYLE
  {
  }

  /** `toggles |= style`: the style bits are set afterwards and no other bit changes. */
  function AddStyle(toggles: bv32, style: bv32): (t: bv32)
    ensures t & style == style
    ensures t & !style == toggles & !style
  {
    toggles | style
  }

  /** `|=` leaves every bit outside the added style as it was. */
  lemma AddStyleKeepsMask(toggles: bv32, style: bv32, mask: bv32)
    requires style & mask == 0
    ensures AddStyle(toggles, style) & mask == toggles & mask
  {
  }

  /** Everything a `Params` object holds. */
  datatype ParamsState = ParamsState(
    titleText: string, width: int, height: int,
    styleToggles: bv32, exStyleToggles: bv32,
    margins: Margins, backgroundBrush: Brush,
    quitOnDestroy: bool, visualDebug: bool)

  /** The flags `SetFlags` acts on, one test per bit. */
  datatype FlagSet = FlagSet(quitOnDestroy: bool, solidGlass: bool, alwaysOnTop: bool, fixedSize: bool,
                             visualDebug: bool)

  /** The bits of `aFlags` after its solid-glass bit is cleared from Windows 10 on. */
  function EffectiveFlags(flags: bv32, isWin10: bool): (f: FlagSet)
    ensures f.solidGlass ==> !isWin10
  {
    var masked := if flags & SOLID_GLASS != 0 && isWin10 then flags & !SOLID_GLASS else flags;
    FlagSet(masked & QUIT_ON_DESTROY != 0, masked & SOLID_GLASS != 0, masked & ALWAYS_ON_TOP != 0,
            masked & FIXED_SIZE != 0, masked & VISUAL_DEBUG != 0)
  }

  /** Clearing the solid-glass bit touches no other flag. */
  lemma EffectiveFlagsKeepsOtherBits(flags: bv32, isWin10: bool)
    ensures EffectiveFlags(flags, isWin10).solidGlass <==> flags & SOLID_GLASS != 0 && !isWin10
    ensures EffectiveFlags(flags, isWin10).quitOnDestroy <==> flags & QUIT_ON_DESTROY != 0
    ensures EffectiveFlags(flags, isWin10).alwaysOnTop <==> flags & ALWAYS_ON_TOP != 0
    ensures EffectiveFlags(flags, isWin10).fixedSize <==> flags & FIXED_SIZE != 0
    ensures EffectiveFlags(flags, isWin10).visualDebug <==> flags & VISUAL_DEBUG != 0
  {
  }

  /** The `Params` state after `SetFlags(flags)`. Title and size are kept,
      the margins change only to a sheet of glass, and the brush only before
      Windows 10; which toggle bits can change is `SetFlagsTouchesOnlyItsBits`. */
  function WithFlags(p: ParamsState, flags: bv32, isWin10: bool): (r: ParamsState)
    ensures r.titleText == p.titleText && r.width == p.width && r.height == p.height
    ensures r.margins == p.margins || r.margins == SHEET_OF_GLASS
    ensures isWin10 ==> r.backgroundBrush == p.backgroundBrush
    ensures r.quitOnDestroy <==> p.quitOnDestroy || flags & QUIT_ON_DESTROY != 0
    ensures r.visualDebug <==> p.visualDebug || flags & VISUAL_DEBUG != 0
  {
    EffectiveFlagsKeepsOtherBits(flags, isWin10);
    var f := EffectiveFlags(flags, isWin10);
    p.(styleToggles := if f.fixedSize then AddStyle(p.styleToggles, WS_THICKFRAME) else p.styleToggles,
       exStyleToggles := AddStyle(if f.alwaysOnTop then AddStyle(p.exStyleToggles, WS_EX_TOPMOST) else p.exStyleToggles,
                                  WS_EX_CLIENTEDGE),
       margins := if f.solidGlass then SHEET_OF_GLASS else p.margins,
       backgroundBrush := if isWin10 then p.backgroundBrush else BlackStockBrush,
       quitOnDestroy := p.quitOnDestroy || f.quitOnDestroy,
       visualDebug := p.visualDebug || f.visualDebug)
  }

  /** Of the style toggles only the sizing-frame bit, and of the extended
      toggles only the topmost and client-edge bits, can change. */
  lemma SetFlagsTouchesOnlyItsBits(p: ParamsState, flags: bv32, isWin10: bool)
    ensures WithFlags(p, flags, isWin10).styleToggles & !WS_THICKFRAME == p.styleToggles & !WS_THICKFRAME
    ensures WithFlags(p, flags, isWin10).exStyleToggles & !(WS_EX_TOPMOST | WS_EX_CLIENTEDGE)
              == p.exStyleToggles & !(WS_EX_TOPMOST | WS_EX_CLIENTEDGE)
  {
    var f := EffectiveFlags(flags, isWin10);
    var exMask := !(WS_EX_TOPMOST | WS_EX_CLIENTEDGE);
    var topmost := if f.alwaysOnTop then AddStyle(p.exStyleToggles, WS_EX_TOPMOST) else p.exStyleToggles;
    AddStyleKeepsMask(p.exStyleToggles, WS_EX_TOPMOST, exMask);
    AddStyleKeepsMask(topmost, WS_EX_CLIENTEDGE, exMask);
  }

  /** A fixed-size window never has a sizing frame, whatever toggles came before. */
  lemma FixedSizeClearsThickFrame(p: ParamsState, flags: bv32, isWin10: bool)
    requires flags & FIXED_SIZE != 0
    ensures WindowStyle(WithFlags(p, flags, isWin10).styleToggles) & WS_THICKFRAME == 0
  {
  }

  /** After `SetFlags` the client edge of the base extended style is always toggled off. */
  lemma GlassHasNoClientEdge(p: ParamsState, flags: bv32, isWin10: bool)
    ensures WindowExStyle(WithFlags(p, flags, isWin10).exStyleToggles) & WS_EX_CLIENTEDGE == 0
  {
  }

  /** Always-on-top turns the topmost extended style on. */
  lemma AlwaysOnTopIsTopmost(p: ParamsState, flags: bv32, isWin10: bool)
    requires flags & ALWAYS_ON_TOP != 0
    ensures WindowExStyle(WithFlags(p, flags, isWin10).exStyleToggles) & WS_EX_TOPMOST != 0
  {
  }

  /** Solid glass makes the whole window glass before Windows 10 and is ignored from Windows 10 on. */
  lemma SolidGlassMargins(p: ParamsState, flags: bv32, isWin10: bool)
    ensures flags & SOLID_GLASS != 0 && !isWin10 ==> WithFlags(p, flags, isWin10).margins == SHEET_OF_GLASS
    ensures isWin10 || flags & SOLID_GLASS == 0 ==> WithFlags(p, flags, isWin10).margins == p.margins
  {
  }

  /** The flags only ever OR bits in, so setting the same flags again changes nothing. */
  lemma SetFlagsIdempotent(p: ParamsState, flags: bv32, isWin10: bool)
    ensures WithFlags(WithFlags(p, flags, isWin10), flags, isWin10) == WithFlags(p, flags, isWin10)
  {
  }

  class Params {
    var titleText: string
    var width: int
    var height: int
    var styleToggles: bv32
    var exStyleToggles: bv32
    var margins: Margins
    var backgroundBrush: Brush
    var quitOnDestroy: bool
    var visualDebug: bool

    function State(): ParamsState
      reads this
    {
      ParamsState(titleText, width, height, styleToggles, exStyleToggles, margins, backgroundBrush,
                  quitOnDestroy, visualDebug)
    }

    /** `Params()`: 640 by 480, no toggles, no margins, the window-colour brush, no flags. */
    constructor ()
      ensures State() == ParamsState("", 640, 480, 0, 0, NO_MARGINS, SysColorBrush(COLOR_WINDOW), false, false)
    {
      titleText := "";
      width, height := 640, 480;
      styleToggles, exStyleToggles := 0, 0;
      margins := NO_MARGINS;
      backgroundBrush := SysColorBrush(COLOR_WINDOW);
      quitOnDestroy, visualDebug := false, false;
    }

    method SetTitleText(text: string)
      modifies this
      ensures State() == old(State()).(titleText := text)
    {
      titleText := text;
    }

    method SetSize(w: int, h: int)
      modifies this
      ensures State() == old(State()).(width := w, height := h)
    {
      width, height := w, h;
    }

    method SetMargins(m: Margins)
      modifies this
      ensures State() == old(State()).(margins := m)
    {
      margins := m;
    }

    /** `SetFlags(aFlags)`. */
    method SetFlags(flags: bv32, isWin10: bool)
      modifies this
      ensures State() == WithFlags(old(State()), flags, isWin10)
    {
      var f := EffectiveFlags(flags, isWin10);
      if f.alwaysOnTop {
        exStyleToggles := AddStyle(exStyleToggles, WS_EX_TOPMOST);
      }
      if f.fixedSize {
        styleToggles := AddStyle(styleToggles, WS_THICKFRAME);
      }
      if f.solidGlass {
        margins := SHEET_OF_GLASS;
      }
      exStyleToggles := AddStyle(exStyleToggles, WS_EX_CLIENTEDGE);
      if !isWin10 {
        backgroundBrush := BlackStockBrush;
      }
      if f.quitOnDestroy {
        quitOnDestroy := true;
      }
      if f.visualDebug {
        visualDebug := true;
      }
    }
  }

  /** The percentages `DpiScaler(HWND)` ends up with. */
  function MonitorPercents(monitorDpi: Option<DpiPair>, systemDpi: Option<DpiPair>): DpiPair {
    if monitorDpi.Some? then DpiPair(PercentOf(monitorDpi.value.x), PercentOf(monitorDpi.value.y))
    else if systemDpi.Some? then DpiPair(PercentOf(systemDpi.value.x), PercentOf(systemDpi.value.y))
    else DpiPair(0, 0)
  }

  /** The percentages `DpiScaler()` ends up with. */
  function SystemPercents(systemDpi: Option<DpiPair>): DpiPair {
    if systemDpi.Some? then DpiPair(PercentOf(systemDpi.value.x), PercentOf(systemDpi.value.y))
    else DpiPair(0, 0)
  }

  /** The caption height, measured in `from`, can be re-projected onto `to`. */
  predicate CaptionScalable(m: SystemMetrics, from: DpiPair, to: DpiPair) {
    Scalable(DimensionY, [CaptionHeight(m)], from.x, from.y, to.x, to.y)
  }

  class GlassWindow {
    /** The scaler of the window's content, following its monitor. */
    const dpiScaler: DpiScaler
    /** The scaler of the non-client frame. */
    const ncDpiScaler: DpiScaler
    const margins: GlassMargins

    ghost predicate Valid()
      reads this, margins
    {
      && margins.dpiScaler == dpiScaler
      && margins.ncDpiScaler == ncDpiScaler
      && margins.Valid()
    }

    /** `OnCreate(HWND, MARGINS)`: the content scaler follows the window's
        monitor; the frame shares that very object under per-monitor-v2 DPI
        awareness and otherwise gets a system-wide scaler of its own. The
        margins are built on both and computed once. */
    constructor OnCreate(userMargins: Margins, monitorDpi: Option<DpiPair>, systemDpi: Option<DpiPair>,
                         perMonitorV2: bool, metrics: SystemMetrics, isWin10: bool, renderCaptionInClient: bool)
      requires monitorDpi.Some? ==> DpiFits(monitorDpi.value)
      requires systemDpi.Some? ==> DpiFits(systemDpi.value)
      requires MetricsFit(metrics)
      requires renderCaptionInClient && !HasAnyMargin(userMargins) && !perMonitorV2 ==>
                 CaptionScalable(metrics, SystemPercents(systemDpi), MonitorPercents(monitorDpi, systemDpi))
      ensures Valid()
      ensures fresh(dpiScaler) && fresh(ncDpiScaler) && fresh(margins)
      ensures perMonitorV2 <==> ncDpiScaler == dpiScaler
      ensures DpiPair(dpiScaler.xPercent, dpiScaler.yPercent) == MonitorPercents(monitorDpi, systemDpi)
      ensures !perMonitorV2 ==> DpiPair(ncDpiScaler.xPercent, ncDpiScaler.yPercent) == SystemPercents(systemDpi)
      ensures margins.userMargins == userMargins
      ensures margins.captionWidth == margins.CaptionValue(metrics)
      ensures margins.frameBorderXWidth == ScaledValue(DimensionX, [FrameBorderX(metrics, isWin10)], ncDpiScaler, true)
      ensures margins.frameBorderYWidth == ScaledValue(DimensionY, [FrameBorderY(metrics, isWin10)], ncDpiScaler, true)
      ensures margins.margins == InvalidatedMargins(userMargins, userMargins,
                                   if renderCaptionInClient && !HasAnyMargin(userMargins)
                                   then Some(ScaleTo(margins.captionWidth, dpiScaler).values[0]) else None,
                                   isWin10)
    {
      var dpi := new DpiScaler.FromMonitor(monitorDpi, systemDpi);
      var nc: DpiScaler;
      if perMonitorV2 {
        nc := dpi;
      } else {
        nc := new DpiScaler.FromSystem(systemDpi);
      }
      var m := new GlassMargins(userMargins, dpi, nc);
      dpiScaler, ncDpiScaler, margins := dpi, nc, m;
      new;
      margins.Invalidate(metrics, isWin10, renderCaptionInClient);
    }

    /** `OnDpiChanged(hwnd, newXDpi, newYDpi, rect)`: the content scaler is
        updated in place first, and only then are the margins recomputed, so
        the caption row is re-projected at the new DPI. Under per-monitor-v2
        the frame's scaler is the same object and sees the new DPI too; a
        separate frame scaler keeps its percentages. */
    method OnDpiChanged(newXDpi: int, newYDpi: int, metrics: SystemMetrics, isWin10: bool,
                        renderCaptionInClient: bool)
      requires Valid() && MetricsFit(metrics)
      requires 0 <= newXDpi < 0x1_0000 && 0 <= newYDpi < 0x1_0000
      requires renderCaptionInClient && !margins.HasUserMargins() && ncDpiScaler != dpiScaler ==>
                 CaptionScalable(metrics, DpiPair(ncDpiScaler.xPercent, ncDpiScaler.yPercent),
                                 DpiPair(PercentOf(newXDpi), PercentOf(newYDpi)))
      modifies dpiScaler, margins
      ensures Valid()
      ensures dpiScaler.xPercent == PercentOf(newXDpi) && dpiScaler.yPercent == PercentOf(newYDpi)
      ensures ncDpiScaler == dpiScaler ==>
                ncDpiScaler.xPercent == PercentOf(newXDpi) && ncDpiScaler.yPercent == PercentOf(newYDpi)
      ensures ncDpiScaler != dpiScaler ==>
                ncDpiScaler.xPercent == old(ncDpiScaler.xPercent) && ncDpiScaler.yPercent == old(ncDpiScaler.yPercent)
      ensures margins.captionWidth == margins.CaptionValue(metrics)
      ensures margins.frameBorderXWidth == ScaledValue(DimensionX, [FrameBorderX(metrics, isWin10)], ncDpiScaler, true)
      ensures margins.frameBorderYWidth == ScaledValue(DimensionY, [FrameBorderY(metrics, isWin10)], ncDpiScaler, true)
      ensures margins.margins == InvalidatedMargins(old(margins.margins), margins.userMargins,
                                   if renderCaptionInClient && !margins.HasUserMargins()
                                   then Some(ScaleTo(margins.captionWidth, dpiScaler).values[0]) else None,
                                   isWin10)
      ensures ncDpiScaler == dpiScaler && renderCaptionInClient && !margins.HasUserMargins() ==>
                margins.margins.cyTopHeight == CaptionHeight(metrics)
    {
      dpiScaler.Invalidate(newXDpi, newYDpi);
      margins.Invalidate(metrics, isWin10, renderCaptionInClient);
    }

    /** `GetClientRectInset(RECT&)`: from Windows 10 on, the left and right
        edges move in by the frame border width and the bottom edge up by
        the border height, both expressed in the content scaler; the top
        edge never moves. Before Windows 10 the rectangle is unchanged. */
    method GetClientRectInset(rect: WinRect, isWin10: bool) returns (inset: WinRect)
      requires Valid()
      requires isWin10 ==> CanScaleTo(margins.frameBorderXWidth, dpiScaler)
                           && CanScaleTo(margins.frameBorderYWidth, dpiScaler)
      requires isWin10 ==>
                 var borderX := margins.GetFrameBorderXWidth(dpiScaler).values[0];
                 var borderY := margins.GetFrameBorderYWidth(dpiScaler).values[0];
                 InInt32(rect.left + borderX) && InInt32(rect.right - borderX) && InInt32(rect.bottom - borderY)
      ensures !isWin10 ==> inset == rect
      ensures inset.top == rect.top
      ensures isWin10 ==>
                var borderX := margins.GetFrameBorderXWidth(dpiScaler).values[0];
                var borderY := margins.GetFrameBorderYWidth(dpiScaler).values[0];
                && inset.left - rect.left == borderX && rect.right - inset.right == borderX
                && rect.bottom - inset.bottom == borderY
                && inset.right - inset.left == rect.right - rect.left - 2 * borderX
                && inset.bottom - inset.top == rect.bottom - rect.top - borderY
      ensures isWin10 && ncDpiScaler == dpiScaler ==>
                inset.left - rect.left == margins.frameBorderXWidth.values[0]
                && rect.bottom - inset.bottom == margins.frameBorderYWidth.values[0]
    {
      inset := rect;
      if isWin10 {
        var borderX := margins.GetFrameBorderXWidth(dpiScaler).values[0];
        var borderY := margins.GetFrameBorderYWidth(dpiScaler).values[0];
        inset := inset.(left := inset.left + borderX);
        inset := inset.(right := inset.right - borderX);
        inset := inset.(bottom := inset.bottom - borderY);
      }
    }
  }
}
