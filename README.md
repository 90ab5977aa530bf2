# glassscratch: DPI-scaled measurements and glass-frame geometry in Dafny

glassscratch is a Win32 experiment that draws a window whose frame is
extended into the client area with DWM "glass". Below its window plumbing
sits a small arithmetic core, and this project models that core and proves
properties of it:

- **`DpiScaler`**: a pair of integer percentages of the 96-DPI baseline. It
  is shared by reference between the window, its margins and every
  measurement taken in it. A DPI change updates it in place. Under
  per-monitor-v2 awareness the frame's scaler is *the same object* as the
  content scaler. The model therefore makes it a class (`Dpi.DpiScaler`),
  and aliasing is real.
- **`ScaledValue<N, Dim>`**: one, two or four `int` components tagged with
  the scaler they are expressed in and a "may be rescaled" flag. `ScaleTo`
  re-projects a value onto another scaler:
  - the ratio is truncated to whole percent;
  - each component is divided by 100 rounding half away from zero;
  - a rectangle's right and bottom edges are made inclusive before scaling
    and exclusive again after it.

  The 1-D `+` and `-` first re-project the right operand.
  (`Scaling.ScaledValue`)
- **`GlassMargins`**: frame-border and caption sizes derived from system
  metrics in the frame's scaler, and the `MARGINS` passed to the
  frame-extension call. Margins the caller supplied are never overwritten.
  Before Windows 10 there is a one-pixel fixup. (`Frame.GlassMargins`)
- **The window shell's rules**: how `Params` flags become style toggles,
  how toggles are XORed into the base styles, which scaler the frame uses,
  the update order on a DPI change, and the client-rect inset.
  (`Shell.Params`, `Shell.GlassWindow`)
- **The first version** (`glasswnd.h`/`glasswnd.cpp`): an unsigned scaler,
  constructor-only margins, the 3×3 non-client hit-test grid, and the rules
  by which the non-client window procedure claims a message. (`Legacy`)
- **The list view's cursor**: how the row and column advance as cells are
  appended, and the even split of column widths. (`ListViews.ListView`)

C++ semantics are explicit:

- `/` and `%` truncate toward zero (`CppInt.Div`, `CppInt.Rem`).
- Signed `int` arithmetic that could overflow is excluded by range
  preconditions (`CppInt.InInt32`).
- `UINT` arithmetic wraps modulo 2^32 (`CppInt.ToUint32`).
- `DWORD` styles are `bv32`.

OS queries are parameters of the operations that make them:

- the system metrics;
- the Windows-10 check;
- the per-monitor and system DPI, as `Option`s for a query that can fail;
- the per-monitor-v2 awareness;
- window rectangles;
- DWM's default answer;
- the indices the list-view control returns.

The compile-time switch `RENDER_CAPTION_IN_CLIENT` is a `bool` parameter.

Where the code does not do what a reader of it would expect, the model
follows the code and proves what it actually does:

- **Rectangle round-trip tolerance.** A rectangle re-projected onto another
  scale and back does not, in general, come back within ±1. The ratio is
  truncated to whole percent, so a 100 % → 150 % → 100 % trip takes 1000
  to 990 (`Scaling.OneAndAHalfRoundTripDrifts`). Doubling and halving is
  exact (`Scaling.DoublingRoundTrip`).
- **Rectangle width at 200 %.** `ScaleTo` marks indexes 2 and 3 as
  exclusive (src/DpiScaler.h:165). Scaling them as inclusive edges, as it
  does, takes (0, 0, 100, 100) at 100 % to a rectangle 199 wide at 200 %,
  not 200; see "## Findings".
- **`ScaleTo`'s short-circuit.** It compares scaler *references*, not
  percentages. A distinct scaler with equal percentages still takes the
  arithmetic path, which then leaves every component unchanged
  (`Scaling.ScaleToSameScale`).
- **Unset scaler.** Nothing in the code stops a value on an unset (0 %)
  scaler from being re-projected, which divides by zero
  (src/DpiScaler.h:159-162). The model makes a set source scaler a
  precondition of `ScaleTo` (`Scaling.CanScaleTo`).
  `Scaling.UnsetScalerRefusesScaleTo` shows that a point or rectangle can
  never leave an unset scaler.
- **Legacy hit test.** The code is modelled as written: its right-hand
  resize band is `cyFrame` wide, not `cxFrame`.

## Model

| member | source | states |
|---|---|---|
| Win32.RectWidth | src/GlassWindow.h:16-19 | the `UINT` width is `right - left`, wrapping to 2^32 + (right - left) when right < left |
| Win32.RectHeight | src/GlassWindow.h:21-24 | the `UINT` height is `bottom - top`, wrapping the same way |
| Dpi.PercentOf | DpiScaler.cpp:69-75 | `dpi * 100 / 96` truncated toward zero: 96·p ≤ 100·dpi < 96·p + 96 for dpi ≥ 0, mirrored for dpi < 0 |
| Dpi.NominalDpiIsNominalPercent | src/DpiScaler.h:64 | 96 DPI is exactly 100 percent |
| Dpi.DpiScaler.constructor | DpiScaler.cpp:29-34 | the percent constructor stores both arguments verbatim |
| Dpi.DpiScaler.FromSystem | DpiScaler.cpp:22-27 | the default constructor starts at 0/0 and takes the system DPI's percentages when a screen DC exists; without one it stays 0/0 and is unset |
| Dpi.DpiScaler.FromMonitor | DpiScaler.cpp:14-20 | the HWND constructor takes the per-monitor DPI when that query succeeds, else the system DPI, else stays 0/0 and unset |
| Dpi.DpiScaler.InitFromMonitor | DpiScaler.cpp:36-53 | a successful per-monitor query wins and the system path is skipped; otherwise the result is that of the system path |
| Dpi.DpiScaler.InitFromSystem | DpiScaler.cpp:55-67 | with a DC both percentages are recomputed from the device caps; without one nothing changes |
| Dpi.DpiScaler.ScaleX | src/DpiScaler.h:21-24 | `raw * x% / 100` truncated toward zero, stated as the remainder window for either sign of the product |
| Dpi.DpiScaler.ScaleY | src/DpiScaler.h:26-29 | `raw * y% / 100` truncated toward zero, likewise |
| Dpi.DpiScaler.Invalidate | DpiScaler.cpp:69-75 | both percentages become `PercentOf` the new DPIs, in place (every holder of the reference sees them) |
| Dpi.DpiScaler.Disable | src/DpiScaler.h:46-50 | the scaler is 100 %/100 % whatever it held, and so is set |
| Dpi.NewNominal | DpiScaler.cpp:12 | the nominal scaler is a new 100 %/100 % scaler that is set |
| Dpi.DpiScaler.IsUnset | src/DpiScaler.h:31-34 | the scaler is unset iff one of its percentages is 0 |
| Dpi.DpiScaler.SameScale | src/DpiScaler.h:36-40 | `==` compares percentages; a scaler equals itself |
| Dpi.SameScaleIsEquivalence | src/DpiScaler.h:36-40 | `==` is reflexive, symmetric and transitive |
| Dpi.ScaleXIsOdd | src/DpiScaler.h:21-24 | because division truncates, `ScaleX(-raw) == -ScaleX(raw)` |
| Dpi.ScaleAtNominalIsIdentity | src/DpiScaler.h:21-29 | at 100 % both scale functions are the identity |
| Scaling.Arity | src/DpiScaler.h:278-281 | the value kinds have 1, 2 or 4 components |
| Scaling.ScaledValue.SetNoRescale | src/DpiScaler.h:213-216 | the flag becomes false; kind, components and scaler are kept |
| Scaling.Zero | src/DpiScaler.h:83-88 | the scaler-only constructor gives all-zero components, tagged with the scaler, rescalable |
| Scaling.FromRect | src/DpiScaler.h:90-96 | the RECT constructor stores left, top, right, bottom in order; `ToRect` gives the RECT back |
| Scaling.ToRect | src/DpiScaler.h:325-335 | the conversion back to a RECT reads components 0 to 3 as left, top, right, bottom |
| Scaling.RoundedDiv | src/DpiScaler.h:183-188 | for a positive divisor the quotient has the sign of the dividend |
| Scaling.Ratio | src/DpiScaler.h:159-162 | an unset source percentage gives 0; otherwise the ratio is `to*100/from` truncated: non-negative, with remainder below `from` |
| Scaling.RoundedDivNearest | src/DpiScaler.h:183-188 | for a positive divisor `rounded_div(n, d)` is the integer nearest n/d, ties away from zero |
| Scaling.RoundedDivNegate | src/DpiScaler.h:266-271 | `rounded_div` is sign-correct: `rounded_div(-n, d) == -rounded_div(n, d)` |
| Scaling.RoundedDivExamples | src/DpiScaler.h:183-188 | (5,2)→3, (-5,2)→-3, (4,2)→2, (150,100)→2, (-150,100)→-2 |
| Scaling.RoundedDivExact | src/DpiScaler.h:266-271 | an exact multiple `a*d` divides to `a` |
| Scaling.RectExToIn | src/DpiScaler.h:295-300 | components 2 and 3 decrease by one; 0 and 1 are kept |
| Scaling.RectInToEx | src/DpiScaler.h:302-307 | components 2 and 3 increase by one; 0 and 1 are kept |
| Scaling.EdgeConversionsInverse | src/DpiScaler.h:295-307 | the two edge conversions undo each other |
| Scaling.ApplyRatios | src/DpiScaler.h:168-173 | element k, at running index i + k, is multiplied by the X ratio when i + k is even, otherwise by the Y ratio, and then divided by 100 with `rounded_div` |
| Scaling.ScaleTo | src/DpiScaler.h:153-242 | a non-rescalable value, or one already on the same scaler object, is returned unchanged. Otherwise the result is tagged with the target and rescalable. Each component equals the reference `ScaledComponent`: the axis ratio `other%*100/this%`, `rounded_div` by 100, and the ±1 around a rectangle's exclusive edges |
| Scaling.UnsetScalerRefusesScaleTo | src/DpiScaler.h:159-162 | a point or rectangle on an unset scaler (`!s`) cannot be re-projected: the ratio would divide by zero |
| Scaling.RatioOfSamePercent | src/DpiScaler.h:159-162 | equal percentages give the ratio 100 |
| Scaling.ScaleToSameScale | src/DpiScaler.h:153-179 | a distinct scaler with equal percentages (`==`) leaves every component unchanged, rectangle edges included, and re-tags the value |
| Scaling.DoublingRoundTrip | src/DpiScaler.h:153-179 | scaling to twice the percentages and back restores every component exactly |
| Scaling.DoubleHalfRatios | src/DpiScaler.h:159-162 | p → 2p has ratio 200, and 2p → p has ratio 50 |
| Scaling.OneAndAHalfRoundTripDrifts | src/DpiScaler.h:230-242 | 1000 at 100 % becomes 1500 at 150 % and 990 back at 100 %, because the return ratio is truncated to 66 |
| Scaling.Aligned | src/DpiScaler.h:247-250 | the right operand is moved onto the left operand's scaler when its own scaler is another object; a non-rescalable one is kept as is |
| Scaling.Add | src/DpiScaler.h:244-252 | the sum is tagged with the left operand's scaler and is rescalable; on a shared scaler it is the plain sum |
| Scaling.Sub | src/DpiScaler.h:254-262 | the difference is tagged with the left operand's scaler; on a shared scaler it is the plain difference |
| Scaling.SubUndoesAdd | src/DpiScaler.h:244-262 | `(a + b) - b` gives back `a`'s value on `a`'s scaler |
| Scaling.AddConvertsRightOperand | src/DpiScaler.h:244-252 | adding the already-converted right operand gives the same result; a non-rescalable operand is added raw |
| Scaling.ScaledRectWidth | src/DpiScaler.h:283-287 | an X dimension on the rectangle's scaler equal to `[2] - [0]`, the RECT width when right ≥ left |
| Scaling.ScaledRectHeight | src/DpiScaler.h:289-293 | a Y dimension on the rectangle's scaler equal to `[3] - [1]` |
| Scaling.ScaleToRectDoublingLosesAPixel | src/DpiScaler.h:164-177 | as written, doubling maps (l, t, r, b) to (2l, 2t, 2r-1, 2b-1), so the width becomes 2w - 1 |
| Scaling.ScaleToRectExample | src/DpiScaler.h:164-177 | (0,0,100,100) at 100 % becomes (0,0,199,199) at 200 % |
| Scaling.ScaleRectEdges | src/DpiScaler.h:164-177 | the corrected rectangle re-projection scales all four edges as coordinates |
| Scaling.ScaleRectEdgesDoublesSize | src/DpiScaler.h:164-177 | with the correction, doubling maps every edge to twice its value, and width and height double exactly |
| Scaling.ScaleRectEdgesSameScale | src/DpiScaler.h:164-177 | with the correction, equal percentages still leave every edge unchanged |
| Frame.CaptionHeight | src/GlassWindow.cpp:24-30 | with metrics in range the caption height fits an `int`; with non-negative metrics it is at least the caption and at least sizing frame plus padded border |
| Frame.FrameBorderX | src/GlassWindow.cpp:31-43 | with metrics in range it fits an `int`; from Windows 10 on it is the edge width, before it the sizing frame plus the padded border |
| Frame.FrameBorderY | src/GlassWindow.cpp:31-43 | with metrics in range it fits an `int`; from Windows 10 on it is the edge height, before it the caption height less the caption |
| Frame.HasAnyMargin | src/GlassWindow.cpp:67-74 | static `HasMargins` holds iff the MARGINS differ from all-zero |
| Frame.InvalidatedMargins | src/GlassWindow.cpp:49-64 | with user margins nothing changes. Otherwise top is the re-projected caption when it is drawn in the client area, else it is kept. Before Windows 10 left, right and bottom are 1; from Windows 10 on they are kept |
| Frame.UserMarginsSurvive | src/GlassWindow.cpp:49-51 | non-zero user margins survive any number of recomputations, whatever their inputs |
| Frame.LegacyInvalidateHasMargins | src/GlassWindow.cpp:58-64 | before Windows 10 the margins are non-zero after every recomputation |
| Frame.InvalidatedMarginsIdempotent | src/GlassWindow.cpp:49-64 | recomputing again with the same inputs changes nothing |
| Frame.GlassMargins.constructor | src/GlassWindow.h:31-42 | current and user margins are both the argument; the three sizes are zero on the frame's scaler; both scalers are kept |
| Frame.GlassMargins.HasMargins | src/GlassWindow.h:69-72 | holds iff the current margins are non-zero |
| Frame.GlassMargins.HasUserMargins | src/GlassWindow.h:74-77 | holds iff the constant user copy is non-zero; it reads no mutable state, so it never changes |
| Frame.GlassMargins.CaptionValue | src/GlassWindow.cpp:24-30 | the caption is `CYSIZEFRAME + CXPADDEDBORDER + CYCAPTION`, a rescalable Y dimension on the frame's scaler |
| Frame.GlassMargins.Invalidate | src/GlassWindow.cpp:21-65 | caption and border sizes come from the metrics (edges from Windows 10 on, sizing frame plus padded border before), all on the frame's scaler; the MARGINS become `InvalidatedMargins` of the old ones; user margins stay in force |
| Frame.GlassMargins.GetFrameBorderXWidth | src/GlassWindow.h:51-55 | the stored border width re-projected onto the given scaler; on the frame's own scaler it is the stored value |
| Frame.GlassMargins.GetFrameBorderYWidth | src/GlassWindow.h:57-61 | the same for the border height |
| Frame.GlassMargins.GetCaptionWidth | src/GlassWindow.h:63-67 | the same for the caption height |
| Shell.FlagBits | src/GlassWindow.h:103-111 | the five flags are distinct single bits, and the default is 3 (quit on destroy and solid glass) |
| Shell.WindowStyle | src/GlassWindow.cpp:182-183 | XORing the toggles out of the final style gives back the base style |
| Shell.WindowExStyle | src/GlassWindow.cpp:184-185 | the same for the extended style |
| Shell.ToggleTwiceRestores | src/GlassWindow.cpp:182-185 | toggling twice restores the base styles |
| Shell.AddStyle | src/GlassWindow.cpp:96-111 | `|=` sets the style's bits and changes no other bit |
| Shell.EffectiveFlags | src/GlassWindow.cpp:91-94 | solid glass never survives on Windows 10 |
| Shell.EffectiveFlagsKeepsOtherBits | src/GlassWindow.cpp:91-94 | only the solid-glass bit is cleared, and only on Windows 10; each other flag is read iff its bit is set |
| Shell.FixedSizeClearsThickFrame | src/GlassWindow.cpp:100-102 | with the fixed-size flag the final style has no sizing frame |
| Shell.GlassHasNoClientEdge | src/GlassWindow.cpp:108-111 | the final extended style never has the client edge |
| Shell.AlwaysOnTopIsTopmost | src/GlassWindow.cpp:96-98 | with always-on-top the final extended style is topmost |
| Shell.SolidGlassMargins | src/GlassWindow.cpp:104-106 | solid glass before Windows 10 makes the margins -1 on every side; otherwise the margins are kept |
| Shell.WithFlags | src/GlassWindow.cpp:88-124 | title and size are kept; the margins are kept or become the sheet of glass; from Windows 10 on the brush is kept; each of the two booleans is set iff it was already set or its flag is given |
| Shell.SetFlagsTouchesOnlyItsBits | src/GlassWindow.cpp:96-111 | `SetFlags` changes no style bit but the sizing frame, and no extended-style bit but topmost and client edge |
| Shell.AddStyleKeepsMask | src/GlassWindow.cpp:96-111 | adding a style leaves every bit outside it as it was |
| Shell.SetFlagsIdempotent | src/GlassWindow.cpp:88-124 | setting the same flags twice equals setting them once |
| Shell.Params.constructor | src/GlassWindow.cpp:76-86 | 640×480, no toggles, zero margins, the window-colour brush, both booleans false |
| Shell.Params.SetTitleText | src/GlassWindow.h:113 | only the title changes |
| Shell.Params.SetSize | src/GlassWindow.h:114 | only width and height change |
| Shell.Params.SetMargins | src/GlassWindow.h:116 | only the margins change |
| Shell.Params.SetFlags | src/GlassWindow.cpp:88-124 | the new state is `WithFlags` of the old one, whose properties are the lemmas above |
| Shell.GlassWindow.OnCreate | src/GlassWindow.cpp:420-450 | the frame scaler is the content scaler object iff per-monitor-v2; the percentages come from the monitor and system queries; the margins are built on both scalers and computed once, so the border width and height are the metrics' frame border (`FrameBorderX`, `FrameBorderY`) on the frame scaler |
| Shell.GlassWindow.OnDpiChanged | src/GlassWindow.cpp:615-629 | the content scaler is updated first, then the margins are recomputed at the new DPI. Under aliasing the frame scaler sees the new DPI and the caption row equals the raw caption height; a separate frame scaler keeps its percentages. The border width and height are recomputed from the metrics (`FrameBorderX`, `FrameBorderY`) on the frame scaler |
| Shell.GlassWindow.GetClientRectInset | src/GlassWindow.cpp:349-359 | from Windows 10 on, left and right move in by the border width and bottom moves up by the border height, both in the content scaler; top never moves; before Windows 10 nothing changes |
| Legacy.LegacyDpiScaler.constructor | glasswnd.cpp:13-40 | a successful per-monitor query is used with unsigned wrap; otherwise the device caps when a DC exists; otherwise 0/0 and unset |
| Legacy.LegacyDpiScaler.ScaleX | glasswnd.h:27-30 | `raw * x% / 100U` with the product wrapping mod 2^32; the result is at most 42949672 and is the truncated quotient when there is no wrap |
| Legacy.LegacyDpiScaler.ScaleY | glasswnd.h:32-35 | the same on the vertical percentage |
| Legacy.LegacyDpiScaler.Invalidate | glasswnd.h:45-49 | `dpi * 100U / 96` with wrap; without wrap it equals the signed `PercentOf` |
| Legacy.LegacyDpiScaler.IsUnset | glasswnd.h:37-40 | the scaler is unset iff one of its percentages is 0 |
| Legacy.UnsignedAgreesWithSigned | glasswnd.h:27-35 | below the wrap the unsigned and signed scalers give equal results |
| Legacy.InvalidateWrapsOnHugeDpi | glasswnd.h:45-49 | 42949673 DPI wraps to 0 percent, unlike the signed formula |
| Legacy.LegacyMargins | glasswnd.h:74-88 | solid sheet is -1 on every side. System border is left = right = cxFrame, top = cyFrame + cyCaption, bottom = cyFrame |
| Legacy.LegacyGlassMargins.constructor | glasswnd.h:66-89 | the frame sizes are the metrics scaled by the unsigned scaler, and the margins follow the option |
| Legacy.SystemBorderMarginsNonNegative | glasswnd.h:81-87 | system-border margins are non-negative, non-zero iff some frame size is, and never the sheet of glass |
| Legacy.HitRow | glasswnd.cpp:145-150 | row 0 iff y is in the top band of frame plus caption; otherwise row 2 iff y is in the bottom frame band; row 1 otherwise |
| Legacy.HitCol | glasswnd.cpp:152-156 | col 0 iff x is in the left band of width cxFrame; otherwise col 2 iff x is in the right band of width cyFrame |
| Legacy.CellOf | glasswnd.cpp:158-164 | every code maps to a cell of the 3×3 grid; a code outside the grid maps to the centre |
| Legacy.GridCode | glasswnd.cpp:158-164 | the code is one of the ten grid codes and `CellOf` gives back its cell, so a code identifies its cell. The top-middle cell is HTTOP iff on the resize border, and HTCAPTION iff not |
| Legacy.OnNcHitTest | glasswnd.cpp:128-165 | the result is one of the ten grid codes and lies in the cell (`HitRow`, `HitCol`). It is HTTOP iff top-middle and above the frame offset, and HTNOWHERE iff centre |
| Legacy.CaptionBandIsTopMargin | glasswnd.cpp:145-147 | with system-border margins the top hit-test band is exactly the top glass margin |
| Legacy.NcWndProc | glasswnd.cpp:167-201 | activation is always claimed with 0; a size message keeps DWM's verdict and returns 0; a size calculation with non-zero wParam is claimed with 0; a hit test DWM left at 0 takes the computed code and is claimed iff DWM did or the code is not HTNOWHERE; anything else is DWM's answer |
| ListViews.Advance | src/ListView.cpp:76-92 | without columns the cursor does not move; a newline moves it to column 0 of the next row; any other cell from a column c ≥ 0 moves it to column (c + 1) mod the column count |
| ListViews.AdvanceKeepsColumnInRange | src/ListView.cpp:76-92 | a column in range stays in range; the row advances by one exactly when the column returns to 0, and otherwise stays |
| ListViews.AdvanceWithinRow | src/ListView.cpp:83-91 | inside a row the cursor moves one column right |
| ListViews.AdvanceFromLastColumn | src/ListView.cpp:83-91 | from the last column the cursor wraps to column 0 of the next row |
| ListViews.PartialRow | src/ListView.cpp:76-92 | k < column-count cells from column c end at column c + k of the same row |
| ListViews.FullRowWraps | src/ListView.cpp:76-92 | a full row of cells ends at column 0 of the next row |
| ListViews.ColumnWidth | src/ListView.cpp:106 | for a non-negative window width the share is non-negative, the columns together never exceed the width, and less than one pixel per column is left over. A negative width is split by truncation toward zero into a non-positive share |
| ListViews.ResizedWidths | src/ListView.cpp:94-111 | with columns and a window rectangle, each of columns 0 to n-1 gets the share; no other key changes; no other key is added |
| ListViews.ResizedWidthsIdempotent | src/ListView.cpp:94-111 | resizing again to the same window changes nothing |
| ListViews.StripNewline | src/ListView.cpp:121-124 | the flag holds iff the text ends in a newline, and text is the result plus that one newline |
| ListViews.StripNewlineRemovesOne | src/ListView.cpp:121-124 | only one trailing newline is removed |
| ListViews.ListView.constructor | src/ListView.cpp:11-17 | no columns, cursor at row 0, column 0 |
| ListViews.ListView.InsertColumn | src/ListView.cpp:53-74 | a negative index fails and changes nothing; otherwise the column count becomes index + 1 |
| ListViews.ListView.IncrementCurRowCol | src/ListView.cpp:76-92 | the cursor becomes `Advance` of the old one; with columns the column ends in range; nothing else changes |
| ListViews.ListView.ResizeColumns | src/ListView.cpp:94-111 | the widths become `ResizedWidths` of the old ones, and the cursor and column count are unchanged |
| ListViews.ListView.InsertCell | src/ListView.cpp:113-159 | at column 0 a negative row index fails; otherwise the cursor advances from the returned row, and row 0 resizes the columns. Elsewhere a failed SetItem changes nothing and a success advances the cursor. The newline flag comes from `StripNewline` |
| ListViews.ListView.Resize | src/ListView.cpp:161-166 | the columns are re-split over the new window rectangle; nothing else changes |

## Left out

- Window-class registration, the message loop, `CreateWindowExW` and process startup are OS plumbing. Painting, theming, DWM calls and session notifications are too.
- `GetSystemMetrics`, `IsWindows10OrGreater`, the DPI queries, `AdjustWindowRectEx` and `GetWindowRect` become parameters. `GetFrameInfo`, `WindowToClient` and `ScreenToWindow` are thin wrappers over them and are not modelled.
- `Printf` is varargs formatting through the C runtime, and its tab split feeds the list view. Creating the list view is OS plumbing.
- The list-view constructor's control creation and `operator bool`/`HWND` are not modelled. The control's column widths are the `columnWidths` map.
- `ptr()`, `operator&`, `operator PMARGINS`, `GetMargins` and `GetValues` are raw-pointer accessors. The model uses explicit values (`Scaling.ToRect`).
- `ScalarExToIn` and `ScalarInToEx` index a 1-D value that has no `operator[]`, so they do not compile.
- Scaling.ScaledValue.SetNoRescale: the N-component version assigns `false3`, a typo, and is read as `false`. The value is returned as a new value rather than updated in place.
- `shared_ptr` reference counting and object lifetime are not modelled. Sharing is Dafny references.
- Logging (`odbs`) is not modelled.
- The `int` to `UINT` conversions into `Invalidate` and the unsigned-to-signed stores are not modelled separately.
- Legacy `OnDpiChanged` and the rest of the legacy window shell are not modelled. Legacy `OnDpiChanged` invalidates the scaler without recomputing the margins.
- Shell.GlassWindow.OnDpiChanged: the new DPIs are required to be below 65536. The source receives them as `UINT` and passes them to `Invalidate(int, int)` without a check.
- Shell.GlassWindow.GetClientRectInset: returns the inset rectangle rather than editing the caller's `RECT` in place.
- Shell.GlassWindow.OnCreate: the `GWLP_USERDATA` registration and `RefreshFrame` are not modelled.
- Legacy.NcWndProc: DWM's default handling and the hit-test code are inputs. `OnActivate` and `OnSize` only call DWM and `RefreshFrame`.
- `Init`'s debug red brush is not modelled.

## Findings

| source | as written | input that shows it | evidently intended | confidence | as-written member | corrected member |
|---|---|---|---|---|---|---|
| src/DpiScaler.h:164-177 | `ScaleTo` on a rectangle subtracts 1 from right and bottom, scales, and adds 1, so an exclusive edge at r goes to 2r - 1 when the scale doubles | (0, 0, 100, 100) from 100 % to 200 % gives (0, 0, 199, 199): width 199 | the width scales with the content: (0, 0, 200, 200), width 200 | medium, not executed | Scaling.ScaleToRectDoublingLosesAPixel | Scaling.ScaleRectEdgesDoublesSize |
