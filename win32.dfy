/** The Win32 value types the window code passes around, and the two RECT
    helpers both window headers define. */
module Win32 {
  import opened CppInt

  /** The result of an OS query that may fail. */
  datatype Option<T> = None | Some(value: T)

  /** A horizontal and a vertical DPI, as a monitor or device-caps query returns them. */
  datatype DpiPair = DpiPair(x: int, y: int)

  /** `RECT`: right and bottom are exclusive edges. */
  datatype WinRect = WinRect(left: int, top: int, right: int, bottom: int)
  {
    predicate Valid() {
      InInt32(left) && InInt32(top) && InInt32(right) && InInt32(bottom)
    }
  }

  /** `MARGINS`, the insets handed to the frame-extension call; -1 everywhere
      means "the whole window is glass". */
  datatype Margins = Margins(cxLeftWidth: int, cxRightWidth: int, cyTopHeight: int, cyBottomHeight: int)

  const NO_MARGINS: Margins := Margins(0, 0, 0, 0)
  const SHEET_OF_GLASS: Margins := Margins(-1, -1, -1, -1)

  /** `RectWidth(RECT)`: the `int` difference `right - left`, returned as a `UINT`,
      so a rectangle whose right edge lies left of its left edge wraps around. */
  function RectWidth(r: WinRect): (w: uint32)
    requires InInt32(r.right - r.left)
    ensures r.left <= r.right ==> w == r.right - r.left
    ensures r.right < r.left ==> w == UINT32_MODULUS + (r.right - r.left)
  {
    ToUint32(r.right - r.left)
  }

  /** `RectHeight(RECT)`: `bottom - top` as a `UINT`, with the same wrap-around. */
  function RectHeight(r: WinRect): (h: uint32)
    requires InInt32(r.bottom - r.top)
    ensures r.top <= r.bottom ==> h == r.bottom - r.top
    ensures r.bottom < r.top ==> h == UINT32_MODULUS + (r.bottom - r.top)
  {
    ToUint32(r.bottom - r.top)
  }
}
