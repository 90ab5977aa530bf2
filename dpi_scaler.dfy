/** DpiScaler: the scale factor of a monitor or of the whole system, as two
    integer percentages of the 96-DPI baseline. A scaler is shared by
    reference between a window, its margins and every value measured in it,
    and a DPI change updates it in place, so it is a class here: every holder
    of the reference sees the new percentages. */
module Dpi {
  import opened CppInt
  import opened Win32

  const NOMINAL_DPI: int := 96
  /** The percentages of the process-wide nominal scaler. */
  const NOMINAL_PERCENT: int := 100

  /** The percentage `dpi * 100 / 96`, truncated as C++ `int` division is. */
  function PercentOf(dpi: int): (p: int)
    ensures dpi >= 0 ==> p >= 0 && 96 * p <= 100 * dpi < 96 * p + 96
    ensures dpi < 0 ==> p <= 0 && 96 * p - 96 < 100 * dpi <= 96 * p
  {
    Div(dpi * 100, NOMINAL_DPI)
  }

  /** The nominal DPI is exactly 100 percent. */
  lemma NominalDpiIsNominalPercent()
    ensures PercentOf(NOMINAL_DPI) == NOMINAL_PERCENT
  {
  }

  /** A DPI pair whose percentages can be computed in C++ `int` arithmetic. */
  predicate DpiFits(d: DpiPair) {
    InInt32(d.x * 100) && InInt32(d.y * 100)
  }

  class DpiScaler {
    var xPercent: int
    var yPercent: int

    /** `DpiScaler(int, int)`: stores both percentages as given. */
    constructor (x: int, y: int)
      ensures xPercent == x && yPercent == y
    {
      xPercent, yPercent := x, y;
    }

    /** `DpiScaler()`: starts unset (0, 0) and takes the system-wide DPI when
        a screen device context is available. */
    constructor FromSystem(systemDpi: Option<DpiPair>)
      requires systemDpi.Some? ==> DpiFits(systemDpi.value)
      ensures systemDpi.Some? ==>
                xPercent == PercentOf(systemDpi.value.x) && yPercent == PercentOf(systemDpi.value.y)
      ensures systemDpi.None? ==> xPercent == 0 && yPercent == 0 && IsUnset()
    {
      xPercent, yPercent := 0, 0;
      new;
      InitFromSystem(systemDpi);
    }

    /** `DpiScaler(HWND)`: starts unset (0, 0), asks the per-monitor query
        first and falls back to the system-wide DPI only when that fails. */
    constructor FromMonitor(monitorDpi: Option<DpiPair>, systemDpi: Option<DpiPair>)
      requires monitorDpi.Some? ==> DpiFits(monitorDpi.value)
      requires monitorDpi.None? && systemDpi.Some? ==> DpiFits(systemDpi.value)
      ensures monitorDpi.Some? ==>
                xPercent == PercentOf(monitorDpi.value.x) && yPercent == PercentOf(monitorDpi.value.y)
      ensures monitorDpi.None? && systemDpi.Some? ==>
                xPercent == PercentOf(systemDpi.value.x) && yPercent == PercentOf(systemDpi.value.y)
      ensures monitorDpi.None? && systemDpi.None? ==> xPercent == 0 && yPercent == 0 && IsUnset()
    {
      xPercent, yPercent := 0, 0;
      new;
      InitFromMonitor(monitorDpi, systemDpi);
    }

    /** `Init(HMONITOR)`: a successful per-monitor query wins and the
        system-wide path is skipped. */
    method InitFromMonitor(monitorDpi: Option<DpiPair>, systemDpi: Option<DpiPair>)
      requires monitorDpi.Some? ==> DpiFits(monitorDpi.value)
      requires monitorDpi.None? && systemDpi.Some? ==> DpiFits(systemDpi.value)
      modifies this
      ensures monitorDpi.Some? ==>
                xPercent == PercentOf(monitorDpi.value.x) && yPercent == PercentOf(monitorDpi.value.y)
      ensures monitorDpi.None? && systemDpi.Some? ==>
                xPercent == PercentOf(systemDpi.value.x) && yPercent == PercentOf(systemDpi.value.y)
      ensures monitorDpi.None? && systemDpi.None? ==>
                xPercent == old(xPercent) && yPercent == old(yPercent)
    {
      if monitorDpi.Some? {
        Invalidate(monitorDpi.value.x, monitorDpi.value.y);
        return;
      }
      InitFromSystem(systemDpi);
    }

    /** `Init()`: without a device context the percentages stay as they were. */
    method InitFromSystem(systemDpi: Option<DpiPair>)
      requires systemDpi.Some? ==> DpiFits(systemDpi.value)
      modifies this
      ensures systemDpi.Some? ==>
                xPercent == PercentOf(systemDpi.value.x) && yPercent == PercentOf(systemDpi.value.y)
      ensures systemDpi.None? ==> xPercent == old(xPercent) && yPercent == old(yPercent)
    {
      if systemDpi.None? {
        return;
      }
      Invalidate(systemDpi.value.x, systemDpi.value.y);
    }

    /** `ScaleX`: the low-precision path, `raw * x% / 100` truncated toward zero. */
    function ScaleX(raw: int): (r: int)
      reads this
      requires InInt32(raw * xPercent)
      ensures raw * xPercent >= 0 ==> 0 <= raw * xPercent - 100 * r < 100
      ensures raw * xPercent < 0 ==> -100 < raw * xPercent - 100 * r <= 0
    {
      Div(raw * xPercent, 100)
    }

    /** `ScaleY`: `raw * y% / 100` truncated toward zero. */
    function ScaleY(raw: int): (r: int)
      reads this
      requires InInt32(raw * yPercent)
      ensures raw * yPercent >= 0 ==> 0 <= raw * yPercent - 100 * r < 100
      ensures raw * yPercent < 0 ==> -100 < raw * yPercent - 100 * r <= 0
    {
      Div(raw * yPercent, 100)
    }

    /** `operator!`: the scaler could not determine a DPI on some axis, so
        one of its percentages, and with it their product, is zero. */
    predicate IsUnset()
      reads this
      ensures IsUnset() <==> xPercent * yPercent == 0
    {
      xPercent == 0 || yPercent == 0
    }

    /** `operator==`: the same percentages, whether or not the same object;
        a scaler always has the same scale as itself. */
    predicate SameScale(other: DpiScaler)
      reads this, other
      ensures this == other ==> SameScale(other)
    {
      xPercent == other.xPercent && yPercent == other.yPercent
    }

    /** `Invalidate(dpiX, dpiY)`: recompute both percentages in place. */
    method Invalidate(newXDpi: int, newYDpi: int)
      requires InInt32(newXDpi * 100) && InInt32(newYDpi * 100)
      modifies this
      ensures xPercent == PercentOf(newXDpi) && yPercent == PercentOf(newYDpi)
    {
      xPercent := Div(newXDpi * 100, NOMINAL_DPI);
      yPercent := Div(newYDpi * 100, NOMINAL_DPI);
    }

    /** `Disable()`: `Invalidate(96, 96)`, which forces 100 percent whatever
        the scaler held before (so calling it twice changes nothing more). */
    method Disable()
      modifies this
      ensures xPercent == NOMINAL_PERCENT && yPercent == NOMINAL_PERCENT
      ensures !IsUnset()
    {
      Invalidate(NOMINAL_DPI, NOMINAL_DPI);
    }
  }

  /** `sNominal`: the shared 100 %/100 % scaler; nothing in the model writes it. */
  method NewNominal() returns (s: DpiScaler)
    ensures fresh(s)
    ensures s.xPercent == NOMINAL_PERCENT && s.yPercent == NOMINAL_PERCENT && !s.IsUnset()
  {
    s := new DpiScaler(NOMINAL_PERCENT, NOMINAL_PERCENT);
  }

  /** `==` compares percentages only, so it is an equivalence on scalers. */
  lemma SameScaleIsEquivalence(a: DpiScaler, b: DpiScaler, c: DpiScaler)
    ensures a.SameScale(a)
    ensures a.SameScale(b) ==> b.SameScale(a)
    ensures a.SameScale(b) && b.SameScale(c) ==> a.SameScale(c)
  {
  }

  /** Truncation makes scaling symmetric about zero: a negative measurement
      scales to exactly the negation of its positive counterpart. */
  lemma ScaleXIsOdd(s: DpiScaler, raw: int)
    requires InInt32(raw * s.xPercent) && InInt32(-raw * s.xPercent)
    ensures s.ScaleX(-raw) == -s.ScaleX(raw)
  {
    assert -raw * s.xPercent == -(raw * s.xPercent);
    DivNegate(raw * s.xPercent, 100);
  }

  /** At 100 percent (after `Disable`) the truncating path is the identity. */
  lemma ScaleAtNominalIsIdentity(s: DpiScaler, raw: int)
    requires s.xPercent == NOMINAL_PERCENT && s.yPercent == NOMINAL_PERCENT
    requires InInt32(raw * 100)
    ensures s.ScaleX(raw) == raw && s.ScaleY(raw) == raw
  {
    DivUnique(raw * 100, 100, raw);
  }
}
