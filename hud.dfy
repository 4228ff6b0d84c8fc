/**
 * The heads-up overlay (src/components/HUDOverlay.jsx): its telemetry log, the
 * scroll progress shown as a percentage, and the two width breakpoints of its
 * layout. The random message choice, the random suffix of the first message, the
 * scroll offsets and the window width are parameters.
 */
module Hud {
  import LogTail

  // ---------------------------------------------------------------------------
  // The log

  const InitialLog: seq<string> := ["BOOT_SEQUENCE_INIT...", "ENCRYPTING_COMM_CHANNELS...", "NEURAL_LINK_ESTABLISHED"]
  /** The first message carries a random suffix; the other five are fixed. */
  const SlicePrefix: string := "FETCHING_DATA_SLICE_"
  const FixedMessages: seq<string> := [
    "PANDA_PROTOCOL_ACTIVE", "SYNCING_VOID_SERVER", "UPDATING_INTEL_INDEX", "CLEANING_CACHE...", "STABILIZING_QUBITS"]
  /** How many old entries a tick keeps. */
  const LogKeep: nat := 4

  /** Message number pick (floor(random * 6)) of the list built for one tick. */
  function Message(pick: nat, suffix: string): (m: string)
    requires pick < 6
    ensures pick == 0 ==> |m| >= |SlicePrefix| && m[..|SlicePrefix|] == SlicePrefix && m[|SlicePrefix|..] == suffix
    ensures pick > 0 ==> m in FixedMessages
  {
    if pick == 0 then SlicePrefix + suffix else FixedMessages[pick - 1]
  }

  /** One tick of the log stream. */
  function LogTick(prev: seq<string>, pick: nat, suffix: string): (r: seq<string>)
    requires pick < 6
    ensures 0 < |r| <= LogKeep + 1 && r[|r| - 1] == Message(pick, suffix)
    ensures |prev| <= LogKeep ==> r[..|r| - 1] == prev
    ensures |prev| > LogKeep ==> r[..|r| - 1] == prev[|prev| - LogKeep..]
  {
    LogTail.Append(prev, LogKeep, Message(pick, suffix))
  }

  /**
   * The log starts with three entries; after any messages it is the last five entries
   * of the initial log followed by the messages, so it holds min(3 + n, 5) entries.
   */
  lemma LogWindow(ms: seq<string>)
    ensures |InitialLog| == 3
    ensures LogTail.AppendAll(InitialLog, LogKeep, ms) == LogTail.Last(InitialLog + ms, LogKeep + 1)
    ensures |LogTail.AppendAll(InitialLog, LogKeep, ms)| == if 3 + |ms| < 5 then 3 + |ms| else 5
  {
    LogTail.AppendAllWindow(InitialLog, LogKeep, ms);
    LogTail.LogLength(InitialLog, LogKeep, ms);
  }

  // ---------------------------------------------------------------------------
  // Scroll progress

  /** A number as JavaScript may produce it: finite, or not a number, or an infinity. */
  datatype Percent = Finite(value: int) | NaN | PlusInfinity | MinusInfinity

  /** Math.round on a finite value: the nearest integer, halves rounded up. */
  function Round(v: real): (r: int)
    ensures r as real - 0.5 <= v < r as real + 0.5
  {
    (v + 0.5).Floor
  }

  /**
   * The percentage handed to setScroll: the scrolled fraction times 100, rounded. With
   * no scrollable height the division is by zero: NaN at the top, an infinity off it.
   */
  function ScrollPercent(winScroll: real, height: real): (r: Percent)
    ensures r.Finite? <==> height != 0.0
    ensures height != 0.0 ==> r.value as real - 0.5 <= winScroll / height * 100.0 < r.value as real + 0.5
    ensures height == 0.0 ==> (r.NaN? <==> winScroll == 0.0) && (r.PlusInfinity? <==> winScroll > 0.0)
  {
    if height != 0.0 then Finite(Round(winScroll / height * 100.0))
    else if winScroll == 0.0 then NaN
    else if winScroll > 0.0 then PlusInfinity
    else MinusInfinity
  }

  /** On a page that scrolls, a scroll position within the page shows 0 to 100, 0 at the top and 100 at the bottom. */
  lemma ScrollRange(winScroll: real, height: real)
    requires height > 0.0 && 0.0 <= winScroll <= height
    ensures 0 <= ScrollPercent(winScroll, height).value <= 100
    ensures ScrollPercent(0.0, height) == Finite(0)
    ensures ScrollPercent(height, height) == Finite(100)
  {
    FractionAtMostOne(winScroll, height);
    assert height / height == 1.0;
  }

  lemma FractionAtMostOne(a: real, h: real)
    requires h > 0.0 && 0.0 <= a <= h
    ensures 0.0 <= a / h <= 1.0
  {
    assert (a / h) * h == a;
  }

  /** Scrolling further down never shows a smaller percentage. */
  lemma ScrollMonotone(a: real, b: real, height: real)
    requires height > 0.0 && a <= b
    ensures ScrollPercent(a, height).value <= ScrollPercent(b, height).value
  {
    assert a / height <= b / height by {
      assert (a / height) * height == a && (b / height) * height == b;
    }
  }

  // ---------------------------------------------------------------------------
  // Layout breakpoints

  /** The display of the navigation links at a window width. */
  function NavDisplay(innerWidth: int): (d: string)
    ensures d == "flex" <==> innerWidth >= 1024
    ensures d == "none" <==> innerWidth < 1024
  {
    if innerWidth < 1024 then "none" else "flex"
  }

  /** Whether the decorative border is rendered at a window width. */
  predicate ShowsBorder(innerWidth: int) { innerWidth > 768 }

  /** Wherever the navigation links show the border shows too; between 769 and 1023 only the border does. */
  lemma Breakpoints(innerWidth: int)
    ensures NavDisplay(innerWidth) == "flex" ==> ShowsBorder(innerWidth)
    ensures ShowsBorder(innerWidth) && NavDisplay(innerWidth) == "none" <==> 769 <= innerWidth <= 1023
  {
  }
}
