/** The accessibility panel: five on/off settings and a font size that the
    two zoom buttons move in steps of two pixels between 12 and 24. */
module Accessibility {

  const DefaultFontSize: int := 16
  const MinFontSize: int := 12
  const MaxFontSize: int := 24
  const FontStep: int := 2

  /** `Math.min(fontSize + 2, 24)`. */
  function IncreasedSize(size: int): (r: int)
    ensures r <= MaxFontSize
    ensures r == size + FontStep || r == MaxFontSize
    ensures size <= MaxFontSize - FontStep ==> r == size + FontStep
  {
    if size + FontStep < MaxFontSize then size + FontStep else MaxFontSize
  }

  /** `Math.max(fontSize - 2, 12)`. */
  function DecreasedSize(size: int): (r: int)
    ensures r >= MinFontSize
    ensures r == size - FontStep || r == MinFontSize
    ensures size >= MinFontSize + FontStep ==> r == size - FontStep
  {
    if size - FontStep > MinFontSize then size - FontStep else MinFontSize
  }

  /** The sizes the panel can reach from the default: even, between the bounds. */
  predicate ReachableSize(size: int)
  {
    MinFontSize <= size <= MaxFontSize && size % 2 == 0
  }

  /** `disabled={fontSize <= 12}` on the zoom-out button. */
  predicate DecreaseDisabled(size: int)
  {
    size <= MinFontSize
  }

  /** `disabled={fontSize >= 24}` on the zoom-in button. */
  predicate IncreaseDisabled(size: int)
  {
    size >= MaxFontSize
  }

  /** On a reachable size, each zoom button is disabled exactly at its bound,
      which is exactly when clicking it would leave the size unchanged. */
  lemma DisabledExactlyAtBounds(size: int)
    requires ReachableSize(size)
    ensures DecreaseDisabled(size) <==> size == MinFontSize
    ensures DecreaseDisabled(size) <==> DecreasedSize(size) == size
    ensures IncreaseDisabled(size) <==> size == MaxFontSize
    ensures IncreaseDisabled(size) <==> IncreasedSize(size) == size
  {
  }

  /** On a reachable size away from the bounds, one step down undoes one
      step up and the other way round (an odd size next to a bound would not
      come back). */
  lemma StepsUndoEachOther(size: int)
    requires ReachableSize(size)
    ensures size < MaxFontSize ==> DecreasedSize(IncreasedSize(size)) == size
    ensures size > MinFontSize ==> IncreasedSize(DecreasedSize(size)) == size
  {
  }

  /** A click on one of the two zoom buttons. */
  datatype Zoom = ZoomIn | ZoomOut

  /** The size after a sequence of zoom clicks. */
  function ApplyZooms(size: int, clicks: seq<Zoom>): int
    decreases |clicks|
  {
    if clicks == [] then size
    else
      var next := if clicks[0] == ZoomIn then IncreasedSize(size) else DecreasedSize(size);
      ApplyZooms(next, clicks[1..])
  }

  /** Every single click keeps a reachable size reachable. */
  lemma ZoomKeepsReachable(size: int, z: Zoom)
    requires ReachableSize(size)
    ensures ReachableSize(if z == ZoomIn then IncreasedSize(size) else DecreasedSize(size))
  {
  }

  /** Starting from a reachable size (the default 16 among them), any sequence
      of clicks keeps the size even and between 12 and 24. */
  lemma {:induction false} ZoomsStayReachable(size: int, clicks: seq<Zoom>)
    requires ReachableSize(size)
    ensures ReachableSize(ApplyZooms(size, clicks))
    decreases |clicks|
  {
    if clicks != [] {
      ZoomKeepsReachable(size, clicks[0]);
      var next := if clicks[0] == ZoomIn then IncreasedSize(size) else DecreasedSize(size);
      ZoomsStayReachable(next, clicks[1..]);
    }
  }

  /** The panel's state: the five flags and the font size. The effects on
      the document element are not part of this model. */
  class AccessibilityPanel {
    var highContrast: bool
    var largeText: bool
    var darkMode: bool
    var screenReader: bool
    var fontSize: int
    var reduceMotion: bool

    /** The font size stays reachable from the default. */
    predicate Valid()
      reads this
    {
      ReachableSize(fontSize)
    }

    /** Every flag off and the default size. */
    predicate IsDefault()
      reads this
    {
      !highContrast && !largeText && !darkMode && !screenReader && !reduceMotion
      && fontSize == DefaultFontSize
    }

    constructor()
      ensures IsDefault() && Valid()
    {
      highContrast := false;
      largeText := false;
      darkMode := false;
      screenReader := false;
      fontSize := DefaultFontSize;
      reduceMotion := false;
    }

    /** `toggleHighContrast`: flips this flag only. */
    method ToggleHighContrast()
      modifies this
      ensures highContrast == !old(highContrast)
      ensures largeText == old(largeText) && darkMode == old(darkMode) && screenReader == old(screenReader)
      ensures reduceMotion == old(reduceMotion) && fontSize == old(fontSize)
    {
      highContrast := !highContrast;
    }

    /** `toggleLargeText`: flips this flag only. */
    method ToggleLargeText()
      modifies this
      ensures largeText == !old(largeText)
      ensures highContrast == old(highContrast) && darkMode == old(darkMode) && screenReader == old(screenReader)
      ensures reduceMotion == old(reduceMotion) && fontSize == old(fontSize)
    {
      largeText := !largeText;
    }

    /** `toggleDarkMode`: flips this flag only. */
    method ToggleDarkMode()
      modifies this
      ensures darkMode == !old(darkMode)
      ensures highContrast == old(highContrast) && largeText == old(largeText) && screenReader == old(screenReader)
      ensures reduceMotion == old(reduceMotion) && fontSize == old(fontSize)
    {
      darkMode := !darkMode;
    }

    /** `toggleScreenReader`: flips this flag only. */
    method ToggleScreenReader()
      modifies this
      ensures screenReader == !old(screenReader)
      ensures highContrast == old(highContrast) && largeText == old(largeText) && darkMode == old(darkMode)
      ensures reduceMotion == old(reduceMotion) && fontSize == old(fontSize)
    {
      screenReader := !screenReader;
    }

    /** `toggleReduceMotion`: flips this flag only. */
    method ToggleReduceMotion()
      modifies this
      ensures reduceMotion == !old(reduceMotion)
      ensures highContrast == old(highContrast) && largeText == old(largeText) && darkMode == old(darkMode)
      ensures screenReader == old(screenReader) && fontSize == old(fontSize)
    {
      reduceMotion := !reduceMotion;
    }

    /** `increaseFontSize`: one step up, capped at 24; the flags stay. */
    method IncreaseFontSize()
      requires Valid()
      modifies this
      ensures Valid()
      ensures fontSize == IncreasedSize(old(fontSize))
      ensures highContrast == old(highContrast) && largeText == old(largeText) && darkMode == old(darkMode)
      ensures screenReader == old(screenReader) && reduceMotion == old(reduceMotion)
    {
      var newSize := IncreasedSize(fontSize);
      ZoomKeepsReachable(fontSize, ZoomIn);
      fontSize := newSize;
    }

    /** `decreaseFontSize`: one step down, floored at 12; the flags stay. */
    method DecreaseFontSize()
      requires Valid()
      modifies this
      ensures Valid()
      ensures fontSize == DecreasedSize(old(fontSize))
      ensures highContrast == old(highContrast) && largeText == old(largeText) && darkMode == old(darkMode)
      ensures screenReader == old(screenReader) && reduceMotion == old(reduceMotion)
    {
      var newSize := DecreasedSize(fontSize);
      ZoomKeepsReachable(fontSize, ZoomOut);
      fontSize := newSize;
    }

    /** `resetSettings`: every flag off and the size back to 16. */
    method ResetSettings()
      modifies this
      ensures IsDefault() && Valid()
    {
      highContrast := false;
      largeText := false;
      darkMode := false;
      screenReader := false;
      fontSize := DefaultFontSize;
      reduceMotion := false;
    }
  }
}
