/**
 `OverlayWindow`: one borderless, click-through window per screen, covering
 the screen's frame and holding a `CornerView`. The window's AppKit flags
 (level, collection behaviour, mouse and key handling) carry no logic and
 are not modelled; its frame, corner size, view, and whether it is on
 screen or closed are.
 */
module Overlay {
  import opened Geometry
  import opened CornerMask

  /**
   What the model needs of an `NSScreen`: its frame, its visible frame and
   the top safe-area inset (0 where the system reports none). Both frames
   are in AppKit's screen coordinates, where y grows upward and `MaxY` is
   the top edge.
   */
  datatype Screen = Screen(frame: Rect, visibleFrame: Rect, safeAreaTop: real)

  /** The height used when a screen reports neither a menu bar nor an inset. */
  const FallbackMenuBarHeight: real := 24.0

  /**
   The band between the top of the visible frame and the top of the screen:
   the difference of the heights less whatever the visible frame leaves
   uncovered at the bottom (a Dock there does not count).
   */
  function RawMenuBarHeight(s: Screen): (raw: real)
    ensures raw == (s.frame.height - s.visibleFrame.height) - (s.visibleFrame.y - s.frame.y)
  {
    s.frame.MaxY() - s.visibleFrame.MaxY()
  }

  function Max(a: real, b: real): (m: real)
    ensures m >= a && m >= b && (m == a || m == b)
  {
    if a >= b then a else b
  }

  /**
   `menuBarHeight(for:)`: the safe-area inset wins when the screen has one
   and it is larger; otherwise the raw band if positive; otherwise 24.
   */
  function MenuBarHeight(s: Screen): (m: real)
    ensures m > 0.0
    ensures m >= RawMenuBarHeight(s) && m >= s.safeAreaTop
    ensures m == RawMenuBarHeight(s) || m == s.safeAreaTop || m == FallbackMenuBarHeight
  {
    var raw := RawMenuBarHeight(s);
    if s.safeAreaTop > 0.0 then Max(raw, s.safeAreaTop)
    else if raw > 0.0 then raw
    else FallbackMenuBarHeight
  }

  /** The three branches of `menuBarHeight(for:)`; their conditions cover every screen. */
  lemma MenuBarHeightCases(s: Screen)
    ensures s.safeAreaTop > 0.0 ==> MenuBarHeight(s) == Max(RawMenuBarHeight(s), s.safeAreaTop)
    ensures s.safeAreaTop <= 0.0 && RawMenuBarHeight(s) > 0.0 ==> MenuBarHeight(s) == RawMenuBarHeight(s)
    ensures s.safeAreaTop <= 0.0 && RawMenuBarHeight(s) <= 0.0 ==> MenuBarHeight(s) == FallbackMenuBarHeight
  {
  }

  /** Put differently: the larger of the raw band and the inset when that is positive, else the fallback. */
  lemma MenuBarHeightIsPositiveMax(s: Screen)
    ensures var top := Max(RawMenuBarHeight(s), s.safeAreaTop);
            MenuBarHeight(s) == if top > 0.0 then top else FallbackMenuBarHeight
  {
  }

  /**
   The band is measured at the top edge, so a Dock at the bottom does not
   count: a 1080-high screen whose visible frame starts 70 up and is 985
   high has a 25-point menu bar, although the heights differ by 95. A
   38-point notch inset wins over that band; a screen with no band and no
   inset gets 24.
   */
  lemma MenuBarHeightExamples()
    ensures MenuBarHeight(Screen(Rect(0.0, 0.0, 1920.0, 1080.0), Rect(0.0, 70.0, 1920.0, 985.0), 0.0)) == 25.0
    ensures MenuBarHeight(Screen(Rect(0.0, 0.0, 1920.0, 1080.0), Rect(0.0, 70.0, 1920.0, 985.0), 38.0)) == 38.0
    ensures MenuBarHeight(Screen(Rect(0.0, 0.0, 1920.0, 1080.0), Rect(0.0, 0.0, 1920.0, 1080.0), 0.0)) == 24.0
  {
  }

  /** An overlay window; its `frame` is in screen coordinates, like the screen's. */
  datatype Window = Window(frame: Rect, cornerSize: real, view: CornerView, onScreen: bool, closed: bool)

  /** The window's own `cornerSize` and its view's agree, which `didSet` maintains. */
  predicate Synced(w: Window) {
    w.view.cornerSize == w.cornerSize
  }

  /**
   `init(screen:)`: a window over the screen's whole frame whose view carries
   that screen's menu-bar height; not yet ordered front.
   */
  function NewWindow(screen: Screen): (w: Window)
    ensures w.frame == screen.frame
    ensures w.view.menuBarHeight == MenuBarHeight(screen)
    ensures Synced(w) && !w.onScreen && !w.closed
  {
    Window(screen.frame, 26.0, NewView.(menuBarHeight := MenuBarHeight(screen)), false, false)
  }

  /**
   Setting `cornerSize`: the `didSet` copies the value into the view and
   marks the view dirty. Nothing else about the window changes.
   */
  function SetCornerSize(w: Window, size: real): (w': Window)
    ensures w'.cornerSize == size && Synced(w')
    ensures w'.view.needsDisplay
    ensures w'.(cornerSize := w.cornerSize, view := w'.view.(cornerSize := w.view.cornerSize, needsDisplay := w.view.needsDisplay)) == w
  {
    w.(cornerSize := size, view := w.view.(cornerSize := size, needsDisplay := true))
  }

  /** `orderFrontRegardless()`: the window is shown; nothing else changes. */
  function OrderFront(w: Window): (w': Window)
    ensures w'.onScreen && w'.(onScreen := w.onScreen) == w
  {
    w.(onScreen := true)
  }

  /** `close()`: the window leaves the screen and is closed; nothing else changes. */
  function Close(w: Window): (w': Window)
    ensures w'.closed && !w'.onScreen
    ensures w'.(closed := w.closed, onScreen := w.onScreen) == w
  {
    w.(closed := true, onScreen := false)
  }

  /** What the window paints: its view drawn at the size of the window's frame. */
  function Shapes(w: Window): seq<Shape> {
    Draw(w.view, w.frame.width, w.frame.height)
  }

  /** A new window's strip spans the screen's width at the screen's menu-bar height. */
  lemma NewWindowStrip(screen: Screen)
    ensures Shapes(NewWindow(screen))[0] == FillRect(Rect(0.0, 0.0, screen.frame.width, MenuBarHeight(screen)))
  {
  }
}
