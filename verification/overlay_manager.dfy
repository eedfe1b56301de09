/**
 `OverlayManager`: owns the overlay windows. `refresh` closes and drops
 every window it holds, reads the corner style, and, unless the style is
 `off`, builds one window per screen with that style's radius and orders
 it front. `start` installs the two observers and refreshes once.

 The screen list and the stored preference are parameters; notification
 delivery is left out. Closed windows are kept in `retired` so that the
 model can state what `refresh` did to the windows it dropped.
 */
module Manager {
  import opened Geometry
  import opened CornerStyles
  import opened CornerMask
  import opened Overlay

  datatype OverlayManager = OverlayManager(windows: seq<Window>, retired: seq<Window>, observers: nat)

  /** The shared manager before `start`. */
  const Initial: OverlayManager := OverlayManager([], [], 0)

  /** `windows.forEach { $0.close() }`. */
  function CloseAll(ws: seq<Window>): (r: seq<Window>)
    ensures |r| == |ws|
    ensures forall i :: 0 <= i < |ws| ==> r[i] == Close(ws[i])
  {
    if ws == [] then [] else [Close(ws[0])] + CloseAll(ws[1..])
  }

  /** The body of the loop over `NSScreen.screens`, for one screen. */
  function BuildWindow(screen: Screen, style: WindowCornerStyle): (w: Window)
    ensures w.frame == screen.frame
    ensures w.cornerSize == CornerRadius(style) && Synced(w)
    ensures w.view.menuBarHeight == MenuBarHeight(screen)
    ensures w.onScreen && !w.closed
  {
    OrderFront(SetCornerSize(NewWindow(screen), CornerRadius(style)))
  }

  /** Window `i` was built from screen `i` with radius `radius`, and is showing. */
  ghost predicate BuiltFrom(w: Window, screen: Screen, radius: real) {
    && w.frame == screen.frame
    && w.cornerSize == radius && w.view.cornerSize == radius
    && w.view.menuBarHeight == MenuBarHeight(screen)
    && w.onScreen && !w.closed
  }

  /** The loop `for screen in NSScreen.screens`, appending one window per screen. */
  function BuildAll(screens: seq<Screen>, style: WindowCornerStyle): (ws: seq<Window>)
    ensures |ws| == |screens|
    ensures forall i :: 0 <= i < |screens| ==> BuiltFrom(ws[i], screens[i], CornerRadius(style))
  {
    if screens == [] then [] else [BuildWindow(screens[0], style)] + BuildAll(screens[1..], style)
  }

  /**
   `refresh()`: every held window is closed and retired, then zero windows
   when the stored style is `off`, else one per screen.
   */
  function Refresh(m: OverlayManager, prefs: Preferences, screens: seq<Screen>): (m': OverlayManager)
    ensures m'.retired == m.retired + CloseAll(m.windows)
    ensures m'.observers == m.observers
    ensures !IsEnabled(CornerStyle(prefs)) ==> m'.windows == []
    ensures IsEnabled(CornerStyle(prefs)) ==>
              && |m'.windows| == |screens|
              && forall i :: 0 <= i < |screens| ==> BuiltFrom(m'.windows[i], screens[i], CornerRadius(CornerStyle(prefs)))
  {
    var closed := m.(windows := [], retired := m.retired + CloseAll(m.windows));
    var style := CornerStyle(prefs);
    if !IsEnabled(style) then closed
    else closed.(windows := BuildAll(screens, style))
  }

  /**
   The invariant `refresh` establishes: the windows are exactly one showing
   window per screen when the style is enabled, and none when it is off.
   */
  ghost predicate InSync(m: OverlayManager, prefs: Preferences, screens: seq<Screen>) {
    var style := CornerStyle(prefs);
    if !IsEnabled(style) then m.windows == []
    else
      && |m.windows| == |screens|
      && forall i :: 0 <= i < |screens| ==> BuiltFrom(m.windows[i], screens[i], CornerRadius(style))
  }

  lemma RefreshSyncs(m: OverlayManager, prefs: Preferences, screens: seq<Screen>)
    ensures InSync(Refresh(m, prefs, screens), prefs, screens)
  {
  }

  /** Everything retired by a refresh is closed and off screen. */
  lemma RefreshRetiresClosedWindows(m: OverlayManager, prefs: Preferences, screens: seq<Screen>)
    requires forall w :: w in m.retired ==> w.closed && !w.onScreen
    ensures forall w :: w in Refresh(m, prefs, screens).retired ==> w.closed && !w.onScreen
  {
    var m' := Refresh(m, prefs, screens);
    forall w | w in m'.retired ensures w.closed && !w.onScreen {
      var i :| 0 <= i < |m'.retired| && m'.retired[i] == w;
      if i >= |m.retired| {
        assert w == CloseAll(m.windows)[i - |m.retired|];
      } else {
        assert w == m.retired[i];
      }
    }
  }

  /** The windows after a refresh depend only on the style and the screens, not on what was held before. */
  lemma RefreshForgetsPriorWindows(m1: OverlayManager, m2: OverlayManager, prefs: Preferences, screens: seq<Screen>)
    ensures Refresh(m1, prefs, screens).windows == Refresh(m2, prefs, screens).windows
  {
  }

  /** Two refreshes with unchanged inputs leave the same windows as one. */
  lemma RefreshIdempotent(m: OverlayManager, prefs: Preferences, screens: seq<Screen>)
    ensures Refresh(Refresh(m, prefs, screens), prefs, screens).windows == Refresh(m, prefs, screens).windows
  {
    RefreshForgetsPriorWindows(Refresh(m, prefs, screens), m, prefs, screens);
  }

  /** After one of two screens is disconnected, a refresh leaves one window, on the remaining screen. */
  lemma DisconnectLeavesOneWindow(m: OverlayManager, prefs: Preferences, a: Screen, b: Screen)
    requires IsEnabled(CornerStyle(prefs))
    ensures var before := Refresh(m, prefs, [a, b]);
            var after := Refresh(before, prefs, [b]);
            && |before.windows| == 2
            && |after.windows| == 1 && after.windows[0].frame == b.frame && after.windows[0].onScreen
            && after.retired[|after.retired| - 2..] == [Close(before.windows[0]), Close(before.windows[1])]
  {
  }

  /** `installObservers()`: two observers are registered. */
  function InstallObservers(m: OverlayManager): (m': OverlayManager)
    ensures m'.observers == m.observers + 2
    ensures m'.(observers := m.observers) == m
  {
    m.(observers := m.observers + 2)
  }

  /** `start()`: observers first, then exactly one refresh. */
  function Start(m: OverlayManager, prefs: Preferences, screens: seq<Screen>): (m': OverlayManager)
    ensures m'.observers == m.observers + 2
    ensures InSync(m', prefs, screens)
    ensures m'.retired == m.retired + CloseAll(m.windows)
  {
    Refresh(InstallObservers(m), prefs, screens)
  }

  /** Starting the fresh manager retires nothing and leaves it in sync with the screens. */
  lemma StartFromInitial(prefs: Preferences, screens: seq<Screen>)
    ensures Start(Initial, prefs, screens).retired == []
    ensures Start(Initial, prefs, screens).observers == 2
    ensures Start(Initial, prefs, screens).windows == Refresh(Initial, prefs, screens).windows
  {
  }

  /**
   With the `none` style every window is still built, with radius 0, so it
   paints its menu-bar strip and four empty corner paths.
   */
  lemma SquareStylePaintsOnlyStrips(m: OverlayManager, prefs: Preferences, screens: seq<Screen>, i: nat)
    requires CornerStyle(prefs) == Square
    requires i < |screens|
    ensures var w := Refresh(m, prefs, screens).windows[i];
            var shapes := Shapes(w);
            && shapes[0] == FillRect(Rect(0.0, 0.0, screens[i].frame.width, MenuBarHeight(screens[i])))
            && forall k :: 1 <= k < 5 ==> shapes[k] == FillPath([])
  {
  }
}
