# Tekitou overlay core, modelled in Dafny

Tekitou draws a click-through overlay on each display. The overlay paints a
black menu-bar strip and four black corner masks, so that the display's
square corners look like the continuously curved corners of macOS window
chrome. This project models the logic behind that overlay:

- **Corner geometry** (`CornerShape`, on top of `Geometry`). `cornerPath`
  turns a corner, an anchor and a radius into a closed path: move, line,
  cubic, line, cubic, cubic, close. Each coordinate is the anchor plus a
  calibration ratio times the radius. The path is a list of `MoveTo`,
  `LineTo`, `CurveTo` and `ClosePath` segments over `real`. The model also
  has an independent reference construction (`PlacedProfile`): the top-left
  outline at radius 1 is scaled, reoriented by a fixed axis map per corner,
  and shifted to the anchor. A lemma proves that the four hand-written cases
  of the source are exactly this construction.
- **The corner view's drawing** (`CornerMask`). `draw` emits the full-width
  strip and then four anchored corner paths, as a list of shapes.
- **The overlay window** (`Overlay`). It covers the menu-bar height rule, the
  window's frame and view set up by `init(screen:)`, and the `cornerSize`
  `didSet` propagation.
- **Corner styles and the stored preference** (`CornerStyles`). This is the
  `WindowCornerStyle` table and the `cornerStyle` getter and setter over the
  stored raw integer.
- **The overlay manager** (`Manager`). `refresh` closes every window, then
  rebuilds none or one per screen. `start` installs observers, then refreshes
  once.

Corner paths and drawn shapes (`CornerPath`, `Draw`, `Shapes`) are in the
flipped `CornerView`'s local coordinates: y grows downward from the top of
the view. Screen and window frames are in AppKit's screen coordinates,
where y grows upward and `MaxY` is the top edge; that is why
`frame.maxY - visibleFrame.maxY` is the band at the top. `CGFloat` is
`real`. The source's `none` style is modelled as `Square`, after its
display name "Square Corners"; the rows below say `none` where they quote
the source. The screen list and the stored preference
are parameters of `refresh`. Closing, ordering front and marking a view
dirty are modelled as flags on immutable records.

Three facts about the code that the model keeps:
- The raw menu-bar height is `frame.maxY - visibleFrame.maxY`, so a Dock at
  the bottom of the screen does not count (`Overlay.MenuBarHeightExamples`).
- Only `cornerSize` has a `didSet` that marks the view dirty.
  `menuBarHeight` is set once, before the view is installed.
- The left corners of `cornerPath` write a literal 0 for x, so they ignore
  their `x` argument. `draw` passes 0 for them, so this changes nothing in
  what is drawn (`CornerShape.LeftCornersIgnoreX`).

A fact about the calibration table: the middle cubic is its own mirror
image across the corner's diagonal. The third cubic mirrors the first
cubic's control points. But the first cubic ends at a point of its own,
and a short line then joins it to the mirror of the middle cubic's end.
So the outline as a whole is not mirror-symmetric across the diagonal
(`CornerShape.ProfileDiagonalSymmetries`).

The bottom corners are the top ones turned by a quarter, not mirrored:
bottom-left maps the top-left offsets (a, b) to (b, -a), a rotation. By
the same asymmetry, the bottom-left outline is not the top-left outline
reflected across the horizontal axis. At radius 1 the reflection has the
point (0.66993427, -0.06549600), which the bottom-left outline lacks
(`CornerShape.BottomLeftIsNotMirroredTopLeft`). The same holds for
bottom-right against top-right. All four corners are still congruent,
because rotations and reflections both keep distances.

## Model

| member | source | states |
|---|---|---|
| CornerShape.CornerPath | Sources/CornerView.swift:57-154 | the path is empty exactly when the radius is not positive; otherwise it is move, line, cubic, line, cubic, cubic, close |
| CornerShape.OutlineLeavesAndReturnsToAnchor | Sources/CornerView.swift:63-87 | a non-empty outline starts at the anchor; its first line runs `r * 1.29` along one axis; its last cubic ends `r * 1.29` along the perpendicular axis; then it closes |
| CornerShape.RatiosWithinExtension | Sources/CornerView.swift:37-55 | every calibration ratio lies in `[0, 1.29]` |
| CornerShape.CornerPathWithinBox | Sources/CornerView.swift:63-150 | every vertex and control point lies in the `r * 1.29` square on the inner side of the anchor, for all four corners (top-left: `[0, 1.29r] x [y, y + 1.29r]`) |
| CornerShape.CornerPathIsPlacedProfile | Sources/CornerView.swift:65-151 | each of the four hand-written cases equals the radius-1 top-left outline, scaled by `r`, reoriented for its corner and shifted to its anchor |
| CornerShape.CornerIsReorientedTopLeft | Sources/CornerView.swift:89-150 | relative to its anchor, each corner is the top-left outline under a fixed map: top-right (a,b) to (-a,b), bottom-left (a,b) to (b,-a), bottom-right (a,b) to (-b,-a) |
| CornerShape.CornerPathScalesLinearly | Sources/CornerView.swift:63-150 | every offset from the anchor is the radius-1 offset multiplied by `r` |
| CornerShape.CornersCongruent | Sources/CornerView.swift:65-151 | any two corners at the same radius have congruent point lists: corresponding pairs of points are equally far apart |
| CornerShape.ProfileDiagonalSymmetries | Sources/CornerView.swift:39-55 | the middle cubic's ratios are swapped pairs; the third cubic's ratios are the first cubic's in reverse order; the first cubic's end is not on the mirror of the middle cubic's end |
| CornerShape.BottomLeftIsNotMirroredTopLeft | Sources/CornerView.swift:66-128 | the radius-1 top-left outline reflected across the horizontal axis has a point that the radius-1 bottom-left outline lacks, so the bottom-left case is a rotation of the top-left one, not its mirror image |
| CornerShape.LeftCornersIgnoreX | Sources/CornerView.swift:66-129 | the top-left and bottom-left outlines do not depend on `x`; they are anchored on x = 0 |
| CornerMask.Draw | Sources/CornerView.swift:16-31 | the shapes are the strip `(0, 0, w, menuBarHeight)`, then four corners of radius `cornerSize` anchored at `(0, m)`, `(w, m)`, `(0, h)`, `(w, h)`, each the reference construction; a non-positive size gives four empty corner paths |
| CornerMask.DrawnCornersCongruent | Sources/CornerView.swift:26-29 | the four drawn corners are congruent to one another |
| CornerMask.DrawnCornerWithinBox | Sources/CornerView.swift:16-31 | every vertex and control point of each drawn corner lies in the `cornerSize * 1.29` square on the inner side of its anchor |
| CornerMask.DrawnCornersInsideView | Sources/CornerView.swift:16-31 | when the corner extent `cornerSize * 1.29` fits across the width and below the strip, every drawn corner lies inside the view under the strip |
| CornerMask.DrawnCornersApart | Sources/CornerView.swift:26-29 | when twice the corner extent fits across the width and below the strip, no point lies inside the boxes of two different drawn corners |
| Overlay.RawMenuBarHeight | Sources/OverlayWindow.swift:48 | the band measured from the top edges equals the difference of the heights less the part of the screen below the visible frame |
| Overlay.MenuBarHeight | Sources/OverlayWindow.swift:45-64 | the height is strictly positive, at least the raw band and at least the safe-area inset, and is one of the raw band, the inset or 24 |
| Overlay.MenuBarHeightCases | Sources/OverlayWindow.swift:55-63 | with a positive inset the result is the larger of the band and the inset; without one, it is the band when the band is positive, and 24 otherwise |
| Overlay.MenuBarHeightIsPositiveMax | Sources/OverlayWindow.swift:45-64 | the result is the larger of the band and the inset when that is positive, else 24 |
| Overlay.MenuBarHeightExamples | Sources/OverlayWindow.swift:46-48 | the band is measured from the top edges: a bottom Dock does not count; a 38-point inset wins; no band and no inset gives 24 |
| Overlay.NewWindow | Sources/OverlayWindow.swift:14-39 | a new window's frame is the screen's frame; its view's menu-bar height is the computed one for that screen; its corner size and its view's agree; it is not yet shown or closed |
| Overlay.SetCornerSize | Sources/OverlayWindow.swift:7-12 | setting `cornerSize` copies the value into the view and marks the view dirty; nothing else changes |
| Overlay.NewWindowStrip | Sources/OverlayWindow.swift:36-38 | a new window paints its strip across the screen's width at the screen's menu-bar height |
| Overlay.OrderFront | Sources/OverlayManager.swift:48 | ordering front shows the window and changes nothing else |
| Overlay.Close | Sources/OverlayManager.swift:39 | closing takes the window off screen and marks it closed, and changes nothing else |
| CornerStyles.RawValue | Sources/Preferences.swift:5-10 | every raw value lies in -1..3, and it is negative exactly for `off` |
| CornerStyles.FromRaw | Sources/Preferences.swift:5-10 | `init?(rawValue:)` succeeds exactly on -1..3, and the style it builds has that raw value |
| CornerStyles.RawRoundTrip | Sources/Preferences.swift:5-10 | `WindowCornerStyle(rawValue: s.rawValue) == s` for every style |
| CornerStyles.RawValueInjective | Sources/Preferences.swift:5-10 | distinct styles have distinct raw values |
| CornerStyles.AllCasesInRawOrder | Sources/Preferences.swift:5-10 | `allCases` lists every style once, with raw values -1, 0, 1, 2, 3 in order |
| CornerStyles.CornerRadius | Sources/Preferences.swift:33-41 | every radius is non-negative, and it is 0 exactly for `off` and `none` |
| CornerStyles.IsEnabled | Sources/Preferences.swift:43-45 | a style is enabled exactly when its raw value is not negative, that is, when it is not `off` |
| CornerStyles.SquareIsEnabledWithoutCorners | Sources/Preferences.swift:6-7 | `none` is enabled and has radius 0 |
| CornerStyles.Detail | Sources/Preferences.swift:22-30 | the detail label is missing exactly for `off` |
| CornerStyles.DetailIsRadiusInPixels | Sources/Preferences.swift:22-41 | every other detail label is the radius in decimal followed by "px" |
| CornerStyles.DisplayName | Sources/Preferences.swift:12-20 | every style has a non-empty menu label |
| CornerStyles.DisplayNamesDistinct | Sources/Preferences.swift:12-20 | the display names tell the styles apart |
| CornerStyles.CornerStyle | Sources/Preferences.swift:53-54 | the getter returns the style of a known raw value, and `toolbar` for any unknown one |
| CornerStyles.SetCornerStyle | Sources/Preferences.swift:55-58 | reading after setting returns the style that was set |
| CornerStyles.DefaultIsToolbar | Sources/Preferences.swift:51 | a fresh store reads as `toolbar` |
| CornerStyles.SetWhatWasRead | Sources/Preferences.swift:53-58 | writing back what was read keeps the style, and replaces an unknown raw value with `toolbar`'s |
| CornerStyles.SetTwice | Sources/Preferences.swift:55-58 | the last write wins |
| Manager.CloseAll | Sources/OverlayManager.swift:39 | every held window is closed, one for one, in order |
| Manager.BuildWindow | Sources/OverlayManager.swift:46-48 | a built window covers its screen's frame, carries the style's radius in the window and in its view, has that screen's menu-bar height, and is showing |
| Manager.BuildAll | Sources/OverlayManager.swift:45-50 | the loop builds exactly one window per screen, and window i is built from screen i |
| Manager.Refresh | Sources/OverlayManager.swift:38-51 | every prior window is closed and retired; a disabled style leaves no windows; an enabled one leaves exactly one showing window per screen, built from that screen with the style's radius |
| Manager.RefreshSyncs | Sources/OverlayManager.swift:38-51 | after a refresh the windows are in step with the screens and the style |
| Manager.RefreshRetiresClosedWindows | Sources/OverlayManager.swift:39-40 | every retired window is closed and off screen |
| Manager.RefreshForgetsPriorWindows | Sources/OverlayManager.swift:38-51 | the windows after a refresh depend only on the style and the screens |
| Manager.RefreshIdempotent | Sources/OverlayManager.swift:38-51 | two refreshes with unchanged inputs leave the same windows as one |
| Manager.DisconnectLeavesOneWindow | Sources/OverlayManager.swift:38-51 | after one of two screens goes away, a refresh leaves one window on the remaining screen's frame and retires both old windows closed |
| Manager.InstallObservers | Sources/OverlayManager.swift:15-36 | two observers are added and nothing else changes |
| Manager.Start | Sources/OverlayManager.swift:10-13 | `start` adds two observers, then refreshes once: the windows are in step with the screens, and exactly the prior windows are retired |
| Manager.StartFromInitial | Sources/OverlayManager.swift:10-13 | starting the fresh manager retires nothing and leaves the windows a single refresh would |
| Manager.SquareStylePaintsOnlyStrips | Sources/OverlayManager.swift:42-50 | with `none`, every window is still built and paints its strip, and its four corner paths are empty |

## Left out

- The AppKit window settings in `OverlayWindow.init` are not modelled. These are the level, collection behaviour, `ignoresMouseEvents`, opacity and background, `isReleasedWhenClosed`, `canBecomeKey` and `canBecomeMain`. They are host flags with no logic.
- `installObservers` only counts its two observers. NotificationCenter registration and event delivery are I/O. Each event calls `refresh`, which the model covers.
- The `cornerStyle` setter does not model `objectWillChange.send()`, and the model has no `@AppStorage` persistence. The stored raw value is a plain field.
- `launchAtLogin` and all of `Sources/TekitouApp.swift` are not modelled. They are SwiftUI menu rendering, hover state and `SMAppService` login-item calls.
- CGContext filling and Bézier rasterisation are not modelled. `draw` yields the shapes it fills, and the black fill colour is not modelled.
- `CGFloat` is modelled as `real`. IEEE rounding and NaN are not modelled. A NaN radius fails the `r > 0` guard in the source, just like a non-positive one.
- The `#available(macOS 12.0, *)` check is not modelled. The screen descriptor carries the inset, and on older systems that inset is 0.
- The initial `needsDisplay` of a fresh view belongs to AppKit. The model starts it false and only records the marking done by `cornerSize`'s `didSet`.
- `Package.swift` is the build manifest.
