# Drone detection demo: overlay projection, flight controls and connection logic

This project models the parts of the ParrotDemo / AnafiDetection iOS app whose
behaviour can be stated on its own, apart from the drone SDK and UIKit. The
app connects a phone to an Anafi quadcopter, shows the live video, runs an
object detector on sampled frames and draws boxes and labels over the video.

- `Detection` (Detection.dfy) covers the data side of
  `HudViewController.drawDetections`. Each inference rectangle is scaled from
  image pixels into the overlay view: x and width by `boundsW/imageW`, y and
  height by `boundsH/imageH`. Four edge clamps then run in order: left, top,
  bottom, right. The label is built as `name  (NN%)`, where the percentage is
  truncated. `ProjectDetections` is the loop that builds the overlay list.
  `ParseLabel` reads a label back; it exists only to state that the label
  loses nothing.
- `Hud` (Hud.dfy) covers the rest of the flight screen:
  - the overlay view and `drawDetections`, which clears the list and then
    replaces it;
  - the take-off/land button that follows the manual piloting interface;
  - the two joysticks, which set pitch/roll and vertical speed/yaw only
    while that interface is active;
  - the take-off/land button action.
- `Home` (Home.dfy) covers the drone list screen, as a `HomeViewController`
  class that keeps the screen's remembered fields:
  - the row count;
  - the connect-or-disconnect decision when a row is selected;
  - the password prompt after a bad-password failure;
  - the state observer, which calls navigateToHud only when the drone first enters
    the connected state (raw value 2).

  Each operation returns an `Action` value where the source calls the SDK or
  the UI: `Navigate`, `Connect`, `PromptPassword`, `ConnectWithPassword`,
  `ShowNoConnectorAlert`, `Disconnect` or `NoAction`.
- `Wrappers` (Wrappers.dfy) holds `Option`, which stands in for Swift optionals.

Geometry is over `real`. The drawing code requires `imageW > 0` and
`imageH > 0`. Text measurement (`String.size(usingFont:)`) is the `measure`
function value that the controller is built with. What the SDK would report
comes in as method parameters: the drone found for a uid, the value of a new
state reference, and whether a manual piloting interface exists.

`CGRect.applying` with a scale transform is modelled as CoreGraphics defines
it: the smallest rectangle that holds the scaled corners, so its size is never
negative. `maxX`/`maxY` are modelled as the largest coordinate, as
CoreGraphics defines them. The label percentage truncates toward zero
(`Int(_:)`); for a non-negative confidence this is the floor
(`ConfidencePercentIsFloor`).

## Model

| member | source | states |
|---|---|---|
| Detection.Scaled | AnafiDetection/ViewControllers/HudViewController.swift:247 | `applying` with a scale transform: the bounding box of the scaled corners; its promises are stated by ScaledEdges and ScaledExactly |
| Detection.ScaledEdges | AnafiDetection/ViewControllers/HudViewController.swift:247 | the scaled rectangle has a non-negative size, and its left/right and top/bottom edges are exactly the input edges times sx and sy |
| Detection.ScaledExactly | AnafiDetection/ViewControllers/HudViewController.swift:247 | for a rectangle of non-negative size and non-negative factors, scaling multiplies x and width by sx and y and height by sy |
| Detection.ConvertedRect | AnafiDetection/ViewControllers/HudViewController.swift:247-263 | the scaled inference rectangle after the left, top, bottom and right clamps, in that order; its promises are stated by ClampedOrigin, ClampedHeight, ClampedWidth, NoClampIsPureScale, HorizontalIndependent and VerticalIndependent |
| Detection.NoClampIsPureScale | AnafiDetection/ViewControllers/HudViewController.swift:247-263 | when no clamp fires, the border rectangle is the inference rectangle with x and width times boundsW/imageW and y and height times boundsH/imageH |
| Detection.ClampedOrigin | AnafiDetection/ViewControllers/HudViewController.swift:249-255 | a negative scaled x (or y) becomes edgeOffset; otherwise the scaled coordinate is kept |
| Detection.ClampedHeight | AnafiDetection/ViewControllers/HudViewController.swift:253-259 | the bottom test uses the already-clamped y; when it fires, the height is bounds.maxY - y - edgeOffset, so the box ends edgeOffset above the bottom; otherwise the height is the scaled height |
| Detection.ClampedWidth | AnafiDetection/ViewControllers/HudViewController.swift:249-263 | the right edge follows the same rule, using the already-clamped x: width is bounds.maxX - x - edgeOffset when it fires, else the scaled width |
| Detection.HorizontalIndependent | AnafiDetection/ViewControllers/HudViewController.swift:249-263 | the output x and width depend only on the input x and width |
| Detection.VerticalIndependent | AnafiDetection/ViewControllers/HudViewController.swift:249-263 | the output y and height depend only on the input y and height |
| Detection.DegenerateClampScenario | AnafiDetection/ViewControllers/HudViewController.swift:249-263 | in a 200x200 view with margin 2, the box (-10,190,30,30) becomes (2,190,30,8) |
| Detection.NegativeHeightScenario | AnafiDetection/ViewControllers/HudViewController.swift:257-259 | a box starting 1 pixel above the bottom gets height -1; no clamp rejects it |
| Detection.ConfidencePercent | AnafiDetection/ViewControllers/HudViewController.swift:265 | the confidence times 100, truncated toward zero; stated by Truncate, ConfidencePercentIsFloor and CowLabelScenario |
| Detection.Truncate | AnafiDetection/ViewControllers/HudViewController.swift:265 | `Int(v)` rounds toward zero: for v >= 0 the result is within [v-1, v], and for v < 0 within [v, v+1] |
| Detection.ConfidencePercentIsFloor | AnafiDetection/ViewControllers/HudViewController.swift:265 | for a non-negative confidence, the percentage is floor(confidence*100) |
| Detection.NatDigits | AnafiDetection/ViewControllers/HudViewController.swift:266 | the printed digits of an integer are decimal digits, at least one, with no leading zero |
| Detection.TrailingNumberOfDigits | AnafiDetection/ViewControllers/HudViewController.swift:266 | after any text that does not end in a digit, the printed digits of n read back as n, and the digit run starts right after that text |
| Detection.LabelText | AnafiDetection/ViewControllers/HudViewController.swift:266 | the class name, two spaces, the percentage in parentheses with a percent sign; stated by LabelRoundTrip, LabelInjective and CowLabelScenario |
| Detection.LabelRoundTrip | AnafiDetection/ViewControllers/HudViewController.swift:265-266 | the label `name  (p%)` reads back as exactly the class name and the percentage, for every name and every integer p |
| Detection.LabelInjective | AnafiDetection/ViewControllers/HudViewController.swift:266 | two labels are equal only if their class names and percentages are equal |
| Detection.CowLabelScenario | AnafiDetection/ViewControllers/HudViewController.swift:265-266 | class "cow" with confidence 0.567 gives "cow  (56%)": the percentage is truncated, not rounded |
| Detection.OverlayFor | AnafiDetection/ViewControllers/HudViewController.swift:247-270 | one inference's overlay: name LabelText of the class and ConfidencePercent, border ConvertedRect, size the measured name, colour and font passed through; ProjectDetections builds one per inference |
| Detection.ProjectDetections | AnafiDetection/ViewControllers/HudViewController.swift:242-273 | one overlay per inference, in input order, none dropped; overlay k has the clamped rectangle, the label, the measured label size, the inference's colour and the display font |
| Hud.HudViewController.DrawDetections | AnafiDetection/ViewControllers/HudViewController.swift:234-278 | afterwards the overlay list has exactly one entry per inference, in order; an empty input leaves it empty; earlier overlays never remain |
| Hud.HudViewController.Draw | AnafiDetection/ViewControllers/HudViewController.swift:282-285 | the overlay view's list becomes exactly the given list |
| Hud.UpdatedButton | AnafiDetection/ViewControllers/HudViewController.swift:147-166 | hidden iff the interface is absent or not active; enabled iff it is active and the action is not none; the image is land/takeOff/hand for those actions and is kept otherwise |
| Hud.EnabledButtonShowsAction | AnafiDetection/ViewControllers/HudViewController.swift:147-166 | an enabled button is always visible and shows the image of the current action |
| Hud.UpdatedButtonIdempotent | AnafiDetection/ViewControllers/HudViewController.swift:147-166 | repeating the update for the same interface changes nothing more |
| Hud.HudViewController.UpdateTakeoffLandButton | AnafiDetection/ViewControllers/HudViewController.swift:147-166 | the button's new hidden/enabled/image state is UpdatedButton of the interface and the old state |
| Hud.HudViewController.PilotingItfChanged | AnafiDetection/ViewControllers/HudViewController.swift:100-102 | the piloting-interface observer stores the new value and updates the button from it |
| Hud.HudViewController.TakeOffLand | AnafiDetection/ViewControllers/HudViewController.swift:134-138 | a smart take-off/land request is made whenever an interface is present, whatever its state; nothing else changes |
| Hud.HudViewController.LeftJoystickUpdate | AnafiDetection/ViewControllers/HudViewController.swift:173-178 | only while the interface is active: pitch = -stick.y and roll = stick.x; otherwise nothing is set; the other axes are untouched |
| Hud.HudViewController.RightJoystickUpdate | AnafiDetection/ViewControllers/HudViewController.swift:185-190 | only while the interface is active: verticalSpeed = stick.y and yaw = stick.x; otherwise nothing is set; the other axes are untouched |
| Hud.HudViewController.SetDeviceUid | AnafiDetection/ViewControllers/HudViewController.swift:71-73 | the drone uid to open is remembered |
| Home.RawValue | ParrotDemo/ViewControllers/HomeViewController.swift:91 | the raw connection state is 2 exactly for connected and 0 exactly for disconnected |
| Home.Triggers | ParrotDemo/ViewControllers/HomeViewController.swift:91 | the callback's test: the new raw state is 2 and the remembered one is not 2 (a nil remembered state included); StateChanged calls navigateToHud exactly when it holds |
| Home.HomeViewController.StateChanged | ParrotDemo/ViewControllers/HomeViewController.swift:86-95 | calls navigateToHud (whose guard then decides whether to navigate) iff the new state is connected and the remembered raw state is not 2; afterwards the remembered state is the new raw state |
| Home.HudRequests | ParrotDemo/ViewControllers/HomeViewController.swift:86-95 | the number of navigateToHud calls a run of state callbacks makes from a remembered state; stated by HudRequestsBoundedByExits, ConnectedRunRequestsHudOnce and DisconnectDoesNotRequestHud |
| Home.HudRequestsBoundedByExits | ParrotDemo/ViewControllers/HomeViewController.swift:89-94 | over any run of callbacks, the calls to navigateToHud (and so the navigations) number at most one (none if the remembered state was already connected) plus the number of non-connected callbacks |
| Home.ConnectedRunRequestsHudOnce | ParrotDemo/ViewControllers/HomeViewController.swift:91-94 | a run of consecutive "connected" callbacks calls navigateToHud exactly once (so navigates at most once) if the remembered state was not connected, and otherwise never |
| Home.DisconnectDoesNotRequestHud | ParrotDemo/ViewControllers/HomeViewController.swift:89-94 | the "connected, then disconnected" pair reported on disconnection, after a connection, does not call navigateToHud |
| Home.HomeViewController.NavigateToHud | ParrotDemo/ViewControllers/HomeViewController.swift:147-153 | navigation happens iff a drone is held and its manual piloting interface exists |
| Home.SelectionAction | ParrotDemo/ViewControllers/HomeViewController.swift:98-113 | no action without a state value or without a drone; disconnect iff the state is not disconnected; connect through connectors[0] iff disconnected with a connector; the no-connector alert iff disconnected with none |
| Home.HomeViewController.SelectRow | ParrotDemo/ViewControllers/HomeViewController.swift:82-115 | with a drone list, the entry's drone and uid are stored and, when a drone is found, the state reference is replaced, before SelectionAction decides; without a list nothing happens |
| Home.ConnectAction | ParrotDemo/ViewControllers/HomeViewController.swift:126-141 | the result is a password prompt iff the cause is badPassword, and otherwise a plain connect, always through the given connector |
| Home.PasswordPromptAction | ParrotDemo/ViewControllers/HomeViewController.swift:131-136 | OK with a text connects with that password through the connector; Cancel, or no text, results in no connect |
| Home.HomeViewController.RowCount | ParrotDemo/ViewControllers/HomeViewController.swift:164-166 | the row count is the drone list's length, or 0 without a list |
| Home.HomeViewController.DroneListChanged | ParrotDemo/ViewControllers/HomeViewController.swift:35-39 | the drone-list observer stores the new list |

## Left out

- All drone SDK interaction is left out: getting a drone, getting a peripheral, getting a piloting interface, the stream server, playing the live stream, and connect/disconnect calls. The model returns `Action` values instead or takes the SDK's answers as parameters. The SDK's own clamping of piloting values is not modelled.
- Image capture and inference are left out: the 1 Hz `captureImage` polling loop, `runInference`, `UIImage.pixelBuffer()` and the TensorFlow Lite model. The inference sequence and the image size are inputs.
- Text measurement (AnafiDetection/Extensions/StringExtension.swift) and font metrics are left out. They are the `measure` function value.
- UI wiring is left out: alerts as views, segues, `prepare(for:)`, table cell contents, orientation, `setNeedsDisplay`, `dismiss`, and `viewWillAppear`'s dismissal when the drone is gone.
- Floating point is left out. CGFloat and Float are modelled as exact `real` numbers. Rounding of `confidence * 100.0` is not modelled: the rounded product can fall just below a whole number and then truncate to one less than the exact percentage.
- NaN and infinity are left out: a zero-sized image is excluded by a precondition. The trap that `Int(_:)` raises on a non-finite or out-of-range value is not modelled either.
- Home.HomeViewController.StateChanged: two crashes of the callback are not modelled. The source force-unwraps the state, so a nil state crashes the app. It also force-casts `cellForRow(at:)` to `DeviceCell` (HomeViewController.swift:87), which crashes when the selected row is not visible; on that path neither the navigation test nor the `droneState` update runs, while the model always updates `droneState`. The cell-text update itself is left out.
- Hud.HudViewController.LeftJoystickUpdate: joystick axes are integers, because the piloting commands take integer percentages. The trap on negating the smallest integer is not modelled.
- Home.HomeViewController.SelectRow: the row is required to be within the drone list. The subscript `droneList?[indexPath.row]` (HomeViewController.swift:82) traps on an out-of-range row; UIKit reports only existing rows, so the trap is not modelled.
- Hud.HudViewController.RightJoystickUpdate: joystick axes are integers, because the piloting commands take integer percentages.
- The `YuvSinkListener` extension is left out because it is commented out in the source.
