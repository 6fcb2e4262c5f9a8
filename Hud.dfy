/**
 * The flight screen (`HudViewController`): the take-off/land button that
 * follows the manual piloting interface, the two joysticks that feed it
 * piloting commands, and the overlay view that shows the detections.
 *
 * The piloting interface belongs to the drone SDK; here it is an object whose
 * fields hold what the SDK reports (its state and its smart take-off/land
 * action) and the last command values the screen handed to it.
 */
module Hud {
  import opened Wrappers
  import opened Detection

  /** State of an activable piloting interface. */
  datatype ItfState = Unavailable | Idle | Active

  /** The action a "smart take-off/land" request would perform now. */
  datatype SmartTakeOffLandAction = NoSmartAction | TakeOff | ThrownTakeOff | Land

  /** The three images the button can show. */
  datatype ButtonImage = TakeOffImage | LandImage | HandImage

  /** What the button shows: hidden or not, enabled or not, and its image (none until one is set). */
  datatype ButtonLook = ButtonLook(isHidden: bool, isEnabled: bool, image: Option<ButtonImage>)

  /** The piloting interface as the button update sees it. */
  datatype PilotingView = PilotingView(state: ItfState, smartAction: SmartTakeOffLandAction)

  /** A joystick position; the piloting commands take integer percentages. */
  datatype StickValue = StickValue(x: int, y: int)

  /** The image for each action; `None` for no action, where the button keeps what it shows. */
  function ImageFor(action: SmartTakeOffLandAction): Option<ButtonImage> {
    match action
    case Land => Some(LandImage)
    case TakeOff => Some(TakeOffImage)
    case ThrownTakeOff => Some(HandImage)
    case NoSmartAction => None
  }

  predicate IsActive(itf: Option<PilotingView>) {
    itf.Some? && itf.value.state == Active
  }

  /**
   * The button after `updateTakeoffLandButton`: hidden and disabled unless the
   * interface is present and active; when active, visible, enabled exactly when
   * there is an action, showing that action's image, or its previous image
   * when there is none.
   */
  function UpdatedButton(itf: Option<PilotingView>, before: ButtonLook): (after: ButtonLook)
    ensures after.isHidden <==> !IsActive(itf)
    ensures after.isEnabled <==> IsActive(itf) && itf.value.smartAction != NoSmartAction
    ensures after.image == if IsActive(itf) && ImageFor(itf.value.smartAction).Some?
                           then ImageFor(itf.value.smartAction) else before.image
  {
    // The body follows the source's switch over the action; ImageFor is the
    // table of images the contract checks that switch against.
    if IsActive(itf) then
      var image := match itf.value.smartAction
                   case Land => Some(LandImage)
                   case TakeOff => Some(TakeOffImage)
                   case ThrownTakeOff => Some(HandImage)
                   case NoSmartAction => before.image;
      ButtonLook(false, itf.value.smartAction != NoSmartAction, image)
    else
      ButtonLook(true, false, before.image)
  }

  /** An enabled button is always visible and shows the image of the current action. */
  lemma EnabledButtonShowsAction(itf: Option<PilotingView>, before: ButtonLook)
    ensures var after := UpdatedButton(itf, before);
            after.isEnabled ==> !after.isHidden && itf.Some? && after.image == ImageFor(itf.value.smartAction)
  {
  }

  /** Updating twice from the same interface is the same as updating once. */
  lemma UpdatedButtonIdempotent(itf: Option<PilotingView>, before: ButtonLook)
    ensures UpdatedButton(itf, UpdatedButton(itf, before)) == UpdatedButton(itf, before)
  {
  }

  /** The SDK's manual piloting interface: reported state, and the command values last set. */
  class ManualCopterPilotingItf {
    var state: ItfState
    var smartTakeOffLandAction: SmartTakeOffLandAction
    var pitch: int
    var roll: int
    var verticalSpeed: int
    var yawRotationSpeed: int
    /** How many smart take-off/land requests were made. */
    var smartTakeOffLandRequests: nat

    constructor(state: ItfState, smartTakeOffLandAction: SmartTakeOffLandAction)
      ensures this.state == state && this.smartTakeOffLandAction == smartTakeOffLandAction
      ensures pitch == 0 && roll == 0 && verticalSpeed == 0 && yawRotationSpeed == 0
      ensures smartTakeOffLandRequests == 0
    {
      this.state := state;
      this.smartTakeOffLandAction := smartTakeOffLandAction;
      pitch, roll, verticalSpeed, yawRotationSpeed := 0, 0, 0, 0;
      smartTakeOffLandRequests := 0;
    }

    function View(): PilotingView
      reads this
    {
      PilotingView(state, smartTakeOffLandAction)
    }
  }

  class TakeoffLandButton {
    var isHidden: bool
    var isEnabled: bool
    var image: Option<ButtonImage>

    constructor(look: ButtonLook)
      ensures Look() == look
    {
      isHidden, isEnabled, image := look.isHidden, look.isEnabled, look.image;
    }

    function Look(): ButtonLook
      reads this
    {
      ButtonLook(isHidden, isEnabled, image)
    }
  }

  /** The view the detection boxes are painted on. */
  class OverlayView<Color, Font> {
    var bounds: Rect
    var objectOverlays: seq<ObjectOverlay<Color, Font>>

    constructor(bounds: Rect)
      ensures this.bounds == bounds && objectOverlays == []
    {
      this.bounds := bounds;
      objectOverlays := [];
    }
  }

  class HudViewController<Color, Font> {
    const overlayView: OverlayView<Color, Font>
    const takeoffLandButton: TakeoffLandButton
    /** The current value of the piloting-interface reference. */
    var pilotingItf: ManualCopterPilotingItf?
    var droneUid: Option<string>
    const displayFont: Font
    const edgeOffset: real
    /** Text measurement, `String.size(usingFont:)`. */
    const measure: (string, Font) -> Size

    constructor(overlayView: OverlayView<Color, Font>, takeoffLandButton: TakeoffLandButton,
                displayFont: Font, measure: (string, Font) -> Size)
      ensures this.overlayView == overlayView && this.takeoffLandButton == takeoffLandButton
      ensures this.displayFont == displayFont && this.measure == measure
      ensures edgeOffset == 2.0 && pilotingItf == null && droneUid == None
    {
      this.overlayView := overlayView;
      this.takeoffLandButton := takeoffLandButton;
      this.displayFont := displayFont;
      this.measure := measure;
      edgeOffset := 2.0;
      pilotingItf := null;
      droneUid := None;
    }

    method SetDeviceUid(uid: string)
      modifies this`droneUid
      ensures droneUid == Some(uid)
    {
      droneUid := Some(uid);
    }

    /** The piloting-interface reference reports a new value: remember it and refresh the button. */
    method PilotingItfChanged(itf: ManualCopterPilotingItf?)
      modifies this`pilotingItf, takeoffLandButton
      ensures pilotingItf == itf
      ensures takeoffLandButton.Look()
              == UpdatedButton(if itf == null then None else Some(itf.View()), old(takeoffLandButton.Look()))
    {
      pilotingItf := itf;
      UpdateTakeoffLandButton(itf);
    }

    method UpdateTakeoffLandButton(itf: ManualCopterPilotingItf?)
      modifies takeoffLandButton
      ensures takeoffLandButton.Look()
              == UpdatedButton(if itf == null then None else Some(itf.View()), old(takeoffLandButton.Look()))
    {
      if itf != null && itf.state == Active {
        takeoffLandButton.isHidden := false;
        var smartAction := itf.smartTakeOffLandAction;
        match smartAction {
          case Land => takeoffLandButton.image := Some(LandImage);
          case TakeOff => takeoffLandButton.image := Some(TakeOffImage);
          case ThrownTakeOff => takeoffLandButton.image := Some(HandImage);
          case NoSmartAction =>
        }
        takeoffLandButton.isEnabled := smartAction != NoSmartAction;
      } else {
        takeoffLandButton.isEnabled := false;
        takeoffLandButton.isHidden := true;
      }
    }

    /** The button asks for a smart take-off/land whenever the interface is there, active or not. */
    method TakeOffLand()
      modifies pilotingItf
      ensures pilotingItf == old(pilotingItf)
      ensures pilotingItf != null ==>
                pilotingItf.smartTakeOffLandRequests == old(pilotingItf.smartTakeOffLandRequests) + 1
                && pilotingItf.View() == old(pilotingItf.View())
                && pilotingItf.pitch == old(pilotingItf.pitch) && pilotingItf.roll == old(pilotingItf.roll)
                && pilotingItf.verticalSpeed == old(pilotingItf.verticalSpeed)
                && pilotingItf.yawRotationSpeed == old(pilotingItf.yawRotationSpeed)
    {
      if pilotingItf != null {
        pilotingItf.smartTakeOffLandRequests := pilotingItf.smartTakeOffLandRequests + 1;
      }
    }

    /** Left stick: pitch is the negated vertical axis, roll the horizontal axis; only while the interface is active. */
    method LeftJoystickUpdate(value: StickValue)
      modifies pilotingItf
      ensures pilotingItf == old(pilotingItf)
      ensures pilotingItf != null ==>
                pilotingItf.View() == old(pilotingItf.View())
                && pilotingItf.smartTakeOffLandRequests == old(pilotingItf.smartTakeOffLandRequests)
                && pilotingItf.verticalSpeed == old(pilotingItf.verticalSpeed)
                && pilotingItf.yawRotationSpeed == old(pilotingItf.yawRotationSpeed)
      ensures pilotingItf != null && old(pilotingItf.state) == Active ==>
                pilotingItf.pitch == -value.y && pilotingItf.roll == value.x
      ensures pilotingItf != null && old(pilotingItf.state) != Active ==>
                pilotingItf.pitch == old(pilotingItf.pitch) && pilotingItf.roll == old(pilotingItf.roll)
    {
      if pilotingItf != null && pilotingItf.state == Active {
        pilotingItf.pitch := -value.y;
        pilotingItf.roll := value.x;
      }
    }

    /** Right stick: vertical speed is the vertical axis, yaw the horizontal axis; only while the interface is active. */
    method RightJoystickUpdate(value: StickValue)
      modifies pilotingItf
      ensures pilotingItf == old(pilotingItf)
      ensures pilotingItf != null ==>
                pilotingItf.View() == old(pilotingItf.View())
                && pilotingItf.smartTakeOffLandRequests == old(pilotingItf.smartTakeOffLandRequests)
                && pilotingItf.pitch == old(pilotingItf.pitch) && pilotingItf.roll == old(pilotingItf.roll)
      ensures pilotingItf != null && old(pilotingItf.state) == Active ==>
                pilotingItf.verticalSpeed == value.y && pilotingItf.yawRotationSpeed == value.x
      ensures pilotingItf != null && old(pilotingItf.state) != Active ==>
                pilotingItf.verticalSpeed == old(pilotingItf.verticalSpeed)
                && pilotingItf.yawRotationSpeed == old(pilotingItf.yawRotationSpeed)
    {
      if pilotingItf != null && pilotingItf.state == Active {
        pilotingItf.verticalSpeed := value.y;
        pilotingItf.yawRotationSpeed := value.x;
      }
    }

    /**
     * Replaces the overlay list with one overlay per inference, in order; an
     * empty list of inferences leaves the view with no overlays.
     */
    method DrawDetections(inferences: seq<Inference<Color>>, imageSize: Size)
      requires imageSize.width > 0.0 && imageSize.height > 0.0
      modifies overlayView`objectOverlays
      ensures |overlayView.objectOverlays| == |inferences|
      ensures forall k :: 0 <= k < |inferences| ==>
                overlayView.objectOverlays[k]
                == OverlayFor(inferences[k], imageSize, overlayView.bounds, displayFont, edgeOffset, measure)
    {
      overlayView.objectOverlays := [];
      if |inferences| == 0 {
        return;
      }
      var objectOverlays := ProjectDetections(inferences, imageSize, overlayView.bounds, displayFont, edgeOffset, measure);
      Draw(objectOverlays);
    }

    /** Hands a list of overlays to the overlay view, replacing what it showed. */
    method Draw(objectOverlays: seq<ObjectOverlay<Color, Font>>)
      modifies overlayView`objectOverlays
      ensures overlayView.objectOverlays == objectOverlays
    {
      overlayView.objectOverlays := objectOverlays;
    }
  }
}
