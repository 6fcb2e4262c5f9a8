/**
 * The drone list screen (`HomeViewController`): selecting a row connects to a
 * disconnected drone (asking for a password after a bad-password failure) or
 * disconnects any other; a connection-state observer calls navigateToHud on
 * each entry into the connected state, which moves to the flight screen only
 * when a drone with a manual piloting interface is held.
 *
 * Calls into the drone SDK and the UI are not performed here: each operation
 * returns the `Action` the screen would take, and what the SDK would report
 * (the drone found for a uid, the value of a state reference, whether a manual
 * piloting interface exists) arrives as parameters.
 */
module Home {
  import opened Wrappers

  /** A device's connection state; `RawValue` gives the SDK's integer for it. */
  datatype ConnectionState = Disconnected | Connecting | Connected | Disconnecting

  function RawValue(state: ConnectionState): (raw: int)
    ensures 0 <= raw <= 3
    ensures raw == 2 <==> state == Connected
    ensures raw == 0 <==> state == Disconnected
  {
    match state
    case Disconnected => 0
    case Connecting => 1
    case Connected => 2
    case Disconnecting => 3
  }

  /** Why the device is in its connection state. */
  datatype ConnectionStateCause = NoCause | UserRequest | ConnectionLost | BadPassword | Refused | Failure

  /** A means of connecting to a device (the phone's Wi-Fi, a remote control, ...). */
  datatype DeviceConnector = DeviceConnector(uid: string)

  datatype DeviceState = DeviceState(connectionState: ConnectionState, connectionStateCause: ConnectionStateCause,
                                     connectors: seq<DeviceConnector>)

  /** A drone as the SDK hands it out: its uid and its state at that moment. */
  datatype Drone = Drone(uid: string, state: DeviceState)

  datatype DroneListEntry = DroneListEntry(uid: string, name: string)

  /** A reference to a drone's state; its value is absent when the SDK has none. */
  datatype StateRef = StateRef(value: Option<DeviceState>)

  /** The answer to the password prompt. */
  datatype PromptResponse = Confirmed(text: Option<string>) | Cancelled

  /** What the screen does in response to an event, in place of the SDK or UI call. */
  datatype Action =
    | NoAction
    | Navigate
    | Connect(connector: DeviceConnector)
    | PromptPassword(connector: DeviceConnector)
    | ConnectWithPassword(connector: DeviceConnector, password: string)
    | ShowNoConnectorAlert
    | Disconnect

  predicate IsConnectAttempt(a: Action) {
    a.Connect? || a.PromptPassword?
  }

  /** `connect(drone:connector:)`: a password prompt exactly when the last failure was a bad password, else a plain connect. */
  function ConnectAction(cause: ConnectionStateCause, connector: DeviceConnector): (a: Action)
    ensures IsConnectAttempt(a) && a.connector == connector
    ensures a.PromptPassword? <==> cause == BadPassword
  {
    if cause == BadPassword then PromptPassword(connector) else Connect(connector)
  }

  /** The prompt's buttons: OK with a text connects with that password; Cancel, or no text, does nothing. */
  function PasswordPromptAction(connector: DeviceConnector, response: PromptResponse): (a: Action)
    ensures a.ConnectWithPassword? <==> response.Confirmed? && response.text.Some?
    ensures a.ConnectWithPassword? ==> a.connector == connector && a.password == response.text.value
    ensures !a.ConnectWithPassword? ==> a == NoAction
  {
    match response
    case Confirmed(Some(password)) => ConnectWithPassword(connector, password)
    case Confirmed(None) => NoAction
    case Cancelled => NoAction
  }

  /**
   * The decision taken on row selection from the state reference's value and
   * the drone: no decision without a state value; connect through the first
   * connector of a disconnected drone, or warn when it has none; disconnect a
   * drone in any other state.
   */
  function SelectionAction(stateValue: Option<DeviceState>, drone: Option<Drone>): (a: Action)
    ensures stateValue.None? || drone.None? ==> a == NoAction
    ensures a == Disconnect <==>
              stateValue.Some? && stateValue.value.connectionState != Disconnected && drone.Some?
    ensures IsConnectAttempt(a) <==>
              stateValue.Some? && stateValue.value.connectionState == Disconnected
              && drone.Some? && |drone.value.state.connectors| > 0
    ensures IsConnectAttempt(a) ==>
              a == ConnectAction(drone.value.state.connectionStateCause, drone.value.state.connectors[0])
    ensures a == ShowNoConnectorAlert <==>
              stateValue.Some? && stateValue.value.connectionState == Disconnected
              && drone.Some? && |drone.value.state.connectors| == 0
    ensures !a.Navigate? && !a.ConnectWithPassword?
  {
    match stateValue
    case None => NoAction
    case Some(state) =>
      if state.connectionState == Disconnected then
        match drone
        case None => NoAction
        case Some(d) =>
          if |d.state.connectors| > 0 then ConnectAction(d.state.connectionStateCause, d.state.connectors[0])
          else ShowNoConnectorAlert
      else if drone.Some? then Disconnect
      else NoAction
  }

  /** The observer calls navigateToHud when the new state is connected and the remembered one is not. */
  predicate Triggers(remembered: Option<int>, state: ConnectionState) {
    RawValue(state) == 2 && remembered != Some(2)
  }

  /**
   * How many times a run of state callbacks calls navigateToHud, starting from
   * a remembered state; each call navigates only if NavigateToHud's guard holds.
   */
  function HudRequests(remembered: Option<int>, states: seq<ConnectionState>): nat
    decreases |states|
  {
    if states == [] then 0
    else (if Triggers(remembered, states[0]) then 1 else 0) + HudRequests(Some(RawValue(states[0])), states[1..])
  }

  function NonConnectedCount(states: seq<ConnectionState>): nat
    decreases |states|
  {
    if states == [] then 0 else (if states[0] != Connected then 1 else 0) + NonConnectedCount(states[1..])
  }

  /**
   * Every navigateToHud call after the first needs a callback that left the
   * connected state in between: at most one call, plus one per non-connected
   * callback.
   */
  lemma {:induction false} HudRequestsBoundedByExits(remembered: Option<int>, states: seq<ConnectionState>)
    ensures HudRequests(remembered, states) <= (if remembered != Some(2) then 1 else 0) + NonConnectedCount(states)
    decreases |states|
  {
    if states != [] {
      HudRequestsBoundedByExits(Some(RawValue(states[0])), states[1..]);
    }
  }

  /** A run of consecutive "connected" callbacks calls navigateToHud once if the remembered state was not connected, else never. */
  lemma {:induction false} ConnectedRunRequestsHudOnce(remembered: Option<int>, states: seq<ConnectionState>)
    requires forall i :: 0 <= i < |states| ==> states[i] == Connected
    ensures HudRequests(remembered, states) == if states != [] && remembered != Some(2) then 1 else 0
    decreases |states|
  {
    if states != [] {
      ConnectedRunRequestsHudOnce(Some(2), states[1..]);
    }
  }

  /** Disconnecting reports "connected" and then "disconnected": navigateToHud is not called. */
  lemma DisconnectDoesNotRequestHud()
    ensures HudRequests(Some(2), [Connected, Disconnected]) == 0
  {
  }

  class HomeViewController {
    var droneList: Option<seq<DroneListEntry>>
    var drone: Option<Drone>
    var stateRef: Option<StateRef>
    var selectedUid: Option<string>
    /** The raw connection state seen by the last state callback. */
    var droneState: Option<int>

    constructor()
      ensures droneList == None && drone == None && stateRef == None
      ensures selectedUid == None && droneState == None
    {
      droneList, drone, stateRef, selectedUid, droneState := None, None, None, None, None;
    }

    /** The drone-list observer. */
    method DroneListChanged(entries: seq<DroneListEntry>)
      modifies this`droneList
      ensures droneList == Some(entries)
    {
      droneList := Some(entries);
    }

    /** `numberOfRowsInSection`: the length of the drone list, or 0 without one. */
    function RowCount(): (n: nat)
      reads this
      ensures droneList.None? ==> n == 0
      ensures droneList.Some? ==> n == |droneList.value|
    {
      if droneList.Some? then |droneList.value| else 0
    }

    /**
     * A row is selected. With a drone list, the entry's drone (`found`, which
     * the SDK may not have) becomes the current drone; when there is one, a
     * new state reference (with value `refValue`) replaces the old. The action
     * is the one SelectionAction decides from the state reference and drone.
     */
    method SelectRow(row: nat, found: Option<Drone>, refValue: Option<DeviceState>) returns (a: Action)
      requires droneList.Some? ==> row < RowCount()
      modifies this`drone, this`selectedUid, this`stateRef
      ensures droneList.None? ==> a == NoAction && drone == old(drone) && selectedUid == old(selectedUid)
                                  && stateRef == old(stateRef)
      ensures droneList.Some? ==> drone == found && selectedUid == Some(droneList.value[row].uid)
      ensures droneList.Some? && found.Some? ==> stateRef == Some(StateRef(refValue))
      ensures droneList.Some? && found.None? ==> stateRef == old(stateRef)
      ensures droneList.Some? ==> a == SelectionAction(if stateRef.Some? then stateRef.value.value else None, drone)
    {
      a := NoAction;
      if droneList.Some? {
        var droneEntry := droneList.value[row];
        drone := found;
        selectedUid := Some(droneEntry.uid);
        if drone.Some? {
          stateRef := Some(StateRef(refValue));
        }
        if stateRef.Some? && stateRef.value.value.Some? {
          var connectionState := stateRef.value.value.value.connectionState;
          if connectionState == Disconnected {
            if drone.Some? {
              var d := drone.value;
              if |d.state.connectors| > 0 {
                a := ConnectAction(d.state.connectionStateCause, d.state.connectors[0]);
              } else {
                a := ShowNoConnectorAlert;
              }
            }
          } else if drone.Some? {
            a := Disconnect;
          }
        }
      }
    }

    /**
     * The state observer of the current drone: navigates (through
     * navigateToHud's guard) on entry into the connected state, then
     * remembers the new raw state.
     */
    method StateChanged(state: DeviceState, manualCopterAvailable: bool) returns (a: Action)
      modifies this`droneState
      ensures droneState == Some(RawValue(state.connectionState))
      ensures a == if Triggers(old(droneState), state.connectionState)
                   then NavigateToHud(manualCopterAvailable) else NoAction
    {
      a := NoAction;
      if RawValue(state.connectionState) == 2 && droneState != Some(2) {
        a := NavigateToHud(manualCopterAvailable);
      }
      droneState := Some(RawValue(state.connectionState));
    }

    /** `navigateToHud`'s guard: the flight screen only with a current drone that has a manual piloting interface. */
    function NavigateToHud(manualCopterAvailable: bool): (a: Action)
      reads this
      ensures a == Navigate <==> drone.Some? && manualCopterAvailable
      ensures a != Navigate ==> a == NoAction
    {
      if drone.Some? && manualCopterAvailable then Navigate else NoAction
    }
  }
}
