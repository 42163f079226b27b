/** The part of the Scout vessel that the cockpit widgets read and write. The
    vessel itself (its flight model, animations and the implementation of its
    action methods) is not part of this model: every action a widget asks of it
    becomes a Request appended to the vessel's log. */
module Vessel {

  /** State of a door-like mechanism (gear, nose cone, radiator, hatch, ...). */
  datatype DoorStatus = DoorClosed | DoorOpen | DoorClosing | DoorOpening

  /** The mechanism is shown deployed: it is open or on its way to open. */
  predicate Deployed(s: DoorStatus) { s == DoorOpen || s == DoorOpening }

  /** An action a widget asks of the vessel, with its arguments. */
  datatype Request =
    | IncMainPGimbal(ctrl: int, mode: int)
    | IncMainYGimbal(ctrl: int, mode: int)
    | IncScramGimbal(ctrl: int, mode: int)
    | ShiftHoverBalance(mode: int)
    | SetNavlight(on: bool)
    | SetBeacon(on: bool)
    | SetStrobe(on: bool)
    | SetDockingLight(on: bool)
    | ActivateRadiator(action: DoorStatus)
    | ActivateRCover(action: DoorStatus)
    | ActivateHatch(action: DoorStatus)
    | ActivateLadder(action: DoorStatus)
    | ActivateLandingGear(action: DoorStatus)
    | ActivateDockingPort(action: DoorStatus)
    | MWSReset
    | Undock(port: int)

  /** The vessel's discrete state as the widgets see it. beaconState[i] is what
      GetBeaconState(i) answers, mwsActive what MWSActive() answers. */
  class Scout {
    var mpgimbalidx: seq<int>
    var mpswitch: seq<int>
    var mpmode: int
    var mygimbalidx: seq<int>
    var myswitch: seq<int>
    var mymode: int
    var hbalanceidx: int
    var hbswitch: int
    var hbmode: int
    var scgimbalidx: seq<int>
    var sgswitch: seq<int>
    var spmode: int
    var gearStatus: DoorStatus
    var noseStatus: DoorStatus
    var radiatorStatus: DoorStatus
    var rcoverStatus: DoorStatus
    var hatchStatus: DoorStatus
    var ladderStatus: DoorStatus
    var beaconState: seq<bool>
    var mwsActive: bool
    /** Every request the widgets have made, oldest first. */
    var log: seq<Request>

    /** The per-engine arrays have two entries and there are four beacons. */
    ghost predicate Valid()
      reads this
    {
      && |mpgimbalidx| == 2 && |mpswitch| == 2
      && |mygimbalidx| == 2 && |myswitch| == 2
      && |scgimbalidx| == 2 && |sgswitch| == 2
      && |beaconState| == 4
    }
  }
}
