/** The sixteen digital buttons of the controller and their wire indices. */
module ButtonIds {

  /** One constructor per physical button, in the order the enable flags are declared. */
  datatype ButtonId =
    | AnalogJoyClick
    | LeftGrip
    | SteamButton
    | LeftTrackpad
    | LeftTrigger
    | LeftBumper
    | FrontLeft
    | FrontRight
    | RightTrackpad
    | YButton
    | RightTrigger
    | RightBumper
    | RightGrip
    | BButton
    | XButton
    | AButton

  const BUTTON_COUNT: nat := 16

  /** The stable index of a button: its position among the enable flags. */
  function Index(b: ButtonId): (i: nat)
    ensures i < BUTTON_COUNT
  {
    match b
    case AnalogJoyClick => 0
    case LeftGrip => 1
    case SteamButton => 2
    case LeftTrackpad => 3
    case LeftTrigger => 4
    case LeftBumper => 5
    case FrontLeft => 6
    case FrontRight => 7
    case RightTrackpad => 8
    case YButton => 9
    case RightTrigger => 10
    case RightBumper => 11
    case RightGrip => 12
    case BButton => 13
    case XButton => 14
    case AButton => 15
  }

  /** Distinct buttons have distinct indices, so an index names at most one button. */
  lemma IndexInjective(a: ButtonId, b: ButtonId)
    ensures Index(a) == Index(b) ==> a == b
  {
  }
}
