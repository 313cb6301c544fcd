/**
 The fixed wiring of each button to one GPIO line, given as a (port, pin)
 pair. The table is topology, not configuration: it never changes.
 */
module PinMap {
  import opened Wrappers
  import opened ButtonIds

  /** One GPIO line of the microcontroller. */
  datatype PinIdentity = PinIdentity(port: nat, pin: nat)

  /** The line each button is wired to (buttons.c lines 42-57). */
  function PinOf(b: ButtonId): (p: PinIdentity)
    ensures p.port <= 1 && p.pin < 32
  {
    match b
    case AnalogJoyClick => PinIdentity(1, 0)
    case LeftGrip => PinIdentity(1, 25)
    case SteamButton => PinIdentity(1, 19)
    case LeftTrackpad => PinIdentity(1, 26)
    case LeftTrigger => PinIdentity(1, 27)
    case LeftBumper => PinIdentity(1, 4)
    case FrontLeft => PinIdentity(1, 20)
    case FrontRight => PinIdentity(1, 2)
    case RightTrackpad => PinIdentity(1, 21)
    case YButton => PinIdentity(1, 11)
    case RightTrigger => PinIdentity(1, 13)
    case RightBumper => PinIdentity(1, 14)
    case RightGrip => PinIdentity(1, 3)
    case BButton => PinIdentity(1, 22)
    case XButton => PinIdentity(1, 9)
    case AButton => PinIdentity(0, 17)
  }

  /**
   The button wired to a line, if any: the reverse reading of the wiring
   table, written out independently so that `ButtonAtPinOf` can check the
   round trip against `PinOf`.
   */
  function ButtonAt(p: PinIdentity): (r: Option<ButtonId>)
    ensures r.Some? ==> PinOf(r.value) == p
  {
    if p == PinIdentity(1, 0) then Some(AnalogJoyClick)
    else if p == PinIdentity(1, 25) then Some(LeftGrip)
    else if p == PinIdentity(1, 19) then Some(SteamButton)
    else if p == PinIdentity(1, 26) then Some(LeftTrackpad)
    else if p == PinIdentity(1, 27) then Some(LeftTrigger)
    else if p == PinIdentity(1, 4) then Some(LeftBumper)
    else if p == PinIdentity(1, 20) then Some(FrontLeft)
    else if p == PinIdentity(1, 2) then Some(FrontRight)
    else if p == PinIdentity(1, 21) then Some(RightTrackpad)
    else if p == PinIdentity(1, 11) then Some(YButton)
    else if p == PinIdentity(1, 13) then Some(RightTrigger)
    else if p == PinIdentity(1, 14) then Some(RightBumper)
    else if p == PinIdentity(1, 3) then Some(RightGrip)
    else if p == PinIdentity(1, 22) then Some(BButton)
    else if p == PinIdentity(1, 9) then Some(XButton)
    else if p == PinIdentity(0, 17) then Some(AButton)
    else None
  }

  /** Every button's line leads back to that button. */
  lemma ButtonAtPinOf(b: ButtonId)
    ensures ButtonAt(PinOf(b)) == Some(b)
  {
  }

  /** No two buttons share a line: the wiring table is injective. */
  lemma PinOfInjective(a: ButtonId, b: ButtonId)
    ensures PinOf(a) == PinOf(b) ==> a == b
  {
  }

  /** A line is wired to some button exactly when it is one of the sixteen table entries. */
  lemma ButtonAtComplete(p: PinIdentity)
    ensures ButtonAt(p).Some? <==> exists b :: PinOf(b) == p
  {
  }
}
