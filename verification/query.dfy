/**
 The button query layer: each button is reported pressed when its enable flag
 is set and its active-low line reads low. The line level is an oracle
 standing for the GPIO read.
 */
module ButtonQuery {
  import opened Eeprom
  import opened ButtonIds
  import opened PinMap
  import opened EnableRegistry
  import opened Initialiser

  /** Electrical level of every line at the moment of the query: true is high. */
  type PinLevels = PinIdentity -> bool

  /** The gated query for any button, through the wiring table. */
  function IsPressed(reg: Registry, level: PinLevels, b: ButtonId): bool
  {
    Enabled(reg, b) && !level(PinOf(b))
  }

  /** A disabled button reports not pressed, whatever its line reads. */
  lemma DisabledNeverPressed(reg: Registry, level: PinLevels, b: ButtonId)
    requires !Enabled(reg, b)
    ensures !IsPressed(reg, level, b)
  {
  }

  /** An enabled button reports pressed exactly when its line reads low. */
  lemma EnabledMirrorsPin(reg: Registry, level: PinLevels, b: ButtonId)
    requires Enabled(reg, b)
    ensures IsPressed(reg, level, b) <==> !level(PinOf(b))
  {
  }

  /** A query depends on no line but the button's own. */
  lemma QueryReadsOwnPinOnly(reg: Registry, level: PinLevels, level': PinLevels, b: ButtonId)
    requires level(PinOf(b)) == level'(PinOf(b))
    ensures IsPressed(reg, level, b) == IsPressed(reg, level', b)
  {
  }

  /**
   Changing the level of one button's line changes no other button's report:
   a consequence of every button having a line of its own.
   */
  lemma OtherButtonsUnaffected(reg: Registry, level: PinLevels, b: ButtonId, high: bool, c: ButtonId)
    requires c != b
    ensures IsPressed(reg, (p: PinIdentity) => if p == PinOf(b) then high else level(p), c)
      == IsPressed(reg, level, c)
  {
  }

  /**
   After decoding `vs` from the default registry, a button whose byte does not
   occur reports its inverted line level, and one whose byte occurs never
   reports pressed.
   */
  lemma ConfiguredQuery(vs: seq<byte>, level: PinLevels, b: ButtonId)
    ensures IsPressed(Configure(AllEnabled(), vs), level, b) <==> ByteOf(b) !in vs && !level(PinOf(b))
  {
  }

  /**
   Records [2, 9, 0xFF, ...] through the corrected loop: Steam never reports
   pressed even with its line low, and every button but Steam and Y reports
   its inverted line level.
   */
  lemma SteamAndYScenario(level: PinLevels, b: ButtonId)
    ensures !IsPressed(Configure(AllEnabled(), AdvancingRecords(SteamAndYStore())), level, SteamButton)
    ensures !IsPressed(Configure(AllEnabled(), AdvancingRecords(SteamAndYStore())), level, YButton)
    ensures b != SteamButton && b != YButton ==>
      (IsPressed(Configure(AllEnabled(), AdvancingRecords(SteamAndYStore())), level, b) <==> !level(PinOf(b)))
  {
    var store := SteamAndYStore();
    var vs := AdvancingRecords(store);
    assert vs[0] == 2;
    assert vs[1] == 9;
    if b != SteamButton && b != YButton {
      SwitchTargetByteOf(b);
      forall k | 0 <= k < |vs| ensures vs[k] != ByteOf(b) {
        if k >= 2 {
          assert RecordOffset(k) != RecordOffset(0) && RecordOffset(k) != RecordOffset(1);
        }
      }
    }
  }

  /** Steam button (flag 2, line P1_19). */
  function SteamButtonState(reg: Registry, level: PinLevels): (pressed: bool)
    ensures pressed == IsPressed(reg, level, SteamButton)
  {
    reg[2] && !level(PinIdentity(1, 19))
  }

  /** Front left arrow (flag 6, line P1_20). */
  function FrontLeftButtonState(reg: Registry, level: PinLevels): (pressed: bool)
    ensures pressed == IsPressed(reg, level, FrontLeft)
  {
    reg[6] && !level(PinIdentity(1, 20))
  }

  /** Front right arrow (flag 7, line P1_2). */
  function FrontRightButtonState(reg: Registry, level: PinLevels): (pressed: bool)
    ensures pressed == IsPressed(reg, level, FrontRight)
  {
    reg[7] && !level(PinIdentity(1, 2))
  }

  /** Analog joystick click (flag 0, line P1_0). */
  function JoyClickState(reg: Registry, level: PinLevels): (pressed: bool)
    ensures pressed == IsPressed(reg, level, AnalogJoyClick)
  {
    reg[0] && !level(PinIdentity(1, 0))
  }

  /** X button (flag 14, line P1_9). */
  function XButtonState(reg: Registry, level: PinLevels): (pressed: bool)
    ensures pressed == IsPressed(reg, level, XButton)
  {
    reg[14] && !level(PinIdentity(1, 9))
  }

  /** Y button (flag 9, line P1_11). */
  function YButtonState(reg: Registry, level: PinLevels): (pressed: bool)
    ensures pressed == IsPressed(reg, level, YButton)
  {
    reg[9] && !level(PinIdentity(1, 11))
  }

  /** B button (flag 13, line P1_22). */
  function BButtonState(reg: Registry, level: PinLevels): (pressed: bool)
    ensures pressed == IsPressed(reg, level, BButton)
  {
    reg[13] && !level(PinIdentity(1, 22))
  }

  /** A button (flag 15, line P0_17). */
  function AButtonState(reg: Registry, level: PinLevels): (pressed: bool)
    ensures pressed == IsPressed(reg, level, AButton)
  {
    reg[15] && !level(PinIdentity(0, 17))
  }

  /** Inner right grip (flag 12, line P1_3). */
  function RightGripState(reg: Registry, level: PinLevels): (pressed: bool)
    ensures pressed == IsPressed(reg, level, RightGrip)
  {
    reg[12] && !level(PinIdentity(1, 3))
  }

  /** Inner left grip (flag 1, line P1_25). */
  function LeftGripState(reg: Registry, level: PinLevels): (pressed: bool)
    ensures pressed == IsPressed(reg, level, LeftGrip)
  {
    reg[1] && !level(PinIdentity(1, 25))
  }

  /** Right trackpad click (flag 8, line P1_21). */
  function RightTrackpadClickState(reg: Registry, level: PinLevels): (pressed: bool)
    ensures pressed == IsPressed(reg, level, RightTrackpad)
  {
    reg[8] && !level(PinIdentity(1, 21))
  }

  /** Left trackpad click (flag 3, line P1_26). */
  function LeftTrackpadClickState(reg: Registry, level: PinLevels): (pressed: bool)
    ensures pressed == IsPressed(reg, level, LeftTrackpad)
  {
    reg[3] && !level(PinIdentity(1, 26))
  }

  /** Right digital trigger (flag 10, line P1_13). */
  function RightTriggerState(reg: Registry, level: PinLevels): (pressed: bool)
    ensures pressed == IsPressed(reg, level, RightTrigger)
  {
    reg[10] && !level(PinIdentity(1, 13))
  }

  /** Left digital trigger (flag 4, line P1_27). */
  function LeftTriggerState(reg: Registry, level: PinLevels): (pressed: bool)
    ensures pressed == IsPressed(reg, level, LeftTrigger)
  {
    reg[4] && !level(PinIdentity(1, 27))
  }

  /** Right bumper (flag 11, line P1_14). */
  function RightBumperState(reg: Registry, level: PinLevels): (pressed: bool)
    ensures pressed == IsPressed(reg, level, RightBumper)
  {
    reg[11] && !level(PinIdentity(1, 14))
  }

  /** Left bumper (flag 5, line P1_4). */
  function LeftBumperState(reg: Registry, level: PinLevels): (pressed: bool)
    ensures pressed == IsPressed(reg, level, LeftBumper)
  {
    reg[5] && !level(PinIdentity(1, 4))
  }
}
