# Steam Controller digital buttons: enable registry and gated queries

A Dafny model of the button layer of the OpenSteamController firmware
(`buttons.c`). The controller has sixteen digital buttons. Each is wired to
one active-low GPIO line and has an enable flag. All flags start set. At
start-up `initButtons` runs a sixteen-step loop. Each step reads 8 bytes at
the fixed EEPROM offset of the options area, then runs a `switch` that clears
the flag of the button whose index (0-15) it matches and ignores any other
value. As written, the `switch` inspects the low byte of the buffer's address
rather than a byte read from the EEPROM (see Findings). The main model,
`Initialiser.InitButtons`, is the source's fixed-offset loop with the intended
first-byte decoding. `Initialiser.InitAsWritten` models the switch as written.
After start-up, each `get*State` query reports a button as pressed when its
flag is set and its line reads low.

Layout, one module per component:

- `wrappers.dfy` (`Wrappers`): `Option`.
- `eeprom.dfy` (`Eeprom`): the `byte` type, the store as a total map from offset to byte, `OPTIONS_OFFSET` (0x100), the 8-byte read length.
- `button_ids.dfy` (`ButtonIds`): the sixteen buttons. A button's index is the position of its enable flag among the flag declarations.
- `pin_map.dfy` (`PinMap`): the fixed (port, pin) wiring table and its inverse.
- `registry.dfy` (`EnableRegistry`): the 16-entry flag sequence, the decoder's `switch`, and the fold of the decoder over a sequence of values.
- `init.dfy` (`Initialiser`): three versions of the start-up loop. The source's loop reads a fixed offset. A corrected loop advances one record per step. A third version models the switch as written, on the pointer's low byte.
- `query.dfy` (`ButtonQuery`): the generic gated query and the sixteen per-button queries, each with its own flag slot and line literal.

Modelling choices:

- The EEPROM read and the GPIO read are foreign calls. They become parameters: a `Store` (offset to byte) and a `PinLevels` oracle (line to level, where true means electrically high).
- The C flags and the query results are `int` values 0/1. Here they are `bool`.
- By its evident intent, the decoder reads the first byte returned by the read. The switch as written is a separate model: see Findings.
- The main model (`InitButtons`) keeps the source's fixed read offset. `InitButtonsAdvancing` is the corrected loop. Its record stride is the read length, 8 bytes. The source never defines a record layout, so this stride is a choice made by the model.

## Model

| member | source | states |
|---|---|---|
| `ButtonIds.Index` | Firmware/OpenSteamController/src/buttons.c:61-76 | every button has an index below sixteen, its position among the enable flags |
| `ButtonIds.IndexInjective` | Firmware/OpenSteamController/src/buttons.c:61-76 | distinct buttons have distinct indices |
| `PinMap.PinOf` | Firmware/OpenSteamController/src/buttons.c:42-57 | every button is wired to a line on port 0 or 1 with pin number below 32 |
| `PinMap.ButtonAt` | Firmware/OpenSteamController/src/buttons.c:42-57 | reading the table backwards: a line attributed to a button is that button's line |
| `PinMap.ButtonAtPinOf` | Firmware/OpenSteamController/src/buttons.c:42-57 | every button's line leads back to that same button (round trip of the table) |
| `PinMap.PinOfInjective` | Firmware/OpenSteamController/src/buttons.c:42-57 | the sixteen lines are pairwise distinct, so no two buttons share a line |
| `PinMap.ButtonAtComplete` | Firmware/OpenSteamController/src/buttons.c:42-57 | a line belongs to some button exactly when it is one of the sixteen table entries |
| `EnableRegistry.AllEnabled` | Firmware/OpenSteamController/src/buttons.c:61-76 | before any configuration every one of the sixteen buttons is enabled |
| `EnableRegistry.SwitchTarget` | Firmware/OpenSteamController/src/buttons.c:124-173 | the switch matches a value exactly when it is below 16, and case `k` targets the button with index `k`; values 16-255 match no case |
| `EnableRegistry.SwitchTargetByteOf` | Firmware/OpenSteamController/src/buttons.c:124-173 | each button's index selects that button in the switch (case labels agree with the flag order) |
| `EnableRegistry.ByteOfInjective` | Firmware/OpenSteamController/src/buttons.c:124-173 | no two buttons are disabled by the same value |
| `EnableRegistry.Extensionality` | Firmware/OpenSteamController/src/buttons.c:61-76 | a registry is determined by its sixteen per-button flags: one flag per button, nothing else |
| `EnableRegistry.ApplyByte` | Firmware/OpenSteamController/src/buttons.c:124-173 | decoding `v` clears exactly the flag of the button with index `v` and leaves the other fifteen as they were; a value from 16 to 255 leaves the registry unchanged |
| `EnableRegistry.Configure` | Firmware/OpenSteamController/src/buttons.c:121-174 | after decoding a sequence, a button is enabled exactly when it was enabled before and its index occurs nowhere in the sequence |
| `EnableRegistry.ApplyByteIdempotent` | Firmware/OpenSteamController/src/buttons.c:125-172 | decoding the same value twice equals decoding it once |
| `EnableRegistry.ConfigureOnlyClears` | Firmware/OpenSteamController/src/buttons.c:125-172 | decoding never sets a flag: a button enabled afterwards was enabled before |
| `EnableRegistry.ConfigurePrefixMonotone` | Firmware/OpenSteamController/src/buttons.c:121-174 | enabled-ness is non-increasing along the loop: enabled after `j` steps implies enabled after any `i <= j` steps |
| `EnableRegistry.ConfigureIdempotent` | Firmware/OpenSteamController/src/buttons.c:121-174 | running the decoding over its own result again changes nothing |
| `EnableRegistry.ConfigureDependsOnlyOnValues` | Firmware/OpenSteamController/src/buttons.c:121-174 | the outcome depends only on which values occur, not on order or repetition |
| `EnableRegistry.RepeatedByte` | Firmware/OpenSteamController/src/buttons.c:121-174 | decoding one value any positive number of times equals decoding it once |
| `EnableRegistry.RepeatedByteDisablesAtMostOne` | Firmware/OpenSteamController/src/buttons.c:121-174 | if every iteration decodes the same value, at most one button ends up disabled |
| `Initialiser.DecodeRecord` | Firmware/OpenSteamController/src/buttons.c:123-124 | the value decoded from a record is the byte stored at the record's offset, the first byte of the 8-byte read |
| `Initialiser.FixedOffsetRecords` | Firmware/OpenSteamController/src/buttons.c:121-123 | the source's loop decodes 16 values, each the byte at `OPTIONS_OFFSET`, because every read uses that same offset |
| `Initialiser.AdvancingRecords` | Firmware/OpenSteamController/src/buttons.c:121-123 | in the corrected loop, iteration `k` decodes the byte at `OPTIONS_OFFSET + 8k` |
| `Initialiser.InitButtons` | Firmware/OpenSteamController/src/buttons.c:120-176 | the loop performs exactly 16 reads, all at `OPTIONS_OFFSET`, starts from all enabled and folds the decoder over the values; a button ends up disabled exactly when its index is the byte stored at `OPTIONS_OFFSET` |
| `Initialiser.InitButtonsAdvancing` | Firmware/OpenSteamController/src/buttons.c:120-176 | corrected loop: exactly 16 reads at successive record offsets; a button ends up disabled exactly when its index is stored in one of the sixteen records |
| `Initialiser.FixedOffsetDisablesAtMostOne` | Firmware/OpenSteamController/src/buttons.c:121-124 | because every iteration reads `OPTIONS_OFFSET`, at most one button is ever disabled, whatever the store holds |
| `Initialiser.FixedOffsetCounterexample` | Firmware/OpenSteamController/src/buttons.c:121-124 | records 2 and 9 at the first two record offsets: the source's loop disables Steam but not Y, the corrected loop disables Y as well |
| `Initialiser.AnySubsetConfigurable` | Firmware/OpenSteamController/src/buttons.c:121-174 | with the corrected loop, every set of buttons is exactly the disabled set for some store contents |
| `Initialiser.InitAsWritten` | Firmware/OpenSteamController/src/buttons.c:120-174 | the switch as written, on the pointer's low byte: the disabled button, if any, is the one whose index equals the buffer address modulo 256, whatever the store holds |
| `Initialiser.PointerCastCounterexample` | Firmware/OpenSteamController/src/buttons.c:123-124 | with Steam configured as disabled and the buffer at 0x10000408, the as-written switch disables the right trackpad and leaves Steam enabled, while decoding the byte read disables Steam |
| `Initialiser.AlignedBufferDisables` | Firmware/OpenSteamController/src/buttons.c:120-124 | when the buffer address is a multiple of 8, the as-written switch can only disable the joystick click or the right trackpad, whatever the store holds |
| `ButtonQuery.DisabledNeverPressed` | Firmware/OpenSteamController/src/buttons.c:182-289 | a disabled button reports not pressed whatever its line level |
| `ButtonQuery.EnabledMirrorsPin` | Firmware/OpenSteamController/src/buttons.c:182-289 | an enabled button reports pressed exactly when its line reads low (active-low) |
| `ButtonQuery.QueryReadsOwnPinOnly` | Firmware/OpenSteamController/src/buttons.c:182-289 | a query's answer depends on no line except the button's own |
| `ButtonQuery.OtherButtonsUnaffected` | Firmware/OpenSteamController/src/buttons.c:182-289 | changing one button's line level changes no other button's report |
| `ButtonQuery.ConfiguredQuery` | Firmware/OpenSteamController/src/buttons.c:121-289 | after configuration from all-enabled, a button reports pressed exactly when its index was not decoded and its line reads low |
| `ButtonQuery.SteamAndYScenario` | Firmware/OpenSteamController/src/buttons.c:121-289 | records [2, 9, 0xFF, ...] via the corrected loop: Steam and Y never report pressed, even with the line low, and every other button mirrors its inverted line |
| `ButtonQuery.SteamButtonState` | Firmware/OpenSteamController/src/buttons.c:182-184 | the Steam query (its flag, line P1_19) is the gated query for the Steam button in the wiring table |
| `ButtonQuery.FrontLeftButtonState` | Firmware/OpenSteamController/src/buttons.c:189-191 | the front-left query (its flag, line P1_20) is the gated query for FrontLeft |
| `ButtonQuery.FrontRightButtonState` | Firmware/OpenSteamController/src/buttons.c:196-198 | the front-right query (its flag, line P1_2) is the gated query for FrontRight |
| `ButtonQuery.JoyClickState` | Firmware/OpenSteamController/src/buttons.c:203-205 | the joystick-click query (its flag, line P1_0) is the gated query for AnalogJoyClick |
| `ButtonQuery.XButtonState` | Firmware/OpenSteamController/src/buttons.c:210-212 | the X query (its flag, line P1_9) is the gated query for XButton |
| `ButtonQuery.YButtonState` | Firmware/OpenSteamController/src/buttons.c:217-219 | the Y query (its flag, line P1_11) is the gated query for YButton |
| `ButtonQuery.BButtonState` | Firmware/OpenSteamController/src/buttons.c:224-226 | the B query (its flag, line P1_22) is the gated query for BButton |
| `ButtonQuery.AButtonState` | Firmware/OpenSteamController/src/buttons.c:231-233 | the A query (its flag, line P0_17) is the gated query for AButton |
| `ButtonQuery.RightGripState` | Firmware/OpenSteamController/src/buttons.c:238-240 | the right-grip query (its flag, line P1_3) is the gated query for RightGrip |
| `ButtonQuery.LeftGripState` | Firmware/OpenSteamController/src/buttons.c:245-247 | the left-grip query (its flag, line P1_25) is the gated query for LeftGrip |
| `ButtonQuery.RightTrackpadClickState` | Firmware/OpenSteamController/src/buttons.c:252-254 | the right-trackpad query (its flag, line P1_21) is the gated query for RightTrackpad |
| `ButtonQuery.LeftTrackpadClickState` | Firmware/OpenSteamController/src/buttons.c:259-261 | the left-trackpad query (its flag, line P1_26) is the gated query for LeftTrackpad |
| `ButtonQuery.RightTriggerState` | Firmware/OpenSteamController/src/buttons.c:266-268 | the right-trigger query (its flag, line P1_13) is the gated query for RightTrigger |
| `ButtonQuery.LeftTriggerState` | Firmware/OpenSteamController/src/buttons.c:273-275 | the left-trigger query (its flag, line P1_27) is the gated query for LeftTrigger |
| `ButtonQuery.RightBumperState` | Firmware/OpenSteamController/src/buttons.c:280-282 | the right-bumper query (its flag, line P1_14) is the gated query for RightBumper |
| `ButtonQuery.LeftBumperState` | Firmware/OpenSteamController/src/buttons.c:287-289 | the left-bumper query (its flag, line P1_4) is the gated query for LeftBumper |

## Left out

- Pin multiplexer setup (`Chip_IOCON_PinMux`, buttons.c lines 86-117): hardware register configuration with no observable behaviour in this model.
- The EEPROM read primitive `eepromRead` is a foreign call. It is replaced by a total `Store`. Its status result, which the source ignores, is not modelled. So a failing read, and the "skip the record on read failure" policy a redesign might adopt, are outside the model.
- `malloc`/`free` of the read buffer, and the 8-byte read into a `sizeof(int)` buffer (lines 120, 123, 176). This is a raw-memory overflow. The model abstracts the buffer as the first byte read and does not model what the overflow overwrites.
- `Chip_GPIO_ReadPortBit` is a foreign hardware read. It becomes the `PinLevels` oracle, which each query reads at most once. C's `&&` short-circuits, so the line of a disabled button is never read. The model evaluates the same boolean and does not track whether the read happened.
- The console command `buttonsCmdFnc` and `buttonsCmdUsage` (lines 296-354): printf output, USB polling, `usleep` timing and an interactive loop.
- `Initialiser.InitAsWritten` treats the `(uint8_t)` conversion of the pointer as keeping the address modulo 256. The C standard makes pointer-to-integer conversion implementation-defined, and undefined when the value does not fit. The model assumes the truncating conversion GCC documents.
- The C `int` flags and `int` query results are modelled as `bool`. The C values are only ever 0 or 1.
- `initButtons` never resets the flags, so a second call decodes on top of the flags left by the first. The init methods model a single call from the all-enabled defaults. `EnableRegistry.Configure` works from any starting registry, and `EnableRegistry.ConfigureIdempotent` shows that decoding the same values again over the result changes nothing. So a second call with an unchanged store leaves the registry unchanged.

## Findings

| source | as written | input that shows it | evidently intended | confidence | as-written member | corrected member |
|---|---|---|---|---|---|---|
| Firmware/OpenSteamController/src/buttons.c:124 | `switch((uint8_t)ptr)` inspects the low byte of the buffer's address, not the byte read from the EEPROM | EEPROM byte 2 at 0x100 (disable Steam) with the buffer allocated at 0x10000408: the right trackpad (index 8) is disabled and Steam stays enabled; with an 8-byte-aligned buffer only the joystick click or the right trackpad can ever be disabled | switch on the first byte read into the buffer | high; not executed | `Initialiser.InitAsWritten`, `Initialiser.PointerCastCounterexample`, `Initialiser.AlignedBufferDisables` | `Initialiser.InitButtons` |
| Firmware/OpenSteamController/src/buttons.c:123 | every one of the 16 iterations reads the same offset `OPTIONS_OFFSET`, so all iterations decode the same byte | records 2 and 9 at 0x100 and 0x108: only Steam is disabled, Y stays enabled; no store contents disable two buttons | iteration `k` reads the record at `OPTIONS_OFFSET + 8k`, so any set of buttons can be disabled | high; not executed | `Initialiser.InitButtons`, `Initialiser.FixedOffsetDisablesAtMostOne`, `Initialiser.FixedOffsetCounterexample` | `Initialiser.InitButtonsAdvancing`, `Initialiser.AnySubsetConfigurable` |
