# BlynkTank: the IR byte link and the tank's game state, in Dafny

BlynkTank is the firmware of a toy tank on an ESP8266 board. The tank is
driven over Blynk. It "shoots" by sending its one-byte id over a 38 kHz
infrared link, and it counts the hits it receives from other tanks.

This project models two source files:

- **`BlynkTank/CIR.cpp`, the IR byte link.** Each byte goes out as an
  11-bit frame. The frame holds a start bit 1, the eight data bits least
  significant first, an even-parity bit and a stop bit 1. The `sendData`
  ticker shifts the frame out over 12 bit periods.
  - On the receive side, a falling edge starts a session
    (`beginReceivingData`). The session starts only while the one-slot
    mailbox `rxBuffer` holds NO_VALID_DATA (-1).
  - The `receiveData` ticker then adds ten inverted samples into an
    accumulator. Afterwards it checks the parity and stop samples, and
    either commits the byte or writes NO_VALID_DATA and re-attaches the
    edge interrupt.
  - `available` reports whether a byte is waiting, and `receiveByte`
    takes it out of the mailbox, clearing it and re-attaching the edge
    interrupt. `transmitCarrier` switches a steady carrier on or off.
- **`BlynkTank/CTank.cpp`, the tank.**
  - The saturating hit-point and ammunition arithmetic.
  - The `shoot` guard.
  - The motor and turret mappings: `moveTank`, `moveTurretDegree` and
    `moveTurret_us`.
  - The port check of `getBlynkPort`.
  - The line-by-line readers of the two configuration files, with their
    defaults.

Modules, in dependency order:

| file | module | contents |
|---|---|---|
| bits.dfy | Bits | shifts, bits and the sample accumulator on naturals |
| ir_frame.dfy | IRFrame | parity, the frame, the receiver's verdict, and the round-trip and error-detection lemmas |
| ir_state.dfy | IRState | the link's registers as values, the invariants, one step of each ticker, and whole sessions |
| cir.dfy | CIR | the class `IRLink`, with one event method per ticker or interrupt plus the public API |
| scenarios.dfy | LinkScenarios | two links driven bit period by bit period |
| cstrings.dfy | CStrings | `atol`/`atoi`, `printf("%u")`, `startsWith`, `replace(tag, "")` and `uint16_t` |
| config.dfy | Config | the configuration files as lines, the generic tag-dispatch loop, the defaults and the round trips |
| tank_drive.dfy | TankDrive | `moveTank`, `moveTurretDegree` and `moveTurret_us` as functions of their inputs |
| tank.dfy | Tank | the class `CTank`: game state, `shoot`, `getHitCode` and the two configuration readers |

## How the model relates to the code

**Timers and interrupts become events.** The tickers and the pin interrupt
are explicit event methods of `IRLink`:

- `TxTick` (the transmit ticker fires);
- `RxTick(sample)` (the receive ticker fires, and `sample` is
  `!digitalRead(rxPin)`);
- `Edge` (a falling edge on the receive pin).

Whether a ticker or the interrupt is attached is a boolean field. An event
whose ticker or interrupt is detached changes nothing. The pin level the
transmitter writes is the field `txLevel`.

**The channel is an assumption.** The model assumes how the link between
two tanks lines up; it does not prove it. The receiver's edge comes with
the transmitter's start bit. After the 500 µs settling delay and the 1 ms
tick (CIR.cpp:49,52), receive sample i is transmit bit i + 1.
`CleanSamples(b)` is that view of the frame, and
`LinkScenarios.BitPeriod` encodes the same assumption as one transmit tick
followed by one receive tick that samples the written level.

**Integers.** Integers are unbounded. Shifts are halvings and powers of
two. Where the C code narrows a value, the narrowing is written out:

- `uint8_t` arithmetic uses `% 256`, and the proof shows it never wraps;
- `atoi`'s result stored in a `uint16_t` is `ToU16`, that is `% 0x1_0000`;
- `atol` clamps to the 32-bit `long` range.

**Configuration files are sequences of lines.** A file is modelled as the
lines `readStringUntil('\n')` returns. The contents the writers print are
modelled, so the round trips can be stated.

**Two behaviours of the link worth knowing:**

- **Carrier on, then a send.** With the carrier on, `sendByte` does not
  refuse. It calls `transmitCarrier(false)` (CIR.cpp:103-104) and sends.
  That call is refused while a receive session is running
  (CIR.cpp:129-130), and then the carrier flag stays set and the output
  stays at the carrier level until the first transmit tick. With no
  receive session running the carrier is switched off and the edge
  interrupt re-attached. `LinkScenarios.CarrierThenSend` proves the second
  case.
- **Send and receive can overlap.** Sending and receiving are not mutually
  exclusive. `sendByte` leaves the edge interrupt attached, so an edge
  during a send starts a receive session, and only `transmitCarrier`
  checks both busy flags. `LinkScenarios.EdgeDuringSend` proves this.

## Model

| member | source | states |
|---|---|---|
| Bits.ValueAppend | BlynkTank/CIR.cpp:18-21 | one more sample `x` adds `x << n` to an accumulator of n samples |
| Bits.BitOfValue | BlynkTank/CIR.cpp:17-21 | bit i of the accumulator is exactly sample i, and 0 above the samples: each position is hit once |
| Bits.ShrStep | BlynkTank/CIR.cpp:63 | one more right shift of the register halves it |
| IRFrame.TxParity | BlynkTank/CIR.cpp:106-110 | the counting loop of `sendByte` yields the even-parity bit of the byte: 1 exactly when the byte has an odd number of set bits |
| IRFrame.Parity | BlynkTank/CIR.cpp:106-110 | the parity bit is 0 or 1 and makes the number of ones among the data bits and itself even |
| IRFrame.RxParity | BlynkTank/CIR.cpp:24-30 | the counting loop of `receiveData` yields the same parity bit |
| IRFrame.Frame | BlynkTank/CIR.cpp:111-114 | the frame fits in 11 bits |
| IRFrame.FrameLayout | BlynkTank/CIR.cpp:113-114 | frame bit 0 is 1, bits 1 to 8 are the data bits least significant first, bit 9 is the parity, bit 10 is 1, and every higher bit is 0 |
| IRFrame.FrameHasEvenParity | BlynkTank/CIR.cpp:106-114 | the data bits and the parity bit of a frame hold an even number of ones |
| IRFrame.Decode | BlynkTank/CIR.cpp:22-41 | the receiver's verdict on a complete accumulator is NO_VALID_DATA or its low byte |
| IRFrame.CleanSampleBit | BlynkTank/CIR.cpp:46-52 | on an aligned clean channel, receive sample i is frame bit i + 1 |
| IRFrame.CleanAccumulator | BlynkTank/CIR.cpp:17-21 | a clean channel delivers the accumulator `(Frame(b) >> 1) & 0x3FF`: the byte, its parity at bit 8 and the stop bit at bit 9 |
| IRFrame.RoundTrip | BlynkTank/CIR.cpp:24-41 | the receiver commits exactly the byte that was framed, and that value is never NO_VALID_DATA |
| IRFrame.AcceptedFields | BlynkTank/CIR.cpp:24-41 | samples accepted as byte b start with b's eight data bits, then b's parity, then a stop sample of 1 |
| IRFrame.DecodeAccepted | BlynkTank/CIR.cpp:24-41 | ten samples accepted as byte b are the clean samples of b |
| IRFrame.DecodeExact | BlynkTank/CIR.cpp:24-41 | ten samples decode to b if and only if they are the clean samples of b |
| IRFrame.NoCleanNeighbour | BlynkTank/CIR.cpp:106-114 | flipping one sample of a clean frame never gives another clean frame |
| IRFrame.FlippedParity | BlynkTank/CIR.cpp:106-114 | flipping the parity sample never gives a clean frame |
| IRFrame.FlippedData | BlynkTank/CIR.cpp:106-114 | flipping one data sample never gives a clean frame |
| IRFrame.SingleFlipRejected | BlynkTank/CIR.cpp:31-40 | a clean frame with any single data, parity or stop sample flipped is rejected with NO_VALID_DATA |
| IRState.TxLoadInv | BlynkTank/CIR.cpp:111-115 | a freshly loaded 11-bit frame satisfies the transmitter's invariant |
| IRState.TxNext | BlynkTank/CIR.cpp:57-68 | a transmit tick never changes the frame and only appends to the bits emitted: one bit, the register's low bit, per tick during a session; a detached ticker changes nothing and is never re-attached by a tick |
| IRState.TxNextInv | BlynkTank/CIR.cpp:57-68 | a transmit tick keeps the transmitter's invariant: the register is the frame shifted by the bits sent, the bits sent are the frame's low bits, and an idle register is 0. The bit it emits is the frame's next bit |
| IRState.RxNext | BlynkTank/CIR.cpp:17-43 | a receive tick keeps the receiver's invariant (while sampling, the accumulator is the value of the samples and the edge interrupt is detached; otherwise the mailbox holds a byte or NO_VALID_DATA) and records the sample exactly while a session runs |
| IRState.RxNextSample | BlynkTank/CIR.cpp:17-43 | during a session a tick records its sample. Before the 10th, the accumulator is the samples' value. At the 10th, sampling stops, the mailbox holds the verdict, and the edge is re-attached exactly on NO_VALID_DATA |
| IRState.RxNextIdle | BlynkTank/CIR.cpp:17-23 | outside a session a receive tick changes nothing |
| IRState.RxEdge | BlynkTank/CIR.cpp:46-54 | a falling edge keeps the receiver's invariant; it starts a session, with no samples and the interrupt detached, exactly when the interrupt is attached and the mailbox is NO_VALID_DATA, and otherwise changes nothing |
| IRState.TxRunInv | BlynkTank/CIR.cpp:57-68 | during a session each tick advances the bit counter by one, and the ticker stays attached until bit 12 |
| IRState.TxSession | BlynkTank/CIR.cpp:57-68 | the 12 ticks after `sendByte` emit frame bits 0 to 11 in order, then leave the ticker detached and the register 0. Bits 1 to 10 are the clean samples |
| IRState.RxRunSession | BlynkTank/CIR.cpp:17-43 | after k more samples: before the 10th, the accumulator is the sum of `sample[i] << i`; at the 10th, the mailbox holds the verdict on all ten samples |
| IRState.RxSession | BlynkTank/CIR.cpp:17-54 | a session started by an edge ends after ten samples with the verdict on them in the mailbox, and re-attaches the edge only on NO_VALID_DATA |
| IRState.Transfer | BlynkTank/CIR.cpp:17-54 | end to end: the clean samples of b leave b in the mailbox, and any single corrupted sample leaves NO_VALID_DATA with the edge re-attached |
| CIR.CheckFrame | BlynkTank/CIR.cpp:22-41 | the end-of-frame check of `receiveData` computes Decode of the accumulator |
| CIR.IRLink.constructor | BlynkTank/CIR.cpp:71-84 | output off, edge interrupt attached, mailbox NO_VALID_DATA, carrier off |
| CIR.IRLink.IsSendingData | BlynkTank/CIR.cpp:122-125 | true exactly while the transmit ticker is attached |
| CIR.IRLink.IsReceivingData | BlynkTank/CIR.cpp:175-178 | true exactly while the receive ticker is attached |
| CIR.IRLink.TransmitCarrier | BlynkTank/CIR.cpp:127-143 | refused, with nothing changed, while sending or receiving (for either argument). Otherwise on keys the carrier and detaches the edge, and off clears the output and re-attaches the edge |
| CIR.IRLink.SendByte | BlynkTank/CIR.cpp:96-116 | refused, with nothing changed, while a send is active. Otherwise it loads `Frame(data)` with the bit counter at 0 and starts the ticker, leaving the receive side alone. Carrier mode is switched off (output 0, edge re-attached) only when it was on and no receive session is running; otherwise the carrier flag, the edge flag and the output level are kept |
| CIR.IRLink.TxTick | BlynkTank/CIR.cpp:57-68 | one transmit step: writes the carrier level exactly when the frame's next bit is 1, shifts the register, and detaches after bit 12 |
| CIR.IRLink.Edge | BlynkTank/CIR.cpp:46-54 | one falling edge: starts a session with an empty accumulator only while the interrupt is attached and the mailbox is NO_VALID_DATA |
| CIR.IRLink.RxTick | BlynkTank/CIR.cpp:17-43 | one receive step, as RxNext: accumulate, and at the 10th sample check the frame |
| CIR.IRLink.Available | BlynkTank/CIR.cpp:154-160 | true if and only if the mailbox holds a value other than NO_VALID_DATA and no session is running; that value is then a byte |
| CIR.IRLink.ReceiveByte | BlynkTank/CIR.cpp:162-173 | while receiving it returns NO_VALID_DATA and changes nothing. Otherwise it returns the mailbox; a byte taken out empties the mailbox and re-attaches the edge |
| LinkScenarios.BitPeriod | BlynkTank/CIR.cpp:17-68 | on the aligned channel, one bit period advances the transmitter one tick and feeds the receiver the frame bit just sent |
| LinkScenarios.StartBit | BlynkTank/CIR.cpp:46-116 | the start bit of a send on one link starts a receive session on a fresh second link |
| LinkScenarios.DataBits | BlynkTank/CIR.cpp:17-68 | bit periods 1 to 10 of the frame of b, fed from one link to the other, leave exactly b in the receiver's mailbox with sampling stopped |
| LinkScenarios.Transfer | BlynkTank/CIR.cpp:17-178 | a byte sent by one link is available at the other after the frame, and `receiveByte` returns it once; a second read returns NO_VALID_DATA |
| LinkScenarios.CarrierThenSend | BlynkTank/CIR.cpp:96-143 | with no receive session running, a send with the carrier on succeeds and switches the carrier off, and the carrier is refused until the frame is out |
| LinkScenarios.EdgeDuringSend | BlynkTank/CIR.cpp:46-54 | an edge during a send starts a receive session, so the link is sending and receiving at once, and then carrier mode is refused |
| CStrings.ToU16 | BlynkTank/CTank.cpp:691 | storing an `int` in a `uint16_t` keeps values in range and otherwise reduces modulo 2^16 |
| CStrings.Atol | BlynkTank/CTank.cpp:368 | `atol` always lies within the range of a 32-bit `long` |
| CStrings.ParseLong | BlynkTank/CTank.cpp:368 | what `strtol` reads after the white space always lies within the range of a 32-bit `long` |
| CStrings.AtolOfDecimal | BlynkTank/CTank.cpp:652-699 | a number printed with `%u` and followed by a non-digit is read back by `atoi` as itself |
| CStrings.AtolOfDigits | BlynkTank/CTank.cpp:691 | a run of digits followed by a non-digit reads as the number it denotes, clamped to the range of `long` |
| CStrings.Decimal | BlynkTank/CTank.cpp:652-659 | `%u` prints a nonempty string of digits with no leading zero |
| CStrings.DecimalValueOfDecimal | BlynkTank/CTank.cpp:652-659 | the digits `%u` prints denote the number |
| CStrings.AtolNoDigits | BlynkTank/CTank.cpp:368 | a string without digits reads as 0 |
| CStrings.AtolSkipsSpace | BlynkTank/CTank.cpp:368 | leading white space does not change what `atol` reads |
| CStrings.RemoveAll | BlynkTank/CTank.cpp:562 | `replace(tag, "")` never lengthens the line |
| CStrings.RemoveTag | BlynkTank/CTank.cpp:561-563 | removing the tag from `tag + value` gives the value when the value does not contain the tag |
| CStrings.DecimalHasNoTag | BlynkTank/CTank.cpp:689-699 | no `%u` numeral contains a tag that starts with a non-digit |
| Config.FirstTag | BlynkTank/CTank.cpp:549-588 | the if/else-if chain on `startsWith`: the first tag the line starts with, or none exactly when no tag matches |
| Config.NoWrongVersionCons | BlynkTank/CTank.cpp:547-559 | a file has no wrong version line exactly when its first line is not one and the rest has none |
| Config.ReadLines | BlynkTank/CTank.cpp:547-589 | the line loop of either reader: a wrong version line anywhere in the file gives the defaults, whatever came before |
| Config.ReadLinesAppend | BlynkTank/CTank.cpp:547-589 | reading a file in two parts: the second part continues from where the first left off |
| Config.UnknownLineIgnored | BlynkTank/CTank.cpp:547-589 | a line with no known tag is ignored wherever it stands |
| Config.TagLine | BlynkTank/CTank.cpp:549-588 | a line `tag + value` is dispatched to its own tag when no tag is a prefix of another |
| Config.VersionLine | BlynkTank/CTank.cpp:549-560 | the correct version line changes nothing |
| Config.KeyedTagsPrefixFree | BlynkTank/CTank.cpp:60-72 | tags with pairwise different key characters are prefix free |
| Config.NetworkTagsPrefixFree | BlynkTank/CTank.cpp:60-67 | no network tag is a prefix of another, so dispatch does not depend on the chain's order |
| Config.TankTagsPrefixFree | BlynkTank/CTank.cpp:60-72 | no tank-file tag is a prefix of another |
| Config.StoreNetwork | BlynkTank/CTank.cpp:561-588 | a tagged line sets its own field to the value and leaves the others alone |
| Config.NetworkFileLines | BlynkTank/CTank.cpp:506-536 | the network file has the version line `Version = 1.0.0` first and then one line per field: its tag followed by its value |
| Config.FieldUntouched | BlynkTank/CTank.cpp:547-589 | in either file, lines without a field's tag do not change that field |
| Config.LastLineWins | BlynkTank/CTank.cpp:547-589 | in either file, the last line with a field's tag decides that field: it holds what storing that line with the tag removed gives |
| Config.NetworkLastLineWins | BlynkTank/CTank.cpp:547-589 | the last line with a field's tag wins, and the field is that line with the tag removed |
| Config.NetworkLine | BlynkTank/CTank.cpp:561-588 | one tagged line stores its value in its field |
| Config.NetworkFileSuffix | BlynkTank/CTank.cpp:506-589 | reading the network file's field lines from field k on completes the configuration |
| Config.NetworkRoundTrip | BlynkTank/CTank.cpp:506-593 | reading back the network file gives the configuration it was written from, whatever the reader started from, provided no value contains its own tag or a line break |
| Config.TagInValueLost | BlynkTank/CTank.cpp:561-563 | an SSID that contains the SSID tag loses it when read back, which is why the round trip needs tag-free values |
| Config.DefaultNetworkFile | BlynkTank/CTank.cpp:514-522 | the default network file (DEFAULT_SSID to DEFAULT_BLYNK_TOKEN) reads back as the default network settings |
| Config.ReadNetworkLines | BlynkTank/CTank.cpp:549-559 | a wrong version line in /network.cfg gives the default network settings |
| Config.StoreServo | BlynkTank/CTank.cpp:689-700 | a tagged line of the tank file sets its own field to `atoi` of the value narrowed to `uint16_t`, and leaves the others alone |
| Config.BlynkPort | BlynkTank/CTank.cpp:366-374 | `getBlynkPort` is the parsed number if and only if that number is in [0, 65535], and 0 otherwise |
| Config.BlynkPortOfDecimal | BlynkTank/CTank.cpp:366-374 | a port printed in decimal reads back as itself |
| Config.DefaultBlynkPort | BlynkTank/CTank.cpp:28 | the default port setting "80" gives port 80 |
| Config.ServoLine | BlynkTank/CTank.cpp:689-699 | a line `tag + "%u"` stores the printed number in its field |
| Config.TankFileLines | BlynkTank/CTank.cpp:642-664 | the tank file has the version line `Version = 1.0.0` first and then one line per servo setting: its tag followed by the value printed with `%u` |
| Config.TankFileSuffix | BlynkTank/CTank.cpp:642-705 | reading the tank file's setting lines from setting k on completes the servo configuration |
| Config.TankRoundTrip | BlynkTank/CTank.cpp:642-705 | reading back the tank file gives the servo settings it was written from, whatever the reader started from |
| Config.ReadTankLines | BlynkTank/CTank.cpp:677-687 | a wrong version line in /tank.cfg gives the default servo settings |
| Config.TankLastLineWins | BlynkTank/CTank.cpp:675-701 | the last line with a servo tag wins: the field is `atoi` of that line with the tag removed, narrowed to `uint16_t` |
| Config.DefaultTankFile | BlynkTank/CTank.cpp:650-655 | the default tank file (DEFAULT_SERVO_MIN_US, _MAX_US, _CENTER) reads back as the default servo settings |
| TankDrive.Saturate | BlynkTank/CTank.cpp:180-182 | the speed a motor gets is within the PWM range in either direction |
| TankDrive.MoveTank | BlynkTank/CTank.cpp:150-188 | the duty cycles are in [0, 1023]; a stick inside the deadband stops both motors; the left direction is HIGH iff -x + y < 0 and the right direction is LOW iff x + y < 0 (after the deadband); each motor's signed speed is its mix saturated to 1023 |
| TankDrive.MoveTankMirror | BlynkTank/CTank.cpp:150-188 | mirroring the stick left to right swaps the two motors' speeds |
| TankDrive.MoveTankStraightAndSpin | BlynkTank/CTank.cpp:150-188 | X inside the deadband drives straight (equal speeds); Y inside the deadband spins in place (opposite speeds) |
| TankDrive.MoveTurretDegree | BlynkTank/CTank.cpp:192-201 | the angle written is 180 - clamp(angle, 0, 180), always in [0, 180] |
| TankDrive.MoveTurretDegreeMirror | BlynkTank/CTank.cpp:192-201 | a larger angle never gives a larger servo angle, and angles mirrored about 90 give servo angles mirrored about 90 |
| TankDrive.MoveTurretUs | BlynkTank/CTank.cpp:203-213 | the pulse written is the target position clamped to [500, 2500]: the pulse itself when absolute, servoMax - (us - servoMin) when relative; a target below 500 gives 500 and one above 2500 gives 2500 |
| TankDrive.MoveTurretUsRelative | BlynkTank/CTank.cpp:203-213 | with the limits inside [500, 2500], relative mode maps [min, max] onto itself, reversed: an antitone involution swapping the ends |
| Tank.SatSub | BlynkTank/CTank.cpp:451-458 | hit points after damage d are max(hp - d, 0) |
| Tank.CapAdd | BlynkTank/CTank.cpp:465-481 | a value plus d, capped at the maximum |
| Tank.CTank.constructor | BlynkTank/CTank.cpp:105-143 | creates the IR link, reads both files or falls back to the defaults, and starts with full hit points and ammunition, not reloading |
| Tank.CTank.GotHitByDamage | BlynkTank/CTank.cpp:451-458 | hit points become max(hp - damage, 0) with no wrap-around, are returned, and stay within the maximum |
| Tank.CTank.GotHit | BlynkTank/CTank.cpp:460-463 | a hit with the shot damage `m_ammoDamage` |
| Tank.CTank.RepairTank | BlynkTank/CTank.cpp:465-472 | hit points become min(hp + repairValue, maxHitPoints) and are returned |
| Tank.CTank.NewAmmos | BlynkTank/CTank.cpp:474-481 | ammunition becomes min(ammo + n, maxAmmo) and is returned |
| Tank.CTank.AmmoReloadDone | BlynkTank/CTank.cpp:637-640 | clears the reloading flag and nothing else |
| Tank.CTank.Shoot | BlynkTank/CTank.cpp:215-239 | refused, with nothing changed, without an IR link, while reloading, while sending, or with no ammunition. Otherwise it sends MY_ID (0x53) as `sendByte` does (frame loaded, receive side untouched, carrier switched off only with no receive session running), sets reloading and uses exactly one round |
| Tank.CTank.GetHitCode | BlynkTank/CTank.cpp:394-399 | the waiting byte, taken out of the mailbox, or NO_VALID_DATA with nothing changed |
| Tank.CTank.ReadNetworkConfigFile | BlynkTank/CTank.cpp:538-593 | false with nothing read when the file cannot be opened; otherwise the settings become the line-dispatch fold over the file |
| Tank.CTank.ReadTankConfigFile | BlynkTank/CTank.cpp:666-705 | false with nothing read when the file cannot be opened; otherwise the servo settings become the fold over the file, with `atoi` narrowed to `uint16_t` |

## Left out

- Hardware, timer and interrupt plumbing is not modelled. This covers
  `analogWrite`, `analogWriteFreq`, `pinMode`, `digitalWrite`,
  `attachInterrupt`/`detachInterrupt`, `delayMicroseconds` and the
  `Ticker` scheduling. These become event methods and flags. Real timing
  and preemption of one handler by another are concurrency concerns, not
  modelled.
- The destructor `CIR::~CIR` is not modelled: it only detaches hardware
  handlers.
- `detectCarrier` is a raw pin read. `m_receivedData` is written but never
  read.
- `getBatteryVoltage` uses floating point.
- WiFi, WiFiManager, Blynk and `IPAddress` are not modelled: `wifiConnect`,
  `startHotspot`, `getBlynkIP`, `isBlynkKnownByIP`, the WiFiManager
  callbacks and `getBlynkServer`/`getBlynkToken`.
- SPIFFS is not modelled: `initFS`, and the opening, closing and writing of
  files. A configuration file is modelled as its lines (None when it cannot
  be opened). What the writers print is modelled by `NetworkFileLines` and
  `TankFileLines`.
- `readStringUntil('\n')` is not modelled: the lines are given already
  split.
- A wrong version makes the readers write a default file. Only the
  resulting settings are modelled, not the rewrite.
- The `Servo` library is not modelled: the turret functions return the
  value written.
- In `shoot`, the reload and ammunition-spawn timers
  (`once_ms`/`attach_ms`) and `shootAnimation` are not modelled.
  `shakeTurretAnimation` and the timer callbacks `ammoReload`/`spawnAmmo`
  are not modelled either. `AmmoReloadDone` and `NewAmmos` are what those
  callbacks run.
- The commented-out `checkConfigPortalRequest` is not modelled.
- The one-line getters and setters of the servo limits, hit points and
  ammunition are not modelled.
- TankDrive.MoveTank: does not model 32-bit `int` overflow of the joystick
  mix, because the Blynk joystick values are far inside the range of `int`.
- TankDrive.MoveTurretUs: does not model 32-bit `int` overflow of
  `us - m_servoMin_us`, for the same reason. The servo limits are passed as
  parameters instead of being read from the `CTank` object.
- Tank.CTank.constructor: the servo members are uninitialised until the tank
  file sets them, so their starting values are a parameter (`servoInit`).
- Config.NetworkRoundTrip: holds only when no value contains its own tag,
  because `replace` removes every occurrence; `Config.TagInValueLost` shows
  a value that is read back changed. It also requires that no value
  contains a line break: `readStringUntil('\n')` would split such a value
  into two lines, and the model takes the lines already split.
- `DUTY_CYCLE_DIVIDER` is defined outside the modelled files; the model
  takes it to be 2 (a 50 % duty cycle). Only the fact that the carrier
  level `PWMRANGE / DUTY_CYCLE_DIVIDER` is not 0 matters to any proof.
- The `CTank(bool formatFS)` flag only affects SPIFFS formatting, so it is
  not modelled.
