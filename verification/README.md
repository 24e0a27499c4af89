# EPuckAPI core, modelled in Dafny

EPuckAPI drives e-puck robots through the Player/Stage middleware: the same
robot facade runs against the simulator (`EPuckSim`), against real robots
(`EPuckReal`) and in a generic form (`EPuck`), and a Player driver (`LPuck`)
runs on the robot itself. This project models the sequential logic of that
code and proves properties of it:

- `audio_bin.dfy` (module `AudioBins`): one frequency bin of the simulated
  audio environment. The tones are kept in start order; the source's doubly
  linked list is the sequence `tones`, kept beside its separate counter
  `numberTones`. It covers adding a tone, unlinking one, the sweep that drops
  ended tones, and the computation of the messages a listening robot receives.
- `audio_handler.dfy` (module `AudioEnvironment`): the audio handler. It holds
  the table of FFT band lower bounds, chooses the band for a frequency, and
  keeps the list of bins (unique keys, one bin per band in use) together with
  the counter `numberOfBins`. It covers `playTone`, `removeBin`, one pass of
  the maintenance sweep, and the singleton accessor. The list is related to a
  value view (`BinView`) and to two specification functions, `Emit` and
  `Sweep`.
- `bearing.dfy` (module `Bearing`): the integer-degree bearing of a tone
  relative to a listening robot, the degree conversion, and `roundToNearest`.
- `c_arith.dfy` (module `CArith`): C's truncating double-to-int cast and its
  truncating `%`, which differ from Dafny's Euclidean operators.
- `drive.dfy` (module `Drive`): `setMotors` and `setDifferentialMotors`. The
  three robot classes hold identical copies of these; they are defined once.
- `epuck.dfy` (module `EPuckRobot`): the robot facade state. It holds the LED
  flag, the LED flash frequency, the audio-initialised flag, and the cache of
  heard tones that `getTone` reads.
- `lpuck.dfy` (module `LPuckDriver`): the pieces of the on-robot driver that
  can be modelled. These are `clip`, the packed UYVY (Cb Y Cr Y) to RGB
  conversion, the velocity-to-wheel command clamp, the LED state array, the
  per-interface subscription counters and the command-buffer fields.

The integer YUV conversion is the fixed-point form of the studio-range
YCbCr to RGB equations of ITU-R BT.601.

Doubles are modelled as `real`. `int` is unbounded. C's `(int)` cast and
`%` are written out in `CArith`, and `>> 8` on an `int` is floor division by
256.

Some things are parameters of the model instead of being computed:
- wall-clock time (`time(NULL)`);
- robot poses from the simulator;
- the answers of `Driver::Subscribe`/`Unsubscribe`;
- the C library's `sqrt` and `atan` (an `atan` result is a value of the
  range the library guarantees);
- the handler's messages delivered to a robot.

The tone a robot asks the handler to play is returned as a value.

## Model

| member | source | states |
|---|---|---|
| CArith.Trunc | src/AudioBin.cc:249-259 | C's double-to-int cast: the integer part rounded toward zero, bracketing the value from below for non-negative inputs and from above for negative ones |
| CArith.TruncNegate | src/lpuck.cc:393-394 | the truncating cast is odd: negating the double negates the integer |
| CArith.CRem | src/AudioBin.cc:218-222 | C's `%` by a positive divisor: takes the sign of the dividend, lies strictly within one divisor of 0, and is congruent to the dividend |
| CArith.CRemOfNonNegative | src/AudioBin.cc:233 | on a non-negative dividend C's `%` is the mathematical residue |
| Bearing.RadiansToDegrees | src/AudioBin.cc:249-259 | `180 * rads / 3.141592` truncated toward zero: the largest integer below it for positive angles, the smallest above it for negative ones |
| Bearing.ArctanDegreesInRange | src/AudioBin.cc:228 | an arctangent converted to degrees is a whole angle in [-90, 90] |
| Bearing.NormaliseYaw | src/AudioBin.cc:215-222 | `((deg % 360) + 360) % 360` with C's `%` lies in [0, 360) for every int |
| Bearing.NormaliseYawIsResidue | src/AudioBin.cc:215-222 | the folded yaw equals the angle's residue modulo 360 |
| Bearing.BearingFromXAxis | src/AudioBin.cc:228-233 | the bearing from the x axis, after the half-turn or full-turn correction, lies in [0, 360) |
| Bearing.BearingOf | src/AudioBin.cc:210-242 | the bearing is in [0, 360) and is 0 when the listener sits on the source |
| Bearing.BearingIsDirectionMinusHeading | src/AudioBin.cc:225-238 | away from the source, the bearing is the source's direction (turned a half turn for negative x) minus the listener's heading, modulo 360 |
| Bearing.SubtractResidues | src/AudioBin.cc:237-238 | `(360 - yaw + bearingWRTx) % 360` computes the difference of the two angles modulo 360 when both are residues |
| Bearing.RoundToNearestPicksCloser | src/AudioBin.cc:284-303 | for a non-negative input and positive resolution the result is the multiple at or below or the one above, the upper exactly when strictly closer (ties go down), and never more than half a resolution away |
| Bearing.RoundingBracket | src/AudioBin.cc:290-294 | the two truncated quotients name the multiples of the resolution on either side of the input |
| Bearing.RoundingChoice | src/AudioBin.cc:298-302 | the function returns the ceiling candidate exactly when the floor is strictly farther away |
| Bearing.RoundToNearestNegativeInput | src/AudioBin.cc:289-302 | as written, -2.7 at resolution 1 rounds to -2, more than half a resolution away, because the cast truncates toward zero |
| Bearing.RoundToNearestNegativeResolution | src/AudioBin.cc:289-302 | as written, 23.7 at resolution -5 rounds to 15, more than half a resolution away, because the two candidates swap places |
| Bearing.LowerMultipleBrackets | src/AudioBin.cc:289-291 | for a positive resolution the multiple found by rounding down lies at or below any input and the next one above it |
| Bearing.RoundToNearestCorrected | src/AudioBin.cc:276-303 | for every input and positive resolution: one of the two neighbouring multiples, the upper exactly when strictly closer, never more than half a resolution away |
| Bearing.RoundToNearestCorrectedAgrees | src/AudioBin.cc:284-303 | on non-negative inputs the corrected rounding equals the source's |
| Bearing.RoundToNearestCorrectedNegative | src/AudioBin.cc:276-282 | the corrected rounding sends -2.7 to -3 at resolution 1 |
| Bearing.RoundToNearestExamples | src/AudioBin.cc:277-279 | 23.720954 rounds to 25 at resolution 5 and to 23.5 at resolution 0.5 |
| AudioBins.Unexpired | src/AudioBin.cc:48-67 | the filter of the sweep never lengthens the list |
| AudioBins.UnexpiredMembers | src/AudioBin.cc:54-64 | a tone survives the sweep exactly when it was in the bin and ends after the current time |
| AudioBins.UnexpiredAppend | src/AudioBin.cc:54-64 | the filter distributes over concatenation, so survivors keep their relative order |
| AudioBins.UnexpiredEmptyIffAllEnded | src/AudioBin.cc:60-63 | nothing survives exactly when every tone has ended |
| AudioBins.UnexpiredStep | src/AudioBin.cc:54-65 | visiting one more tone either drops it (ended) or keeps it at the end of the survivors |
| AudioBins.WalkPosition | src/AudioBin.cc:54-58 | part-way through the walk, the next tone to visit sits just after the survivors so far |
| AudioBins.WalkRemove | src/AudioBin.cc:60-63 | unlinking an ended tone advances the walk by one and keeps the rest |
| AudioBins.WalkKeep | src/AudioBin.cc:54-58 | passing a sounding tone advances the walk and extends the survivors by that tone |
| AudioBins.AudioBin.constructor | src/AudioBin.cc:11-20 | a new bin has its key, no tones and count 0 |
| AudioBins.AudioBin.AddTone | src/AudioBin.cc:78-112 | the tone `(x, y, endtime)` goes at the tail, earlier tones stay unchanged and in order, and the count grows by one |
| AudioBins.AudioBin.RemoveTone | src/AudioBin.cc:165-197 | exactly the given tone is unlinked and the others keep their order; it reports 1 iff that was the only tone, and then the count is not decremented, otherwise the count drops by one |
| AudioBins.AudioBin.UpdateList | src/AudioBin.cc:48-67 | the bin keeps exactly its tones ending after `now`, in order; it reports 1 iff a removal emptied a non-empty bin (an empty bin reports 0); the count matches the list on 0 and is left at 1 on 1 |
| AudioBins.AudioBin.CalculateRawToneDataForPosition | src/AudioBin.cc:125-150 | the first min(noMsgs, #tones) entries get the tone's distance, its bearing and the band's lower bound, the volume and every later entry keep their value, and the returned count is the loop index plus one as written |
| AudioBins.AudioBin.CalculateToneData | src/AudioBin.cc:114-150 | the same entries are written and the count returned is the number of entries written, 0 for none |
| AudioBins.ToneMessage | src/AudioBin.cc:136-141 | a message's direction is in [0, 360) and is 0 for a tone played at the listener's position; its frequency is the band's lower bound; its volume is left as it was |
| AudioBins.Written | src/AudioBin.cc:123-146 | no message is written when `noMsgs` is not positive; otherwise the number written is `noMsgs` or the number of tones, whichever is smaller |
| AudioBins.RawToneCountOvershoots | src/AudioBin.cc:149 | when the bin holds more tones than asked for, the returned count is one more than the number written; it is right only when all tones fit |
| AudioBins.RawToneCountCounterexample | src/AudioBin.cc:131-149 | two tones, one message asked for: one written, two reported |
| AudioEnvironment.BoundAt | src/AudioHandler.cc:38-41 | a band's lower bound is non-negative and band 0 starts at 0; the handler's `Valid` and its constructor tie every table entry to it |
| AudioEnvironment.BoundsNonDecreasing | src/AudioHandler.cc:38-41 | the table of band lower bounds is non-decreasing |
| AudioEnvironment.DivMonotone | src/AudioHandler.cc:40 | integer division by the positive block size preserves order |
| AudioEnvironment.HighestBandAtMost | src/AudioHandler.cc:80-83 | counting down from `top`, the first band whose bound is at most `freq` is found, and every band above it has a larger bound |
| AudioEnvironment.BandOf | src/AudioHandler.cc:80-83 | for `freq >= 0` the chosen band is the largest one whose bound does not exceed `freq` |
| AudioEnvironment.BandOfMonotone | src/AudioHandler.cc:80-83 | a higher frequency is never filed in a lower band |
| AudioEnvironment.FindKey | src/AudioHandler.cc:87-96 | the search finds the first bin with the key, or reports none exactly when no bin has it |
| AudioEnvironment.EmitKeepsEnvironmentWellFormed | src/AudioHandler.cc:87-118 | after a tone is filed, keys stay unique, no bin is empty, the key set gains exactly the tone's key, and exactly one bin has that key and ends with the new tone |
| AudioEnvironment.EmitChangesOnlyThatKey | src/AudioHandler.cc:98-118 | a bin is added at the tail iff no bin had the key, otherwise the list length stays; no other bin changes |
| AudioEnvironment.Sweep | src/AudioHandler.cc:251-272 | a sweep never lengthens the list of bins |
| AudioEnvironment.SweepStep | src/AudioHandler.cc:251-271 | sweeping one more bin drops it when it held only ended tones, and otherwise keeps it with its surviving tones |
| AudioEnvironment.SweepWalkRemove | src/AudioHandler.cc:254-269 | removing an emptied bin advances the walk without moving the position |
| AudioEnvironment.SweepWalkKeep | src/AudioHandler.cc:254-271 | a bin with a sounding tone stays, with only its sounding tones, and the position moves on |
| AudioEnvironment.SweepDone | src/AudioHandler.cc:251 | a walk that has reached the end of the list has swept all of it |
| AudioEnvironment.SweepLeavesOnlySounding | src/AudioHandler.cc:251-272 | every bin after a sweep is a bin of the old environment keeping only its tones ending after `now`, so no remaining tone has `end <= now` |
| AudioEnvironment.LastKeyIsNew | src/AudioHandler.cc:98-110 | with unique keys, the last bin's key appears nowhere before it |
| AudioEnvironment.SweepKeys | src/AudioHandler.cc:251-272 | a sweep introduces no key |
| AudioEnvironment.SweepKeepsEnvironmentWellFormed | src/AudioHandler.cc:251-272 | a sweep keeps keys unique and leaves no empty bin |
| AudioEnvironment.SweepKeepsSoundingKeys | src/AudioHandler.cc:251-272 | a bin's key survives the sweep exactly when one of its tones is still sounding |
| AudioEnvironment.KeysOfPrefix | src/AudioHandler.cc:87-96 | the keys of a prefix of the list are keys of the list |
| AudioEnvironment.KeysOfAppend | src/AudioHandler.cc:99-110 | appending a bin adds exactly its key |
| AudioEnvironment.AllInRemove | src/AudioHandler.cc:201-235 | unlinking a bin leaves only bins that were in the list |
| AudioEnvironment.AllInTransitive | src/AudioHandler.cc:251-272 | bins left after successive removals were all in the original list |
| AudioEnvironment.AudioHandler.ValidContents | src/AudioHandler.cc:87-110 | a consistent handler's bins have unique keys and none is empty |
| AudioEnvironment.AudioHandler.constructor | src/AudioHandler.cc:27-47 | no bins, count 0, the name copied up to 32 characters, and the table loop fills band `i` with `(i * SAMPLE_RATE) / FFT_BLOCK_SIZE` |
| AudioEnvironment.AudioHandler.FindBucket | src/AudioHandler.cc:79-83 | the downward search stops at the band of `freq`: the largest band whose bound is at most `freq` |
| AudioEnvironment.AudioHandler.FindBin | src/AudioHandler.cc:86-96 | the list search returns the position of the bin keyed by the band bound, or nothing |
| AudioEnvironment.AudioHandler.PlayTone | src/AudioHandler.cc:70-127 | the tone `(x, y, now + duration/1000)` is filed under the band's bound (existing bin reused, else a new bin appended and counted), and the handler stays consistent |
| AudioEnvironment.AudioHandler.AddToBin | src/AudioHandler.cc:112-118 | the tone is appended to the found bin and no other bin changes |
| AudioEnvironment.AudioHandler.AddToNewBin | src/AudioHandler.cc:98-118 | a new bin with the key and the one tone is appended at the tail and the count grows by one |
| AudioEnvironment.AudioHandler.NumberOfTones | src/AudioHandler.cc:129-132 | numberOfTones returns the number of bins in the list |
| AudioEnvironment.AudioHandler.GetTonesCapacityCheck | src/AudioHandler.cc:134-147 | getTones reports 1 exactly when there are more bins than message slots in the store |
| AudioEnvironment.AudioHandler.RemoveBin | src/AudioHandler.cc:201-235 | removing the only bin sets the count to 0, reports 1 and leaves the list head alone; otherwise exactly that bin is unlinked, the rest keep their order, the count drops by one and 0 is reported |
| AudioEnvironment.AudioHandler.UpdateAudioBinList | src/AudioHandler.cc:245-272 | one pass of the sweep leaves exactly `Sweep` of the old environment and keeps the handler consistent |
| AudioEnvironment.AudioHandler.SweepAll | src/AudioHandler.cc:251-272 | the walk over the whole list computes `Sweep` and keeps the count equal to the list length |
| AudioEnvironment.AudioHandler.SweepNext | src/AudioHandler.cc:251-271 | one step of the walk extends the swept prefix by one bin |
| AudioEnvironment.AudioHandler.SweepBinAt | src/AudioHandler.cc:254-271 | the bin is removed exactly when none of its tones still sounds; otherwise it keeps only its sounding tones and nothing else changes |
| AudioEnvironment.AudioHandler.UnlinkEmptied | src/AudioHandler.cc:256-266 | removeBin, plus the clearing of the list when it reports the last bin, leaves exactly the other bins and a consistent list |
| AudioEnvironment.AudioSystem.constructor | src/AudioHandler.cc:14 | the singleton starts empty |
| AudioEnvironment.AudioSystem.GetAudioHandler | src/AudioHandler.cc:17-24 | the handler is created only on the first call; every later call returns that same handler whatever its arguments |
| Drive.ClampWheel | src/EPuckSim.cc:240-244 | a wheel speed limited to plus or minus MAX_WHEEL_SPEED, unchanged inside the limit |
| Drive.ClampWheelMonotone | src/EPuckSim.cc:240-244 | clamping keeps the order of two speeds |
| Drive.SetMotors | src/EPuckSim.cc:219-225 | the forward speed is clamped into [-0.041, 0.041] and the turn rate passes through unchanged |
| Drive.SetMotorsIdempotent | src/EPuck.cc:234-240 | setting an already clamped command again changes nothing |
| Drive.SetDifferentialMotors | src/EPuckSim.cc:228-288 | after clamping each wheel, in all three branches: forward is the slower wheel, turn rate times separation is right minus left, turn rate is 0 iff the wheels are equal and positive iff right is faster |
| Drive.DifferentialRoundTrip | src/EPuckReal.cc:250-312 | within the wheel limit, the wheel speeds are recovered from the command |
| Drive.DifferentialFromWheels | src/EPuck.cc:248-310 | every command whose wheel speeds are within the limit is what the conversion makes of them |
| EPuckRobot.StrCmp | src/EPuckSim.cc:77 | strcmp's result is 0 exactly when the two names are equal |
| EPuckRobot.StrCmpAntisymmetric | src/EPuckSim.cc:77 | comparing in the other order flips the sign |
| EPuckRobot.StrCmpTransitive | src/EPuckSim.cc:77 | the comparison orders names transitively |
| EPuckRobot.EPuck.constructor | src/EPuckSim.cc:477-484 | initialise stores name and port; the LEDs are off, audio is uninitialised and there is no tone cache |
| EPuckRobot.EPuck.Equals | src/EPuckSim.cc:75-80 | two robots are equal exactly when their names are equal |
| EPuckRobot.EPuck.SetAllLEDsOn | src/EPuckSim.cc:295-304 | the LED flag becomes true and nothing else changes |
| EPuckRobot.EPuck.SetAllLEDsOff | src/EPuckReal.cc:336-345 | the LED flag becomes false and nothing else changes |
| EPuckRobot.EPuck.ToggleAllLEDs | src/EPuck.cc:347-352 | the LED flag flips and nothing else changes |
| EPuckRobot.EPuck.SetLED | src/EPuckSim.cc:325-331 | the LEDs end up on exactly when `state == 1`; the index is ignored |
| EPuckRobot.EPuck.FlashLEDs | src/EPuckReal.cc:374-386 | a frequency at or below 0 leaves the flash frequency 0, any other is stored |
| EPuckRobot.EPuck.StopFlashLEDs | src/EPuck.cc:389-397 | the flash frequency becomes 0 |
| EPuckRobot.EPuck.InitialiseAudio | src/EPuckReal.cc:407-417 | returns 0 iff audio was not yet initialised and -1 otherwise; afterwards it is initialised |
| EPuckRobot.EPuck.PlayTone | src/EPuckSim.cc:372-382 | before initialisation -1 and no request; after it, 0 and a request carrying the arguments and the robot's name |
| EPuckRobot.EPuck.ListenForTones | src/EPuckSim.cc:385-413 | before initialisation -1 and the cache unchanged; after it, a fresh cache with one tone per message, copying volume, direction and frequency in order, and the count is returned |
| EPuckRobot.EPuck.GetTone | src/EPuckReal.cc:481-496 | the cached tone at an index in [0, numberOfTones), the all-zero tone at any other |
| LPuckDriver.ClipSaturates | src/lpuck.cc:83-90 | clip keeps values in [0, 255], maps anything below to 0 and anything above to 255 |
| LPuckDriver.ClipMonotone | src/lpuck.cc:83-90 | clip keeps the order of its inputs |
| LPuckDriver.PairToRgb | src/lpuck.cc:100-116 | one Cb Y Cr Y group gives six bytes |
| LPuckDriver.PairSharesChroma | src/lpuck.cc:100-116 | the two pixels of a group share its chroma: each pixel's three bytes depend on its own luma only, and equal lumas give equal pixels |
| LPuckDriver.GroupAt | src/lpuck.cc:101-104 | the four bytes at an offset, converted, give six bytes |
| LPuckDriver.Yuv422ToRgb | src/lpuck.cc:92-118 | converting `g` groups yields `6 * g` bytes |
| LPuckDriver.Yuv422ToRgbStep | src/lpuck.cc:98-117 | one more group appends its six bytes to the output |
| LPuckDriver.Yuv422ToRgbAt | src/lpuck.cc:101-116 | output byte `6p + c` depends only on input group `p` |
| LPuckDriver.Yuv422ToRgbPrefix | src/lpuck.cc:98-117 | converting more groups only extends the output |
| LPuckDriver.NeutralChromaIsGrey | src/lpuck.cc:110-112 | a pixel with neutral chroma has equal red, green and blue |
| LPuckDriver.StudioRangeEnds | src/lpuck.cc:105-116 | Y = 16 with neutral chroma is black and Y = 235 is white, as in the studio range of ITU-R BT.601 |
| LPuckDriver.Groups | src/lpuck.cc:98 | the loop stepping two pixels at a time runs `nr_pixels / 2` times, rounded up |
| LPuckDriver.Yuv422ToRgbInto | src/lpuck.cc:92-118 | the front of `dst` holds the conversion of every group read (for an even count, 2 bytes read and 3 written per pixel), each a byte, and the rest of `dst` is untouched |
| LPuckDriver.ConvertGroup | src/lpuck.cc:101-116 | one loop body turns the four bytes at the read position into six bytes at the write position, touching nothing else |
| LPuckDriver.ClampCommand | src/lpuck.cc:399-406 | a wheel command limited to [-800, 800], unchanged inside |
| LPuckDriver.WheelCommands | src/lpuck.cc:393-406 | both wheel commands lie in [-800, 800] |
| LPuckDriver.WheelCommandsMirror | src/lpuck.cc:393-406 | reversing the turn rate swaps the two wheel commands |
| LPuckDriver.WheelCommandsUnclamped | src/lpuck.cc:393-396 | without clamping, the wheels sum to twice the translation and differ by twice the rotation; no turn rate means equal wheels |
| LPuckDriver.LedTenOverruns | src/lpuck.cc:216 | as written, the command for LED id 10 writes slot 10 of a ten-slot array |
| LPuckDriver.LedSlots | src/lpuck.cc:460-470 | with the guard corrected, an LED command writes only slots within the array: its own slot, or the eight ring slots for an id past the last slot |
| LPuckDriver.LedSlotsAgreeExceptTen | src/lpuck.cc:461 | the corrected guard differs from the written one only at id 10 |
| LPuckDriver.LPuck.constructor | src/lpuck.cc:245-249 | every subscription count starts at 0 |
| LPuckDriver.LPuck.Subscribe | src/lpuck.cc:556-590 | exactly the matching interface's counter goes up by one, and only when the base driver answers 0; that answer is returned |
| LPuckDriver.LPuck.Unsubscribe | src/lpuck.cc:592-624 | exactly the matching interface's counter goes down by one when the base driver answers 0, and it does not drop below 0; the answer is returned |
| LPuckDriver.LPuck.SetSpeedCMD | src/lpuck.cc:1035-1040 | the set-motor flag is raised and both speeds stored; nothing else in the buffer changes |
| LPuckDriver.LPuck.ProcessVelocityCommand | src/lpuck.cc:388-410 | the clamped wheel commands go to the motors with the set-motor flag; 0 is returned |
| LPuckDriver.LPuck.ProcessLedPower | src/lpuck.cc:455-470 | the slots of the corrected guard take the requested state and every other slot keeps its state |
| LPuckDriver.LPuck.RefreshLEDData | src/lpuck.cc:884-897 | the ten LED bits of the buffer take the low bit of `led_status[0..9]` in order; nothing else changes |
| LPuckDriver.LPuck.PositionSubscriptionEdge | src/lpuck.cc:525-536 | a zero-speed command is issued exactly when the position subscription count has moved between zero and non-zero; the count is remembered |

## Left out

- Threads and timing are not modelled:
  - the infinite loop and `usleep` of `updateAudioBinListThreaded` (one pass of its body is modelled);
  - the LED-flashing and sensor-reading threads;
  - the driver's `Main` loop (its subscription check is modelled).
  The audio code takes no lock, so in the source `playTone` and the sweep thread race on `environment` and `numberOfBins`; the sequential model does not capture those races or any interleaving of the two.
- The `getTones` remainder after the capacity check is not modelled. The loop over the bins has an empty body and never ends when a bin exists, and the function returns no value there.
- The intensity and volume model of tones is not modelled: the source has none (`wattsAtSource` is commented out). The volume of a message is left as the caller's storage held it.
- Player proxies, `Publish`, `GetPose2d`, `SetProperty`, `GetProperty` and `time(NULL)` are left out. Their results are parameters, and LED colours sent to the simulator are not modelled.
- `sqrt` and `atan` are parameters.
  - `atan` returns a value of its guaranteed range (-pi/2, pi/2).
  - `sqrt` is an arbitrary function, so distances carry no property.
- Camera, SPI, file and ioctl I/O of the driver (`initCamera`, `grabFrame`, `doMSG`, `saveFrame`, the `refresh*Data` publishers other than `refreshLEDData`) are left out. So are the IR pose conversion, the demo programs and the command-line tests.
- Memory ownership is not modelled: destructors, `delete`, and the message array that `listenForTones` leaks.
- EPuckRobot.EPuck.FlashLEDs: the simulated robot's `flashLEDs` only starts a thread and stores no frequency. The field-setting behaviour of the real and generic robots is modelled.
- EPuckRobot.EPuck.ListenForTones: the messages are an input. The simulated robot calls `getNumberOfTones()` and `getTones()`, which the handler source does not define with matching signatures; their combined result is the sequence of messages.
- EPuckRobot.EPuck.PlayTone: the request is an output value. The handler's `playTone` takes no volume, although the robot passes one.
- EPuckRobot.EPuck.GetTone: it requires the cache to exist when the index is below `numberOfTones`. Before the first listen, `numberOfTones` is uninitialised and `toneArray` is NULL.
- EPuckRobot.EPuck.constructor: requires a name shorter than 32 characters, because `strcpy` fills a `char name[32]`. The documentation's "maximum 64 chars" would overflow it. The flash frequency and `numberOfTones` are left uninitialised, as in the source.
- The generic robot class `EPuck` has no audio; its audio-free part is the same class.
- AudioEnvironment.AudioHandler.FindBucket: requires `freq >= 0`, because a negative frequency runs the search index to -1 and reads `lowerFFTBounds[-1]`.
- `FFT_BLOCK_SIZE` and `SAMPLE_RATE` are constructor parameters (block size at least 2, positive rate), because the headers that define them are not shown. The headers `include/AudioHandler.h` and `src/AudioHandler.h` describe an older design and are not part of this model.
- The bin key `lowerFrequencyBound` is a `double` in the source. It is only ever set from an integer table entry, so the key is an `int` here.
- No C integer overflow or double rounding is modelled; integers are unbounded and doubles are reals. For example:
  - `static_cast<int>` of an out-of-range double;
  - the unsigned `i += 2` of the conversion loop wrapping when `nr_pixels` is the largest unsigned value;
  - `i * SAMPLE_RATE` overflowing.
- Bearing.RoundToNearestPicksCloser: the nearest-multiple property is proved for non-negative inputs and positive resolutions only, and `Bearing.RoundToNearestCorrected` is defined for positive resolutions only. For a negative input the source's truncating cast picks the wrong neighbour (see Findings). For a negative resolution the two candidates swap places and the source can return a farther multiple (`Bearing.RoundToNearestNegativeResolution`). A zero resolution is excluded by `requires resolution != 0.0`, because the source then divides by zero. The only call of roundToNearest, at src/AudioBin.cc:240, is commented out.
- The right shift by 8 of a negative `int` is taken as an arithmetic shift (floor division by 256), which is what the supported compilers do.
- LPuckDriver.LPuck.Unsubscribe: modelled with assertions enabled. The decrement sits inside `assert(...)`, so under `NDEBUG` the counter would never be decremented. The precondition is that assertion.
- LPuckDriver.LPuck.SetSpeedCMD: requires 16-bit speeds, the range of its `int16_t` parameters.
- The one-bit LED and command fields of the transmit buffer are booleans holding the low bit of the value stored. The remaining buffer and receive fields are not modelled.
- LPuckDriver.LPuck.constructor: `led_status` and `msgTX` are not initialised by the source, and the model leaves them arbitrary.
- The interface address is reduced to its interface code. Codes other than the five counted ones are `Unhandled`.
- AudioBins.AudioBin.CalculateRawToneDataForPosition: requires a non-empty bin when `noMsgs > 0`, because the source dereferences the NULL list head otherwise.

## Findings

| source | as written | input that shows it | evidently intended | confidence | as-written member | corrected member |
|---|---|---|---|---|---|---|
| src/AudioBin.cc:149 | `calculateRawToneDataForPosition` returns `currentTone + 1`: one more than the number written whenever the loop runs to `noMsgs`, and 1 when `noMsgs <= 0` | a bin with two tones and `noMsgs = 1`: one message written, 2 returned | return the number of messages written ("0 if there were none") | high, not executed | AudioBins.RawToneCountCounterexample | AudioBins.AudioBin.CalculateToneData |
| src/AudioBin.cc:289-294 | `roundToNearest` takes the multiple below as `(int)(input/resolution)`, which truncates toward zero rather than rounding down | input -2.7, resolution 1: the neighbours tried are -2 and -1, and -2 is returned, though -3 is nearer | the nearest multiple, as documented: the multiple below taken with a floor | high, not executed | Bearing.RoundToNearestNegativeInput | Bearing.RoundToNearestCorrected |
| src/lpuck.cc:461 | the LED command guard `id > 10` lets id 10 through to `led_status[10]` | an LED power command with id 10 writes one slot past `int led_status[10]` | ids of 10 and above address the ring, `id >= 10` | high, not executed | LPuckDriver.LedTenOverruns | LPuckDriver.LPuck.ProcessLedPower |
