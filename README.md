# GD_ControlCenter host core, modelled in Dafny

This project models the host-side protocol and motion core of the GD control
centre: the software that drives a three-axis sample platform, a high-voltage
supply, pumps, a battery pack and a spectrometer over one shared serial link.
It covers the following parts:

- **Protocol constants.** The 13-byte control-frame constants and the byte codes of device addresses, link types and function codes (`ControlProtocol`).
- **Command factory.** The factory that packs every outbound command (`Commands`).
- **Receive-side demultiplexer.** It splits the incoming byte stream into battery, platform and control frames (`Protocol`, class `ProtocolService`).
- **Platform model and motion controller.** The platform's data model (`PlatformModel`) and the motion controller with its safety gate, position booking and limit-switch handling (`Platform3D`, class `Platform3DService`).
- **Homing and calibration.** Homing and peak-seeking calibration (`Calibration`, class `CalibrationLogic`).
- **Spectrometer searches.** Peak searches and the saturation check (`Spectrometer`).
- **Coordinator.** It turns the spectra seen during a calibration sweep into an axis target (`Coordinator`, class `PlatformCoordinator`).
- **Polling services.** The high-voltage and battery services (`HighVoltage`, `Battery`) and the offline watchdog they share (`Watchdog`).
- **Spatial experiment.** The point-by-point acquisition run (`Experiment`, class `SpatialExperiment`).

Objects whose fields the source updates in place are classes. Every method is tied by its `ensures` to a function of the old state and the inputs, and lemmas prove what the source promises about those functions.

Several things outside the host are inputs to the model:

- **Checksum.** The frame checksum is a function parameter `crc`.
- **Serial link and saved-position file.** Both are ghost logs of what was sent or saved.
- **Waits.** They are recorded as pauses in a ghost log.
- **Clock.** Time is whole milliseconds passed in as `now`.
- **Cancellation.** The caller's cancellation token is an explicit input, saying when it fires.

C# integer semantics are written out in `CSharp`:

- byte and short casts;
- division and remainder that truncate toward zero;
- `Math.Clamp`;
- `Math.Round`, which rounds ties to even.

Thrown exceptions are outcomes of the method. For example, a cancelled homing or calibration stops the platform and reports `Canceled`. A calibration on an axis that is not at its min switch reports `InvalidState`.

Two consequences of the homing code are proved and kept as written:

- **Every homing move is cut off by its timeout** (`Calibration.HomingMoveAlwaysTimesOut`). A 17000-step move waits 34.5 s, longer than the 30 s axis timeout, so homing never books a move. This fits the design: the limit switch report, not the booking, sets the homed position (Services/Platform3D/Platform3DService.cs:95-110). The model treats it as intended.
- **The Z homing move is refused** from every Z below 15000 (`Calibration.ZHomingRefused`), because the Z floor check subtracts the whole homing distance. This looks unintended, since Z travels only 4600 steps. It is not listed under Findings because the source does not show which repair was meant: exempting homing from the floor, or a shorter Z homing distance. The model keeps the refusal.

In one place the model does not do what an idealised description of the protocol would do. The demultiplexer drops a lone `DD` byte and a partial control frame instead of waiting for more input. So how incoming bytes are cut into chunks changes what is received. The model follows the code, and `Protocol.ChunkingMatters` exhibits two chunkings of the same bytes that yield different frames.

## Model

| member | source | states |
|---|---|---|
| ControlProtocol.DeviceAddrOf | Models/Protocols/ControlProtocol.cs:23-30 | a byte decodes to the device address whose code it is, and to nothing when no address has that code |
| ControlProtocol.CommandTypeOf | Models/Protocols/ControlProtocol.cs:35-41 | a byte decodes to the link type whose code it is, and to nothing otherwise |
| ControlProtocol.FunctionCodeOf | Models/Protocols/ControlProtocol.cs:46-57 | a byte decodes to the function code whose code it is, and to nothing otherwise |
| ControlProtocol.CodesInjective | Models/Protocols/ControlProtocol.cs:23-57 | no two enumerators of an enumeration share a byte code |
| ControlProtocol.FramingConstants | Models/Protocols/ControlProtocol.cs:14-17 | the header differs from the footer and from the battery start byte; the declared data length equals the total frame length (13) |
| Commands.PackFrame | Services/Commands/ControlCommandFactory.cs:16-41 | the frame is 13 bytes with header 0x68, length 0x0D, reserved 0, the CRC of its first ten bytes in bytes 10-11 and footer 0x16; bytes 1-3 are the address, link type and function; the payload is the data when it has exactly four bytes and zeros otherwise |
| Commands.ToController | Services/Commands/ControlCommandFactory.cs:61 | every business command is a sealed frame addressed PC to controller with its function code |
| Commands.CreateHighVoltage | Services/Commands/ControlCommandFactory.cs:53-62 | voltage then current, each read back little-endian from its two bytes when it fits in 16 bits |
| Commands.CreatePeristalticPump | Services/Commands/ControlCommandFactory.cs:71-84 | start and direction flags in bytes 6-7; for speeds 0..327 the big-endian speed word is speed × 100 (the clamped value is computed and not used) |
| Commands.CreatePeristalticPumpClamped | Services/Commands/ControlCommandFactory.cs:73-74 | the speed word is the speed clamped to 0..100, times 100 |
| Commands.PeristalticIgnoresClamp | Services/Commands/ControlCommandFactory.cs:74-81 | speed 200 is sent as 20000 (4E 20), where the clamp would send 10000 (27 10) |
| Commands.PeristalticNegativeSpeed | Services/Commands/ControlCommandFactory.cs:79-81 | speed −1 is sent as bytes 00 9C (truncating division and remainder of −100), where the clamp would send 00 00 |
| Commands.CreateSteeringValve | Services/Commands/ControlCommandFactory.cs:91-96 | byte 6 is the channel when it fits in a byte; the other payload bytes are zero |
| Commands.CreateSteeringValveByState | Services/Commands/ControlCommandFactory.cs:103-109 | the state overload sends the same frame as channel 2 or channel 1 |
| Commands.CreateSyringePump | Services/Commands/ControlCommandFactory.cs:117-129 | direction flag, then the distance clamped to 0..3000 big-endian, then 0 |
| Commands.CreatePlatformMove | Services/Commands/ControlCommandFactory.cs:138-147 | axis byte, direction flag, then the step little-endian when it fits in 16 bits |
| Commands.PlatformMoveExample | Services/Commands/ControlCommandFactory.cs:138-147 | a positive Y move of 1200 carries the payload 02 01 B0 04 |
| Commands.CreateMultiChannelValve | Services/Commands/ControlCommandFactory.cs:154-161 | byte 6 is the channel clamped to 1..10, the rest zero |
| Commands.CreateIgnition | Services/Commands/ControlCommandFactory.cs:168-179 | payload 00 00 and the fixed 1000 ms fire time little-endian |
| Commands.CreateHighVoltageQuery | Services/Commands/ControlCommandFactory.cs:185-190 | a status query (0x66) with an all-zero payload |
| Commands.CreateBatteryQuery | Services/Commands/ControlCommandFactory.cs:197-200 | the fixed 7-byte query starting DD and ending 77, never mistaken for a 13-byte control frame by its length |
| Protocol.Scan | Services/ProtocolService.cs:33-86 | one pass of the loop body: a battery frame (DD 03 … 77, 34 bytes), a platform frame (68 … FF … 16, 8 bytes) or a CRC-checked control frame (68 … 16, 13 bytes) is accepted as a well-formed prefix of the buffer; the loop waits if and only if the buffer is a short battery or platform prefix; anything else drops the first byte |
| Protocol.DrainStep | Services/ProtocolService.cs:31-87 | each event consumes a non-empty prefix of the buffer, and the loop then drains the rest alone |
| Protocol.DrainConserves | Services/ProtocolService.cs:29-87 | the bytes consumed by the events, followed by the bytes left, are exactly the buffer: no byte is lost, duplicated or reordered |
| Protocol.DrainWellFormed | Services/ProtocolService.cs:34-80 | every emitted frame has its protocol's length, header and footer, and every control response has a valid CRC |
| Protocol.DrainRest | Services/ProtocolService.cs:31-87 | on return the buffer is empty or holds an incomplete battery or platform frame |
| Protocol.Frames | Services/ProtocolService.cs:40-78 | the published frames are exactly the non-dropped events: every frame is a non-dropped event, every non-dropped event is published, and the frames keep the events' order (a subsequence of them) |
| Protocol.FramesCounts | Services/ProtocolService.cs:40-78 | each non-dropped event is published exactly as often as it occurs, and no dropped byte is |
| Protocol.PendingKept | Services/ProtocolService.cs:33-54 | a short battery or platform prefix is left whole in the buffer with nothing published, so a frame split across two reads waits for its rest |
| Protocol.ProtocolService.OnDataReceived | Services/ProtocolService.cs:27-88 | appending the chunk and draining leaves the buffer and publishes the frames that `Drain` gives for the old buffer plus the chunk; the loop keeps conservation as its invariant |
| Protocol.FramesAppend | Services/ProtocolService.cs:40-78 | publishing distributes over concatenation of event lists |
| Protocol.SealedFrameRecovered | Services/ProtocolService.cs:66-80 | a sealed control frame at the head of the buffer is emitted as one control response whatever follows it |
| Protocol.PackFrameRoundTrip | Services/Commands/ControlCommandFactory.cs:16-41 | any frame the factory packs (other than a platform move) comes out of the demultiplexer unchanged as exactly one control response |
| Protocol.PlatformMoveRoundTrip | Services/Commands/ControlCommandFactory.cs:138-147 | a platform move command, though it carries 0xFF, has a direction byte at index 7 that is never the footer, so it too comes out as one control response |
| Protocol.LoneBatteryStartDropped | Services/ProtocolService.cs:34-86 | a leading DD not followed by 03, or alone in the buffer, is dropped at once rather than waited on |
| Protocol.ShortControlPrefixDropped | Services/ProtocolService.cs:48-86 | a 0x68-headed prefix of fewer than 13 bytes without 0xFF at index 3 loses its first byte instead of waiting |
| Protocol.NoHeaderAllDropped | Services/ProtocolService.cs:85-86 | a buffer with no DD or 68 byte is dropped byte by byte and nothing is published or left |
| Protocol.BatteryQueryNotAFrame | Services/Commands/ControlCommandFactory.cs:197-200 | the battery query, read back by the demultiplexer, is seven dropped bytes |
| Protocol.ChunkingMatters | Services/ProtocolService.cs:34-36 | a battery frame delivered whole is published, but delivered as one byte then the rest it is lost: the output depends on how the stream is chunked |
| PlatformModel.AxisOf | Models/Platform3D/PlatformModel.cs:9-14 | a byte decodes to the axis whose wire code it is, and to nothing otherwise |
| PlatformModel.AxisCodes | Models/Platform3D/PlatformModel.cs:9-14 | X, Y and Z are coded 1, 2 and 3, so no two axes share a code |
| PlatformModel.LimitsOrdered | Models/Platform3D/PlatformModel.cs:93-106 | the valid step range is non-empty and exceeds every axis's travel; the Z floor is below zero |
| PlatformModel.AllClearCovers | Models/Platform3D/PlatformModel.cs:71-86 | the initial boundary tables hold an entry, false, for every axis |
| PlatformModel.PlatformPosition.constructor | Models/Platform3D/PlatformModel.cs:20-29 | a new position is at the origin |
| PlatformModel.PlatformPosition.Set | Models/Platform3D/PlatformModel.cs:43-51 | the indexer's setter changes the given axis and no other |
| PlatformModel.PlatformStatus.constructor | Models/Platform3D/PlatformModel.cs:59-87 | a new status is idle, not homed, with every boundary flag clear |
| Platform3D.GetMaxStep | Services/Platform3D/Platform3DService.cs:196-202 | every axis's travel is positive and below the largest valid step |
| Platform3D.CalculateMoveDelay | Services/Platform3D/Platform3DService.cs:209 | the wait is 500 ms past a whole number of seconds, about two milliseconds per step, and negative exactly when the step is −500 or less (truncating division) |
| Platform3D.SignalOf | Services/Platform3D/Platform3DService.cs:127-135 | byte 6 decodes to the limit-switch report whose code it is (A1/A3, B1/B3, C1/C3) and to nothing otherwise |
| Platform3D.PlatformEvent.Wire | Services/Platform3D/Platform3DService.cs:144-148 | a sent move is a sealed factory frame whose first payload byte is the axis code |
| Platform3D.Signalled | Services/Platform3D/Platform3DService.cs:95-110 | a limit-switch report moves the axis to that switch and saves; the record stays complete |
| Platform3D.Respond | Services/Platform3D/Platform3DService.cs:122-136 | a platform frame is handled as the report its byte 6 carries, if any; the record stays complete |
| Platform3D.Travel | Services/Platform3D/Platform3DService.cs:68-89 | send, then wait (a negative wait throws and changes nothing more), then any report heard, then booking and save only when not cancelled |
| Platform3D.MoveEffect | Services/Platform3D/Platform3DService.cs:57-90 | a refused request does nothing at all; otherwise the move travels |
| Platform3D.WithAtExtensional | Models/Platform3D/PlatformModel.cs:34-51 | two records equal except at one axis differ only through the indexer's setter |
| Platform3D.OverlayStep | Services/Platform3D/Platform3DService.cs:46-50 | copying one more key of the loaded table extends the overlay by that key |
| Platform3D.OverlayCovering | Services/Platform3D/Platform3DService.cs:46-50 | overlaying a table that lists every axis yields that table |
| Platform3D.CheckSafetyCharacterised | Services/Platform3D/Platform3DService.cs:157-170 | a positive move passes exactly when the max flag is clear; a negative one exactly when the min flag is clear and, on Z, the move does not end below −2000 |
| Platform3D.SafeMoveKeepsZFloor | Services/Platform3D/Platform3DService.cs:165-167 | a negative Z move the gate accepts never books Z below the floor |
| Platform3D.AfterMoveEffect | Services/Platform3D/Platform3DService.cs:178-189 | booking moves only the given axis, by the signed step, and clears only the flag of the switch it moved away from |
| Platform3D.MoveThenReverse | Services/Platform3D/Platform3DService.cs:181-184 | a move and its reverse of the same size bring the axis back |
| Platform3D.PositionsNotClamped | Services/Platform3D/Platform3DService.cs:157-189 | nothing clamps a booked coordinate to the travel: X at 15500 with a clear max flag can be booked to 15600 |
| Platform3D.AfterBoundaryEffect | Services/Platform3D/Platform3DService.cs:95-108 | a report puts the axis at 0 or its travel, sets the matching flag, clears the other, and leaves other axes alone |
| Platform3D.BoundarySignalIdempotent | Services/Platform3D/Platform3DService.cs:95-108 | the same report received twice has the effect of receiving it once |
| Platform3D.Apply | Services/Platform3D/Platform3DService.cs:57-136 | a move, a frame or a stop keeps the record complete |
| Platform3D.Run | Services/Platform3D/Platform3DService.cs:57-136 | any sequence of those operations keeps the record complete |
| Platform3D.SignalledKeepsBoundaryConsistent | Services/Platform3D/Platform3DService.cs:97-108 | a report never leaves an axis flagged at both switches |
| Platform3D.ApplyKeepsBoundaryConsistent | Services/Platform3D/Platform3DService.cs:57-136 | no single operation leaves an axis flagged at both switches |
| Platform3D.RunKeepsBoundaryConsistent | Services/Platform3D/Platform3DService.cs:57-136 | from a consistent record no sequence of moves, frames and stops flags an axis at both switches |
| Platform3D.FreshConsistent | Models/Platform3D/PlatformModel.cs:71-86 | the initial record is complete and consistent |
| Platform3D.Platform3DService.constructor | Services/Platform3D/Platform3DService.cs:19-32 | a new service is at the origin, idle, not homed, with every flag clear and nothing done |
| Platform3D.Platform3DService.SavePositionAsync | Services/Platform3D/Platform3DService.cs:115 | a save records the current snapshot |
| Platform3D.Platform3DService.SendMoveCommand | Services/Platform3D/Platform3DService.cs:144-148 | the move command is sent for the given axis, direction and step |
| Platform3D.Platform3DService.UpdateLocalPosition | Services/Platform3D/Platform3DService.cs:178-189 | the new snapshot is the booked move of the old one; the run flags are unchanged |
| Platform3D.Platform3DService.MoveAxisAsync | Services/Platform3D/Platform3DService.cs:57-90 | the result and the new state and log are those of `MoveOutcome` and `MoveEffect`; the busy flag ends as it started |
| Platform3D.Platform3DService.Drive | Services/Platform3D/Platform3DService.cs:68-89 | with the busy flag taken, the result is Faulted for a negative wait, Cancelled when cancelled and Moved otherwise, and the effect is `Travel`'s |
| Platform3D.Platform3DService.HandleBoundarySignal | Services/Platform3D/Platform3DService.cs:95-110 | the new snapshot is the report applied to the old one, and it is saved |
| Platform3D.Platform3DService.StopAll | Services/Platform3D/Platform3DService.cs:113 | clears the busy flag and changes nothing persisted |
| Platform3D.Platform3DService.HandleHardwareResponse | Services/Platform3D/Platform3DService.cs:122-136 | the new state and log are those of `Respond`: short frames and unknown codes change nothing |
| Platform3D.Platform3DService.InitializeAsync | Services/Platform3D/Platform3DService.cs:37-52 | no file changes nothing; a loaded file sets the coordinates and overlays the flags of every axis its min table lists, so a complete file is restored exactly |
| Calibration.HomingMoveAlwaysTimesOut | Services/Platform3D/Logic/CalibrationLogic.cs:41-47 | the homing distance is 17000 steps, whose 34500 ms wait exceeds the 30 s axis timeout, so every homing move is cut off |
| Calibration.ZHomingRefused | Services/Platform3D/Logic/CalibrationLogic.cs:46-47 | the Z homing move is refused by the Z floor check from every Z coordinate below 15000 |
| Calibration.HomeAxes | Services/Platform3D/Logic/CalibrationLogic.cs:28-59 | homing visits the axes in order, skipping those at their min switch; it pauses at most once per axis, and it is canceled exactly at the pause where the caller's token is seen |
| Calibration.AllHomedNothingToDo | Services/Platform3D/Logic/CalibrationLogic.cs:38 | with every axis at its min switch homing moves nothing, sends nothing and pauses never |
| Calibration.HomingBooksNothing | Services/Platform3D/Logic/CalibrationLogic.cs:41-47 | without limit-switch reports homing leaves every coordinate and flag as it was |
| Calibration.HomingXBySwitch | Services/Platform3D/Logic/CalibrationLogic.cs:46-47 | when the X min switch reports during the X homing move, X ends at 0 with its min flag set, after a negative 17000-step command |
| Calibration.Calibrate | Services/Platform3D/Logic/CalibrationLogic.cs:64-93 | an axis not at its min switch is rejected with nothing done; a cancellation during the sweep or the settle wait cancels the run with the platform stopped last; otherwise the run completes after the settle wait |
| Calibration.ReturnPhase | Services/Platform3D/Logic/CalibrationLogic.cs:80-86 | when the target is at or above the position nothing happens; otherwise a negative move by the difference is requested: it is refused (nothing sent, nothing changed) exactly when the platform is busy or the safety gate forbids it, else its first event sends that move, and an uncancelled move with no switch report ends exactly at the target |
| Calibration.CalibrateCanceled | Services/Platform3D/Logic/CalibrationLogic.cs:72-91 | a cancellation during the sweep or the settle wait ends with the sweep's effect followed by a stop |
| Calibration.CalibrateCompleted | Services/Platform3D/Logic/CalibrationLogic.cs:72-86 | otherwise the run is the uncancelled sweep followed by the return phase |
| Calibration.CalibrationReachesTarget | Services/Platform3D/Logic/CalibrationLogic.cs:64-93 | with no reports and no cancellation a homed idle axis ends exactly at a target below the swept position |
| Calibration.MaxSwitchDuringSweep | Services/Platform3D/Logic/CalibrationLogic.cs:73-74 | a max-switch report during the sweep leaves the software position 17000 steps beyond the axis travel, with the max flag set |
| Calibration.TargetWithinTravel | Services/Platform3D/Logic/CalibrationLogic.cs:101-118 | a peak inside the scan gives a target inside the axis travel, within half a step of the exact fraction |
| Calibration.TargetTiesToEven | Services/Platform3D/Logic/CalibrationLogic.cs:117 | exact halves round to the even neighbour (11.5 gives 12, 34.5 gives 34) |
| Calibration.CalibrationLogic.constructor | Services/Platform3D/Logic/CalibrationLogic.cs:13-21 | every axis starts with target 0 |
| Calibration.CalibrationLogic.SetTargetByIntensityTime | Services/Platform3D/Logic/CalibrationLogic.cs:101-118 | a non-positive total changes nothing; otherwise only the axis's target changes, to the rounded fraction of its travel |
| Calibration.CalibrationLogic.AutoHomeAllAxes | Services/Platform3D/Logic/CalibrationLogic.cs:28-59 | the outcome, state, platform log and completed pauses are those of `HomeAxes` over X, Y, Z, with a stop appended on cancellation; the targets are untouched |
| Calibration.CalibrationLogic.HomeAxis | Services/Platform3D/Logic/CalibrationLogic.cs:41-50 | one homing move, always cut off by the timeout, then the 500 ms pause unless the token is seen |
| Calibration.CalibrationLogic.CalibrateAxis | Services/Platform3D/Logic/CalibrationLogic.cs:64-93 | the outcome, state and platform log are those of `Calibrate` for the recorded target; the settle wait is recorded exactly when the run completes |
| Calibration.CalibrationLogic.ReturnToTarget | Services/Platform3D/Logic/CalibrationLogic.cs:80-86 | the new state and log are those of `ReturnPhase` for the recorded target |
| Calibration.CalibrationLogic.VisitAxis | Services/Platform3D/Logic/CalibrationLogic.cs:35-51 | one pass of the homing loop keeps the rest of the run equal to what `HomeAxes` predicts for the remaining axes, or ends it canceled as predicted |
| CSharp.ToByte | Services/Commands/ControlCommandFactory.cs:56-59 | the cast keeps the value modulo 256, and leaves a value already in 0..255 alone |
| CSharp.ToInt16 | Services/Commands/ControlCommandFactory.cs:79 | the cast keeps the value modulo 65536 in −32768..32767, and leaves a value already in range alone |
| CSharp.Div | Services/Platform3D/Platform3DService.cs:209 | integer division truncates toward zero |
| CSharp.Rem | Services/Commands/ControlCommandFactory.cs:80-81 | the remainder is smaller than the divisor in size and takes the sign of the dividend |
| CSharp.DivRem | Services/Commands/ControlCommandFactory.cs:80-81 | truncating quotient and remainder recompose the dividend |
| CSharp.Clamp | Services/Commands/ControlCommandFactory.cs:74 | the result lies in the range, equals the value inside it and the nearer bound outside it |
| CSharp.RoundHalfEven | Services/Platform3D/Logic/CalibrationLogic.cs:117 | the result is within half a unit of n / d, and even on an exact half |
| CSharp.RoundHalfEvenNearest | Services/Platform3D/Logic/CalibrationLogic.cs:117 | an integer strictly within half a unit of n / d is the rounded value |
| CSharp.RoundHalfEvenBounds | Services/Platform3D/Logic/CalibrationLogic.cs:117 | rounding keeps a quotient between two integers between them |
| Spectrometer.Dist | Services/Spectrometer/Logic/SpectrometerLogic.cs:103 | `Math.Abs` of a difference: non-negative and one of the two differences |
| Spectrometer.Max | Services/Spectrometer/Logic/SpectrometerLogic.cs:59 | the maximum is an element and no element exceeds it |
| Spectrometer.IndexOf | Services/Spectrometer/Logic/SpectrometerLogic.cs:60 | the first index holding the value, or −1 exactly when it is absent |
| Spectrometer.FindPeak | Services/Spectrometer/Logic/SpectrometerLogic.cs:55-64 | (0, 0) for an empty spectrum; otherwise the largest intensity, with the wavelength of the first pixel holding it |
| Spectrometer.FirstAbove | Services/Spectrometer/Logic/SpectrometerLogic.cs:113 | the first pixel above the bound, every pixel before it at or below it |
| Spectrometer.WindowPeakCharacterised | Services/Spectrometer/Logic/SpectrometerLogic.cs:95-110 | the window search returns the first strongest in-window pixel, or the target when no in-window intensity rises above −1 |
| Spectrometer.PastWindowIgnored | Services/Spectrometer/Logic/SpectrometerLogic.cs:112-113 | for ascending wavelengths no pixel after the first one above the window is in it, so the early exit changes nothing |
| Spectrometer.EarlyExitMatchesFullScan | Services/Spectrometer/Logic/SpectrometerLogic.cs:91-116 | for ascending wavelengths the result is the first strongest in-window pixel over the whole spectrum, or the target |
| Spectrometer.GetActualPeakWavelength | Services/Spectrometer/Logic/SpectrometerLogic.cs:91-116 | the loop, with its early exit, returns `PeakWavelength` (the target for an empty spectrum) |
| Spectrometer.NearestFrom | Services/Spectrometer/Logic/SpectrometerLogic.cs:128-141 | the scan ends on a valid pixel index |
| Spectrometer.Nearest | Services/Spectrometer/Logic/SpectrometerLogic.cs:125-142 | the pixel the lookup reads is a valid index |
| Spectrometer.NearestFromClosest | Services/Spectrometer/Logic/SpectrometerLogic.cs:128-141 | a scan that holds the first closest pixel of the prefix ends on the first closest pixel of the whole ascending spectrum |
| Spectrometer.NearestIsClosest | Services/Spectrometer/Logic/SpectrometerLogic.cs:121-143 | for ascending wavelengths the lookup reads the first pixel closest to the wavelength |
| Spectrometer.GetIntensityAtWavelength | Services/Spectrometer/Logic/SpectrometerLogic.cs:121-143 | the loop returns `IntensityAt`: 0 for an empty spectrum, else the intensity at `Nearest` |
| Spectrometer.Cached | Services/Spectrometer/Logic/SpectrometerLogic.cs:44 | the cache's keys are the old keys plus the serial of every sample received |
| Spectrometer.CachedKeepsLatest | Services/Spectrometer/Logic/SpectrometerLogic.cs:44 | a device's entry is its last sample |
| Spectrometer.CachedUntouched | Services/Spectrometer/Logic/SpectrometerLogic.cs:44 | samples from other devices leave an entry alone |
| Spectrometer.SpectrometerLogic.constructor | Services/Spectrometer/Logic/SpectrometerLogic.cs:20-31 | an empty cache and no alert sent |
| Spectrometer.SpectrometerLogic.OnSpectralDataReceived | Services/Spectrometer/Logic/SpectrometerLogic.cs:36-48 | the sample is cached under its serial, after one alert when detection is on and a pixel exceeds 65000 |
| Spectrometer.SpectrometerLogic.CheckSaturation | Services/Spectrometer/Logic/SpectrometerLogic.cs:148-155 | one alert exactly when some intensity exceeds 65000 |
| Coordinator.Reset | Services/Platform3D/PlatformCoordinator.cs:56-60 | a calibration starts scanning, unsaturated, with maximum −1 at time 0; the saturation start time is kept |
| Coordinator.Observe | Services/Platform3D/PlatformCoordinator.cs:87-120 | outside a scan nothing changes; a sample at or above 65000 opens or extends a saturated stretch, puts the best time at the truncated middle of the stretch and leaves the maximum alone; the maximum only rises, to an unsaturated sample's intensity and time |
| Coordinator.Retarget | Services/Platform3D/PlatformCoordinator.cs:122-126 | a scanning sample at a positive time sets the axis's target to `TargetFor` the best time, the rounded fraction of the travel, which lies within the travel whenever the best time lies within the scan; any other sample leaves the targets alone, and no other axis's target ever changes |
| Coordinator.Feed | Services/Platform3D/PlatformCoordinator.cs:87-127 | a run of samples never removes a target entry |
| Coordinator.FeedStep | Services/Platform3D/PlatformCoordinator.cs:87-127 | feeding a suffix is one sample then the rest |
| Coordinator.Observations | Services/Platform3D/PlatformCoordinator.cs:92-95 | each delivered spectrum contributes the intensity at the strongest in-window wavelength, with its arrival time |
| Coordinator.IdleIgnoresSamples | Services/Platform3D/PlatformCoordinator.cs:89 | samples outside a scan change neither the tracker nor any target |
| Coordinator.SaturatedStretch | Services/Platform3D/PlatformCoordinator.cs:100-110 | inside an open saturated stretch the best time is the truncated middle of its start and the latest sample, and the maximum is unchanged |
| Coordinator.SaturatedStretchMidpoint | Services/Platform3D/PlatformCoordinator.cs:100-110 | a stretch entered from an unsaturated state starts at its first sample; the best time is the middle of its first and last samples |
| Coordinator.MidpointExample | Services/Platform3D/PlatformCoordinator.cs:109 | saturated from 1000 ms to 3000 ms, the best time is 2000 ms |
| Coordinator.TrackedMaximum | Services/Platform3D/PlatformCoordinator.cs:111-120 | the stored maximum is the largest unsaturated intensity seen, or the starting one: saturated samples never raise it |
| Coordinator.ThresholdsDiffer | Services/Platform3D/PlatformCoordinator.cs:98 | exactly 65000 counts is saturated for the coordinator (≥) but raises no spectrometer alert (>) |
| Coordinator.PlatformCoordinator.constructor | Services/Platform3D/PlatformCoordinator.cs:19-45 | a new coordinator is idle with maximum −1, best time 0 and saturation start −1 |
| Coordinator.PlatformCoordinator.StartAxisCalibrationAsync | Services/Platform3D/PlatformCoordinator.cs:50-83 | the tracker and the targets are those of `Feed` from the reset tracker over the delivered spectra; the calibration is `Calibrate` towards the target so computed; scanning, the stopwatch and the measurement end on every exit |
| Coordinator.PlatformCoordinator.ReceiveSamples | Services/Platform3D/PlatformCoordinator.cs:41-44 | spectra handled in order leave the tracker and targets that `Feed` gives |
| Coordinator.PlatformCoordinator.OnSpectralDataReceived | Services/Platform3D/PlatformCoordinator.cs:87-127 | the new tracker is `Observe` of the old one and the targets are `Retarget`ed |
| Watchdog.AfterTick | Services/HighVoltageService.cs:90-93 | a tick never brings the link online; an online link stays online exactly when a reply was received and the tick is at most 10 s after it |
| Watchdog.OnlineThroughWindow | Services/BatteryService.cs:83-86 | after a reply at `t`, a run of ticks with no reply leaves the link online exactly when every tick is within 10 s of `t` |
| Watchdog.StaysOffline | Services/BatteryService.cs:83-86 | ticks alone never bring an offline link back |
| HighVoltage.WordBytes | Services/HighVoltageService.cs:119-122 | a 16-bit word as two bytes, high byte first |
| HighVoltage.ReadPowerInfo | Services/HighVoltageService.cs:111-132 | a reading exactly for a 13-byte frame with function code 0x66; the voltage and current are the big-endian words in bytes 6-7 and 8-9 |
| HighVoltage.PowerReportRoundTrip | Services/HighVoltageService.cs:114-122 | any 0x66 frame packed with two big-endian words reads back as exactly those words |
| HighVoltage.QueryEchoReadsZero | Services/HighVoltageService.cs:100-114 | the service's own query, were it received, reads as 0 V and 0 A |
| HighVoltage.SettingAndReportByteOrderDiffer | Services/Commands/ControlCommandFactory.cs:56-57 | the setting writes words low byte first and the report reads them high byte first: 1000 read with the report's order is 59395 |
| HighVoltage.DemuxedReportsAreRead | Services/ProtocolService.cs:66-80 | every control response the demultiplexer publishes is 13 bytes, and reads as a power report exactly when byte 3 is 0x66 |
| HighVoltage.HighVoltageService.constructor | Services/HighVoltageService.cs:18-48 | readings zero, offline, nothing received, timer stopped, nothing sent |
| HighVoltage.HighVoltageService.Start | Services/HighVoltageService.cs:54-61 | starts the timer and sends one query, unless the timer already runs |
| HighVoltage.HighVoltageService.Stop | Services/HighVoltageService.cs:66-70 | stops the timer and marks the link offline |
| HighVoltage.HighVoltageService.SetHighVoltage | Services/HighVoltageService.cs:77-82 | sends the factory's 0x22 setting frame for the targets |
| HighVoltage.HighVoltageService.OnPollingTimerElapsed | Services/HighVoltageService.cs:87-95 | the online flag becomes `AfterTick` of the old one, then one query is sent |
| HighVoltage.HighVoltageService.SendQuery | Services/HighVoltageService.cs:100-105 | sends one 0x66 query |
| HighVoltage.HighVoltageService.ParseResponse | Services/HighVoltageService.cs:111-132 | a frame that is not a power report changes nothing; a power report sets the readings to `ReadPowerInfo`'s, the link online and the receive time to now |
| Battery.ReadBattery | Services/BatteryService.cs:104-138 | a reading exactly for frames of 34 bytes or more: the current is bytes 6-7 big-endian read as a signed 16-bit value (negative exactly when byte 6 ≥ 0x80), the percentage byte 23, wired when bit 0 of byte 24 is set, charging when the current is positive, assisting when wired with a negative current; never charging and assisting at once |
| Battery.CurrentExamples | Services/BatteryService.cs:110-111 | FF 38 is −200 (assisting when wired) and 00 C8 is +200 (charging) |
| Battery.DemuxedBatteryFramesAreRead | Services/ProtocolService.cs:34-44 | every battery frame the demultiplexer publishes is long enough to be read |
| Battery.QueryIsNotAReply | Services/Commands/ControlCommandFactory.cs:197-200 | the 7-byte query, were it received, is too short to read |
| Battery.BatteryService.constructor | Services/BatteryService.cs:18-54 | readings clear, offline, nothing received, timer stopped, nothing sent |
| Battery.BatteryService.Start | Services/BatteryService.cs:59-66 | starts the timer and sends one query, unless the timer already runs |
| Battery.BatteryService.Stop | Services/BatteryService.cs:71-75 | stops the timer and marks the link offline |
| Battery.BatteryService.OnPollingTimerElapsed | Services/BatteryService.cs:80-88 | the online flag becomes `AfterTick` of the old one, then one query is sent |
| Battery.BatteryService.SendQuery | Services/BatteryService.cs:93-98 | sends the fixed battery query |
| Battery.BatteryService.ParseBatteryData | Services/BatteryService.cs:104-138 | a short frame changes nothing; otherwise every reading becomes `ReadBattery`'s, the link online and the receive time now; the flags stay consistent |
| Experiment.SettleDelayValue | Services/Platform3D/Logic/SpatialExperiment.cs:63 | the settle wait `moveStep * 1000 / 500 + 1000` under truncating division is exactly `2 * moveStep + 1000` ms, for negative steps too |
| Experiment.Samples | Services/Platform3D/Logic/SpatialExperiment.cs:34-56 | the acquisition loop makes at least one observation of the token per round it enters, and never fewer than it started with |
| Experiment.Schedule | Services/Platform3D/Logic/SpatialExperiment.cs:34-56 | an uninterrupted point is `2 * count - 1` steps long, and empty when `count` is zero |
| Experiment.ScheduleAt | Services/Platform3D/Logic/SpatialExperiment.cs:39-55 | round `k` of a point publishes the record numbered `k + 1` at place `2k` and, unless it is the last round, waits the interval at place `2k + 1` |
| Experiment.SamplesFrom | Services/Platform3D/Logic/SpatialExperiment.cs:34-56 | from any round on, the loop produces a prefix of the rest of the schedule, all of it unless the token is seen, and it is cut short exactly when one of its observations comes at or after the cancellation |
| Experiment.SamplesFromLast | Services/Platform3D/Logic/SpatialExperiment.cs:36-53 | a round that sees the token, publishes the last record, or is cancelled in its wait follows the schedule |
| Experiment.SamplesFromNext | Services/Platform3D/Logic/SpatialExperiment.cs:39-55 | a round that publishes, waits and goes on follows the schedule when the later rounds do |
| Experiment.AcquisitionFollowsSchedule | Services/Platform3D/Logic/SpatialExperiment.cs:34-56 | a whole point publishes records 1..count with the interval between them, cut short exactly when the token is cancelled during its observations; a non-positive count publishes nothing |
| Experiment.ScheduleRecords | Services/Platform3D/Logic/SpatialExperiment.cs:39-46 | every record at a point carries that point's index, position and axis and a round between 1 and `count` |
| Experiment.Advance | Services/Platform3D/Logic/SpatialExperiment.cs:59-71 | after a cancelled acquisition the platform is stopped and nothing else happens; a pass that goes on has waited exactly the settle delay, made exactly two more observations and kept the snapshot complete; a pass that ends waits at most the settle delay |
| Experiment.Points | Services/Platform3D/Logic/SpatialExperiment.cs:20-72 | the point counter never goes back, and a run that starts at the max switch, with the token clear, ends at once as `AtMax` with nothing done |
| Experiment.PointsStep | Services/Platform3D/Logic/SpatialExperiment.cs:26-64 | one pass of the outer loop is the point's acquisitions followed by its move and settle, then the rest of the run from the new state |
| Experiment.MoveNeverStops | Services/Platform3D/Platform3DService.cs:57-90 | a forward move never calls `StopAll`: its effect holds no `Stopped` event, whatever the switch and the token do (`StopAll` sends nothing; it only clears the busy flag) |
| Experiment.AdvanceStops | Services/Platform3D/Logic/SpatialExperiment.cs:59-71 | after the acquisitions, a pass stops the platform exactly when it ends the run by cancellation, and then as its last platform action |
| Experiment.StopsOnlyWhenCanceled | Services/Platform3D/Logic/SpatialExperiment.cs:67-71 | every run stops the platform if and only if it ends as `Canceled`, and the stop is the last platform action of that run |
| Experiment.RecordsInRange | Services/Platform3D/Logic/SpatialExperiment.cs:31-46 | every published record belongs to a point the run started (index from the first to the last point), to a round in 1..count, and to the experiment's axis |
| Experiment.MaxSwitchEndsRun | Services/Platform3D/Logic/SpatialExperiment.cs:29-31 | a point whose forward move hears the max switch is the last point the run starts |
| Experiment.SamplesStep | Services/Platform3D/Logic/SpatialExperiment.cs:36-55 | one round of the acquisition loop unfolds into its record, its wait and the later rounds |
| Experiment.SpatialExperiment.constructor | Services/Platform3D/Logic/SpatialExperiment.cs:13-18 | a new experiment holds the given platform, point index 0 and has done nothing |
| Experiment.SpatialExperiment.RunAsync | Services/Platform3D/Logic/SpatialExperiment.cs:20-72 | the run's end, the platform's new state, the last point index, everything published or waited for and every platform action are exactly those of `Points` from the old state; the busy flag is cleared only by a cancellation stop, and homing is untouched |
| Experiment.SpatialExperiment.VisitPoint | Services/Platform3D/Logic/SpatialExperiment.cs:29-64 | one pass of the loop either ends the run at the end `Points` prescribes, or leaves the run midway with more observations made, still agreeing with `Points` |
| Experiment.SpatialExperiment.FinishPoint | Services/Platform3D/Logic/SpatialExperiment.cs:59-71 | the move, settle and cancellation handling after a point's acquisitions do exactly what `Advance` prescribes, to the state, the trace, the log and the busy flag |
| Experiment.SpatialExperiment.Settle | Services/Platform3D/Logic/SpatialExperiment.cs:63-71 | waits the settle delay; when the token fires during it the platform is stopped and the busy flag cleared; the position is unchanged |
| Experiment.SpatialExperiment.AcquirePoint | Services/Platform3D/Logic/SpatialExperiment.cs:34-56 | the records and waits it makes, whether the token stopped it and how many observations it made are exactly those of `Samples` |

## Left out

- The serial port, the spectrometer SDK wrappers, the Excel export, the general device service and the user interface are not part of this model. What is sent over the link is a ghost log of frames or events.
- `CrcHelper` is not part of this model. The checksum is a function parameter `crc` of the first ten bytes of a frame.
- The JSON position file (`PlatformStorageService`) is not part of this model. A save is a `Saved` snapshot event in the platform log. A load is the optional snapshot argument of `InitializeAsync`.
- Concurrency is not modelled: the locks, the timers, the messenger and `Task.Delay`. Calls run one after another. Waits are recorded as pauses in a ghost log, not taken.
- Time is a parameter. `DateTime.Now` and the stopwatch become an integer `now` in milliseconds. "More than ten seconds" (`TotalSeconds > 10`) is `now - last > 10000`. Sub-millisecond clock resolution is not modelled.
- Cancellation is an explicit input, saying at which observation, pause or phase the token fires. A run whose token never fires is modelled by a `cancelAt` past its end. So the spatial experiment's `Points` is bounded by `cancelAt`, and a run that is never cancelled and never reaches the max switch is not captured as an infinite run.
- `Experiment.SpatialExperiment.RunAsync`: the acquisition interval is whole milliseconds (`intervalMs: nat`) rather than seconds as a double. A negative interval, which would make `Task.Delay` throw, is not modelled.
- `Experiment.SpatialExperiment.RunAsync`: the 32-bit overflow of `moveStep * 1000` is not modelled. The settle wait is computed over unbounded integers.
- `Experiment.SpatialExperiment.RunAsync`: `SpatialExperimentData.Timestamp` and the message publication are not modelled. Each published record is a step in the ghost trace.
- `Platform3D.CalculateMoveDelay`: the 32-bit overflow of `(step / 500) * 1000 + 500` for steps near the `int` limits is not modelled.
- `Platform3D.Platform3DService.UpdateLocalPosition`: coordinates are unbounded integers, so the 32-bit wrap of `CurrentPosition[axis] += delta` is not modelled. From a loaded X of 2147483647, a positive move of 1 books -2147483648 in the source and 2147483648 in the model. `Platform3D.PositionsNotClamped` is about the travel limits only, not about this.
- `Platform3D.CheckSafety`: the Z floor test `CurrentPosition.Z - step < -2000` is evaluated without 32-bit wrap. From a loaded Z near `int.MinValue`, the wrapped difference in the source can pass the test where the model refuses the move.
- `Calibration.CalibrationLogic.SetTargetByIntensityTime`: the ratio `MaxStep * peak / total` is computed exactly, as a rational number. The target is rounded half to even, as `Math.Round` does. IEEE double rounding and the overflow of the `(int)` cast are not modelled.
- Wavelengths and intensities are exact reals, not doubles.
- `Spectrometer.FindPeak`, `Spectrometer.GetActualPeakWavelength`, `Spectrometer.GetIntensityAtWavelength` and the coordinator's `Coordinator.TrackedIntensity` require the wavelength and intensity arrays to have the same length (`Aligned`). The only producer of spectra cuts both arrays to the same length (Services/Spectrometer/SpectrometerService.cs:233-237). Unequal arrays are not modelled: in the source they throw only when an index passes the shorter array, and `FindPeak` with more wavelengths than intensities returns normally.
- A null spectrum, which `FindPeak` answers with (0, 0), has no counterpart in the model.
- `Coordinator.PlatformCoordinator.StartAxisCalibrationAsync`: the spectra delivered while a calibration runs are processed in order before the calibration reads the target. In the source they arrive concurrently with the sweep. Misaligned spectra are excluded by precondition.
- Before the first calibration the coordinator's axis field is the C# default `0`, which names no axis. The model starts it at `X`. No sample is tracked before a calibration sets the axis, so this changes nothing observable.
- `SpectrometerLogic.PerformStitching` is not modelled: its only call is commented out.
- `Platform3D.Platform3DService.InitializeAsync`: a loaded file whose min table lists an axis missing from its max table is excluded by precondition. The source would throw `KeyNotFoundException` partway through the copy.
- The `try`/`catch` blocks around the frame parsers of the polling services are not modelled. Nothing inside them can throw on a byte array.
- Pumps, valves and the other device commands are modelled only as the frames the factory builds. The devices' reactions are outside the host.

## Findings

| source | as written | input that shows it | evidently intended | confidence | as-written member | corrected member |
|---|---|---|---|---|---|---|
| Services/Commands/ControlCommandFactory.cs:71-84 | the speed is clamped to 0..100 into `safeSpeed`, but the unclamped `speed * 100` is what gets encoded | speed 200 is sent as `4E 20` (20000); speed −1 is sent as `00 9C` | the clamped speed is encoded: `27 10` (10000) for 200 and `00 00` for −1 | not executed | `Commands.CreatePeristalticPump`, exhibited by `Commands.PeristalticIgnoresClamp` | `Commands.CreatePeristalticPumpClamped` |
