# PiPinPP core, modelled in Dafny

PiPinPP is a C++ hardware abstraction layer for the Raspberry Pi with an Arduino-style API.
This project models its core and proves properties of the model. Each module below stands
for one source file:

- `Wire`: the I2C `WireClass`, with its bounded transmit buffer, indexed receive buffer,
  status codes, register helpers and bus scan.
- `SPI`: the `SPIClass` configuration state, the mode byte, clock-divider arithmetic and
  fail-closed transfers.
- `Serial`: the UART `SerialPort`, with its baud-rate table, open/close life cycle, guarded
  reads and writes, `print`/`println` texts and string readers.
- `HardwarePWM`: a sysfs PWM channel with its exported/enabled flags and its period and
  duty cycle in nanoseconds.
- `SoftPWM`: the pin-keyed `PWMManager` registry of software PWM channels and the levels its
  generator thread writes.
- `EventPWM`: the `EventPWM` channel and the `EventPWMManager` registry.
- `Interrupts`: the `InterruptManager` handler registry and one batch of callback dispatch.
- `PlatformDetection`: `PlatformInfo`'s board recognition from the device-tree model and
  `/proc/cpuinfo`, default chip and bus selection, peripheral base and DMA support.
- `ArduinoCompat`: `pinMode`/`digitalWrite`/`digitalRead` over the global pin map.
- `OledSSD1306`: the SSD1306 display example's 1024-byte framebuffer and its drawing
  primitives.
- `Bmp280`: the BMP280 example's calibration decoding, raw reading packing and
  compensation.
- `Mpu6050`: the MPU6050 example's start-up check and burst decoding.
- `Common`: shared helpers (`Option`, bytes, `std::clamp`, 16-bit words, `int16_t`).

Calls into the kernel become parameters: what `open()` returns, whether an `ioctl`
succeeds, how many bytes `write()` accepted, the bytes `read()` delivered, and whether a
sysfs write succeeded. Objects whose fields the C++ updates are Dafny classes whose methods
state the complete new state; the selection and decoding logic consists of pure functions.
Most functions have lemmas or method contracts about them: round trips, rule tables and
painted pixels. A few simple selectors, such as `DirectionOf` and `GetBaudRate`, carry
only their own contracts.

`Wire.exists` is modelled as written. It sends an empty transmission, and
`endTransmission` answers 0 for an empty buffer before it touches the bus. So `exists` is
true for every address on an open bus. As a consequence, `scan` reports all 117 addresses
on an open bus, and the BMP280 example's `detectBMP280` always settles on 0x76.

## Model

| member | source | states |
|---|---|---|
| Common.Clamp | src/pwm.cpp:211-217 | `std::clamp`: the result lies in [lo, hi], equals v inside the range, and is the nearer bound outside it |
| Common.ToInt16 | examples/i2c_mpu6050/main.cpp:134-140 | storing a 16-bit pattern in `int16_t` gives a value in [-32768, 32768) congruent to it modulo 65536, non-negative iff the pattern is below 0x8000 |
| Common.FromInt16 | examples/i2c_bmp280/main.cpp:85-98 | the 16-bit pattern of an `int16_t`, a left inverse of ToInt16 |
| Common.Word16 | examples/i2c_mpu6050/main.cpp:134-140 | `(hi << 8) \| lo` is a 16-bit value whose high byte is hi and whose low byte is lo |
| Common.Word16Split | examples/i2c_bmp280/main.cpp:137-148 | every 16-bit value is the join of its own high and low bytes |
| Wire.AddressRangeShape | src/Wire.cpp:347-359 | the scanned address list lo..hi-1 has hi - lo entries, and entry i is lo + i |
| Wire.ScanRangeFacts | src/Wire.cpp:347-359 | the scan range has 117 addresses, strictly ascending, exactly those in [0x03, 0x77] |
| Wire.ScanReportsEveryAddress | src/Wire.cpp:347-365 | every address in [0x03, 0x77] is in the list an open bus reports |
| Wire.DetectBusNumber | src/Wire.cpp:371-389 | the first candidate bus whose device node exists, and -1 iff none exists |
| Wire.WireClass.constructor | src/Wire.cpp:44-53 | a closed object: no descriptor, bus -1, clock 100 kHz, address 0, empty buffers |
| Wire.WireClass.Begin | src/Wire.cpp:63-90 | any descriptor is closed first; success iff `open` succeeds; the bus number is recorded only on success; buffers and clock are unchanged |
| Wire.WireClass.BeginAuto | src/Wire.cpp:92-112 | without a candidate bus it fails and leaves the descriptor alone; otherwise it behaves as `begin` on a detected bus |
| Wire.WireClass.End | src/Wire.cpp:114-126 | the object is closed, the bus number is -1, and both buffers and the read index are cleared |
| Wire.WireClass.BeginTransmission | src/Wire.cpp:132-137 | sets the target address and empties the transmit buffer; the receive side is untouched |
| Wire.WireClass.EndTransmission | src/Wire.cpp:139-168 | status 4 when closed; 0 without bus traffic for an empty buffer; 2 when the address is refused; 3 on a short write (buffer kept); 0 with the buffer emptied on a complete write; `sendStop` has no effect |
| Wire.WireClass.Write | src/Wire.cpp:178-187 | appends the byte and returns 1 below 256 queued bytes; at 256 it returns 0 and changes nothing |
| Wire.WireClass.WriteBytes | src/Wire.cpp:189-201 | appends exactly min(length, 256 - queued) leading bytes in order and returns that count |
| Wire.WireClass.RequestFrom | src/Wire.cpp:207-237 | returns 0 with no change when closed, for a quantity outside 1..256 or for a refused address; otherwise the receive buffer becomes the bytes read, the index restarts, and their count is returned |
| Wire.WireClass.Available | src/Wire.cpp:243-251 | the number of unread received bytes, 0 exactly when the index is at the end |
| Wire.WireClass.Peek | src/Wire.cpp:263-271 | the next unread byte, or -1 exactly when none is left |
| Wire.WireClass.Read | src/Wire.cpp:253-261 | returns what `peek` returns and advances the index by one when a byte was available |
| Wire.WireClass.SetClock | src/Wire.cpp:277-289 | records the frequency, which `getClock` then returns, and reports success |
| Wire.WireClass.GetClock | src/Wire.cpp:291-293 | the recorded clock, a 32-bit unsigned value |
| Wire.WireClass.ReadRegister | src/Wire.cpp:299-312 | the byte read after writing the register number, or -1 exactly when the write or the one-byte read fails; the register byte reaches the bus only when the bus is open and the address accepted; the transmit buffer is emptied only by a complete write; the receive buffer holds what was read, fully consumed, and is untouched when the write fails; clock, descriptor and bus are kept |
| Wire.WireClass.WriteRegister | src/Wire.cpp:314-320 | true exactly when the two-byte (register, value) write completes; no traffic on a closed bus or a refused address; the transmit buffer is emptied on success and keeps the two bytes otherwise; receive side, clock, descriptor and bus are kept |
| Wire.WireClass.ReadRegisters | src/Wire.cpp:322-345 | -1 exactly for a null buffer, length 0 or a failed register write; otherwise the bytes buffered by `requestFrom` and their count; a null buffer or length 0 changes nothing; the register byte reaches the bus only when the bus is open and the address accepted; the receive buffer is untouched when the write fails or the length exceeds 256, and otherwise holds the bytes read, fully consumed; clock, descriptor and bus are kept |
| Wire.WireClass.Exists | src/Wire.cpp:361-365 | true exactly when the bus is open, with no bus traffic |
| Wire.WireClass.Scan | src/Wire.cpp:347-359 | all of 0x03..0x77 in order on an open bus, nothing on a closed one, and nothing is written; the target address is left at 0x77, the last one probed, with an empty transmit buffer; the receive side, clock, descriptor and bus are kept |
| SPI.ModeByte | src/SPI.cpp:222-226 | the mode byte carries the SPI mode in bits 0-1 and the LSB-first flag exactly when the bit order is LSBFIRST, and nothing else |
| SPI.ModeByteInjective | src/SPI.cpp:222-226 | the mode byte determines both the mode and whether the order is LSB first |
| SPI.ClockForDivider | src/SPI.cpp:123-133 | 250 MHz / d in unsigned division: the largest speed whose product with d stays within the base clock |
| SPI.ClockDividerExamples | include/SPI.hpp:63-69 | DIV2 gives 125 MHz, DIV128 gives 1953125 Hz, and 3 gives 83333333 Hz |
| SPI.SPIClass.constructor | src/SPI.cpp:41-50 | uninitialised, with mode 0, MSB first, 4 MHz and 8 bits per word |
| SPI.SPIClass.ApplySettings | src/SPI.cpp:215-243 | fails on a closed device; otherwise it sends the mode byte and succeeds iff the mode, word-size and speed writes all succeed, stopping at the first failure |
| SPI.SPIClass.Begin | src/SPI.cpp:60-88 | closes any open descriptor first; on open failure it ends closed with the configuration kept; on success the configuration is reset to the defaults and applied |
| SPI.SPIClass.End | src/SPI.cpp:90-97 | closes the device; a second call changes nothing; `isInitialized` is false afterwards |
| SPI.SPIClass.SetDataMode | src/SPI.cpp:99-111 | values above 3 are ignored; 0..3 are stored whether or not the device is open, and pushed only to an open one; bus, chip select, order and speed are kept |
| SPI.SPIClass.SetBitOrder | src/SPI.cpp:113-121 | any order is stored and pushed to an open device; bus, chip select, mode and speed are kept |
| SPI.SPIClass.SetClockDivider | src/SPI.cpp:123-133 | speed becomes 250 MHz / d whether or not the device is open; the settings are pushed to an open device only; bus, chip select, mode and order are kept |
| SPI.SPIClass.SetClock | src/SPI.cpp:135-143 | `getClock` afterwards returns the speed set; the settings are pushed to an open device only; bus, chip select, mode and order are kept |
| SPI.SPIClass.GetClock | src/SPI.cpp:145-148 | the stored speed, a 32-bit unsigned value |
| SPI.SPIClass.Transfer | src/SPI.cpp:150-172 | 0 with nothing sent when closed; otherwise the byte is sent and the byte received is returned, or 0 when the ioctl fails |
| SPI.SPIClass.TransferInPlace | src/SPI.cpp:174-190 | nothing happens when closed, for a null buffer or for length 0; otherwise the first `length` bytes are sent and replaced by the reply when the ioctl succeeds |
| SPI.SPIClass.TransferBuffers | src/SPI.cpp:192-208 | nothing happens when closed, for either null buffer or for length 0; otherwise the transmit bytes are sent and the reply lands in the receive buffer |
| Serial.BaudRateConstant | src/Serial.cpp:329-365 | the termios speed code of a listed rate (one of the Linux B50..B4000000 codes), 0 for any other rate |
| Serial.BaudRateConstantSupported | src/Serial.cpp:329-365 | the code is nonzero exactly for the 30 listed rates |
| Serial.BaudRateRoundTrip | src/Serial.cpp:329-365 | every listed rate is recovered from its code |
| Serial.SlowRatesRoundTrip | src/Serial.cpp:332-339 | rates 50..600 are recovered from their codes |
| Serial.MiddleRatesRoundTrip | src/Serial.cpp:340-346 | rates 1200..38400 are recovered from their codes |
| Serial.FastRatesRoundTrip | src/Serial.cpp:347-353 | rates 57600..921600 are recovered from their codes |
| Serial.FastestRatesRoundTrip | src/Serial.cpp:354-361 | rates 1000000..4000000 are recovered from their codes |
| Serial.BaudRateConstantInjective | src/Serial.cpp:329-365 | no two rates share a nonzero code |
| Serial.DigitValue | src/Serial.cpp:187-190 | the value of a decimal digit character, below 10 |
| Serial.DigitsShape | src/Serial.cpp:187-190 | the decimal digits of n are non-empty digit characters without a leading zero that read back as n |
| Serial.Digits | src/Serial.cpp:187-190 | the digits of a natural number: non-empty and decimal digits only |
| Serial.DecimalText | src/Serial.cpp:187-190 | `std::to_string(int)`: non-empty, starting with '-' exactly for a negative number, digits after the sign |
| Serial.DecimalTextRoundTrip | src/Serial.cpp:187-190 | the text `print(int)` sends starts with '-' exactly for negative numbers, is digits otherwise, and reads back as the number |
| Serial.FirstIndex | src/Serial.cpp:236-252 | the position of the first terminator, or the length when there is none |
| Serial.SerialPort.constructor | src/Serial.cpp:24-30 | closed, baud 0, timeout 1000 ms, no device |
| Serial.SerialPort.Begin | src/Serial.cpp:37-67 | an open port is closed first; success iff open, attribute read, rate lookup and attribute write all succeed; device and rate are recorded only on success; failure leaves the port closed |
| Serial.SerialPort.End | src/Serial.cpp:69-80 | an open port is closed and forgets its rate and device; a closed port is unchanged |
| Serial.SerialPort.GetBaudRate | src/Serial.cpp:269-273 | the recorded rate, never negative |
| Serial.SerialPort.SetTimeout | src/Serial.cpp:254-258 | only the read timeout changes |
| Serial.SerialPort.Available | src/Serial.cpp:88-103 | 0 when closed or when the query fails, else the count reported |
| Serial.SerialPort.Read | src/Serial.cpp:105-134 | -1 with nothing consumed when closed or on timeout; otherwise the next arriving byte, consumed |
| Serial.SerialPort.WriteBuffer | src/Serial.cpp:165-175 | 0 with nothing sent when closed, for a null buffer or for size 0; otherwise the accepted count, and that prefix is sent |
| Serial.SerialPort.WriteByte | src/Serial.cpp:153-163 | 0 when closed; otherwise 1 and the byte is sent when `write()` accepts it |
| Serial.SerialPort.WriteText | src/Serial.cpp:177-185 | 0 when closed or for empty text; otherwise the accepted prefix of the text is sent |
| Serial.SerialPort.PrintInt | src/Serial.cpp:187-190 | returns what `write()` accepted of the decimal text (0 on failure) and exactly that prefix is sent; a complete write sends the whole text; nothing is sent when closed |
| Serial.SerialPort.Println | src/Serial.cpp:199-202 | sends the text followed by CR LF in one write; the accepted prefix of that text is what is sent |
| Serial.SerialPort.PrintlnInt | src/Serial.cpp:204-207 | returns what `write()` accepted of the decimal text followed by CR LF (0 on failure) and exactly that prefix is sent; nothing is sent when closed |
| Serial.SerialPort.PrintlnEmpty | src/Serial.cpp:216-219 | returns what `write()` accepted of CR LF (0 on failure) and exactly that prefix is sent; nothing is sent when closed |
| Serial.SerialPort.ReadString | src/Serial.cpp:221-234 | every byte arriving before a read times out, in order; nothing on a closed port |
| Serial.SerialPort.ReadStringUntil | src/Serial.cpp:236-252 | the bytes before the first terminator, which is consumed and not returned; without a terminator, everything until the timeout |
| HardwarePWM.PeriodForFrequency | src/HardwarePWM.cpp:76 | 1e9 / f in unsigned division: the largest period whose product with f stays within a second |
| HardwarePWM.FrequencyForPeriod | src/HardwarePWM.cpp:337-346 | 0 for a zero period, else 1e9 / period in unsigned division |
| HardwarePWM.FrequencyRoundTrip | src/HardwarePWM.cpp:337-346 | reading the frequency back after setting f gives at least f, and exactly f when f * f <= 1e9 |
| HardwarePWM.DutyFromPercent | src/HardwarePWM.cpp:195 | a percentage of the period truncated towards zero (the largest whole number of nanoseconds within the exact product); 0 for 0% and for negative percentages; 100% gives the period, and at most 100% never exceeds it |
| HardwarePWM.PreservedDuty | src/HardwarePWM.cpp:143-145 | the duty for the new period keeps the old duty fraction (truncated), stays within the new period, and is 0 without an old period |
| HardwarePWM.PreservedDutyBounds | src/HardwarePWM.cpp:143-145 | the scaled duty is within the new period and at most the exact proportion |
| HardwarePWM.GpioToPWM | src/HardwarePWM.cpp:371-387 | GPIO 12 and 18 map to chip 0 channel 0, 13 and 19 to channel 1, every other pin to none |
| HardwarePWM.HardwarePWM.constructor | src/HardwarePWM.cpp:42-54 | not exported, not enabled, period 0, duty 0 |
| HardwarePWM.HardwarePWM.GetFrequency | src/HardwarePWM.cpp:337-346 | 0 without a period, else 1e9 / period |
| HardwarePWM.HardwarePWM.GetDutyCycle | src/HardwarePWM.cpp:348-357 | -1 without a period, else the duty as a percentage of the period, within [0, 100] when the duty fits |
| HardwarePWM.HardwarePWM.Begin | src/HardwarePWM.cpp:61-102 | frequency 0 fails with no change; otherwise export, period, duty and enable succeed in order; the period field changes exactly when its write succeeds and the duty field exactly when both writes succeed, whatever happens later; full success leaves it exported and enabled with period 1e9 / f; any initial duty is accepted, a negative one giving 0 |
| HardwarePWM.HardwarePWM.End | src/HardwarePWM.cpp:104-118 | disabled afterwards, and unexported when the unexport succeeds |
| HardwarePWM.HardwarePWM.SetFrequency | src/HardwarePWM.cpp:126-180 | fails when not exported or for 0, with no change; otherwise the period field changes exactly when its write succeeds and the duty field (the old fraction of the new period) exactly when both writes succeed; on success a duty that was within the old period stays within the new one |
| HardwarePWM.HardwarePWM.SetDutyCycle | src/HardwarePWM.cpp:182-205 | the percent is clamped to [0, 100], converted against the period, and stored once written; fails when not exported |
| HardwarePWM.HardwarePWM.SetDutyCycle8Bit | src/HardwarePWM.cpp:207-211 | value / 255 of the period, so 255 gives the whole period |
| HardwarePWM.HardwarePWM.SetPeriodNs | src/HardwarePWM.cpp:213-248 | on success the period is p and the duty is cut back to at most p; fails when not exported |
| HardwarePWM.HardwarePWM.SetDutyCycleNs | src/HardwarePWM.cpp:250-271 | stores min(n, period) once the write succeeds; fails when not exported |
| HardwarePWM.PolarityValue | src/HardwarePWM.cpp:288 | distinct values for "normal" and "inversed" |
| HardwarePWM.HardwarePWM.SetPolarity | src/HardwarePWM.cpp:273-300 | the result of writing "normal" or "inversed"; false when not exported |
| HardwarePWM.HardwarePWM.Enable | src/HardwarePWM.cpp:302-318 | false when not exported or when the write fails; otherwise enabled |
| HardwarePWM.HardwarePWM.Disable | src/HardwarePWM.cpp:320-335 | true with no action when not exported; otherwise the write's result, and disabled on success |
| SoftPWM.ValidateDutyCycle | src/pwm.cpp:211-213 | the duty clamped to [0, 255] |
| SoftPWM.ValidateFrequency | src/pwm.cpp:215-217 | the frequency clamped to [1, 5000] Hz |
| SoftPWM.PWMManager.constructor | src/pwm.cpp:43-45 | an empty registry |
| SoftPWM.PWMManager.StartPWM | src/pwm.cpp:55-100 | pins outside 0..27 are rejected before the registry is touched; an active pin only gets its clamped duty replaced; a new pin is registered with clamped values only when acquired, else the registry is unchanged |
| SoftPWM.PWMManager.SetDutyCycle | src/pwm.cpp:102-114 | false with no change for an inactive pin; otherwise stores the clamped duty |
| SoftPWM.PWMManager.StopPWM | src/pwm.cpp:116-129 | true and removal exactly when the pin was active, so a second call returns false |
| SoftPWM.PWMManager.GetActiveCount | src/pwm.cpp:136-139 | the number of registered pins |
| SoftPWM.PWMManager.GetDutyCycle | src/pwm.cpp:141-148 | -1 exactly for an inactive pin, else a duty in [0, 255] |
| SoftPWM.PWMManager.GetFrequency | src/pwm.cpp:150-157 | -1 exactly for an inactive pin, else a frequency in [1, 5000] |
| SoftPWM.CycleWrites | src/pwm.cpp:171-195 | one generator pass writes only LOW for duty 0, only HIGH for duty 255, and HIGH then LOW otherwise |
| SoftPWM.AllCycles | src/pwm.cpp:171-195 | consecutive generator passes: between one and two levels per duty reading |
| SoftPWM.GeneratorWrites | src/pwm.cpp:159-209 | the levels written are one `CycleWrites` pass per duty reading, in order, followed by the final LOW; so duty 0 throughout never writes HIGH and duty 255 throughout writes only HIGH before the final LOW |
| EventPWM.DutyFrom8Bit | src/event_pwm.cpp:131-134 | v / 255 * 100, within [0, 100], with 0 giving 0% and 255 giving 100% |
| EventPWM.DutyFrom8BitMonotone | src/event_pwm.cpp:131-134 | larger 8-bit values give larger duty cycles |
| EventPWM.EventPWM.constructor | src/event_pwm.cpp:39-49 | an inactive channel on a valid pin with duty 0 and frequency 490 Hz |
| EventPWM.EventPWM.Create | src/event_pwm.cpp:39-49 | no object exactly for pins outside 0..27 |
| EventPWM.EventPWM.Begin | src/event_pwm.cpp:55-95 | out-of-range frequency or duty fails with no change; an active channel only takes the new values; an inactive one starts only when the pin is acquired |
| EventPWM.EventPWM.End | src/event_pwm.cpp:97-118 | inactive afterwards; a second call changes nothing |
| EventPWM.EventPWM.SetDutyCycle | src/event_pwm.cpp:120-129 | accepted exactly within [0, 100], active or not; the old value is kept otherwise |
| EventPWM.EventPWM.SetDutyCycle8Bit | src/event_pwm.cpp:131-134 | always succeeds with v / 255 * 100 |
| EventPWM.EventPWM.SetFrequency | src/event_pwm.cpp:136-145 | accepted exactly within [50, 10000] Hz, active or not; the old value is kept otherwise |
| EventPWM.EventPWMManager.constructor | src/event_pwm.cpp:256-259 | an empty registry |
| EventPWM.EventPWMManager.AnalogWriteEvent | src/event_pwm.cpp:267-298 | value clamped to [0, 255] and frequency to [50, 10000]; a registered pin is updated in place with the same keys; a new valid, acquired pin is registered with those values; other channels keep their settings |
| EventPWM.EventPWMManager.StopPWM | src/event_pwm.cpp:300-311 | true and removal exactly for a registered pin |
| EventPWM.EventPWMManager.GetActiveCount | src/event_pwm.cpp:318-321 | the number of registered pins |
| Interrupts.ModeToEdge | src/interrupts.cpp:372-383 | RISING gives the rising edge, FALLING the falling edge, CHANGE both |
| Interrupts.SetupOutcome | src/interrupts.cpp:111-170 | success exactly when every libgpiod step succeeds; the first failure decides the error, and a chip that does not open is a GPIO access error |
| Interrupts.PresentIndices | src/interrupts.cpp:347-363 | the read event slots that hold an event, each once, in increasing order |
| Interrupts.CaughtCount | src/interrupts.cpp:354-361 | the number of caught callback exceptions is at most the number of invocations |
| Interrupts.InterruptManager.constructor | src/interrupts.cpp:64-71 | an empty handler registry |
| Interrupts.InterruptManager.AttachInterrupt | src/interrupts.cpp:86-188 | checks pin range, empty callback, already attached and the libgpiod steps in that order; only full success inserts an active handler, and any failure leaves the registry unchanged |
| Interrupts.InterruptManager.DetachInterrupt | src/interrupts.cpp:190-211 | any int is accepted; true and removal of exactly that pin iff it had a handler |
| Interrupts.InterruptManager.GetActiveCount | src/interrupts.cpp:218-221 | the number of registered handlers |
| Interrupts.InterruptManager.DispatchBatch | src/interrupts.cpp:326-366 | for an active handler, the callback runs once per read event in order, and a throwing call neither stops the batch nor escapes; a missing or inactive handler, or a failed read, invokes nothing |
| PlatformDetection.PlatformName | src/platform.cpp:41-56 | a fixed non-empty name per platform, "Unknown Platform" exactly for UNKNOWN |
| PlatformDetection.IsRaspberryPi | src/platform.cpp:59-67 | true exactly for the platforms whose name starts with "Raspberry Pi", all of which are supported |
| PlatformDetection.IsSupported | include/platform.hpp:139 | true exactly for the platforms not named "Unknown Platform" |
| PlatformDetection.PlatformNameInjective | src/platform.cpp:41-56 | distinct platforms have distinct names |
| PlatformDetection.ContainsIffOccurs | src/platform.cpp:466-498 | the left-to-right search finds a marker exactly when it occurs at some position of the text |
| PlatformDetection.ContainsPrefix | src/platform.cpp:478-483 | text containing "Raspberry Pi Zero 2" also contains every prefix of it, such as "Raspberry Pi Zero" |
| PlatformDetection.RemoveAll | src/platform.cpp:462-463 | erase-remove of a character: it no longer occurs, and every other character keeps its count |
| PlatformDetection.RemoveAllAbsent | src/platform.cpp:462-463 | removing a character that does not occur changes nothing |
| PlatformDetection.CleanModel | src/platform.cpp:461-463 | the model text without NUL and newline characters |
| PlatformDetection.FirstMatch | src/platform.cpp:465-501 | the result is UNKNOWN or the platform of a rule whose markers occur |
| PlatformDetection.FiresOneMarker | src/platform.cpp:466-468 | a one-marker rule fires exactly when its marker occurs |
| PlatformDetection.FiresEitherMarker | src/platform.cpp:491-494 | a two-alternative rule fires exactly when either marker occurs |
| PlatformDetection.FiresBothMarkers | src/platform.cpp:415-419 | a rule with two required markers fires exactly when both occur |
| PlatformDetection.ParseDeviceTree | src/platform.cpp:454-502 | an empty or unreadable model gives UNKNOWN |
| PlatformDetection.ParseCPUInfo | src/platform.cpp:401-451 | empty or unreadable cpuinfo gives UNKNOWN |
| PlatformDetection.DeviceTreeNumberedPiRules | src/platform.cpp:466-477 | Pi 5, Pi 4, Compute Module 4 and Pi 3 are tested in that order |
| PlatformDetection.DeviceTreeZeroRules | src/platform.cpp:478-483 | "Raspberry Pi Zero 2" is tested before "Raspberry Pi Zero" |
| PlatformDetection.DeviceTreeOtherRules | src/platform.cpp:485-501 | then Orange Pi, BeagleBone or "TI AM335", then Jetson, else UNKNOWN |
| PlatformDetection.ParseDeviceTreeFollowsRules | src/platform.cpp:454-502 | the device-tree parser is the first-match lookup over the cleaned model |
| PlatformDetection.CPUInfoEarlyBroadcomRules | src/platform.cpp:409-421 | BCM2835 gives Zero, BCM2836 gives Pi 3, BCM2837 gives Zero 2 with "Raspberry Pi Zero 2" and Pi 3 otherwise |
| PlatformDetection.CPUInfoLateBroadcomRules | src/platform.cpp:422-431 | BCM2711 gives CM4 with "Compute Module 4" and Pi 4 otherwise; BCM2712 gives Pi 5 |
| PlatformDetection.CPUInfoOtherRules | src/platform.cpp:433-450 | Allwinner or "sun" gives Orange Pi, then AM33XX or AM335 gives BeagleBone, then Tegra gives Jetson, else UNKNOWN |
| PlatformDetection.ParseCPUInfoFollowsRules | src/platform.cpp:401-451 | the cpuinfo parser is the first-match lookup over its rule table |
| PlatformDetection.DeviceTreePiNamesRaspberryPi | src/platform.cpp:465-483 | a Raspberry Pi is recognised from the model only when it names "Raspberry Pi" |
| PlatformDetection.CPUInfoPiNamesBroadcom | src/platform.cpp:408-431 | a Raspberry Pi is recognised from cpuinfo only when it names a "BCM" SoC |
| PlatformDetection.DetectedPlatform | src/platform.cpp:181-193 | the device-tree answer, with cpuinfo consulted only when that answer is UNKNOWN; UNKNOWN iff both are |
| PlatformDetection.PeripheralBase | src/platform.cpp:505-525 | a 32-bit value, nonzero exactly for Zero, 3, Zero 2, 4 and CM4 (the Pi 5 address truncates to 0) |
| PlatformDetection.DefaultGPIOChip | src/platform.cpp:70-84 | "gpiochip0" for no chips, else the first available chip, else the first chip |
| PlatformDetection.DefaultI2CBus | src/platform.cpp:87-110 | 1 for no buses; 20 on a Pi 5 with an available bus 20; else the first available bus, else the first bus |
| PlatformDetection.SumLines | src/platform.cpp:203-207 | the line total of no chips is 0, and non-negative counts give a non-negative total |
| PlatformDetection.SumLinesBounds | src/platform.cpp:203-207 | the GPIO line total is non-negative and at least each chip's count |
| PlatformDetection.PlatformInfo.constructor | src/platform.cpp:28-38 | detects the platform, then the capabilities, with a coherent capability record |
| PlatformDetection.PlatformInfo.DetectPlatform | src/platform.cpp:181-193 | the platform becomes the detected platform |
| PlatformDetection.PlatformInfo.DetectDMASupport | src/platform.cpp:347-373 | only a Raspberry Pi with /dev/mem gets a peripheral base; DMA support iff that base is nonzero |
| PlatformDetection.PlatformInfo.DetectCapabilities | src/platform.cpp:196-208 | records the chips and buses, DMA support, and the line total over the chips |
| PlatformDetection.PlatformInfo.Refresh | src/platform.cpp:168-178 | forgets everything and detects platform and capabilities again |
| PlatformDetection.PlatformInfo.GetPlatformName | src/platform.cpp:41-56 | "Unknown Platform" exactly when the platform is not supported |
| PlatformDetection.PlatformInfo.GetDefaultGPIOChip | src/platform.cpp:70-84 | "gpiochip0" without chips, else the name of one of the chips |
| PlatformDetection.PlatformInfo.GetDefaultI2CBus | src/platform.cpp:87-110 | 1 without buses, else the number of one of the buses |
| ArduinoCompat.DirectionOf | src/ArduinoCompat.cpp:11-28 | OUTPUT (1) gives output and every other mode gives input |
| ArduinoCompat.ArduinoPins.constructor | src/ArduinoCompat.cpp:11-28 | an empty pin map |
| ArduinoCompat.ArduinoPins.PinMode | src/ArduinoCompat.cpp:11-28 | the old entry is erased first; the pin is registered with its direction only when the `Pin` is created, and otherwise ends unregistered; other pins are unchanged |
| ArduinoCompat.ArduinoPins.DigitalWrite | src/ArduinoCompat.cpp:30-41 | a registered pin is written; an unregistered one is left alone, and the map never changes |
| ArduinoCompat.ArduinoPins.DigitalRead | src/ArduinoCompat.cpp:43-52 | -1 for an unregistered pin, else what the pin reads |
| OledSSD1306.ByteIndex | examples/i2c_ssd1306/main.cpp:160 | the byte of an on-screen pixel, x + (y / 8) * 128, lies within the 1024-byte buffer |
| OledSSD1306.RowBitIsShift | examples/i2c_ssd1306/main.cpp:161-166 | the row mask is `1 << (y % 8)` |
| OledSSD1306.PixelAddressInjective | examples/i2c_ssd1306/main.cpp:160-161 | distinct on-screen pixels never share both byte and bit |
| OledSSD1306.RowBitsDisjoint | examples/i2c_ssd1306/main.cpp:161-166 | each row mask is nonzero, and the masks of distinct rows share no bit |
| OledSSD1306.PixelByteEffect | examples/i2c_ssd1306/main.cpp:163-167 | `\|=` or `&= ~` changes only the bit of row y, which becomes `on` |
| OledSSD1306.PixelByteSameRow | examples/i2c_ssd1306/main.cpp:163-167 | after the update, the bit of row y is `on` |
| OledSSD1306.PixelByteOtherRow | examples/i2c_ssd1306/main.cpp:163-167 | after the update, the bits of the other rows are unchanged |
| OledSSD1306.PixelByteRestore | examples/i2c_ssd1306/main.cpp:163-167 | setting a clear bit and then clearing it gives the byte back |
| OledSSD1306.WithPixel | examples/i2c_ssd1306/main.cpp:155-168 | the framebuffer after `setPixel` keeps its 1024 bytes; the pixels it shows are stated by WithPixelAt |
| OledSSD1306.WithPixelAt | examples/i2c_ssd1306/main.cpp:155-168 | `setPixel` gives pixel (x, y) the state `on` when it is on screen and leaves every other pixel as it was |
| OledSSD1306.WithPixelSameByte | examples/i2c_ssd1306/main.cpp:160-167 | pixels sharing the written byte change only at (x, y) |
| OledSSD1306.WithPixelOtherByte | examples/i2c_ssd1306/main.cpp:160-167 | pixels in other bytes are unchanged |
| OledSSD1306.WithPixelEffect | examples/i2c_ssd1306/main.cpp:155-168 | for all pixels: only (x, y) changes, only when on screen; off-screen coordinates leave the buffer showing the same |
| OledSSD1306.SetThenClearRestores | examples/i2c_ssd1306/main.cpp:163-167 | lighting a dark pixel and then clearing it gives back the original bytes |
| OledSSD1306.UniformBuffers | examples/i2c_ssd1306/main.cpp:147-153 | an all-zero buffer shows no pixel and an all-0xFF buffer shows every on-screen pixel |
| OledSSD1306.PaintPixel | examples/i2c_ssd1306/main.cpp:179 | lighting one more pixel adds its cell to the painted set |
| OledSSD1306.PaintedTrans | examples/i2c_ssd1306/main.cpp:203-206 | painting in two rounds paints the union of the cells |
| OledSSD1306.BresenhamStep | examples/i2c_ssd1306/main.cpp:183-191 | each step of the error-term loop moves towards the end point, never past it, and always moves |
| OledSSD1306.RectCells | examples/i2c_ssd1306/main.cpp:196-201 | the cells of the w by h box at (x, y), none when w <= 0 or h <= 0 |
| OledSSD1306.RowImage | examples/i2c_ssd1306/main.cpp:198-200 | the framebuffer after lighting one row of the box keeps its size; the pixels lit are stated by RowImagePixels |
| OledSSD1306.RectImage | examples/i2c_ssd1306/main.cpp:196-201 | the framebuffer after lighting rows of the box keeps its size; the pixels lit are stated by RectImagePixels |
| OledSSD1306.RowCells | examples/i2c_ssd1306/main.cpp:198-200 | the cells (x, y) .. (x + j - 1, y) |
| OledSSD1306.RowImageStep | examples/i2c_ssd1306/main.cpp:198-200 | one more column of the inner loop is one more `setPixel` |
| OledSSD1306.RectImageStep | examples/i2c_ssd1306/main.cpp:197-201 | one more iteration of the outer loop is one more row |
| OledSSD1306.RowImagePixels | examples/i2c_ssd1306/main.cpp:198-200 | a row lights exactly its on-screen cells in addition to what was lit |
| OledSSD1306.RectImagePixels | examples/i2c_ssd1306/main.cpp:196-201 | the filled box lights exactly its on-screen cells in addition to what was lit |
| OledSSD1306.RectImageEmpty | examples/i2c_ssd1306/main.cpp:196-201 | with w <= 0 or h <= 0 the buffer is unchanged |
| OledSSD1306.GlyphIndex | examples/i2c_ssd1306/main.cpp:245-247 | a glyph exists exactly for 'A'..'C' and ' ', and ' ' is glyph 3 |
| OledSSD1306.SpaceIsBlank | examples/i2c_ssd1306/main.cpp:238-243 | the space glyph has no lit bit |
| OledSSD1306.GlyphImage | examples/i2c_ssd1306/main.cpp:249-257 | the framebuffer after part of the glyph loops keeps its size; the pixels lit are stated by GlyphImagePixels |
| OledSSD1306.GlyphImageStep | examples/i2c_ssd1306/main.cpp:250-256 | one more inner iteration lights the pixel exactly when its font bit is set |
| OledSSD1306.CharImage | examples/i2c_ssd1306/main.cpp:236-258 | a character without a glyph leaves the buffer unchanged |
| OledSSD1306.GlyphCells | examples/i2c_ssd1306/main.cpp:250-256 | the cells of the set glyph bits visited so far |
| OledSSD1306.GlyphImagePixels | examples/i2c_ssd1306/main.cpp:250-256 | the glyph loops light exactly the on-screen cells of the set bits visited |
| OledSSD1306.CharImagePixels | examples/i2c_ssd1306/main.cpp:236-258 | `drawChar` lights exactly the on-screen pixels of the glyph in addition to what was lit, so ' ' and characters outside 'A'..'C' change nothing visible |
| OledSSD1306.SSD1306.constructor | examples/i2c_ssd1306/main.cpp:120-122 | a 1024-byte framebuffer, all zero |
| OledSSD1306.SSD1306.Clear | examples/i2c_ssd1306/main.cpp:147-149 | every byte becomes 0x00 |
| OledSSD1306.SSD1306.Fill | examples/i2c_ssd1306/main.cpp:151-153 | every byte becomes 0xFF |
| OledSSD1306.SSD1306.SetPixel | examples/i2c_ssd1306/main.cpp:155-168 | the buffer becomes WithPixel of the old buffer (see WithPixelEffect) |
| OledSSD1306.SSD1306.DrawLine | examples/i2c_ssd1306/main.cpp:170-193 | the walk terminates and lights a set of cells that holds both ends and lies within the line's bounding box; no other pixel changes |
| OledSSD1306.SSD1306.DrawRect | examples/i2c_ssd1306/main.cpp:195-208 | filled: exactly the on-screen cells of the box are lit; outline: the four corners are lit and nothing outside the box changes (not the full edges) |
| OledSSD1306.SSD1306.FillRect | examples/i2c_ssd1306/main.cpp:196-201 | the buffer becomes RectImage of the old buffer, lighting exactly the box's cells |
| OledSSD1306.SSD1306.OutlineRect | examples/i2c_ssd1306/main.cpp:203-206 | the four edges light the four corners and nothing outside the box |
| OledSSD1306.SSD1306.DrawChar | examples/i2c_ssd1306/main.cpp:236-258 | the buffer becomes CharImage of the old buffer (see CharImagePixels) |
| Bmp280.CalibrationWords | examples/i2c_bmp280/main.cpp:137-148 | word i is little-endian: low byte b[2i], high byte b[2i + 1] |
| Bmp280.CalibrationBytes | examples/i2c_bmp280/main.cpp:137-148 | the words written out again, low byte first |
| Bmp280.FromWords | examples/i2c_bmp280/main.cpp:85-98 | dig_T1 and dig_P1 stay unsigned; the other ten words are read as `int16_t` |
| Bmp280.ToWords | examples/i2c_bmp280/main.cpp:85-98 | the twelve 16-bit patterns of the fields, in field order |
| Bmp280.DecodeCalibration | examples/i2c_bmp280/main.cpp:137-148 | a well-typed calibration with dig_T1 = b[0] + 256 b[1] and dig_P1 = b[6] + 256 b[7] |
| Bmp280.EncodeCalibration | examples/i2c_bmp280/main.cpp:137-148 | the 24 bytes a sensor holding the calibration returns |
| Bmp280.WordsRoundTrip | examples/i2c_bmp280/main.cpp:137-148 | words written as bytes decode to the same words |
| Bmp280.BytesRoundTrip | examples/i2c_bmp280/main.cpp:137-148 | bytes decoded to words encode to the same bytes |
| Bmp280.FieldsRoundTrip | examples/i2c_bmp280/main.cpp:85-98 | reading the words of a calibration back as fields gives the calibration |
| Bmp280.FieldWordsRoundTrip | examples/i2c_bmp280/main.cpp:85-98 | no word is lost when stored in the signed or unsigned fields |
| Bmp280.ToInt16Inverse | examples/i2c_bmp280/main.cpp:87-97 | storing a word in an `int16_t` keeps its bit pattern |
| Bmp280.DecodeEncode | examples/i2c_bmp280/main.cpp:137-148 | decoding a calibration's bytes gives the calibration back |
| Bmp280.EncodeDecode | examples/i2c_bmp280/main.cpp:137-148 | every 24-byte block is the encoding of what it decodes to |
| Bmp280.Adc20 | examples/i2c_bmp280/main.cpp:242-243 | the raw reading lies in [0, 2^20) and holds b0 in bits 12-19, b1 in bits 4-11 and the top nibble of b2 in bits 0-3 |
| Bmp280.Adc20Injective | examples/i2c_bmp280/main.cpp:242-243 | two readings agree exactly when b0, b1 and the top nibble of b2 agree |
| Bmp280.TruncDiv | examples/i2c_bmp280/main.cpp:223 | C++ signed division: the quotient's magnitude is that of the magnitudes, and its sign is negative exactly for operands of opposite sign |
| Bmp280.TruncDivBounds | examples/i2c_bmp280/main.cpp:223 | the quotient's magnitude is the largest whose multiple of the divisor fits the dividend |
| Bmp280.TFine | examples/i2c_bmp280/main.cpp:200-203 | `compensateTemperature`'s `t_fine`: zero dig_T2 and dig_T3 give 0 (the formula itself carries no contract) |
| Bmp280.CentiCelsius | examples/i2c_bmp280/main.cpp:205 | `(t_fine * 5 + 128) >> 8`: the floor of (5 t_fine + 128) / 256, for negative values too |
| Bmp280.PressureDivisor | examples/i2c_bmp280/main.cpp:211-216 | the divisor `var1` of the pressure formula; 0 whenever dig_P1 is 0 |
| Bmp280.PressureQ8 | examples/i2c_bmp280/main.cpp:209-229 | 0 when the intermediate `var1` is 0, with no division |
| Bmp280.ZeroP1GivesZeroPressure | examples/i2c_bmp280/main.cpp:216-220 | with dig_P1 = 0, including the zero-initialised calibration, `var1` is 0 and so the pressure is 0 |
| Bmp280.Bmp280.constructor | examples/i2c_bmp280/main.cpp:100-102 | address 0x76, zero calibration, `t_fine` 0, nothing probed |
| Bmp280.Bmp280.DetectBMP280 | examples/i2c_bmp280/main.cpp:104-123 | probes 0x76 first and 0x77 only when 0x76 does not answer; selects the first address that answers, and keeps the old address otherwise; no bus traffic; Wire's target address is left at the last address probed (0x76 when found there, else 0x77) with an empty transmit buffer, and its receive side, bus number and clock are kept |
| Bmp280.Bmp280.ReadCalibrationData | examples/i2c_bmp280/main.cpp:125-152 | succeeds exactly when 24 bytes are read, then stores the decoded calibration; otherwise the old one is kept |
| Bmp280.Bmp280.CompensateTemperature | examples/i2c_bmp280/main.cpp:198-207 | updates `t_fine` from the reading and returns the temperature in hundredths of a degree |
| Bmp280.Bmp280.ReadSensorData | examples/i2c_bmp280/main.cpp:231-250 | succeeds exactly when 6 bytes are read; then the temperature from bytes 3-5 is compensated first and its `t_fine` feeds the pressure from bytes 0-2 |
| Mpu6050.InitMPU6050 | examples/i2c_mpu6050/main.cpp:92-119 | a failed WHO_AM_I read fails before the wake write; an identity other than 0x68 or 0x69 only warns; success iff the read and the wake write succeed |
| Mpu6050.IdentityOnlyWarns | examples/i2c_mpu6050/main.cpp:105-107 | the identity value never changes the outcome |
| Mpu6050.BurstWords | examples/i2c_mpu6050/main.cpp:134-140 | word i is big-endian, b[2i] high, stored as `int16_t`, negative exactly when b[2i] has its top bit set |
| Mpu6050.WordsBurst | examples/i2c_mpu6050/main.cpp:134-140 | the words written out again, high byte first |
| Mpu6050.FromWords | examples/i2c_mpu6050/main.cpp:134-140 | the seven words as accel x, y, z, temperature, gyro x, y, z |
| Mpu6050.ToWords | examples/i2c_mpu6050/main.cpp:134-140 | the seven fields in register order |
| Mpu6050.DecodeBurst | examples/i2c_mpu6050/main.cpp:134-140 | a well-typed sample whose accel x is bytes 0-1 and gyro z bytes 12-13, each as `int16_t` |
| Mpu6050.EncodeBurst | examples/i2c_mpu6050/main.cpp:134-140 | the 14 bytes a sensor holding the sample sends |
| Mpu6050.ReadSensorData | examples/i2c_mpu6050/main.cpp:121-141 | a sample exactly when 14 bytes are read |
| Mpu6050.WordsRoundTrip | examples/i2c_mpu6050/main.cpp:134-140 | words written as a burst decode to the same words |
| Mpu6050.BytesRoundTrip | examples/i2c_mpu6050/main.cpp:134-140 | a burst decoded to words encodes to the same bytes |
| Mpu6050.DecodeEncode | examples/i2c_mpu6050/main.cpp:134-140 | decoding a sample's burst gives the sample back |
| Mpu6050.EncodeDecode | examples/i2c_mpu6050/main.cpp:134-140 | every 14-byte burst is the encoding of what it decodes to |

## Left out

- Threads, timing and locking are not modelled. This covers the software PWM and
  `EventPWM` generator threads (only the level sequence of `pwmThreadFunction` is kept),
  `hybridSleep`, the interrupt monitor thread's `poll` loop, wake-up pipe and
  start/stop, every mutex, and `delay`.
- Kernel and device I/O become parameters: `open`, `close`, `ioctl`, termios in
  `configurePort`, `select`/`read`/`write`, sysfs `writeFile`/`readFile`/`exportPWM`/
  `unexportPWM`, libgpiod calls, `/proc` and `/sys` file reading, and device enumeration
  (`detectGPIOChips`, `detectI2CBuses`, `detectPWMChannels`, kernel and libgpiod versions).
- Floating point is not modelled. The examples' scaling to physical units, `calculateAltitude`,
  Serial `print(double)`/`println(double)` and the `/ 100.0` in `compensateTemperature` are
  left out. `EventPWM` duty and frequency use exact reals.
- HardwarePWM.DutyFromPercent: computed in exact arithmetic with truncation, not with
  `double` rounding. A negative percentage gives 0. That is what the Pi's ARM
  conversion does, but converting a negative `double` to `uint64_t` is undefined in C++.
  Products too large for `uint64_t` are not modelled.
- HardwarePWM.HardwarePWM.Begin: a negative initial duty cycle, as in `begin(1000, -50.0)`,
  is accepted and written as 0 through `DutyFromPercent`, which relies on the ARM
  conversion described above.
- HardwarePWM.PreservedDuty: the same exact-arithmetic reading of the percentage round
  trip through `double`.
- Bmp280.TFine: states only the zero-coefficient case; the formula is written out without
  a contract on its value.
- Bmp280.PressureDivisor: states only that a zero dig_P1 gives 0.
- Bmp280.PressureQ8: states only the zero guard. The rest of the 64-bit formula is
  written out but not given a contract. `int32_t`/`int64_t` overflow in `TFine` and
  `PressureQ8` is not modelled, because the arithmetic is unbounded.
- Bmp280.Bmp280.CompensateTemperature: tied to the `TFine` and `CentiCelsius` functions
  and not to any bound on the temperature.
- OledSSD1306.SSD1306.DrawLine: states that both ends are painted and that nothing
  outside the bounding box changes. It does not give the exact cell set Bresenham's walk
  visits.
- OledSSD1306.SSD1306.OutlineRect: states the corners and the bounding box, not the full
  edges.
- OledSSD1306.SSD1306.DrawRect: its outline branch is `OutlineRect` and states only the
  corners and the bounding box.
- The SSD1306 example's `begin`, `display`, command sending, `drawCircle` and `drawText`
  are not modelled: they are bus output or not among the modelled primitives.
- The BMP280 example's `initBMP280` (chip ID check and configuration writes) and its
  `main` are not modelled. The MPU6050 example's `main` is not modelled either.
- The sensors take what `Wire.readRegister`/`readRegisters`/`writeRegister` return as
  parameters. `detectBMP280` is the exception: it calls the modelled `Wire.exists`.
- Serial `peek` and `flush` are not modelled (a one-byte look-ahead and a kernel drain).
- Wire `setSlaveAddress` is folded into the bus's address acceptance. The
  one-argument `endTransmission()` and two-argument `requestFrom` overloads only forward
  their defaults.
- SPI `begin()` only forwards `begin(0, 0)`.
- SPI.SPIClass.SetClockDivider: requires a nonzero divider. `setClockDivider(0)` divides
  the base clock by 0 without a guard, which is undefined behaviour in C++, so that call
  is not modelled.
- Trivial field getters are represented by the fields themselves: HardwarePWM
  `isEnabled`, `getPeriodNs`, `getDutyCycleNs`; `EventPWM` `getDutyCycle`,
  `getFrequency` and `isActive`. The registries' `isActive`/`isAttached` become
  predicates without contracts. So do the descriptor tests Serial.SerialPort.IsOpen
  (`isOpen`), SPI.SPIClass.IsInitialized (`isInitialized`) and Wire.WireClass.IsOpen (the
  `fd_ >= 0` test `WireClass` repeats inline), each `fd >= 0`.
- `PlatformInfo::printInfo` and the singleton accessors (`instance`, `getInstance`) are
  not modelled. The registries are ordinary objects.
- `src/pin.cpp` is a stub. The `Pin` class is not part of this model: constructing,
  writing and reading a pin are parameters.
- The Python bindings, the command-line tool, the test programs and the other examples
  are not part of this model.
