# ArduCAM Mini 2MP Plus driver core in Dafny

This project models the protocol core of the `arducam-legacy` Rust driver in
`src/lib.rs` and proves properties of it. The driver talks to two chips:

- the ArduChip FIFO/control chip, over SPI (the register bus);
- the OV2640 image sensor, over I2C (the sensor bus).

The model covers:

- register addressing;
- sensor register writes and the table writer;
- the capture lifecycle: clear, trigger, poll, read the length, drain;
- the chip-id read and the connectivity self-test;
- the resolution-to-table dispatch, `set_resolution` and `init`.

Both buses are abstract. Every operation the driver performs is appended as an
`Event` to one shared trace: an SPI transaction with its write and read steps,
an I2C write, an I2C write-then-read, or a pause. A scripted `Oracle` sees the
history and the next operation. It answers `Nak` (the transport fails) or
`Ack(bytes)` (the bytes the device sends back). Each driver operation is a pure
function from a camera state and an oracle to a `Ret`, which is the Rust
`Result` together with the camera afterwards. `Ret` supports `:-`, which plays
the part of Rust's `?`.

The reference semantics is `Bus.Exec`. It issues a plan of operations in order
and stops right after the first one the device refuses. `Camera.Performs` says
that an outcome is what `Exec` yields:

- the trace grows by exactly the issued operations;
- nothing else about the camera changes;
- the call fails exactly when an operation was refused;
- the error names that operation's bus (`Spi` or `I2c`).

Every operation's contract gives the exact plan it performs. The lemmas in
`Camera` turn that into index-wise facts: which operations were acknowledged,
where the trace stops, and how plans compose.

Files:

- `bus.dfy`: events, oracle, `Exec` and its lemmas, and read buffers.
- `camera.dfy`: errors, resolutions, formats, the camera state, `Ret`, `Performs` and composition.
- `registers.dfy`: register-bus framing and single-register access.
- `sensor.dfy`: sensor-bus access and the table writer.
- `capture.dfy`: the FIFO and capture lifecycle and the FIFO-length decoding.
- `identify.dfy`: the chip-id read and the self-test.
- `config.dfy`: the resolution dispatch, `set_resolution` and `init`.
- `scenarios.dfy`: an end-to-end capture session and an aborted `init`.

## Model

| member | source | states |
|---|---|---|
| Registers.WriteFrame | src/lib.rs:285-287 | The address byte of a register write is the address's low 7 bits plus 0x80 |
| Registers.ReadFrame | src/lib.rs:289-291 | The address byte of a register read is the address's low 7 bits |
| Registers.FramesAddressSameRegister | src/lib.rs:285-291 | A write and a read of one logical address reach the same 7-bit register, and the write and read bytes always differ. A write of 0x04 sends 0x84; a read of 0x84 sends 0x04 |
| Registers.ArduchipWrite | src/lib.rs:268-274 | One SPI transaction of two one-byte writes: the address byte as given, then the data. A refusal is reported as `Spi` |
| Registers.ArduchipRead | src/lib.rs:276-283 | One SPI transaction: a one-byte write of the address, then a one-byte read. The value is the byte the device sent. A refusal is `Spi` |
| Registers.ArduchipWriteReg | src/lib.rs:285-287 | A register write is one SPI transaction whose address byte has the write flag set |
| Registers.ArduchipReadReg | src/lib.rs:289-291 | A register read is one SPI transaction whose address byte has the flag cleared, and it returns the byte read |
| Sensor.TableWrites | src/lib.rs:293-298 | A table is applied as one I2C write of `[reg, value]` to address 0x30 per entry, in table order |
| Sensor.SensorWriteReg | src/lib.rs:300-302 | One I2C write of `[reg, data]` to address 0x30; a refusal is `I2c` |
| Sensor.SensorReadReg | src/lib.rs:304-306 | One I2C write-read to 0x30 that sends `[reg]` and asks for exactly as many bytes as the buffer holds. The buffer is overwritten by the device's bytes. A refusal is `I2c` |
| Sensor.SensorWriteRegs | src/lib.rs:293-298 | Issues the table's writes in order and stops with `I2c` at the first refused one. Nothing is issued for later entries |
| Sensor.TableWriterCount | src/lib.rs:293-298 | On success the trace grows by exactly the table length; on failure by at least one and at most that many |
| Capture.FlushFifo | src/lib.rs:256-258 | One register write of 0x01 to register 0x04, sent as 0x84 |
| Capture.StartFifo | src/lib.rs:260-262 | One register write of 0x02 to register 0x04, sent as 0x84 |
| Capture.StartCapture | src/lib.rs:191-195 | Two register writes to 0x04: clear (0x01), then start (0x02). If the clear is refused the start is never issued and the error is `Spi` |
| Capture.CaptureDone | src/lib.rs:198-200 | True exactly when bit 3 of the trigger-register value is set |
| Capture.CaptureDoneExamples | src/lib.rs:198-200 | 0x00, 0x04 and 0xF7 give false; 0x08 and 0xFF give true |
| Capture.IsCaptureDone | src/lib.rs:198-200 | One read of register 0x41, and true exactly when bit 3 of the byte read is set |
| Capture.ReadCapturedImage | src/lib.rs:208-218 | One SPI transaction (write 0x3C, then read exactly as many bytes as the buffer holds, whatever length the chip reports), then the FIFO clear. If the burst is refused there is no clear. The result is the buffer overwritten by the device's bytes |
| Capture.FifoLength | src/lib.rs:221-227 | The decoded length is at most 0x7FFFFF, and its three bytes are the low byte, the middle byte and the high byte with its top bit dropped |
| Capture.FifoLengthBytes | src/lib.rs:221-227 | A length up to 0x7FFFFF is reported with a high byte below 0x80 |
| Capture.FifoLengthRoundTrip | src/lib.rs:221-227 | Decoding the bytes that report a length up to 0x7FFFFF gives that length back |
| Capture.FifoLengthValue | src/lib.rs:221-227 | The length is (high & 0x7F) * 65536 + middle * 256 + low |
| Capture.FifoLengthExamples | src/lib.rs:221-227 | Bytes (0xFF, 0xFF, 0xFF) give 0x7FFFFF; (0x10, 0, 0) give 16 |
| Capture.GetFifoLength | src/lib.rs:221-227 | Reads registers 0x42, 0x43 and 0x44 in that order and stops at the first refused read. The value is the decoding of the three bytes answered |
| Identify.GetSensorChipId | src/lib.rs:230-236 | Selects sensor register bank 1, then reads register 0x0A and register 0x0B, one byte each. Any refusal aborts with `I2c`. The id is the two bytes read |
| Identify.ConnectedVerdict | src/lib.rs:182 | The driver's test `a && b \|\| c` accepts exactly what the intended `a && (b \|\| c)` accepts, plus a failed read-back together with id 0x26 0x42 |
| Identify.ConnectedVerdictGrouping | src/lib.rs:182 | Read-back 0x00 with id 0x26 0x42 passes the driver's test but not the intended one |
| Identify.IsConnected | src/lib.rs:173-188 | Writes 0x52 to register 0x00 (sent as 0x80), reads it back, then reads the chip id. The result is `(readback == 0x52 && id == [0x26, 0x41]) \|\| id == [0x26, 0x42]`, with Rust's precedence kept |
| Config.ResolutionTable | src/lib.rs:238-254 | Each resolution selects the size table that configures that same resolution |
| Config.ResolutionTableBijective | src/lib.rs:238-254 | The dispatch is injective, it inverts the table-to-resolution map, and it never selects one of the three setup tables |
| Config.SendResolution | src/lib.rs:238-254 | Applies exactly the size table of the stored resolution, with the table writer's abort rule |
| Config.SetResolution | src/lib.rs:166-170 | The new resolution is stored before anything is sent and is kept even on failure. Then exactly its size table is applied |
| Config.ResetArduchip | src/lib.rs:139-142 | Register 0x07 := 0x80, a 100 ms pause, register 0x07 := 0x00, a 100 ms pause. A refused write aborts the rest with `Spi`; a pause is never refused |
| Config.ResetSensor | src/lib.rs:143-146 | Sensor bank 1, a 100 ms pause, sensor register 0x12 := 0x80, a 100 ms pause. A refused write aborts the rest with `I2c` |
| Config.ResetChips | src/lib.rs:139-146 | ArduChip reset through register 0x07 (0x80, then 0x00), sensor bank 1, then sensor soft reset (0x12 := 0x80), each followed by a 100 ms pause. The first refusal aborts the rest |
| Config.ConfigureJpeg | src/lib.rs:148-156 | The three setup tables in order, bank 1, register 0x15 := 0x00, then the size table of the stored resolution. The first refusal aborts with `I2c` |
| Config.Init | src/lib.rs:135-163 | Performs the reset plan followed by the JPEG plan and stops at the first refusal. Resolution and format are unchanged |
| Config.InitPlanBuses | src/lib.rs:135-163 | Only the first and third operations of the `init` plan are on the register bus |
| Config.InitReportsFailingBus | src/lib.rs:135-163 | A failed `init` reports `Spi` exactly when it stopped after its first or third operation, and `I2c` otherwise |
| Camera.New | src/lib.rs:125-132 | A new camera has issued nothing and holds the given resolution and format |
| Camera.PerformsStopsAtFirstRefusal | src/lib.rs:135-163 | On success every planned operation was issued and acknowledged. On failure the trace ends right after the first refused operation, and the error names its bus |
| Camera.PerformsAndThen | src/lib.rs:135-163 | Rust's `?` between two steps performs the first step's plan followed by the second's |
| Camera.Then | src/lib.rs:135-163 | One `?` step: a run that performed `done`, continued by a step that performs `step`, performs `done + step` and stops at the first refusal in either |
| Bus.ExecStopsAtFirstRefusal | src/lib.rs:293-298 | The reference semantics issues everything when nothing is refused, and otherwise exactly the prefix up to the first refusal |
| Bus.ExecAppend | src/lib.rs:293-298 | Issuing `p + q` stops inside `p` on a refusal there, and otherwise continues with `q` |
| Scenarios.CaptureSession | src/lib.rs:37-50 | On a healthy module, these all succeed: `init`, the self-test (true), a capture request, a poll (done), a length read (16) and a 16-byte drain that yields exactly the FIFO's 16 bytes |
| Scenarios.HealthyDrain | src/lib.rs:208-218 | A 16-byte drain of a healthy module yields exactly the 16 bytes its FIFO sent, none of the buffer's own, and ends with the FIFO clear |
| Scenarios.InitAbortsAtSensorReset | src/lib.rs:135-146 | If the third bus operation of `init` is refused, `init` fails with `I2c` after exactly five trace events and sends nothing more |

## Left out

- The contents of the OV2640 register tables. The `ov2640_registers` module is not part of this model, so every table is an arbitrary `Tables` parameter. Only which table is chosen and the order of writes are modelled.
- The embedded-hal `SpiDevice` and `I2c` transports. They are replaced by the trace and the oracle. Chip select, clocking and the transports' own error kinds are not modelled; every transport error becomes the driver's `Spi` or `I2c`, as the `map_err` calls do.
- `DelayNs` timing. A pause is recorded as a `Delay(100)` event that never fails, with no notion of time.
- The `fmt::Debug` implementation (src/lib.rs:309-322), which is only formatting.
- `set_fifo_burst` (src/lib.rs:264-266), which nothing calls.
- The commented-out BMP and RAW paths, including the format test in `init`. `ImageFormat` has only `Jpeg`, and `init` always takes the JPEG branch, as the code does.
- The `Pin` and `OutOfBounds` errors are declared but never produced.
- The "Returns actual image size" doc comment on `read_captured_image`. The function returns `()`, so no length is modelled.
- The `unsafe` blocks and the `no_std` setup have no behavioural content.
- Capture.ReadCapturedImage: the buffer contents are not stated on either failure path. On a refused FIFO clear after a successful burst, Rust has already filled the caller's buffer. On a refused burst, embedded-hal does not promise that the buffer is untouched. The model returns only the error in both cases.
- Short replies. An embedded-hal read that returns `Ok` fills the whole buffer, but the oracle may answer with fewer bytes than were asked for. `Bus.Fill` and `Bus.FirstByte` then keep the buffer's own bytes in the gap. This case exists only in the model; every contract that names device bytes also holds for full-length replies, which the healthy module always gives.
- Config.Init: the halves `ResetArduchip`, `ResetSensor`, `ResetChips` and `ConfigureJpeg` are one Rust function, split here only to keep the proofs small.

## Behaviour as written

- `is_connected` is meant to require both a matching read-back and a valid chip id. The code's `a && b || c` grouping also accepts chip id 0x26 0x42 alone. `IsConnected` keeps the code's grouping. `ConnectedVerdict` states exactly where it departs from the intended test, and `ConnectedVerdictGrouping` gives an input where it does.
- `init` issues exactly two register-bus transactions, the two ArduChip reset writes (`InitPlanBuses`). Its third bus operation is the sensor bank select on the sensor bus, and a refusal of it is reported as `I2c` (`InitAbortsAtSensorReset`).
