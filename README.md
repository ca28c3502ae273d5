# AKM8973 and LM3530 I2C drivers, modelled in Dafny

This project models the sequential core of two Linux I2C peripheral drivers from an
OMAP board kernel and proves properties of the model:

- **AKM8973 three-axis magnetometer** (`drivers/misc/akm8973.c`). It covers the
  retried register transport, mode changes (draining the interrupt latch before measure
  mode), hardware initialisation from the EEPROM gains, the DAC offset encoding,
  per-axis auto-calibration, re-orientation and reporting of a `{T, X, Y, Z}` sample,
  platform-data validation and the control-device ioctls.
- **LM3530 backlight and ambient-light controller** (`drivers/leds/led-lm3530.c`). It
  covers the retried register read and write, the LED-class brightness callback, the
  interrupt handler and the zone worker, and the register programming done at probe.

Files:

- `bus.dfy` (module `Bus`): the I2C adapter. It also holds the specification functions
  of the two kinds of retry loop.
- `akm8973.dfy` (module `Akm8973`): the magnetometer driver.
- `lm3530.dfy` (module `Lm3530`): the backlight driver.

Each driver is a class whose fields are the driver's state:

- AKM8973: the copied platform data, the factory gains, `hw_initialized`, and flags for
  "lock held" and "interrupt line enabled".
- LM3530: `mode`, `last_requested_brightness`, `last_gen_config`, `zone`, and flags for
  the interrupt line and the pending work item.

The adapter (`Bus.Adapter`) is an oracle:

- Transfer number `k`, counted over the life of the bus, returns `ret(k)`. That is the
  value `i2c_transfer`, `i2c_master_send` or `i2c_master_recv` returned.
- Byte `i` that transfer clocked in is `rx(k, i)`.
- Every driver-level transaction is appended to a ghost trace: the register access with
  all of its retry attempts, plus whether the driver saw it succeed and the bytes it
  received. Ordering and "no write happened" are stated on that trace.

Each retry loop is proved against a specification function of the oracle:

- `Bus.Retry`: one transfer per attempt.
- `Bus.RecvRetry`: an address send, then a receive only when the send went through.

Modelling decisions. Where the drivers' documented behaviour and their code differ, the
code is followed; where the form of the model differs from the C, it is said here:

- `AKM8973_IOCTL_SET_CALI` writes the caller's three bytes to HXDA **unconverted**. Only
  the offsets written by auto-calibration and `hw_init` pass through
  `convert_dac_offset`. The model follows the code.
- A measurement cycle reads TMPS twice, 4 bytes each time:
  - once in `set_mode(MEASURE)`, to drain the interrupt latch;
  - once in the interrupt work, for the data.
- `lm3530_read_reg` can report success without storing a byte. When the last attempt's
  receive returns 0 (a zero-length receive), the loop runs out and returns that 0, and
  `*value` is untouched. `Lm3530.ZeroLengthReceives` exhibits such an input. The zone
  worker then masks the old zone again; it is already masked (`Lm3530.Lm3530.Valid`), so
  nothing changes.
- `lm3530_write_reg` tests `bytes < ALLOWED_W_BYTES` only after the loop. A last send
  that reported more than 2 bytes therefore returns 0 after the loop used all its
  attempts. `Lm3530.Lm3530.WriteReg` states it that way.
- `ld_lm3530_probe` writes `pdata->gen_config` to GEN_CONFIG but leaves
  `last_gen_config` at 0. An OFF request before any other request therefore writes 0.
- The short-circuit `||` chain of `ld_lm3530_init_registers` is modelled as a loop over
  the table of its twelve (register, value) pairs, `Lm3530.InitPlan`, in the same
  order. The loop stops at the first write that fails, as `||` does.
- The early returns of `akm8973_hw_init` are modelled with a single exit. The power-down
  step after the gain read, done on both of its paths, is the helper
  `Akm8973.Akm8973.ReadGains`. The traffic and the results are those of the C.
- The retry count of both drivers is a field: `i2cRetries` from the AKM8973 platform
  data, and `maxRetries` for the LM3530. `Bus.Budget` turns it into the number of
  attempts a do-while makes, which is at least one.
- Header values are not part of this model: `linux/akm8973.h` and
  `linux/led-lm3530.h`, which hold the register addresses, `AKM8973_MODE_*`, the ioctl
  numbers, the LM3530 masks and `LD_LM3530_MAX_RW_RETRIES`. They are declared as
  named stand-in constants. The band bounds are 0, 155, 156, 201, 202 and 255. The byte
  counts are 1 for a read and 2 for a write. `LAST_BRIGHTNESS_MASK` is 0xFE and
  `ALS_READ_MASK` is 0x07. The lemmas about the masks use these two values.

## Model

| member | source | states |
|---|---|---|
| Bus.Budget | drivers/misc/akm8973.c:71-74 | a do-while bounded by `++tries < retries` makes `max(1, retries)` attempts: at least one, and exactly `retries` when that is positive |
| Bus.Retry | drivers/misc/akm8973.c:71-74 | the retry loop makes between 1 and `budget` attempts; every attempt before the last failed; it is done exactly when the last transfer returned the wanted count; a loop that is not done used the whole budget |
| Bus.RetryStopsAt | drivers/misc/akm8973.c:71-74 | a loop whose first `k` transfers failed stops at transfer `k`, succeeding after `k + 1` attempts or failing with the budget spent |
| Bus.RetryOutcomeIsRetry | drivers/misc/akm8973.c:71-74 | the stopping rule determines the outcome: "all earlier attempts failed, the last decides, failure spends the budget" holds exactly for the run `Retry` computes |
| Bus.RecvRetryStopsAt | drivers/leds/led-lm3530.c:58-70 | the send-then-receive loop (`RecvRetry`) stops at the first attempt whose result is one received byte, or at the last attempt allowed: when attempts 0 .. k-1 failed and attempt k received the byte or is the last, the loop ends right after attempt k with that attempt's result, taking the byte from its receive |
| Bus.RecvRetryBounds | drivers/leds/led-lm3530.c:58-70 | the send-then-receive loop uses one or two transfers per attempt, and, when it fails, every attempt allowed (it ends where attempt number `budget` would start); it succeeds exactly when its last result is 1, and then the byte came from a receive that returned 1 right after an address send that returned 1 |
| Bus.Adapter.constructor | drivers/misc/akm8973.c:72-73 | a fresh adapter has used no transfer and logged no transaction |
| Bus.Adapter.Transfer | drivers/misc/akm8973.c:72-73 | one transfer returns the oracle's value for the next transfer number and uses that number up |
| Akm8973.ConvertDacOffset | drivers/misc/akm8973.c:44-50 | an offset below 0x80 is mirrored about 0x7f (offset + code = 0x7f), an upper-half offset is kept, and the half it lies in is preserved |
| Akm8973.ConvertDacOffsetInvolution | drivers/misc/akm8973.c:44-50 | converting twice gives the offset back |
| Akm8973.DacFrame | drivers/misc/akm8973.c:262-265 | the offset frame is 4 bytes and starts with the HXDA register address |
| Akm8973.AxisOffset | drivers/misc/akm8973.c:223-242 | a reading below the minimum threshold steps the offset up by one, a reading above the maximum steps it down by one, each clamped to 0x00..0xFF; crossing neither or both leaves it unchanged |
| Akm8973.Stepped | drivers/misc/akm8973.c:250-258 | one calibration step moves each offset by at most one, moves only an axis whose reading is out of range, and leaves all three offsets unchanged when no axis is out of range |
| Akm8973.Rotate | drivers/misc/akm8973.c:293-317 | for 0, 90, 180 and 270 the X,Y update is the planar rotation by that angle about the middle of the byte range; any other orientation leaves X,Y unchanged |
| Akm8973.RotateUndo | drivers/misc/akm8973.c:293-317 | rotating by a quarter turn and then by its opposite angle restores X,Y (90 then 270, 180 twice) |
| Akm8973.RotateTwice90 | drivers/misc/akm8973.c:298-307 | two 90-degree turns equal the 180-degree turn |
| Akm8973.Transformed | drivers/misc/akm8973.c:282-318 | the temperature byte is never changed; Z is flipped to 255 - z when asked; X,Y are swapped when asked and then rotated |
| Akm8973.TransformedUnknownOrientation | drivers/misc/akm8973.c:315-317 | with no swap and no flip, an unrecognised orientation leaves the sample unchanged |
| Akm8973.Signed | drivers/misc/akm8973.c:325-327 | a reported axis value is the byte minus 128 and lies in -128..127 |
| Akm8973.Report | drivers/misc/akm8973.c:320-333 | each axis is reported as byte - 128 within -128..127, with the calibrate flag and the raw temperature byte |
| Akm8973.ReportInjective | drivers/misc/akm8973.c:320-333 | two different samples never publish the same event group |
| Akm8973.Orientation90Example | drivers/misc/akm8973.c:298-302 | raw `{20, 10, 200, 128}` at orientation 90 publishes X = 72, Y = 117, Z = 0, T = 20 |
| Akm8973.AutoCalibrationExample | drivers/misc/akm8973.c:245-267 | thresholds 0x10..0xF0 and offsets 0x80 with raw `{25, 5, 128, 255}` step X up and Z down and write `[HXDA, 0x81, 0x80, 0x00]` |
| Akm8973.FloorInterval | drivers/misc/akm8973.c:424-425 | the stored interval is `max(n, 27)`: at least 27, and `n` itself when `n` is at least 27 |
| Akm8973.Akm8973.constructor | drivers/misc/akm8973.c:591-605 | the zero-filled instance holds a copy of the platform data, with no gains, not initialised and the line masked; no lock is held, which is the state once probe releases the lock it took at line 598 (line 646) |
| Akm8973.Akm8973.I2cRead | drivers/misc/akm8973.c:52-84 | the two-message transfer is retried by the `Retry` rule with the wanted count 2; the result is 0 with the received bytes on success and -EIO with no data otherwise; exactly one read is logged |
| Akm8973.Akm8973.I2cWrite | drivers/misc/akm8973.c:86-112 | the one-message transfer is retried by the `Retry` rule with the wanted count 1; the result is 0 or -EIO; exactly one write of the frame is logged |
| Akm8973.Akm8973.ClearIrq | drivers/misc/akm8973.c:114-125 | exactly one 4-byte read at TMPS is logged, and the result is 0 or -EIO as that read went |
| Akm8973.Akm8973.SetMode | drivers/misc/akm8973.c:128-147 | a mode other than MEASURE issues only the 2-byte write `[MS1, mode]`; MEASURE first reads 4 bytes at TMPS and writes the mode only if that read worked; success means the mode write was issued and worked |
| Akm8973.Akm8973.ReadGains | drivers/misc/akm8973.c:159-168 | the 3-byte gain read at EHXGA is followed by the power-down write whether or not it worked; the result is 0 only if both worked |
| Akm8973.Akm8973.HwInit | drivers/misc/akm8973.c:150-188 | in order: EEPROM-read mode, a 3-byte read at EHXGA, power-down (also after a failed read), then the 7-byte write of the converted offsets and the gains read; the gains are stored only when that write is issued; the instance becomes initialised exactly when every step worked |
| Akm8973.Akm8973.PowerOff | drivers/misc/akm8973.c:190-197 | with a board power-off callback the line is masked and the instance must be initialised again; without one nothing changes |
| Akm8973.Akm8973.PowerOn | drivers/misc/akm8973.c:199-220 | a failing board callback is returned with no bus traffic and nothing changed; an initialised instance issues no traffic and keeps its gains; otherwise `hw_init` runs with its traffic, its result (0 exactly when the 7-byte write was issued and worked) and its gains, and a failure powers the part off and is returned |
| Akm8973.Akm8973.AutoCalibrateAxis | drivers/misc/akm8973.c:223-242 | the new offset is the clamped one-step offset, and the result is 1 exactly when the reading crossed a threshold |
| Akm8973.Akm8973.AutoCalibrate | drivers/misc/akm8973.c:245-280 | no axis flagged: no bus traffic, offsets unchanged, result 0; otherwise exactly one 4-byte write of the converted stepped offsets, after which the offsets are committed with result 1 if it worked, or left unchanged with result 0 if not |
| Akm8973.Akm8973.TransformValues | drivers/misc/akm8973.c:282-318 | the array is rewritten in place to `Transformed` of its old contents |
| Akm8973.Akm8973.InputWork | drivers/misc/akm8973.c:453-466 | the lock is taken and left held whatever `set_mode` did, even when it failed, and the traffic is that of `set_mode(MEASURE)`: a 4-byte TMPS read, then the mode write only if that read worked |
| Akm8973.Akm8973.Isr | drivers/misc/akm8973.c:358-364 | the interrupt handler masks the interrupt line, which the data-ready work unmasks again |
| Akm8973.Akm8973.IrqWork | drivers/misc/akm8973.c:335-356 | a 4-byte read at TMPS; if it fails nothing is published and the offsets stay; otherwise the sample is calibrated (one offset write exactly when an axis is out of range), re-oriented and published with the calibrate flag; the lock is released and the line unmasked on both paths |
| Akm8973.Akm8973.ValidatePdata | drivers/misc/akm8973.c:499-519 | afterwards the orientation is one of 0, 90, 180, 270 (an unrecognised one becomes 0) and the poll interval is floored at 27; the result is 0 |
| Akm8973.Akm8973.Ioctl | drivers/misc/akm8973.c:379-439 | GET_CALI returns the cached offsets; SET_CALI writes `[HXDA, x, y, z]` unconverted and updates the cache only if that write worked; GET_DELAY returns the interval; SET_DELAY stores `max(n, 27)`; any other command returns -EINVAL with no effect; valid settings stay valid |
| Lm3530.BitAnd | drivers/leds/led-lm3530.c:113-114 | the bitwise AND of two values is no larger than either |
| Lm3530.BitAndIdempotent | drivers/leds/led-lm3530.c:113-114 | masking twice with the same mask is masking once |
| Lm3530.BitAndLowOnes | drivers/leds/led-lm3530.c:200 | masking with a run of low one-bits at least as wide as the value keeps the value |
| Lm3530.ZoneMaskIsLowBits | drivers/leds/led-lm3530.c:200 | masking with ALS_READ_MASK keeps the zone modulo 8 |
| Lm3530.MaskClearsLowBit | drivers/leds/led-lm3530.c:113-114 | LAST_BRIGHTNESS_MASK clears bit 0 of a byte and keeps the other seven |
| Lm3530.AutoLevel | drivers/leds/led-lm3530.c:117-128 | a non-zero automatic request selects the zone-data byte of its band, counted independently by `Band` (2 up to 155, 3 from 156 to 201, 4 from 202); OFF lies in no band and gives 0 |
| Lm3530.BandMonotone | drivers/leds/led-lm3530.c:117-128 | a brighter request never selects a lower band |
| Lm3530.GenConfigFor | drivers/leds/led-lm3530.c:111-141 | the GEN_CONFIG byte of a request: for OFF the last byte with bit 0 cleared; otherwise the band's zone-data byte in automatic mode, zone-data byte 4 in manual mode, and 0 in any other mode |
| Lm3530.OffTwiceWritesSameByte | drivers/leds/led-lm3530.c:112-114 | a second OFF request writes the same GEN_CONFIG byte as the first, whatever the mode |
| Lm3530.OffNeverBrightens | drivers/leds/led-lm3530.c:112-114 | an OFF request writes a byte no greater than the last one and no greater than the mask |
| Lm3530.AutomaticBandsExample | drivers/leds/led-lm3530.c:111-141 | with zone data 0x10, 0x20, 0x30, requests 100, 180, 240 write 0x10, 0x20, 0x30, and a following OFF keeps 0x30 |
| Lm3530.ZeroLengthReceives | drivers/leds/led-lm3530.c:58-76 | when every address send goes through and every receive returns 0, the loop spends all attempts and ends with result 0, having received nothing |
| Lm3530.RetriedReadExample | drivers/leds/led-lm3530.c:58-74 | two failed address sends and a third attempt that completes use four transfers and take the byte from the fourth |
| Lm3530.InitPlan | drivers/leds/led-lm3530.c:210-233 | the register programming is twelve (register, value) writes |
| Lm3530.Lm3530.constructor | drivers/leds/led-lm3530.c:259-320 | the instance as probe leaves it: automatic mode, zone 0, last brightness and last GEN_CONFIG 0, and, from the last step of probe, the interrupt line masked and the zone read queued |
| Lm3530.Lm3530.ReadReg | drivers/leds/led-lm3530.c:41-77 | zero bytes or a null pointer: -EINVAL with no bus traffic and the value untouched; otherwise the loop runs as `RecvRetry` says, storing the received byte and returning 0 on success, and returning the last transfer result with the value untouched after the retries run out |
| Lm3530.Lm3530.WriteReg | drivers/leds/led-lm3530.c:79-101 | the 2-byte frame `[reg, value]` is sent by the `Retry` rule with the wanted count 2; the result is -EINVAL when the last send returned fewer than 2 bytes and 0 otherwise; exactly one write is logged |
| Lm3530.Lm3530.BrightnessSet | drivers/leds/led-lm3530.c:103-147 | the request and the computed GEN_CONFIG byte (`GenConfigFor`) are remembered whatever the writes did; in manual mode `value / 2` is written to BRIGHTNESS_CTRL first; then exactly one GEN_CONFIG write of that byte |
| Lm3530.Lm3530.IrqHandler | drivers/leds/led-lm3530.c:172-180 | the line is masked and the zone work is queued |
| Lm3530.Lm3530.WorkQueue | drivers/leds/led-lm3530.c:182-206 | one read of the zone register; on success the zone becomes the byte read masked to its low three bits; on failure it stays; the line is unmasked and the work done on both paths |
| Lm3530.Lm3530.WritePlan | drivers/leds/led-lm3530.c:210-236 | the writes go out in table order; every write before the last one logged worked; the loop stops early only at a failure; the result is 0 exactly when all writes were issued and the last worked |
| Lm3530.Lm3530.InitRegisters | drivers/leds/led-lm3530.c:208-238 | ALS_CONFIG, RAMP_RATE, RESISTOR_SELECT, ZB0..ZB3, Z0T..Z4T are written in that order, stopping at the first failure, which returns -EINVAL; 0 exactly when all twelve worked |

## Left out

- Probe and remove plumbing of both drivers: `request_irq`, `free_irq`,
  `misc_register`, `input_register_device`, `led_classdev_register`,
  `device_create_file`, workqueue creation and the unwinding on failure. These are calls
  into kernel subsystems. Only the initial state a probe sets up is modelled (the two
  constructors).
- The GEN_CONFIG write of `pdata->gen_config` in `ld_lm3530_probe`. It is one more
  `write_reg` after `init_registers`, and its only effect on driver state is that
  `last_gen_config` stays 0.
- The `schedule_work` of `akm8973_isr`. Its masking of the line is modelled (`Isr`); the
  work it queues is not tracked.
- `akm8973_input_open` and `akm8973_input_close`. They take the mutex around
  `power_on` / `power_off`, which are modelled.
- Concurrency:
  - The AKM8973 mutex is kept as a sequential "lock held" flag. It is taken by the
    timer work and released only by the interrupt work. When `set_mode(MEASURE)` in
    the timer work fails, the chip never signals data ready, so nothing releases the
    lock: the next timer work and every ioctl then block in `mutex_lock`. This is a
    possible hang in the driver, not behaviour the model carries out.
  - ISR scheduling, `cancel_delayed_work_sync` and the queueing of work items are not
    modelled beyond the "work pending" flag of the LM3530.
- The `-EFAULT` returns of the ioctl. They fail only when `copy_to_user` or
  `copy_from_user` fails, and they leave the mutex held. User memory is modelled as
  plain input and output values.
- Timing: `msleep_interruptible` between retries, `mdelay(100)`, `msecs_to_jiffies` and
  the rescheduling of the delayed work.
- The board callbacks `power_on`, `power_off`, `init` and `exit`. `power_on` is abstracted
  to the error value it returns; `power_off` is abstracted to whether it exists.
- Akm8973.Akm8973.Ioctl: requires the lock to be free. With the lock held, the C
  blocks in `mutex_lock`; a blocked caller is not modelled.
- Akm8973.Akm8973.InputWork: requires the lock to be free, for the same reason.
- Logging (`dev_err`, `pr_err`, `dev_warn`, `dev_info`).
- `ld_lm3530_als_show` and `ld_lm3530_als_store`, the sysfs text interface. The store
  never changes `mode`, so the mode stays automatic after probe.
- `input_set_abs_params` axis metadata, including the repeated `ABS_HAT0X`.
- `arch/arm/mach-omap2/board-sholes-spi.c`: static board tables with no logic.
- Akm8973.Akm8973.I2cRead: assumes every retry addresses `reg`. The C sends the
  register address from `buf[0]` and receives into the same `buf`, and the retry does
  not restore `buf[0]`; a failed attempt that clocked in bytes would make the next
  attempt address another register. The model assumes a failed transfer writes nothing.
- Lm3530.Lm3530.ReadReg: takes the register as a byte, while the C narrows an
  `unsigned` into the `uint8_t` `dest_buffer`.
- Lm3530.Lm3530.ReadReg: requires `numBytes <= 1`. With more than one byte the C
  receives into the one-byte `dest_buffer` and overruns it, which is memory corruption
  this model does not represent.
- Lm3530.Lm3530.WriteReg: the C passes `reg` as an `unsigned` into a `uint8_t` frame
  (truncating); the model takes the register as a byte.
