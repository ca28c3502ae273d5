/** The AKM8973 three-axis magnetometer driver: register transport with retry, mode
    changes, hardware initialisation from the EEPROM gains, per-axis DAC offset
    auto-calibration, re-orientation of a sample, reporting, and the control-device
    ioctls. */
module Akm8973 {
  import opened Bus

  /** The floor on the poll interval, in milliseconds. */
  const MIN_POLL_INTERVAL: int := 27

  // Register addresses, MS1 modes and ioctl numbers live in the driver's header, which
  // is not part of this model. The values below are named stand-ins; the proofs use
  // only that the three modes are distinct.
  const REG_TMPS: byte := 0xC1
  const REG_MS1: byte := 0xE0
  const REG_HXDA: byte := 0xE1
  const REG_EHXGA: byte := 0x66
  const MODE_MEASURE: byte := 0x00
  const MODE_EEPROM_READ: byte := 0x02
  const MODE_POWERDOWN: byte := 0x03
  const IOCTL_GET_CALI: int := 1
  const IOCTL_SET_CALI: int := 2
  const IOCTL_GET_DELAY: int := 3
  const IOCTL_SET_DELAY: int := 4

  /** `i2c_transfer` returns the number of messages it completed: a register read is
      two messages (address, then data), a register write one. */
  const READ_MSGS: int := 2
  const WRITE_MSGS: int := 1

  /** The three per-axis DAC offsets (or the three bytes of a calibration ioctl). */
  datatype Dac = Dac(x: byte, y: byte, z: byte)

  /** The user buffer an ioctl reads from or writes to: three calibration bytes or a
      poll interval, depending on the command. */
  datatype UserArea = UserArea(cali: Dac, interval: int)

  /** One published input event group: the three magnetic axes centred on zero, the
      calibration-occurred flag and the temperature. */
  datatype Sample = Sample(x: int, y: int, z: int, calibrated: int, temperature: int)

  datatype Option<T> = None | Some(value: T)

  /** The board's platform data, copied into the driver at probe. */
  datatype PlatformData = PlatformData(
    hxda: byte, hyda: byte, hzda: byte,
    calMinThreshold: byte, calMaxThreshold: byte,
    orientation: int, xySwap: bool, zFlip: bool,
    pollInterval: int, i2cRetries: int,
    hasPowerOn: bool, hasPowerOff: bool)

  // ---------------------------------------------------------------------------
  // DAC offsets

  /** The DAC takes an offset below 0x80 mirrored about 0x7f and an upper-half offset
      as it is. */
  function ConvertDacOffset(offset: byte): (code: byte)
    ensures (code < 0x80) == (offset < 0x80)
    ensures offset < 0x80 ==> offset + code == 0x7f
    ensures offset >= 0x80 ==> code == offset
  {
    if offset < 0x80 then 0x7f - offset else offset
  }

  /** Converting twice gives back the offset: the conversion is its own inverse. */
  lemma ConvertDacOffsetInvolution(offset: byte)
    ensures ConvertDacOffset(ConvertDacOffset(offset)) == offset
  {
  }

  /** The 4-byte frame that loads three offsets into the DAC registers. */
  function DacFrame(d: Dac): (frame: seq<byte>)
    ensures |frame| == 4 && frame[0] == REG_HXDA
  {
    [REG_HXDA, ConvertDacOffset(d.x), ConvertDacOffset(d.y), ConvertDacOffset(d.z)]
  }

  /** An axis reading outside [lo, hi] asks for calibration. */
  predicate AxisFlagged(lo: byte, hi: byte, value: byte)
  {
    value < lo || value > hi
  }

  /** The offset after one calibration step on one axis: one up for a reading below
      `lo`, one down for a reading above `hi`, kept within a byte. */
  function AxisOffset(lo: byte, hi: byte, offset: byte, value: byte): (r: byte)
    ensures value < lo && value <= hi ==> r == if offset == 0xff then 0xff else offset + 1
    ensures value > hi && value >= lo ==> r == if offset == 0 then 0 else offset - 1
    ensures (value < lo) == (value > hi) ==> r == offset
  {
    var off := offset + (if value < lo then 1 else 0) - (if value > hi then 1 else 0);
    if off < 0 then 0 else if off > 0xff then 0xff else off
  }

  /** Whether any magnetic axis of a `{T, X, Y, Z}` sample asks for calibration. */
  predicate AnyFlagged(lo: byte, hi: byte, values: seq<byte>)
    requires |values| == 4
  {
    AxisFlagged(lo, hi, values[1]) || AxisFlagged(lo, hi, values[2]) || AxisFlagged(lo, hi, values[3])
  }

  /** All three offsets after one calibration step on a `{T, X, Y, Z}` sample: each
      moves by at most one, only an axis that asked for calibration moves, and a
      sample with no axis out of range leaves every offset where it was. */
  function Stepped(lo: byte, hi: byte, d: Dac, values: seq<byte>): (r: Dac)
    requires |values| == 4
    ensures -1 <= r.x - d.x <= 1 && -1 <= r.y - d.y <= 1 && -1 <= r.z - d.z <= 1
    ensures r.x != d.x ==> AxisFlagged(lo, hi, values[1])
    ensures r.y != d.y ==> AxisFlagged(lo, hi, values[2])
    ensures r.z != d.z ==> AxisFlagged(lo, hi, values[3])
    ensures !AnyFlagged(lo, hi, values) ==> r == d
  {
    Dac(AxisOffset(lo, hi, d.x, values[1]), AxisOffset(lo, hi, d.y, values[2]), AxisOffset(lo, hi, d.z, values[3]))
  }

  // ---------------------------------------------------------------------------
  // Re-orientation and reporting

  predicate IsQuarterTurn(orientation: int)
  {
    orientation == 0 || orientation == 90 || orientation == 180 || orientation == 270
  }

  /** A reading's position relative to the middle of the byte range, doubled so that it
      is an integer: 0x00 is -255, 0xff is 255, and 255 - v is the mirror image. */
  function Centered(v: byte): int
  {
    2 * v - 0xff
  }

  function Cos(orientation: int): int
  {
    if orientation == 0 then 1 else if orientation == 180 then -1 else 0
  }

  function Sin(orientation: int): int
  {
    if orientation == 90 then 1 else if orientation == 270 then -1 else 0
  }

  /** The part orientation on the X,Y plane. For a quarter turn this is the planar
      rotation by that angle about the middle of the byte range; any other angle
      leaves X,Y as they are. */
  function Rotate(x: byte, y: byte, orientation: int): (r: (byte, byte))
    ensures IsQuarterTurn(orientation) ==>
      Centered(r.0) == Cos(orientation) * Centered(x) + Sin(orientation) * Centered(y) &&
      Centered(r.1) == Cos(orientation) * Centered(y) - Sin(orientation) * Centered(x)
    ensures !IsQuarterTurn(orientation) ==> r == (x, y)
  {
    match orientation
    case 90 => (y, 0xff - x)
    case 180 => (0xff - x, 0xff - y)
    case 270 => (0xff - y, x)
    case _ => (x, y)
  }

  /** Rotating by a quarter turn and then by the opposite angle restores X,Y; in
      particular 90 then 270, and 180 twice. */
  lemma RotateUndo(x: byte, y: byte, orientation: int)
    requires IsQuarterTurn(orientation)
    ensures var r := Rotate(x, y, orientation); Rotate(r.0, r.1, (360 - orientation) % 360) == (x, y)
  {
  }

  /** Two 90-degree turns make the 180-degree turn. */
  lemma RotateTwice90(x: byte, y: byte)
    ensures var r := Rotate(x, y, 90); Rotate(r.0, r.1, 90) == Rotate(x, y, 180)
  {
  }

  /** A `{T, X, Y, Z}` sample after swap, then z-flip, then rotation. */
  function Transformed(values: seq<byte>, xySwap: bool, zFlip: bool, orientation: int): (r: seq<byte>)
    requires |values| == 4
    ensures |r| == 4 && r[0] == values[0]
    ensures r[3] == if zFlip then 0xff - values[3] else values[3]
    ensures xySwap ==> (r[1], r[2]) == Rotate(values[2], values[1], orientation)
    ensures !xySwap ==> (r[1], r[2]) == Rotate(values[1], values[2], orientation)
  {
    var (x, y) := if xySwap then (values[2], values[1]) else (values[1], values[2]);
    var z := if zFlip then 0xff - values[3] else values[3];
    var (x', y') := Rotate(x, y, orientation);
    [values[0], x', y', z]
  }

  /** With no swap and no flip, an orientation the driver does not recognise leaves
      the sample unchanged. */
  lemma TransformedUnknownOrientation(values: seq<byte>, orientation: int)
    requires |values| == 4 && !IsQuarterTurn(orientation)
    ensures Transformed(values, false, false, orientation) == values
  {
  }

  /** A reading as reported: centred so that 0x80 is zero, within the axis range
      -128..127 the input device declares. */
  function Signed(v: byte): (s: int)
    ensures -128 <= s <= 127 && s + 128 == v
  {
    v - 128
  }

  /** The event group published for a `{T, X, Y, Z}` sample. */
  function Report(values: seq<byte>, calibrate: int): (s: Sample)
    requires |values| == 4
    ensures -128 <= s.x <= 127 && -128 <= s.y <= 127 && -128 <= s.z <= 127
    ensures s.x + 128 == values[1] && s.y + 128 == values[2] && s.z + 128 == values[3]
    ensures s.temperature == values[0] && s.calibrated == calibrate
  {
    Sample(Signed(values[1]), Signed(values[2]), Signed(values[3]), calibrate, values[0])
  }

  /** Distinct samples publish distinct events: no reading is lost in reporting. */
  lemma ReportInjective(a: seq<byte>, b: seq<byte>, calibrate: int)
    requires |a| == 4 && |b| == 4
    requires Report(a, calibrate) == Report(b, calibrate)
    ensures a == b
  {
    assert a == [a[0], a[1], a[2], a[3]] && b == [b[0], b[1], b[2], b[3]];
  }

  /** Raw `{20, 10, 200, 128}` with orientation 90 and no swap or flip publishes
      X = 72, Y = 117, Z = 0, T = 20. */
  lemma Orientation90Example()
    ensures Report(Transformed([20, 10, 200, 128], false, false, 90), 0) == Sample(72, 117, 0, 0, 20)
  {
  }

  /** Thresholds 0x10..0xF0, offsets 0x80 each and raw `{25, 0x05, 0x80, 0xFF}`: X steps
      up, Z steps down, and the frame written is `[HXDA, 0x81, 0x80, 0x00]`. */
  lemma AutoCalibrationExample()
    ensures AnyFlagged(0x10, 0xF0, [25, 0x05, 0x80, 0xFF])
    ensures Stepped(0x10, 0xF0, Dac(0x80, 0x80, 0x80), [25, 0x05, 0x80, 0xFF]) == Dac(0x81, 0x80, 0x7F)
    ensures DacFrame(Dac(0x81, 0x80, 0x7F)) == [REG_HXDA, 0x81, 0x80, 0x00]
  {
  }

  // ---------------------------------------------------------------------------
  // Settings

  /** The poll interval after flooring. */
  function FloorInterval(ms: int): (r: int)
    ensures r >= MIN_POLL_INTERVAL
    ensures ms >= MIN_POLL_INTERVAL ==> r == ms
    ensures ms < MIN_POLL_INTERVAL ==> r == MIN_POLL_INTERVAL
  {
    if ms < MIN_POLL_INTERVAL then MIN_POLL_INTERVAL else ms
  }

  // ---------------------------------------------------------------------------
  // Bus traffic shapes

  /** `now` is `before` plus exactly one transaction, `op`, with outcome `ok`. */
  ghost predicate Appended(before: seq<Txn>, now: seq<Txn>, op: Op, ok: bool)
  {
    |now| == |before| + 1 && now[..|before|] == before && now[|before|].op == op && now[|before|].ok == ok
  }

  /** Slicing off a prefix gives back what was appended to it. */
  lemma Tail(before: seq<Txn>, added: seq<Txn>)
    ensures (before + added)[|before|..] == added
    ensures Extends(before, before + added)
  {
  }

  /** The traffic of `set_mode(MEASURE)`: the interrupt latch is drained first with a
      4-byte read at TMPS, and the mode is written only if that read worked (the chip
      will not enter measure mode with an interrupt pending). */
  ghost predicate MeasureModeTrace(t: seq<Txn>)
  {
    1 <= |t| <= 2 && t[0].op == Rd(REG_TMPS, 4) && (|t| == 2 <==> t[0].ok) &&
    (|t| == 2 ==> t[1].op == Wr([REG_MS1, MODE_MEASURE]))
  }

  /** The traffic of `hw_init` with DAC offsets `d`: EEPROM-read mode, a 3-byte gain
      read at EHXGA, power-down (attempted even when the gain read failed), then the
      7-byte write of the converted offsets followed by the gains read. */
  ghost predicate HwInitTrace(t: seq<Txn>, d: Dac)
  {
    (|t| == 1 || |t| == 3 || |t| == 4) &&
    t[0].op == Wr([REG_MS1, MODE_EEPROM_READ]) &&
    (|t| == 1 <==> !t[0].ok) &&
    (|t| >= 3 ==> t[1].op == Rd(REG_EHXGA, 3) && t[2].op == Wr([REG_MS1, MODE_POWERDOWN])) &&
    (|t| == 4 <==> |t| >= 3 && t[1].ok && t[2].ok) &&
    (|t| == 4 ==> t[3].op == Wr(DacFrame(d) + t[1].data))
  }

  // ---------------------------------------------------------------------------
  // The driver

  /** The driver instance: a copy of the platform data, the factory gains, the
      hardware-initialised flag, and the lock and interrupt-line state. */
  class Akm8973 {
    const bus: Adapter

    var hxda: byte
    var hyda: byte
    var hzda: byte
    const calMinThreshold: byte
    const calMaxThreshold: byte
    var orientation: int
    const xySwap: bool
    const zFlip: bool
    var pollInterval: int
    const i2cRetries: int
    const hasPowerOn: bool
    const hasPowerOff: bool

    var hwInitialized: bool
    var hxga: byte
    var hyga: byte
    var hzga: byte

    var lockHeld: bool
    var irqEnabled: bool

    function Offsets(): Dac
      reads this
    {
      Dac(hxda, hyda, hzda)
    }

    function Gains(): Dac
      reads this
    {
      Dac(hxga, hyga, hzga)
    }

    /** What `validate_pdata` establishes: a recognised orientation and a poll
        interval no shorter than the floor. */
    predicate SettingsValid()
      reads this
    {
      IsQuarterTurn(orientation) && pollInterval >= MIN_POLL_INTERVAL
    }

    /** The zero-filled instance holding a copy of the platform data. */
    constructor (pdata: PlatformData, bus: Adapter)
      ensures this.bus == bus
      ensures Offsets() == Dac(pdata.hxda, pdata.hyda, pdata.hzda)
      ensures calMinThreshold == pdata.calMinThreshold && calMaxThreshold == pdata.calMaxThreshold
      ensures orientation == pdata.orientation && xySwap == pdata.xySwap && zFlip == pdata.zFlip
      ensures pollInterval == pdata.pollInterval && i2cRetries == pdata.i2cRetries
      ensures hasPowerOn == pdata.hasPowerOn && hasPowerOff == pdata.hasPowerOff
      ensures !hwInitialized && Gains() == Dac(0, 0, 0) && !lockHeld && !irqEnabled
    {
      this.bus := bus;
      hxda, hyda, hzda := pdata.hxda, pdata.hyda, pdata.hzda;
      calMinThreshold, calMaxThreshold := pdata.calMinThreshold, pdata.calMaxThreshold;
      orientation, xySwap, zFlip := pdata.orientation, pdata.xySwap, pdata.zFlip;
      pollInterval, i2cRetries := pdata.pollInterval, pdata.i2cRetries;
      hasPowerOn, hasPowerOff := pdata.hasPowerOn, pdata.hasPowerOff;
      hwInitialized := false;
      hxga, hyga, hzga := 0, 0, 0;
      lockHeld, irqEnabled := false, false;
    }

    /** Read `len` bytes from register `reg`: the two-message transfer is retried until
        it completes or the retry count is used up (always at least one attempt). Every
        attempt is taken to address `reg`. The driver sends the address from the same
        buffer the read fills and does not restore it between attempts, so this assumes
        that a failed transfer clocks no byte into that buffer. */
    method I2cRead(reg: byte, len: nat) returns (err: int, data: seq<byte>)
      modifies bus`cursor, bus`trace
      ensures bus.cursor > old(bus.cursor)
      ensures RetryOutcome(bus.ret, old(bus.cursor), READ_MSGS, Budget(i2cRetries), bus.cursor - old(bus.cursor), err == 0)
      ensures err == 0 || err == -EIO
      ensures data == (if err == 0 then Received(bus.rx, bus.cursor - 1, len) else [])
      ensures bus.trace == old(bus.trace) + [Txn(Rd(reg, len), err == 0, data)]
    {
      ghost var from := bus.cursor;
      ghost var budget := Budget(i2cRetries);
      var tries := 0;
      err := bus.Transfer();
      while err != READ_MSGS && tries + 1 < i2cRetries
        decreases i2cRetries - tries
        invariant 0 <= tries < budget
        invariant bus.cursor == from + tries + 1 && err == bus.ret(from + tries)
        invariant bus.trace == old(bus.trace)
        invariant forall j :: from <= j < from + tries ==> Missed(bus.ret, j, READ_MSGS)
      {
        tries := tries + 1;
        err := bus.Transfer();
      }
      if err == READ_MSGS {
        err := 0;
        data := Received(bus.rx, bus.cursor - 1, len);
      } else {
        err := -EIO;
        data := [];
      }
      bus.trace := bus.trace + [Txn(Rd(reg, len), err == 0, data)];
    }

    /** Send one frame (register address first): the one-message transfer is retried
        until it completes or the retry count is used up. */
    method I2cWrite(frame: seq<byte>) returns (err: int)
      modifies bus`cursor, bus`trace
      ensures bus.cursor > old(bus.cursor)
      ensures RetryOutcome(bus.ret, old(bus.cursor), WRITE_MSGS, Budget(i2cRetries), bus.cursor - old(bus.cursor), err == 0)
      ensures err == 0 || err == -EIO
      ensures bus.trace == old(bus.trace) + [Txn(Wr(frame), err == 0, [])]
    {
      ghost var from := bus.cursor;
      ghost var budget := Budget(i2cRetries);
      var tries := 0;
      err := bus.Transfer();
      while err != WRITE_MSGS && tries + 1 < i2cRetries
        decreases i2cRetries - tries
        invariant 0 <= tries < budget
        invariant bus.cursor == from + tries + 1 && err == bus.ret(from + tries)
        invariant bus.trace == old(bus.trace)
        invariant forall j :: from <= j < from + tries ==> Missed(bus.ret, j, WRITE_MSGS)
      {
        tries := tries + 1;
        err := bus.Transfer();
      }
      err := if err == WRITE_MSGS then 0 else -EIO;
      bus.trace := bus.trace + [Txn(Wr(frame), err == 0, [])];
    }

    /** Drain the interrupt latch: a 4-byte read at TMPS whose bytes are discarded. */
    method ClearIrq() returns (err: int)
      modifies bus`cursor, bus`trace
      ensures Appended(old(bus.trace), bus.trace, Rd(REG_TMPS, 4), err == 0)
      ensures err == 0 || err == -EIO
    {
      var discarded;
      err, discarded := I2cRead(REG_TMPS, 4);
    }

    /** Write `mode` to MS1, draining the interrupt latch first when entering measure
        mode (the chip will not enter it with an interrupt pending). */
    method SetMode(mode: byte) returns (err: int)
      modifies bus`cursor, bus`trace
      ensures err == 0 || err == -EIO
      ensures mode != MODE_MEASURE ==> bus.trace == old(bus.trace) + [Txn(Wr([REG_MS1, mode]), err == 0, [])]
      ensures mode == MODE_MEASURE ==>
        Extends(old(bus.trace), bus.trace) && MeasureModeTrace(bus.trace[|old(bus.trace)|..]) &&
        (err == 0 <==> |bus.trace| == |old(bus.trace)| + 2 && bus.trace[|bus.trace| - 1].ok)
    {
      if mode == MODE_MEASURE {
        err := ClearIrq();
        if err < 0 {
          return;
        }
      }
      err := I2cWrite([REG_MS1, mode]);
    }

    /** The middle of `hw_init`: read the three factory gains at EHXGA, then put the
        chip back in power-down mode whether or not the read worked. The first
        failure is the one reported. */
    method ReadGains() returns (err: int, gains: seq<byte>, ghost readOk: bool, ghost downOk: bool)
      modifies bus`cursor, bus`trace
      ensures bus.trace == old(bus.trace) +
        [Txn(Rd(REG_EHXGA, 3), readOk, gains), Txn(Wr([REG_MS1, MODE_POWERDOWN]), downOk, [])]
      ensures |gains| == (if readOk then 3 else 0)
      ensures err == 0 || err == -EIO
      ensures err == 0 <==> readOk && downOk
    {
      err, gains := I2cRead(REG_EHXGA, 3);
      readOk := err == 0;
      var powerdown := SetMode(MODE_POWERDOWN);
      downOk := powerdown == 0;
      if err == 0 && powerdown < 0 {
        err := powerdown;
      }
    }

    /** Load the factory gains from the EEPROM and program offsets and gains into the
        working registers; the instance counts as initialised only if every step
        worked. */
    method HwInit() returns (err: int)
      modifies this`hxga, this`hyga, this`hzga, this`hwInitialized, bus`cursor, bus`trace
      ensures Extends(old(bus.trace), bus.trace)
      ensures var t := bus.trace[|old(bus.trace)|..];
        HwInitTrace(t, Offsets()) &&
        (err == 0 <==> |t| == 4 && t[3].ok) && (err == 0 || err == -EIO) &&
        (if |t| == 4 then [hxga, hyga, hzga] == t[1].data
         else hxga == old(hxga) && hyga == old(hyga) && hzga == old(hzga))
      ensures hwInitialized == (old(hwInitialized) || err == 0)
    {
      ghost var before := bus.trace;
      err := SetMode(MODE_EEPROM_READ);
      ghost var log := [Txn(Wr([REG_MS1, MODE_EEPROM_READ]), err == 0, [])];
      if err == 0 {
        var gains;
        ghost var readOk, downOk;
        err, gains, readOk, downOk := ReadGains();
        log := log + [Txn(Rd(REG_EHXGA, 3), readOk, gains), Txn(Wr([REG_MS1, MODE_POWERDOWN]), downOk, [])];
        if err == 0 {
          hxga, hyga, hzga := gains[0], gains[1], gains[2];
          err := I2cWrite(DacFrame(Offsets()) + gains);
          log := log + [Txn(Wr(DacFrame(Offsets()) + gains), err == 0, [])];
          if err == 0 {
            hwInitialized := true;
          }
        }
      }
      Tail(before, log);
    }

    /** Power the part off through the board callback when there is one: the
        interrupt line is masked and the hardware must be initialised again. */
    method PowerOff()
      modifies this`irqEnabled, this`hwInitialized
      ensures hasPowerOff ==> !irqEnabled && !hwInitialized
      ensures !hasPowerOff ==> irqEnabled == old(irqEnabled) && hwInitialized == old(hwInitialized)
    {
      if hasPowerOff {
        irqEnabled := false;
        hwInitialized := false;
      }
    }

    /** Power the part on: `boardErr` is what the board's power-on callback returns.
        The hardware is initialised only when it is not already. */
    method PowerOn(boardErr: int) returns (err: int)
      modifies this`irqEnabled, this`hwInitialized, this`hxga, this`hyga, this`hzga, bus`cursor, bus`trace
      ensures Extends(old(bus.trace), bus.trace)
      ensures hasPowerOn && boardErr < 0 ==>
        err == boardErr && bus.trace == old(bus.trace) && Gains() == old(Gains()) &&
        irqEnabled == old(irqEnabled) && hwInitialized == old(hwInitialized)
      ensures !(hasPowerOn && boardErr < 0) && old(hwInitialized) ==>
        err == 0 && bus.trace == old(bus.trace) && Gains() == old(Gains()) && hwInitialized &&
        irqEnabled == (hasPowerOn || old(irqEnabled))
      ensures !(hasPowerOn && boardErr < 0) && !old(hwInitialized) ==>
        var t := bus.trace[|old(bus.trace)|..];
        HwInitTrace(t, Offsets()) &&
        (err == 0 <==> |t| == 4 && t[3].ok) && (err == 0 || err == -EIO) &&
        (if |t| == 4 then [hxga, hyga, hzga] == t[1].data else Gains() == old(Gains())) &&
        (err == 0 ==> hwInitialized && irqEnabled == (hasPowerOn || old(irqEnabled))) &&
        (err != 0 ==> !hwInitialized && irqEnabled == (!hasPowerOff && (hasPowerOn || old(irqEnabled))))
    {
      if hasPowerOn {
        if boardErr < 0 {
          return boardErr;
        }
        irqEnabled := true;
      }
      if !hwInitialized {
        err := HwInit();
        if err < 0 {
          PowerOff();
          return;
        }
      }
      err := 0;
    }

    /** One calibration step on one axis: `offset'` is the stepped offset, and
        `calibrate` is 1 exactly when the reading was outside the thresholds. */
    method AutoCalibrateAxis(offset: byte, value: byte) returns (offset': byte, calibrate: int)
      ensures offset' == AxisOffset(calMinThreshold, calMaxThreshold, offset, value)
      ensures calibrate == if AxisFlagged(calMinThreshold, calMaxThreshold, value) then 1 else 0
    {
      var off: int := offset;
      calibrate := 0;
      if value < calMinThreshold {
        off := off + 1;
        calibrate := 1;
      }
      if value > calMaxThreshold {
        off := off - 1;
        calibrate := 1;
      }
      offset' := if off < 0 then 0 else if off > 0xff then 0xff else off;
    }

    /** Step every axis of a `{T, X, Y, Z}` sample; if any moved, write the converted
        offsets in one 4-byte frame and keep them only if that write worked. */
    method AutoCalibrate(values: array<byte>) returns (calibrate: int)
      requires values.Length == 4
      modifies this`hxda, this`hyda, this`hzda, bus`cursor, bus`trace
      ensures Extends(old(bus.trace), bus.trace)
      ensures var t := bus.trace[|old(bus.trace)|..];
        var stepped := Stepped(calMinThreshold, calMaxThreshold, old(Offsets()), values[..]);
        if AnyFlagged(calMinThreshold, calMaxThreshold, values[..]) then
          |t| == 1 && t[0].op == Wr(DacFrame(stepped)) &&
          calibrate == (if t[0].ok then 1 else 0) &&
          Offsets() == (if t[0].ok then stepped else old(Offsets()))
        else
          calibrate == 0 && t == [] && bus.cursor == old(bus.cursor) && Offsets() == old(Offsets())
    {
      var x, y, z := hxda, hyda, hzda;
      var flagged;
      calibrate := 0;
      x, flagged := AutoCalibrateAxis(x, values[1]);
      if flagged == 1 {
        calibrate := 1;
      }
      y, flagged := AutoCalibrateAxis(y, values[2]);
      if flagged == 1 {
        calibrate := 1;
      }
      z, flagged := AutoCalibrateAxis(z, values[3]);
      if flagged == 1 {
        calibrate := 1;
      }
      if calibrate == 1 {
        var err := I2cWrite(DacFrame(Dac(x, y, z)));
        if err < 0 {
          calibrate := 0;
          return;
        }
        hxda, hyda, hzda := x, y, z;
      }
    }

    /** Re-orient a `{T, X, Y, Z}` sample in place. */
    method TransformValues(values: array<byte>)
      requires values.Length == 4
      modifies values
      ensures values[..] == Transformed(old(values[..]), xySwap, zFlip, orientation)
    {
      if xySwap {
        values[1], values[2] := values[2], values[1];
      }
      if zFlip {
        values[3] := 0xff - values[3];
      }
      match orientation
      case 90 =>
        var tmp := values[2];
        values[2] := 0xff - values[1];
        values[1] := tmp;
      case 180 =>
        values[2] := 0xff - values[2];
        values[1] := 0xff - values[1];
      case 270 =>
        var tmp := values[2];
        values[2] := values[1];
        values[1] := 0xff - tmp;
      case _ =>
    }

    /** The timer tick of a measurement cycle: take the lock, enter measure mode, and
        leave the lock held for the interrupt work. The lock stays held even when the
        mode change failed (the TMPS read or the MS1 write): the chip then never
        signals data ready, so the interrupt work that releases it does not run. */
    method InputWork()
      requires !lockHeld
      modifies this`lockHeld, bus`cursor, bus`trace
      ensures Extends(old(bus.trace), bus.trace)
      ensures var t := bus.trace[|old(bus.trace)|..];
        MeasureModeTrace(t) && lockHeld
    {
      lockHeld := true;
      var ignored := SetMode(MODE_MEASURE);
    }

    /** The interrupt handler: mask the interrupt line until the data-ready work has
        run (the scheduling of that work is not modelled). Nothing else changes. */
    method Isr()
      modifies this`irqEnabled
      ensures !irqEnabled
    {
      irqEnabled := false;
    }

    /** The data-ready work of a measurement cycle: read `{T, X, Y, Z}`, calibrate,
        re-orient and publish; on a failed read publish nothing. Either way the lock
        taken by the timer tick is released and the interrupt line unmasked. */
    method IrqWork() returns (sample: Option<Sample>)
      requires lockHeld
      modifies this`hxda, this`hyda, this`hzda, this`lockHeld, this`irqEnabled, bus`cursor, bus`trace
      ensures !lockHeld && irqEnabled
      ensures Extends(old(bus.trace), bus.trace)
      ensures var t := bus.trace[|old(bus.trace)|..];
        1 <= |t| <= 2 && t[0].op == Rd(REG_TMPS, 4) &&
        (!t[0].ok ==> |t| == 1 && sample == None && Offsets() == old(Offsets())) &&
        (t[0].ok ==> |t[0].data| == 4) &&
        (t[0].ok ==>
           var raw := t[0].data;
           var stepped := Stepped(calMinThreshold, calMaxThreshold, old(Offsets()), raw);
           var cal := if |t| == 2 && t[1].ok then 1 else 0;
           (|t| == 2 <==> AnyFlagged(calMinThreshold, calMaxThreshold, raw)) &&
           (|t| == 2 ==> t[1].op == Wr(DacFrame(stepped))) &&
           Offsets() == (if cal == 1 then stepped else old(Offsets())) &&
           sample == Some(Report(Transformed(raw, xySwap, zFlip, orientation), cal)))
    {
      var err, data := I2cRead(REG_TMPS, 4);
      if err == 0 {
        var values := new byte[4](i requires 0 <= i < 4 => data[i]);
        assert values[..] == data;
        var calibrate := AutoCalibrate(values);
        TransformValues(values);
        sample := Some(Report(values[..], calibrate));
      } else {
        sample := None;
      }
      lockHeld := false;
      irqEnabled := true;
    }

    /** Normalise the copied platform data: an unrecognised orientation becomes 0 and
        the poll interval is floored. */
    method ValidatePdata() returns (err: int)
      modifies this`orientation, this`pollInterval
      ensures err == 0 && SettingsValid()
      ensures orientation == if IsQuarterTurn(old(orientation)) then old(orientation) else 0
      ensures pollInterval == FloorInterval(old(pollInterval))
    {
      if !IsQuarterTurn(orientation) {
        orientation := 0;
      }
      pollInterval := if pollInterval < MIN_POLL_INTERVAL then MIN_POLL_INTERVAL else pollInterval;
      err := 0;
    }

    /** The control device: read or write the DAC offsets and the poll interval.
        `user` is the caller's buffer before the call and `user'` after it. */
    method Ioctl(cmd: int, user: UserArea) returns (err: int, user': UserArea)
      requires !lockHeld
      modifies this`hxda, this`hyda, this`hzda, this`pollInterval, bus`cursor, bus`trace
      ensures old(SettingsValid()) ==> SettingsValid()
      ensures cmd == IOCTL_GET_CALI ==>
        err == 0 && user' == user.(cali := Offsets()) && bus.trace == old(bus.trace) &&
        Offsets() == old(Offsets()) && pollInterval == old(pollInterval)
      ensures cmd == IOCTL_SET_CALI ==>
        user' == user && pollInterval == old(pollInterval) &&
        Appended(old(bus.trace), bus.trace, Wr([REG_HXDA, user.cali.x, user.cali.y, user.cali.z]), err == 0) &&
        (err == 0 || err == -EIO) &&
        Offsets() == (if err == 0 then user.cali else old(Offsets()))
      ensures cmd == IOCTL_GET_DELAY ==>
        err == 0 && user' == user.(interval := pollInterval) && bus.trace == old(bus.trace) &&
        Offsets() == old(Offsets()) && pollInterval == old(pollInterval)
      ensures cmd == IOCTL_SET_DELAY ==>
        err == 0 && user' == user && bus.trace == old(bus.trace) &&
        Offsets() == old(Offsets()) && pollInterval == FloorInterval(user.interval)
      ensures cmd !in {IOCTL_GET_CALI, IOCTL_SET_CALI, IOCTL_GET_DELAY, IOCTL_SET_DELAY} ==>
        err == -EINVAL && user' == user && bus.trace == old(bus.trace) &&
        Offsets() == old(Offsets()) && pollInterval == old(pollInterval)
    {
      user' := user;
      err := 0;
      if cmd == IOCTL_GET_CALI {
        user' := user.(cali := Dac(hxda, hyda, hzda));
      } else if cmd == IOCTL_SET_CALI {
        err := I2cWrite([REG_HXDA, user.cali.x, user.cali.y, user.cali.z]);
        if err < 0 {
          return;
        }
        hxda, hyda, hzda := user.cali.x, user.cali.y, user.cali.z;
      } else if cmd == IOCTL_GET_DELAY {
        user' := user.(interval := pollInterval);
      } else if cmd == IOCTL_SET_DELAY {
        pollInterval := if user.interval < MIN_POLL_INTERVAL then MIN_POLL_INTERVAL else user.interval;
      } else {
        err := -EINVAL;
      }
    }
  }
}
