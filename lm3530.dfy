/** The LM3530 backlight and ambient-light controller driver: register access with
    retry, the LED-class brightness callback, the ambient-light zone worker and the
    register programming done at probe. */
module Lm3530 {
  import opened Bus

  // The register map, masks and mode values live in the driver's header, which is not
  // part of this model. The values below are named stand-ins: the register addresses
  // and modes may be changed freely, while the lemmas about the two masks use their
  // values (bit 0 cleared; the low three bits kept). The retry count is kept as a field
  // of the driver for the same reason.
  const REG_GEN_CONFIG: byte := 0x10
  const REG_ALS_CONFIG: byte := 0x20
  const REG_BRIGHTNESS_RAMP_RATE: byte := 0x30
  const REG_ALS_ZONE: byte := 0x40
  const REG_ALS_RESISTOR_SELECT: byte := 0x41
  const REG_ALS_ZB0: byte := 0x60
  const REG_ALS_ZB1: byte := 0x61
  const REG_ALS_ZB2: byte := 0x62
  const REG_ALS_ZB3: byte := 0x63
  const REG_ALS_Z0T: byte := 0x70
  const REG_ALS_Z1T: byte := 0x71
  const REG_ALS_Z2T: byte := 0x72
  const REG_ALS_Z3T: byte := 0x73
  const REG_ALS_Z4T: byte := 0x74
  const REG_BRIGHTNESS_CTRL: byte := 0xA0
  const LAST_BRIGHTNESS_MASK: byte := 0xFE
  const ALS_READ_MASK: byte := 0x07
  const ALS_ZONE0: byte := 0
  const AUTOMATIC: byte := 0
  const MANUAL: byte := 1

  /** A register read receives one byte; a register write sends the address and the
      value. */
  const ALLOWED_R_BYTES: nat := 1
  const ALLOWED_W_BYTES: nat := 2

  /** The LED-class brightness scale and the bounds of the three automatic-mode
      bands. */
  const LED_OFF: byte := 0
  const BAND_155: byte := 155
  const BAND_156: byte := 156
  const BAND_201: byte := 201
  const BAND_202: byte := 202
  const LED_FULL: byte := 255

  /** The board's platform data: the register images programmed at probe and the
      GEN_CONFIG bytes of the three automatic-mode bands. */
  datatype PlatformData = PlatformData(
    alsConfig: byte, brightnessRamp: byte, alsResistorSel: byte,
    zoneBoundary0: byte, zoneBoundary1: byte, zoneBoundary2: byte, zoneBoundary3: byte,
    zoneTarget0: byte, zoneTarget1: byte, zoneTarget2: byte, zoneTarget3: byte,
    zoneTarget4: byte,
    genConfig: byte,
    zoneData2: byte, zoneData3: byte, zoneData4: byte)

  // ---------------------------------------------------------------------------
  // Register arithmetic

  /** Bitwise AND of two naturals, bit by bit from the least significant end. */
  function BitAnd(a: nat, b: nat): (r: nat)
    ensures r <= a && r <= b
    decreases a
  {
    if a == 0 || b == 0 then 0
    else 2 * BitAnd(a / 2, b / 2) + (if a % 2 == 1 && b % 2 == 1 then 1 else 0)
  }

  /** Masking twice with the same mask is masking once. */
  lemma {:induction false} BitAndIdempotent(a: nat, m: nat)
    ensures BitAnd(BitAnd(a, m), m) == BitAnd(a, m)
    decreases a
  {
    if a != 0 && m != 0 {
      var q := BitAnd(a / 2, m / 2);
      BitAndIdempotent(a / 2, m / 2);
      var r := BitAnd(a, m);
      assert r == 2 * q + (if a % 2 == 1 && m % 2 == 1 then 1 else 0);
      assert r / 2 == q && r % 2 == (if a % 2 == 1 && m % 2 == 1 then 1 else 0);
    }
  }

  /** The zone worker keeps the low three bits of the zone register. */
  lemma ZoneMaskIsLowBits(zone: nat)
    ensures BitAnd(zone, ALS_READ_MASK) == zone % 8
  {
    var h := zone / 2;
    var q := h / 2;
    assert BitAnd(q, 1) == q % 2 by {
      if q != 0 {
        assert BitAnd(q, 1) == 2 * BitAnd(q / 2, 0) + q % 2;
      }
    }
    assert BitAnd(h, 3) == h % 4 by {
      if h != 0 {
        assert BitAnd(h, 3) == 2 * BitAnd(q, 1) + h % 2;
      }
    }
    if zone != 0 {
      assert BitAnd(zone, 7) == 2 * BitAnd(h, 3) + zone % 2;
    }
  }

  // ---------------------------------------------------------------------------
  // Brightness

  /** The GEN_CONFIG byte an automatic-mode request selects: the zone-data byte of the
      band the request lies in, or 0 for a request in no band. Every request but OFF
      lies in a band. */
  function AutoLevel(value: byte, p: PlatformData): (r: byte)
    ensures value == LED_OFF ==> r == 0
    ensures value != LED_OFF ==> r == ZoneData(p, Band(value))
  {
    if LED_OFF < value <= BAND_155 then p.zoneData2
    else if BAND_156 <= value <= BAND_201 then p.zoneData3
    else if BAND_202 <= value <= LED_FULL then p.zoneData4
    else 0
  }

  /** The zone-data byte numbered 2, 3 or 4. */
  function ZoneData(p: PlatformData, n: nat): byte
  {
    if n == 2 then p.zoneData2 else if n == 3 then p.zoneData3 else p.zoneData4
  }

  /** The band of a request counted by the band bounds it reaches: 2 to start with, one
      more from 156 on, one more from 202 on. */
  function Band(value: byte): (n: nat)
    ensures 2 <= n <= 4
  {
    2 + (if value >= BAND_156 then 1 else 0) + (if value >= BAND_202 then 1 else 0)
  }

  /** A brighter automatic-mode request never selects a lower band. */
  lemma BandMonotone(value: byte, brighter: byte)
    requires value <= brighter
    ensures Band(value) <= Band(brighter)
  {
  }

  /** The byte `brightness_set(value)` writes to GEN_CONFIG (and remembers), given the
      mode and the byte written last time: for OFF the last byte with bit 0 cleared,
      otherwise the band's zone-data byte in automatic mode, zone-data byte 4 in
      manual mode, and 0 in any other mode. */
  function GenConfigFor(mode: byte, value: byte, last: byte, p: PlatformData): (r: byte)
    ensures value == LED_OFF ==> r == last - last % 2
    ensures value != LED_OFF && mode == AUTOMATIC ==> r == ZoneData(p, Band(value))
    ensures value != LED_OFF && mode == MANUAL ==> r == p.zoneData4
    ensures value != LED_OFF && mode != AUTOMATIC && mode != MANUAL ==> r == 0
  {
    MaskClearsLowBit(last);
    if value == LED_OFF then BitAnd(last, LAST_BRIGHTNESS_MASK)
    else if mode == AUTOMATIC then AutoLevel(value, p)
    else if mode == MANUAL then p.zoneData4
    else 0
  }

  /** A second OFF request writes the same byte as the first one: the byte written
      for OFF is already masked. */
  lemma OffTwiceWritesSameByte(mode: byte, mode': byte, last: byte, p: PlatformData)
    ensures var first := GenConfigFor(mode, LED_OFF, last, p);
      GenConfigFor(mode', LED_OFF, first, p) == first
  {
    BitAndIdempotent(last, LAST_BRIGHTNESS_MASK);
  }

  /** Whatever the mode, an OFF request writes a byte no greater than the last one and
      no greater than the mask. */
  lemma OffNeverBrightens(mode: byte, last: byte, p: PlatformData)
    ensures GenConfigFor(mode, LED_OFF, last, p) <= last
    ensures GenConfigFor(mode, LED_OFF, last, p) <= LAST_BRIGHTNESS_MASK
  {
  }

  /** `m` is a run of one-bits from bit 0 up (0, 1, 3, 7, 0x7F, …). */
  predicate LowOnes(m: nat)
    decreases m
  {
    m == 0 || (m % 2 == 1 && LowOnes(m / 2))
  }

  /** Masking with a run of low one-bits at least as wide as the value keeps it. */
  lemma {:induction false} BitAndLowOnes(y: nat, m: nat)
    requires LowOnes(m) && y <= m
    ensures BitAnd(y, m) == y
    decreases y
  {
    if y != 0 {
      BitAndLowOnes(y / 2, m / 2);
    }
  }

  /** LAST_BRIGHTNESS_MASK clears bit 0 of a byte and keeps the other seven. */
  lemma MaskClearsLowBit(x: byte)
    ensures BitAnd(x, LAST_BRIGHTNESS_MASK) == x - x % 2
  {
    if x != 0 {
      assert LowOnes(0x7F);
      BitAndLowOnes(x / 2, 0x7F);
    }
  }

  /** Automatic band mapping, end to end: with zone data 0x10, 0x20 and 0x30, requests
      of 100, 180 and 240 write 0x10, 0x20 and 0x30, and a following OFF request keeps
      the masked 0x30. */
  lemma AutomaticBandsExample(p: PlatformData)
    requires p.zoneData2 == 0x10 && p.zoneData3 == 0x20 && p.zoneData4 == 0x30
    ensures GenConfigFor(AUTOMATIC, 100, 0, p) == 0x10
    ensures GenConfigFor(AUTOMATIC, 180, 0x10, p) == 0x20
    ensures GenConfigFor(AUTOMATIC, 240, 0x20, p) == 0x30
    ensures GenConfigFor(AUTOMATIC, LED_OFF, 0x30, p) == 0x30
  {
    MaskClearsLowBit(0x30);
  }

  // ---------------------------------------------------------------------------
  // Register access

  /** A one-byte register read that ends with a zero-length receive reports success
      (0) without storing a byte: when every attempt's address send goes through and
      every receive returns 0, the loop runs out with 0 as its last result. */
  lemma {:induction false} ZeroLengthReceives(ret: nat -> int, from: nat, budget: nat)
    requires budget >= 1
    requires forall k :: from <= k ==> ret(k) == (if (k - from) % 2 == 0 then 1 else 0)
    ensures RecvRetry(ret, from, budget) == RecvRun(false, from + 2 * budget, 0, from + 2 * budget - 2)
    decreases budget
  {
    assert ret(from) == 1 && ret(from + 1) == 0;
    if budget > 1 {
      forall k | from + 2 <= k
        ensures ret(k) == (if (k - (from + 2)) % 2 == 0 then 1 else 0)
      {
        assert (k - from) % 2 == (k - (from + 2)) % 2;
      }
      ZeroLengthReceives(ret, from + 2, budget - 1);
    }
  }

  /** A read whose first two address sends fail with a transport error and whose third
      attempt completes uses four transfers and takes the byte from the fourth. */
  lemma RetriedReadExample(ret: nat -> int, budget: nat)
    requires budget >= 3
    requires ret(0) == -EIO && ret(1) == -EIO && ret(2) == 1 && ret(3) == 1
    ensures RecvRetry(ret, 0, budget) == RecvRun(true, 4, 1, 3)
  {
    RecvRetryStep(ret, 0, budget);
    RecvRetryStep(ret, 1, budget - 1);
  }

  /** An attempt that did not receive the byte, with budget left, hands over to the
      loop that starts right after it. */
  lemma RecvRetryStep(ret: nat -> int, start: nat, budget: nat)
    requires budget >= 2 && AttemptResult(ret, start) != 1
    ensures RecvRetry(ret, start, budget) == RecvRetry(ret, start + AttemptLength(ret, start), budget - 1)
  {
  }

  /** The attempt that received the byte, or the last one the budget allows, ends the
      loop with its own result. */
  lemma RecvRetryLast(ret: nat -> int, start: nat, budget: nat)
    requires budget >= 1 && (AttemptResult(ret, start) == 1 || budget == 1)
    ensures var e := AttemptResult(ret, start);
      RecvRetry(ret, start, budget) ==
      RecvRun(e == 1, start + AttemptLength(ret, start), e, if e == 1 then start + 1 else start)
  {
  }

  /** The register programming done at probe, as (register, value) pairs in the order
      the driver writes them: ALS configuration, ramp rate, resistor select, the four
      zone boundaries and the five zone targets. */
  function InitPlan(p: PlatformData): (plan: seq<(byte, byte)>)
    ensures |plan| == 12
  {
    [(REG_ALS_CONFIG, p.alsConfig), (REG_BRIGHTNESS_RAMP_RATE, p.brightnessRamp),
     (REG_ALS_RESISTOR_SELECT, p.alsResistorSel),
     (REG_ALS_ZB0, p.zoneBoundary0), (REG_ALS_ZB1, p.zoneBoundary1),
     (REG_ALS_ZB2, p.zoneBoundary2), (REG_ALS_ZB3, p.zoneBoundary3),
     (REG_ALS_Z0T, p.zoneTarget0), (REG_ALS_Z1T, p.zoneTarget1), (REG_ALS_Z2T, p.zoneTarget2),
     (REG_ALS_Z3T, p.zoneTarget3), (REG_ALS_Z4T, p.zoneTarget4)]
  }

  /** The frame that writes one (register, value) pair. */
  function PairFrame(w: (byte, byte)): seq<byte>
  {
    [w.0, w.1]
  }

  /** The traffic of register initialisation: the writes of `plan` in order, every one
      but the last having worked, and stopping early only at a failure. */
  ghost predicate InitTrace(t: seq<Txn>, plan: seq<(byte, byte)>)
  {
    1 <= |t| <= |plan| &&
    (forall i :: 0 <= i < |t| ==> t[i].op == Wr(PairFrame(plan[i]))) &&
    (forall i :: 0 <= i < |t| - 1 ==> t[i].ok) &&
    (|t| < |plan| ==> !t[|t| - 1].ok)
  }

  /** The first `|t|` writes of `plan` were sent in order and all worked. */
  ghost predicate InitDoneSoFar(t: seq<Txn>, plan: seq<(byte, byte)>)
  {
    |t| <= |plan| &&
    (forall i :: 0 <= i < |t| ==> t[i].op == Wr(PairFrame(plan[i])) && t[i].ok)
  }

  /** The traffic of a brightness request: BRIGHTNESS_CTRL first in manual mode, then
      GEN_CONFIG with `config`; failures are only logged, so the ok flags are free. */
  ghost predicate BrightnessTrace(t: seq<Txn>, mode: byte, value: byte, config: byte)
  {
    if value != LED_OFF && mode == MANUAL then
      |t| == 2 && t[0].op == Wr([REG_BRIGHTNESS_CTRL, value / 2]) &&
      t[1].op == Wr([REG_GEN_CONFIG, config])
    else
      |t| == 1 && t[0].op == Wr([REG_GEN_CONFIG, config])
  }

  // ---------------------------------------------------------------------------
  // The driver

  /** The driver instance: the platform data, the mode, the last requested brightness,
      the last byte written to GEN_CONFIG, the last ambient-light zone, and the state
      of the interrupt line and of the zone work item. */
  class Lm3530 {
    const bus: Adapter
    const pdata: PlatformData
    /** The retry count of register accesses, a build-time constant of the driver. */
    const maxRetries: int
    var mode: byte
    var lastRequestedBrightness: byte
    var lastGenConfig: byte
    var zone: byte
    var irqEnabled: bool
    var workPending: bool

    /** The cached zone only ever holds bits the read mask lets through. */
    predicate Valid()
      reads this
    {
      BitAnd(zone, ALS_READ_MASK) == zone
    }

    /** The instance as probe leaves it: zeroed, in automatic mode with zone 0, and
        (as the last step of probe) the interrupt line masked and a zone read queued. */
    constructor (pdata: PlatformData, maxRetries: int, bus: Adapter)
      ensures this.bus == bus && this.pdata == pdata && this.maxRetries == maxRetries
      ensures mode == AUTOMATIC && zone == ALS_ZONE0
      ensures lastRequestedBrightness == 0 && lastGenConfig == 0
      ensures !irqEnabled && workPending
      ensures Valid()
    {
      this.bus := bus;
      this.pdata := pdata;
      this.maxRetries := maxRetries;
      mode := AUTOMATIC;
      zone := ALS_ZONE0;
      lastRequestedBrightness, lastGenConfig := 0, 0;
      irqEnabled, workPending := false, true;
    }

    /** Read `numBytes` (at most one) from register `reg` into the byte `value` points
        to; `hasValue` is false for a null pointer. Each attempt sends the address and,
        only if that went through, receives; the result of the last attempt is
        returned as it is unless it received the byte. */
    method ReadReg(reg: byte, numBytes: nat, hasValue: bool, value: byte) returns (error: int, value': byte)
      requires numBytes <= ALLOWED_R_BYTES
      modifies bus`cursor, bus`trace
      ensures numBytes == 0 || !hasValue ==>
        error == -EINVAL && value' == value && bus.cursor == old(bus.cursor) && bus.trace == old(bus.trace)
      ensures numBytes != 0 && hasValue ==>
        var r := RecvRetry(bus.ret, old(bus.cursor), Budget(maxRetries));
        bus.cursor == r.end &&
        error == (if r.ok then 0 else r.last) &&
        value' == (if r.ok then bus.rx(r.at, 0) else value) &&
        bus.trace == old(bus.trace) + [Txn(Rd(reg, numBytes), r.ok, if r.ok then [value'] else [])]
    {
      value' := value;
      if numBytes == 0 || !hasValue {
        return -EINVAL, value;
      }
      ghost var from := bus.cursor;
      ghost var start := bus.cursor;
      ghost var budget := Budget(maxRetries);
      var i := 0;
      error := bus.Transfer();
      if error == 1 {
        error := bus.Transfer();
      }
      while error != numBytes && i + 1 < maxRetries
        decreases maxRetries - i
        invariant 0 <= i < budget && from <= start
        invariant bus.cursor == start + AttemptLength(bus.ret, start)
        invariant error == AttemptResult(bus.ret, start)
        invariant bus.trace == old(bus.trace)
        invariant RecvRetry(bus.ret, start, budget - i) == RecvRetry(bus.ret, from, budget)
      {
        RecvRetryStep(bus.ret, start, budget - i);
        i := i + 1;
        start := bus.cursor;
        error := bus.Transfer();
        if error == 1 {
          error := bus.Transfer();
        }
      }
      RecvRetryLast(bus.ret, start, budget - i);
      var received := error == numBytes;
      if received {
        error := 0;
        value' := bus.rx(bus.cursor - 1, 0);
      }
      bus.trace := bus.trace + [Txn(Rd(reg, numBytes), received, if received then [value'] else [])];
    }

    /** Write `value` to register `reg`: the two-byte send is retried until it goes
        through whole or the retries are used up; a short last send is -EINVAL. */
    method WriteReg(reg: byte, value: byte) returns (error: int)
      modifies bus`cursor, bus`trace
      ensures bus.cursor > old(bus.cursor)
      ensures RetryOutcome(bus.ret, old(bus.cursor), ALLOWED_W_BYTES, Budget(maxRetries),
        bus.cursor - old(bus.cursor), bus.ret(bus.cursor - 1) == ALLOWED_W_BYTES)
      ensures error == (if bus.ret(bus.cursor - 1) < ALLOWED_W_BYTES then -EINVAL else 0)
      ensures bus.trace == old(bus.trace) + [Txn(Wr([reg, value]), error == 0, [])]
    {
      ghost var from := bus.cursor;
      var i := 0;
      var bytes := bus.Transfer();
      while bytes != ALLOWED_W_BYTES && i + 1 < maxRetries
        decreases maxRetries - i
        invariant 0 <= i < Budget(maxRetries)
        invariant bus.cursor == from + i + 1 && bytes == bus.ret(from + i)
        invariant bus.trace == old(bus.trace)
        invariant forall j :: from <= j < from + i ==> Missed(bus.ret, j, ALLOWED_W_BYTES)
      {
        i := i + 1;
        bytes := bus.Transfer();
      }
      error := if bytes < ALLOWED_W_BYTES then -EINVAL else 0;
      bus.trace := bus.trace + [Txn(Wr([reg, value]), error == 0, [])];
    }

    /** The LED-class brightness callback: remember the request, compute the
        GEN_CONFIG byte (writing BRIGHTNESS_CTRL first in manual mode), remember that
        byte and write it, whatever became of the writes. */
    method BrightnessSet(value: byte)
      modifies this`lastRequestedBrightness, this`lastGenConfig, bus`cursor, bus`trace
      ensures lastRequestedBrightness == value
      ensures lastGenConfig == GenConfigFor(mode, value, old(lastGenConfig), pdata)
      ensures Extends(old(bus.trace), bus.trace)
      ensures BrightnessTrace(bus.trace[|old(bus.trace)|..], mode, value, lastGenConfig)
    {
      ghost var before := bus.trace;
      var brightness := 0;
      var error;
      lastRequestedBrightness := value;
      if value == LED_OFF {
        brightness := BitAnd(lastGenConfig, LAST_BRIGHTNESS_MASK);
      } else if mode == AUTOMATIC {
        if LED_OFF < value <= BAND_155 {
          brightness := pdata.zoneData2;
        } else if BAND_156 <= value <= BAND_201 {
          brightness := pdata.zoneData3;
        } else if BAND_202 <= value <= LED_FULL {
          brightness := pdata.zoneData4;
        }
      } else if mode == MANUAL {
        error := WriteReg(REG_BRIGHTNESS_CTRL, value / 2);
        brightness := pdata.zoneData4;
      }
      ghost var middle := bus.trace;
      lastGenConfig := brightness;
      error := WriteReg(REG_GEN_CONFIG, brightness);
      assert bus.trace[|before|..] == middle[|before|..] + [bus.trace[|middle|]];
    }

    /** The interrupt handler: mask the line and hand the zone read to the worker. */
    method IrqHandler()
      modifies this`irqEnabled, this`workPending
      ensures !irqEnabled && workPending
    {
      irqEnabled := false;
      workPending := true;
    }

    /** The zone worker: read the ALS zone register into the cached zone and keep its
        low bits; on a failed read the cached zone stays. The line is unmasked on
        both paths. */
    method WorkQueue()
      requires Valid()
      modifies this`zone, this`irqEnabled, this`workPending, bus`cursor, bus`trace
      ensures Valid() && zone <= ALS_READ_MASK
      ensures irqEnabled && !workPending
      ensures var r := RecvRetry(bus.ret, old(bus.cursor), Budget(maxRetries));
        bus.trace == old(bus.trace) + [Txn(Rd(REG_ALS_ZONE, ALLOWED_R_BYTES), r.ok, if r.ok then [bus.rx(r.at, 0)] else [])] &&
        zone == (if r.ok then bus.rx(r.at, 0) % 8 else old(zone))
    {
      workPending := false;
      var ret;
      ret, zone := ReadReg(REG_ALS_ZONE, ALLOWED_R_BYTES, true, zone);
      if ret != 0 {
        irqEnabled := true;
        return;
      }
      ghost var read := zone;
      zone := BitAnd(zone, ALS_READ_MASK);
      BitAndIdempotent(read, ALS_READ_MASK);
      ZoneMaskIsLowBits(read);
      irqEnabled := true;
    }

    /** Send the register/value writes of `plan` in order, stopping at the first one
        that fails; `error` is what that failing write returned. */
    method WritePlan(plan: seq<(byte, byte)>) returns (error: int)
      requires |plan| >= 1
      modifies bus`cursor, bus`trace
      ensures Extends(old(bus.trace), bus.trace)
      ensures var t := bus.trace[|old(bus.trace)|..];
        InitTrace(t, plan) && (error == 0 <==> |t| == |plan| && t[|t| - 1].ok)
    {
      ghost var before := bus.trace;
      ghost var log: seq<Txn> := [];
      var i := 0;
      error := 0;
      while i < |plan| && error == 0
        invariant 0 <= i <= |plan| && |log| == i
        invariant bus.trace == before + log
        invariant error == 0 ==> InitDoneSoFar(log, plan)
        invariant error != 0 ==>
          i > 0 && InitDoneSoFar(log[..i - 1], plan) &&
          log[i - 1].op == Wr(PairFrame(plan[i - 1])) && !log[i - 1].ok
      {
        error := WriteReg(plan[i].0, plan[i].1);
        log := log + [Txn(Wr(PairFrame(plan[i])), error == 0, [])];
        i := i + 1;
      }
      assert bus.trace[|before|..] == log;
    }

    /** Program the twelve ALS registers from the platform data, in order, stopping at
        the first write that fails; any failure is reported as -EINVAL. */
    method InitRegisters() returns (error: int)
      modifies bus`cursor, bus`trace
      ensures Extends(old(bus.trace), bus.trace)
      ensures var t := bus.trace[|old(bus.trace)|..];
        InitTrace(t, InitPlan(pdata)) &&
        (error == 0 <==> |t| == 12 && t[11].ok) && (error == 0 || error == -EINVAL)
    {
      error := WritePlan(InitPlan(pdata));
      if error != 0 {
        error := -EINVAL;
      }
    }
  }
}
