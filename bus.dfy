/** The two-wire (I2C) transport both drivers sit on.

    The adapter is an oracle: transfer number `k` (counted over the whole life of the
    bus) returns `ret(k)` — the value `i2c_transfer`, `i2c_master_send` or
    `i2c_master_recv` returned — and, when it clocks bytes in, byte `i` of it is
    `rx(k, i)`. Every driver-level transaction (all retry attempts of one register read
    or write) is appended to a ghost trace, so that ordering and "no write happened"
    can be stated. */
module Bus {

  /** An 8-bit register value or register address (the C `u8` / `uint8_t`). */
  type byte = x: int | 0 <= x < 0x100

  /** The kernel error numbers the drivers return (negated). */
  const EIO: int := 5
  const EINVAL: int := 22

  /** What a driver asked of the bus: read `len` bytes from register `reg`, or send one
      frame (register address followed by the payload). */
  datatype Op = Rd(reg: byte, len: nat) | Wr(frame: seq<byte>)

  /** One driver-level transaction: what was asked, whether the driver saw it succeed,
      and the bytes it received (empty for writes and failed reads). */
  datatype Txn = Txn(op: Op, ok: bool, data: seq<byte>)

  /** `now` is `before` with transactions appended. */
  ghost predicate Extends(before: seq<Txn>, now: seq<Txn>)
  {
    |before| <= |now| && now[..|before|] == before
  }

  /** The `len` bytes clocked in by transfer `k`. */
  function Received(rx: (nat, nat) -> byte, k: nat, len: nat): (d: seq<byte>)
    ensures |d| == len
    ensures forall i :: 0 <= i < len ==> d[i] == rx(k, i)
  {
    seq(len, i requires 0 <= i < len => rx(k, i))
  }

  /** Number of attempts `do { … } while (failed && ++tries < retries)` allows:
      the body always runs once. */
  function Budget(retries: int): (b: nat)
    ensures b >= 1 && b >= retries
    ensures retries >= 1 ==> b == retries
  {
    if retries < 1 then 1 else retries
  }

  /** Transfer `k` did not return `want`: the attempt it made failed. */
  predicate Missed(ret: nat -> int, k: nat, want: int)
  {
    ret(k) != want
  }

  /** How a retry loop ended: whether its last attempt returned the wanted value,
      how many bus transfers it used, and what the last one returned. */
  datatype Run = Run(done: bool, attempts: nat, last: int)

  /** The do-while retry loop in which each attempt is ONE transfer, and the loop stops
      at the first transfer that returns `want` or after `budget` attempts. Transfer
      numbers start at `from`. */
  function Retry(ret: nat -> int, from: nat, want: int, budget: nat): (r: Run)
    requires budget >= 1
    ensures 1 <= r.attempts <= budget
    ensures r.last == ret(from + r.attempts - 1)
    ensures r.done <==> r.last == want
    ensures forall k :: from <= k < from + r.attempts - 1 ==> Missed(ret, k, want)
    ensures !r.done ==> r.attempts == budget
    decreases budget
  {
    if ret(from) == want || budget == 1 then Run(ret(from) == want, 1, ret(from))
    else
      var rest := Retry(ret, from + 1, want, budget - 1);
      Run(rest.done, rest.attempts + 1, rest.last)
  }

  /** A loop whose first `k` transfers fail stops at transfer `from + k` when that one
      succeeds or is the last the budget allows: it succeeds after exactly `k + 1`
      attempts if that transfer returned `want`, and otherwise fails having used the
      whole budget. */
  lemma {:induction false} RetryStopsAt(ret: nat -> int, from: nat, want: int, budget: nat, k: nat)
    requires k < budget
    requires forall j :: from <= j < from + k ==> Missed(ret, j, want)
    requires ret(from + k) == want || k == budget - 1
    ensures Retry(ret, from, want, budget) == Run(ret(from + k) == want, k + 1, ret(from + k))
    decreases k
  {
    if k > 0 {
      assert Missed(ret, from, want);
      RetryStopsAt(ret, from + 1, want, budget - 1, k - 1);
    }
  }

  /** A retry loop starting at transfer `from` made `attempts` attempts and ended
      successfully (`done`) or not: every attempt but the last failed, the last one
      decides the outcome, and a failed loop has used the whole budget. */
  ghost predicate RetryOutcome(ret: nat -> int, from: nat, want: int, budget: nat, attempts: nat, done: bool)
  {
    1 <= attempts <= budget &&
    (forall k :: from <= k < from + attempts - 1 ==> Missed(ret, k, want)) &&
    (done <==> ret(from + attempts - 1) == want) &&
    (!done ==> attempts == budget)
  }

  /** The outcome a loop can have is exactly the one `Retry` computes: the stopping
      rule leaves no choice. */
  lemma RetryOutcomeIsRetry(ret: nat -> int, from: nat, want: int, budget: nat, attempts: nat, done: bool)
    requires budget >= 1 && attempts >= 1
    ensures RetryOutcome(ret, from, want, budget, attempts, done) <==>
      Retry(ret, from, want, budget) == Run(done, attempts, ret(from + attempts - 1))
  {
    if RetryOutcome(ret, from, want, budget, attempts, done) {
      RetryStopsAt(ret, from, want, budget, attempts - 1);
    }
  }

  /** How a send-then-receive retry loop ended: whether a one-byte receive completed,
      the number of the first transfer after the loop, what the last transfer
      returned, and which transfer delivered the byte (meaningful when `ok`). */
  datatype RecvRun = RecvRun(ok: bool, end: nat, last: int, at: nat)

  /** Transfers one send-then-receive attempt starting at transfer `k` uses: the
      receive is issued only when the one-byte send went through. */
  function AttemptLength(ret: nat -> int, k: nat): (n: nat)
    ensures n == 1 || n == 2
  {
    if ret(k) == 1 then 2 else 1
  }

  /** What one send-then-receive attempt starting at transfer `k` leaves in the
      driver's error variable. */
  function AttemptResult(ret: nat -> int, k: nat): int
  {
    if ret(k) == 1 then ret(k + 1) else ret(k)
  }

  /** The retry loop of a one-byte register read in which each attempt sends the
      register address and, only if that went through, receives one byte; it stops at
      the first attempt that received the byte or after `budget` attempts. */
  function RecvRetry(ret: nat -> int, from: nat, budget: nat): RecvRun
    requires budget >= 1
    decreases budget
  {
    var n := AttemptLength(ret, from);
    var e := AttemptResult(ret, from);
    if e == 1 then RecvRun(true, from + n, e, from + 1)
    else if budget == 1 then RecvRun(false, from + n, e, from)
    else RecvRetry(ret, from + n, budget - 1)
  }

  /** The transfer number at which attempt `i` (counting from 0) of a send-then-receive
      loop started at transfer `from` begins, the attempts before it having run. */
  function AttemptStart(ret: nat -> int, from: nat, i: nat): (s: nat)
    ensures s >= from + i
    decreases i
  {
    if i == 0 then from else AttemptStart(ret, from + AttemptLength(ret, from), i - 1)
  }

  /** The attempt starting at transfer `k` did not receive the byte. */
  predicate NotReceived(ret: nat -> int, k: nat)
  {
    AttemptResult(ret, k) != 1
  }

  /** The send-then-receive loop stops at the first attempt that receives the byte, or
      at the last attempt the budget allows: when attempts 0 .. k-1 all failed and
      attempt `k` received the byte or is the last one, the loop ends right after
      attempt `k`, with that attempt's result, and takes the byte from its receive. */
  lemma {:induction false} RecvRetryStopsAt(ret: nat -> int, from: nat, budget: nat, k: nat)
    requires k < budget
    requires forall i :: 0 <= i < k ==> NotReceived(ret, AttemptStart(ret, from, i))
    requires !NotReceived(ret, AttemptStart(ret, from, k)) || k == budget - 1
    ensures var s := AttemptStart(ret, from, k);
      var e := AttemptResult(ret, s);
      RecvRetry(ret, from, budget) ==
      RecvRun(e == 1, s + AttemptLength(ret, s), e, if e == 1 then s + 1 else s)
    decreases k
  {
    if k > 0 {
      assert NotReceived(ret, AttemptStart(ret, from, 0));
      var next := from + AttemptLength(ret, from);
      forall i | 0 <= i < k - 1
        ensures NotReceived(ret, AttemptStart(ret, next, i))
      {
        assert AttemptStart(ret, from, i + 1) == AttemptStart(ret, next, i);
        assert NotReceived(ret, AttemptStart(ret, from, i + 1));
      }
      assert AttemptStart(ret, from, k) == AttemptStart(ret, next, k - 1);
      RecvRetryStopsAt(ret, next, budget - 1, k - 1);
    }
  }

  /** The loop uses at least one transfer and at most two per attempt, and all
      `budget` attempts when it fails; it succeeds exactly when its last result is one
      received byte, and that byte came from its last transfer, a receive that
      returned one byte right after an address send that went through. */
  lemma {:induction false} RecvRetryBounds(ret: nat -> int, from: nat, budget: nat)
    requires budget >= 1
    ensures var r := RecvRetry(ret, from, budget);
      from < r.end <= from + 2 * budget &&
      (!r.ok ==> from + budget <= r.end && r.end == AttemptStart(ret, from, budget)) &&
      (r.ok <==> r.last == 1) &&
      (r.ok ==> r.at == r.end - 1 && r.at > from && ret(r.at - 1) == 1 && ret(r.at) == 1)
    decreases budget
  {
    if AttemptResult(ret, from) != 1 && budget > 1 {
      RecvRetryBounds(ret, from + AttemptLength(ret, from), budget - 1);
    }
  }

  /** The adapter, seen by a driver: an oracle of transfer results, a count of the
      transfers used so far, and the ghost trace of transactions issued. */
  class Adapter {
    const ret: nat -> int
    const rx: (nat, nat) -> byte
    var cursor: nat
    ghost var trace: seq<Txn>

    constructor (ret: nat -> int, rx: (nat, nat) -> byte)
      ensures this.ret == ret && this.rx == rx
      ensures cursor == 0 && trace == []
    {
      this.ret := ret;
      this.rx := rx;
      cursor := 0;
      trace := [];
    }

    /** One transfer on the wire. Bytes it clocks in are `rx(k, _)` with `k` the
        transfer's number, which is `cursor - 1` afterwards. */
    method Transfer() returns (r: int)
      modifies this`cursor
      ensures r == ret(old(cursor)) && cursor == old(cursor) + 1
    {
      r := ret(cursor);
      cursor := cursor + 1;
    }
  }
}
