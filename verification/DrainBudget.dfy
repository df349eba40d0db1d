// The drain budget of a service: the daemon stores it in milliseconds, prints
// it into the environment of an instance, and waits for it before killing; the
// instance's SDK parses it back. All of it in 64-bit arithmetic.
module DrainBudget {
  import opened Basics
  import opened Text

  const MILLI: int := 1_000_000
  const SECOND: int := 1_000_000_000
  const TWO58: int := 0x400_0000_0000_0000
  const TWO63: int := 0x8000_0000_0000_0000
  const TWO64: int := 0x1_0000_0000_0000_0000

  // The largest budget for which no sum or product below wraps around.
  const LIMIT := 9_223_372_034_854

  function Wrap(x: int): (w: int)
    ensures -TWO63 <= w < TWO63
    ensures -TWO63 <= x < TWO63 ==> w == x
  {
    (x + TWO63) % TWO64 - TWO63
  }

  // ---- what the daemon stores for a request of so many seconds ----

  function StoredBudget(seconds: int, port: int): int {
    if port <= 0 then 0 else if seconds > 0 then Wrap(seconds * 1000) else 30000
  }

  // ---- what the instance is told, and what its SDK makes of it ----

  // GPM_SHUTDOWN_TIMEOUT; "" when it is not set.
  function EnvBudget(ms: int): string {
    if ms > 0 then Decimal(ms) + "ms" else ""
  }

  predicate IsMillis(s: string) {
    |s| > 2 && s[|s| - 2..] == "ms" && AllDigits(s[..|s| - 2])
  }

  // The duration that a whole number of milliseconds denotes, if it fits.
  function ParseMillis(s: string): Option<int>
    requires IsMillis(s)
  {
    var d := Value(s[..|s| - 2]) * MILLI;
    if d <= MAX_INT then Some(d) else None
  }

  // The time the SDK allows for draining, given that variable.
  function ShutdownTimeout(env: string): int
    requires env == "" || IsMillis(env)
  {
    if env == "" then 30 * SECOND
    else
      match ParseMillis(env)
      case None => 30 * SECOND
      case Some(d) => if d > 0 then d else 30 * SECOND
  }

  // ---- how long Stop waits before it kills ----

  function DrainTimeout(ms: int): int {
    if ms > 0 then Wrap(Wrap(ms * MILLI) + 2 * SECOND) else 5 * SECOND
  }

  // ---- the two agree ----

  lemma EnvIsMillis(ms: int)
    ensures EnvBudget(ms) == "" || IsMillis(EnvBudget(ms))
    ensures ms > 0 ==> EnvBudget(ms) != "" && ParseMillis(EnvBudget(ms)) == if ms * MILLI <= MAX_INT then Some(ms * MILLI) else None
  {
    if ms > 0 {
      DecimalValue(ms);
      var s := EnvBudget(ms);
      assert s[..|s| - 2] == Decimal(ms) && s[|s| - 2..] == "ms";
    }
  }

  // The SDK drains for the stored budget exactly when there is one and it fits
  // into a duration, or it is the default itself up to a multiple of 2^58.
  lemma SdkBudget(ms: int)
    requires -TWO63 <= ms < TWO63
    ensures EnvBudget(ms) == "" || IsMillis(EnvBudget(ms))
    ensures ShutdownTimeout(EnvBudget(ms)) == if 0 < ms <= MAX_INT / MILLI then ms * MILLI else 30 * SECOND
  {
    EnvIsMillis(ms);
  }

  lemma OddFactor(k: int)
    ensures (15625 * k) % TWO58 == 0 <==> k % TWO58 == 0
  {
    var u, v := 76480200929599801, 4146;
    assert 15625 * u == 1 + TWO58 * v;
    if (15625 * k) % TWO58 == 0 {
      var m := (15625 * k) / TWO58;
      assert 15625 * k == TWO58 * m;
      calc {
        k;
        k * (15625 * u - TWO58 * v);
        (15625 * k) * u - TWO58 * (k * v);
        TWO58 * (m * u - k * v);
      }
      Multiple(m * u - k * v);
    } else if k % TWO58 == 0 {
      var m := k / TWO58;
      assert 15625 * k == TWO58 * (15625 * m);
      Multiple(15625 * m);
      assert false;
    }
  }

  lemma Multiple(q: int)
    ensures (TWO58 * q) % TWO58 == 0
  {
  }

  // Stop kills exactly two seconds after the instance's own budget runs out,
  // for the budgets up to the limit and for those that wrap to the default.
  lemma KillFollowsDrainExactly(ms: int)
    requires -TWO63 <= ms < TWO63
    ensures EnvBudget(ms) == "" || IsMillis(EnvBudget(ms))
    ensures DrainTimeout(ms) == ShutdownTimeout(EnvBudget(ms)) + 2 * SECOND <==>
              0 < ms <= LIMIT || (ms > 0 && ms % TWO58 == 30000)
  {
    hide Wrap, EnvBudget, ShutdownTimeout;
    SdkBudget(ms);
    if ms > 0 {
      WrappedSum(ms * MILLI, 2 * SECOND, (if ms <= MAX_INT / MILLI then ms * MILLI else 30 * SECOND) + 2 * SECOND);
      if ms > MAX_INT / MILLI {
        WrapsToDefault(ms);
      }
    }
  }

  lemma WrapsToDefault(ms: int)
    ensures (ms * MILLI - 30 * SECOND) % TWO64 == 0 <==> ms % TWO58 == 30000
  {
    var k := ms - 30000;
    OddFactor(k);
    Sixtyfourfold(15625 * k);
    assert ms * MILLI - 30 * SECOND == 64 * (15625 * k);
    assert k % TWO58 == 0 <==> ms % TWO58 == 30000;
  }

  lemma Sixtyfourfold(x: int)
    ensures (64 * x) % TWO64 == 0 <==> x % TWO58 == 0
  {
    var q, r := x / TWO58, x % TWO58;
    assert 64 * x == q * TWO64 + 64 * r;
    assert 0 <= 64 * r < TWO64;
  }

  // A wrapped sum hits an in-range value exactly when it differs from it by a
  // multiple of 2^64; an out-of-range value never.
  lemma WrappedSum(x: int, c: int, b: int)
    ensures Wrap(Wrap(x) + c) == b <==> -TWO63 <= b < TWO63 && (x + c - b) % TWO64 == 0
  {
    var y := Wrap(x);
    var q := (x + TWO63) / TWO64;
    assert y == x - q * TWO64;
    var r := (y + c + TWO63) / TWO64;
    assert Wrap(y + c) == x + c - (q + r) * TWO64;
  }

  // A request for so many seconds gives the instance that long to drain,
  // exactly when they fit into a duration.
  lemma RequestHonoredExactly(seconds: int, port: int)
    requires 1 <= seconds < TWO63 && port > 0
    ensures var env := EnvBudget(StoredBudget(seconds, port));
            (env == "" || IsMillis(env)) &&
            (ShutdownTimeout(env) == seconds * SECOND <==> seconds <= MAX_INT / SECOND)
  {
    hide EnvBudget, ShutdownTimeout;
    var ms := StoredBudget(seconds, port);
    SdkBudget(ms);
    assert seconds * 1000 < TWO63 ==> ms == seconds * 1000;
    assert seconds <= MAX_INT / SECOND <==> seconds * SECOND <= MAX_INT;
  }

  // Within the limit, Stop outlasts the instance's drain exactly when a budget
  // is stored. A service without a port has none: its instances are killed
  // after five seconds while their SDK would drain for thirty.
  lemma OutlastsDrainExactly(ms: int)
    requires -TWO63 <= ms <= LIMIT
    ensures EnvBudget(ms) == "" || IsMillis(EnvBudget(ms))
    ensures DrainTimeout(ms) > ShutdownTimeout(EnvBudget(ms)) <==> ms > 0
  {
    SdkBudget(ms);
  }

  // What is stored without a request, and how long Stop waits without a budget,
  // in milliseconds and nanoseconds.
  lemma Defaults(seconds: int, port: int)
    ensures port <= 0 ==> StoredBudget(seconds, port) == 0
    ensures port > 0 && seconds <= 0 ==> StoredBudget(seconds, port) == 30000
    ensures port > 0 && 0 < seconds <= MAX_INT / 1000 ==> StoredBudget(seconds, port) == seconds * 1000
    ensures DrainTimeout(0) == 5_000_000_000 && DrainTimeout(30000) == 32_000_000_000
    ensures EnvBudget(0) == "" && EnvBudget(7) == "7ms"
  {
    assert Decimal(7) == "7";
  }
}
