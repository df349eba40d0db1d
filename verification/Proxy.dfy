// The front proxy of internal/proxy/proxy.go: an upstream set that is replaced
// as a whole, and a dial that walks a loaded snapshot of it round-robin.
module Proxy {

  // ---- the machine arithmetic of dial ----

  const TWO63: int := 0x8000_0000_0000_0000
  const TWO64: int := 0x1_0000_0000_0000_0000

  // The conversion of a 64-bit counter to a signed 64-bit int.
  function ToInt(u: int): (v: int)
    requires 0 <= u < TWO64
    ensures -TWO63 <= v < TWO63 && (v == u || v + TWO64 == u)
  {
    if u < TWO63 then u else u - TWO64
  }

  // Signed 64-bit addition of a small offset wraps around.
  function AddWrapped(start: int, i: nat): (v: int)
    ensures -TWO63 <= start < TWO63 && i < TWO63 ==> -TWO63 <= v < TWO63
    ensures v == start + i || v + TWO64 == start + i
  {
    if start + i < TWO63 then start + i else start + i - TWO64
  }

  // The remainder of truncated division: it takes the sign of its left operand.
  function Rem(a: int, n: nat): int
    requires n > 0
  {
    if a >= 0 then a % n else -((-a) % n)
  }

  lemma RemTruncates(a: int, n: nat) returns (q: int)
    requires n > 0
    ensures a == q * n + Rem(a, n) && (if a >= 0 then 0 <= Rem(a, n) < n else 0 - n < Rem(a, n) <= 0)
  {
    q := if a >= 0 then a / n else -((-a) / n);
    assert a < 0 ==> (-a) == ((-a) / n) * n + (-a) % n;
  }

  // The index that attempt i of a dial looks up.
  function Pick(start: int, i: nat, n: nat): int
    requires n > 0
  {
    Rem(AddWrapped(start, i), n)
  }

  // ---- dial ----

  datatype Outcome =
    | NoUpstream
    | Connected(addr: string, attempt: nat)
    | Refused
    | IndexFault

  // Attempts i, i + 1, ... of a dial on the snapshot `us`; `accepts[i]` is the
  // set of addresses that accept a connection at the time of attempt i.
  function DialFrom(us: seq<string>, start: int, i: nat, accepts: seq<set<string>>): Outcome
    requires 0 < |us| <= |accepts| && i <= |us|
    decreases |us| - i
  {
    if i == |us| then Refused
    else
      var k := Pick(start, i, |us|);
      if k < 0 || k >= |us| then IndexFault
      else if us[k] in accepts[i] then Connected(us[k], i)
      else DialFrom(us, start, i + 1, accepts)
  }

  function DialOutcome(us: seq<string>, counter: int, accepts: seq<set<string>>): Outcome
    requires |us| <= |accepts| && 0 <= counter < TWO64
  {
    if us == [] then NoUpstream else DialFrom(us, ToInt(counter), 0, accepts)
  }

  class Proxy {
    var upstreams: array<string>
    var rr: int

    ghost predicate Valid()
      reads this
    {
      0 <= rr < TWO64
    }

    constructor (u: array<string>)
      ensures Valid() && fresh(upstreams) && upstreams[..] == u[..] && rr == 0
    {
      rr := 0;
      upstreams := new string[0];
      new;
      SetUpstreams(u);
    }

    // Stores a private copy, so that a later write to the caller's array does
    // not reach a snapshot, and a stored snapshot is never written again.
    method SetUpstreams(u: array<string>)
      requires Valid()
      modifies this`upstreams
      ensures Valid() && fresh(upstreams) && upstreams[..] == u[..] && u[..] == old(u[..])
    {
      var cp := new string[u.Length];
      for i := 0 to u.Length
        invariant cp[..i] == u[..i]
        invariant u[..] == old(u[..])
      {
        cp[i] := u[i];
      }
      assert cp[..] == cp[..u.Length] && u[..] == u[..u.Length];
      upstreams := cp;
    }

    method Dial(accepts: seq<set<string>>) returns (r: Outcome)
      requires Valid() && upstreams.Length <= |accepts|
      modifies this`rr
      ensures Valid() && r == DialOutcome(old(upstreams[..]), if old(upstreams.Length) == 0 then 0 else rr, accepts)
      ensures rr == if old(upstreams.Length) == 0 then old(rr) else (old(rr) + 1) % TWO64
      ensures upstreams.Length > 0 && rr < TWO63 && upstreams[rr % upstreams.Length] in accepts[0] ==>
                r == Connected(upstreams[rr % upstreams.Length], 0)
    {
      var us := upstreams;
      if us.Length == 0 {
        return NoUpstream;
      }
      rr := if rr + 1 == TWO64 then 0 else rr + 1;
      var start := ToInt(rr);
      if rr < TWO63 && us[rr % us.Length] in accepts[0] { FirstChoice(us[..], rr, accepts); }
      var i := 0;
      while i < us.Length
        invariant 0 <= i <= us.Length
        invariant DialFrom(us[..], start, 0, accepts) == DialFrom(us[..], start, i, accepts)
      {
        var k := Pick(start, i, us.Length);
        if k < 0 || k >= us.Length {
          return IndexFault;
        }
        if us[k] in accepts[i] {
          return Connected(us[k], i);
        }
        i := i + 1;
      }
      return Refused;
    }
  }

  // ---- which indices a dial visits ----

  lemma MultipleSize(d: int, n: nat)
    requires n > 0
    ensures d >= 1 ==> d * n >= n
    ensures d <= -1 ==> d * n + n <= 0
  {
    if d <= -1 { assert (-d) * n >= n; }
  }

  lemma QuotientIsUnique(x: int, n: nat, q: int, r: int)
    requires n > 0 && x == q * n + r && 0 <= r < n
    ensures x / n == q && x % n == r
  {
    var d := x / n - q;
    assert x == (x / n) * n + x % n;
    assert d * n == r - x % n by { assert d * n == (x / n) * n - q * n; }
    MultipleSize(d, n);
  }

  lemma RemStep(x: int, n: nat)
    requires n > 0
    ensures (x + 1) % n == if x % n + 1 == n then 0 else x % n + 1
  {
    var q := x / n;
    assert x == q * n + x % n;
    if x % n + 1 == n {
      assert x + 1 == (q + 1) * n + 0 by { assert (q + 1) * n == q * n + n; }
      QuotientIsUnique(x + 1, n, q + 1, 0);
    } else {
      QuotientIsUnique(x + 1, n, q, x % n + 1);
    }
  }

  // The remainders of consecutive numbers, without a division.
  function Around(r: int, i: nat, n: nat): int {
    if r + i < n then r + i else r + i - n
  }

  lemma {:induction false} RemAround(x: int, i: nat, n: nat)
    requires n > 0 && i <= n
    ensures (x + i) % n == Around(x % n, i, n) % n
    ensures i < n ==> (x + i) % n == Around(x % n, i, n)
  {
    var r := x % n;
    if i == 0 {
      QuotientIsUnique(r, n, 0, r);
    } else {
      RemAround(x, i - 1, n);
      RemStep(x + (i - 1), n);
      var a := Around(r, i, n);
      if a < n { QuotientIsUnique(a, n, 0, a); } else { QuotientIsUnique(a, n, 1, a - n); }
    }
  }

  // The start values for which no attempt of a dial on n upstreams looks up a
  // negative index. The last disjunct is the one case in which the sum wraps
  // around and still hits index 0.
  predicate SafeStart(start: int, n: nat)
    requires n > 0
  {
    n == 1 || (start >= 0 && (start + n <= TWO63 || (start + n == TWO63 + 1 && TWO63 % n == 0)))
  }

  // A dial that is refused everywhere looks up an index below zero exactly for
  // the start values outside SafeStart.
  lemma SafeExactly(start: int, n: nat)
    requires -TWO63 <= start < TWO63 && 0 < n < TWO63
    ensures SafeStart(start, n) <==> forall i: nat {:trigger Pick(start, i, n)} :: i < n ==> Pick(start, i, n) >= 0
  {
    if SafeStart(start, n) {
      forall i: nat | i < n ensures Pick(start, i, n) >= 0 {
        SafePick(start, i, n);
      }
    } else {
      var i := FaultingAttempt(start, n);
    }
  }

  lemma SafePick(start: int, i: nat, n: nat)
    requires -TWO63 <= start < TWO63 && 0 < n < TWO63 && i < n && SafeStart(start, n)
    ensures 0 <= Pick(start, i, n) < n
  {
    if start + i >= TWO63 && n > 1 {
      assert AddWrapped(start, i) == -TWO63;
    }
  }

  lemma FaultingAttempt(start: int, n: nat) returns (i: nat)
    requires -TWO63 <= start < TWO63 && 0 < n < TWO63 && !SafeStart(start, n)
    ensures i < n && Pick(start, i, n) < 0
  {
    if start < -1 {
      // Two neighbours below zero: not both are multiples of n.
      RemStep(-start - 1, n);
      i := if (-start) % n != 0 then 0 else 1;
      if i == 1 { RemStep(-start - 1, n); assert AddWrapped(start, 1) == start + 1; }
    } else if start == -1 {
      i := 0;
      QuotientIsUnique(1, n, 0, 1);
    } else {
      // The first wrapped value is -2^63; the one after it is its neighbour.
      i := TWO63 - start;
      assert AddWrapped(start, i) == -TWO63;
      if TWO63 % n == 0 {
        RemStep(TWO63 - 1, n);
        i := i + 1;
        assert AddWrapped(start, i) == -(TWO63 - 1);
      }
    }
  }

  // With a safe start, the attempts of a full round visit every index, and no
  // index twice.
  lemma VisitsEveryUpstream(start: int, n: nat, k: nat) returns (i: nat)
    requires -TWO63 <= start < TWO63 && 0 < n < TWO63 && SafeStart(start, n) && k < n
    ensures i < n && Pick(start, i, n) == k
    ensures forall j: nat {:trigger Pick(start, j, n)} :: j < n && Pick(start, j, n) == k ==> j == i
  {
    if n == 1 {
      i := 0;
      SafePick(start, 0, 1);
    } else {
      var r := start % n;
      i := if k >= r then k - r else k - r + n;
      assert Around(r, i, n) == k;
      forall j: nat | j < n ensures Pick(start, j, n) == Around(r, j, n) {
        PickAround(start, j, n);
      }
    }
  }

  lemma PickAround(start: int, j: nat, n: nat)
    requires 0 <= start < TWO63 && 1 < n < TWO63 && j < n && SafeStart(start, n)
    ensures Pick(start, j, n) == Around(start % n, j, n)
  {
    RemAround(start, j, n);
    if start + j == TWO63 {
      assert AddWrapped(start, j) == -TWO63;
    }
  }

  // ---- what a dial returns ----

  // If some upstream of the snapshot accepts throughout the dial, the dial
  // connects: to an upstream that accepts at that attempt, and to the first
  // such one in its order, which begins at the counter.
  lemma DialConnects(us: seq<string>, counter: int, accepts: seq<set<string>>, k: nat)
    requires 0 < |us| <= |accepts| && |us| < TWO63 && 0 <= counter < TWO64 && SafeStart(ToInt(counter), |us|)
    requires k < |us| && forall i :: 0 <= i < |us| ==> us[k] in accepts[i]
    ensures var o, start := DialOutcome(us, counter, accepts), ToInt(counter);
            && o.Connected? && o.attempt < |us| && o.addr in us && o.addr in accepts[o.attempt]
            && o.addr == us[Pick(start, o.attempt, |us|)]
            && forall i: nat {:trigger Pick(start, i, |us|)} :: i < o.attempt ==> us[Pick(start, i, |us|)] !in accepts[i]
    ensures var o := DialOutcome(us, counter, accepts);
            counter + |us| <= TWO63 ==>
              && o.addr == us[(counter + o.attempt) % |us|]
              && forall i: nat :: i < o.attempt ==> us[(counter + i) % |us|] !in accepts[i]
  {
    hide Pick, SafeStart, DialFrom, ToInt;
    var start := ToInt(counter);
    var i := VisitsEveryUpstream(start, |us|, k);
    forall j: nat | j < |us| ensures 0 <= Pick(start, j, |us|) < |us| { SafePick(start, j, |us|); }
    DialReaches(us, start, 0, accepts, i);
    if counter + |us| <= TWO63 {
      var o := DialOutcome(us, counter, accepts);
      PickPlain(counter, o.attempt, |us|);
      forall j: nat | j < o.attempt ensures us[(counter + j) % |us|] !in accepts[j] {
        PickPlain(counter, j, |us|);
        assert us[Pick(start, j, |us|)] !in accepts[j];
      }
    }
  }

  lemma PickPlain(counter: nat, j: nat, n: nat)
    requires n > 0 && counter + j < TWO63
    ensures ToInt(counter) == counter && Pick(ToInt(counter), j, n) == (counter + j) % n
  {
  }

  lemma {:induction false} DialReaches(us: seq<string>, start: int, from: nat, accepts: seq<set<string>>, i: nat)
    requires 0 < |us| <= |accepts| && from <= i < |us|
    requires forall j: nat {:trigger Pick(start, j, |us|)} :: j < |us| ==> 0 <= Pick(start, j, |us|) < |us|
    requires us[Pick(start, i, |us|)] in accepts[i]
    ensures var o := DialFrom(us, start, from, accepts);
            && o.Connected? && from <= o.attempt <= i
            && o.addr == us[Pick(start, o.attempt, |us|)] && o.addr in accepts[o.attempt]
            && forall j: nat {:trigger Pick(start, j, |us|)} :: from <= j < o.attempt ==> us[Pick(start, j, |us|)] !in accepts[j]
    decreases i - from
  {
    if us[Pick(start, from, |us|)] !in accepts[from] {
      DialReaches(us, start, from + 1, accepts, i);
    }
  }

  // A dial connects only to a member of its snapshot that accepts, and reports
  // refusal only if no attempt met one; without upstreams it reports that.
  lemma DialSound(us: seq<string>, counter: int, accepts: seq<set<string>>)
    requires |us| <= |accepts| && 0 <= counter < TWO64
    ensures var o, start := DialOutcome(us, counter, accepts), ToInt(counter);
            && (o.Connected? ==> o.addr in us && o.attempt < |us| && o.addr in accepts[o.attempt])
            && (o.Refused? ==> us != [] && forall j: nat {:trigger Pick(start, j, |us|)} :: j < |us| ==>
                  0 <= Pick(start, j, |us|) < |us| && us[Pick(start, j, |us|)] !in accepts[j])
            && (o.NoUpstream? <==> us == [])
  {
    if us != [] { AttemptsSound(us, ToInt(counter), 0, accepts); }
  }

  lemma {:induction false} AttemptsSound(us: seq<string>, start: int, from: nat, accepts: seq<set<string>>)
    requires 0 < |us| <= |accepts| && from <= |us|
    ensures var o := DialFrom(us, start, from, accepts);
            && (o.Connected? ==> o.addr in us && o.attempt < |us| && o.addr in accepts[o.attempt])
            && (o.Refused? ==> forall j: nat {:trigger Pick(start, j, |us|)} :: from <= j < |us| ==>
                  0 <= Pick(start, j, |us|) < |us| && us[Pick(start, j, |us|)] !in accepts[j])
            && !o.NoUpstream?
    decreases |us| - from
  {
    if from < |us| { AttemptsSound(us, start, from + 1, accepts); }
  }

  // A dial that no upstream accepts faults exactly for the start values outside
  // SafeStart, and is refused for the others.
  lemma FaultExactly(us: seq<string>, counter: int, accepts: seq<set<string>>)
    requires 0 < |us| <= |accepts| && |us| < TWO63 && 0 <= counter < TWO64
    requires forall i, k :: 0 <= i < |us| && 0 <= k < |us| ==> us[k] !in accepts[i]
    ensures DialOutcome(us, counter, accepts) == if SafeStart(ToInt(counter), |us|) then Refused else IndexFault
  {
    hide SafeStart, Pick, ToInt;
    var start := ToInt(counter);
    SafeExactly(start, |us|);
    AttemptsFail(us, start, 0, accepts);
  }

  lemma {:induction false} AttemptsFail(us: seq<string>, start: int, from: nat, accepts: seq<set<string>>)
    requires 0 < |us| <= |accepts| && from <= |us|
    requires forall i, k :: 0 <= i < |us| && 0 <= k < |us| ==> us[k] !in accepts[i]
    ensures DialFrom(us, start, from, accepts) ==
              if forall i: nat {:trigger Pick(start, i, |us|)} :: from <= i < |us| ==> Pick(start, i, |us|) >= 0 then Refused else IndexFault
    decreases |us| - from
  {
    hide Pick;
    if from < |us| {
      AttemptsFail(us, start, from + 1, accepts);
      PickBelow(start, from, |us|);
    }
  }

  lemma PickBelow(start: int, i: nat, n: nat)
    requires n > 0
    ensures Pick(start, i, n) < n
  {
    var q := RemTruncates(AddWrapped(start, i), n);
  }

  // ---- round-robin fairness ----

  // How often index j is the first choice among k dials, the first of which
  // starts at residue r.
  function Hits(r: nat, k: nat, n: nat, j: nat): nat
    requires r < n
    decreases k
  {
    if k == 0 then 0
    else (if r == j then 1 else 0) + Hits(if r + 1 == n then 0 else r + 1, k - 1, n, j)
  }

  // Every upstream accepts at every attempt.
  function AllAccept(us: seq<string>): (accepts: seq<set<string>>)
    ensures |accepts| == |us|
  {
    seq(|us|, _ => set a | a in us)
  }

  // How many of the dials with counter values c, c + 1, ..., c + k - 1 connect
  // to us[j] when every upstream accepts.
  function Connections(us: seq<string>, c: nat, k: nat, j: nat): nat
    requires j < |us| && c + k <= TWO63
    decreases k
  {
    if k == 0 then 0
    else
      var o := DialOutcome(us, c, AllAccept(us));
      (if o.Connected? && o.addr == us[j] then 1 else 0) + Connections(us, c + 1, k - 1, j)
  }

  // Such a dial connects at once to the upstream at the counter's remainder.
  lemma FirstChoice(us: seq<string>, c: nat, accepts: seq<set<string>>)
    requires 0 < |us| <= |accepts| && c < TWO63 && us[c % |us|] in accepts[0]
    ensures DialOutcome(us, c, accepts) == Connected(us[c % |us|], 0)
  {
    PickPlain(c, 0, |us|);
  }

  ghost predicate AllDifferent(us: seq<string>) {
    forall i, j :: 0 <= i < j < |us| ==> us[i] != us[j]
  }

  lemma {:induction false} ConnectionsAreHits(us: seq<string>, c: nat, k: nat, j: nat)
    requires j < |us| && c + k <= TWO63 && AllDifferent(us)
    ensures Connections(us, c, k, j) == Hits(c % |us|, k, |us|, j)
    decreases k
  {
    hide DialOutcome;
    if k > 0 {
      RemStep(c, |us|);
      FirstChoice(us, c, AllAccept(us));
      assert us[c % |us|] == us[j] <==> c % |us| == j;
      ConnectionsAreHits(us, c + 1, k - 1, j);
    }
  }

  lemma DivStep(x: nat, n: nat)
    requires n > 0
    ensures (x + n) / n == x / n + 1
  {
    assert x + n == (x / n + 1) * n + x % n by { assert (x / n + 1) * n == (x / n) * n + n; }
    QuotientIsUnique(x + n, n, x / n + 1, x % n);
  }

  lemma DivMonotone(x: nat, y: nat, n: nat)
    requires n > 0 && x <= y
    ensures x / n <= y / n
  {
    var a, b := x / n, y / n;
    assert x == a * n + x % n && y == b * n + y % n;
    assert (a - b) * n == a * n - b * n;
    MultipleSize(a - b, n);
  }

  // d steps before index j is the choice, then every n-th.
  lemma {:induction false} HitsCount(r: nat, k: nat, n: nat, j: nat)
    requires r < n && j < n
    ensures var d := if j >= r then j - r else j - r + n;
            Hits(r, k, n, j) == if k <= d then 0 else 1 + (k - d - 1) / n
    decreases k
  {
    if k > 0 {
      HitsCount(if r + 1 == n then 0 else r + 1, k - 1, n, j);
      if r == j {
        if k > n { DivStep(k - 1 - n, n); } else { QuotientIsUnique(k - 1, n, 0, k - 1); }
      }
    }
  }

  // With every upstream accepting, k dials with consecutive counter values
  // connect to each of n upstreams k/n times, rounded down or up.
  lemma RoundRobinIsFair(us: seq<string>, c: nat, k: nat, j: nat)
    requires j < |us| && c + k <= TWO63 && AllDifferent(us)
    ensures k / |us| <= Connections(us, c, k, j) <= (k + |us| - 1) / |us|
  {
    hide Connections;
    var n := |us|;
    ConnectionsAreHits(us, c, k, j);
    var r := c % n;
    HitsCount(r, k, n, j);
    var d := if j >= r then j - r else j - r + n;
    if k <= d {
      QuotientIsUnique(k, n, 0, k);
      DivMonotone(0, k + n - 1, n);
      QuotientIsUnique(0, n, 0, 0);
    } else {
      DivStep(k - 1, n);
      DivMonotone(k - d - 1, k - 1, n);
      DivStep(k - d - 1, n);
      DivMonotone(k, k - d - 1 + n, n);
    }
  }
}
