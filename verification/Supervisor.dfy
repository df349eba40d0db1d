// The supervisor of one instance in internal/process/runner.go: restart
// accounting, crash backoff, and the race between supervise and Stop.
module Supervisor {
  import opened InstanceList

  // ---- durations, in nanoseconds ----

  const SECOND: int := 1_000_000_000
  const RESTART_DELAY := SECOND
  const MIN_STABLE_UPTIME := 3 * SECOND
  const MAX_RESTART_BACKOFF := 30 * SECOND
  const CRASH_LOOP_THRESHOLD := 4

  function Pow2(n: nat): (p: int)
    ensures p >= 1
  {
    if n == 0 then 1 else 2 * Pow2(n - 1)
  }

  function CrashBackoff(failures: int): int {
    var n := failures - CRASH_LOOP_THRESHOLD;
    if n < 0 then RESTART_DELAY
    else if n > 5 then MAX_RESTART_BACKOFF
    else
      var d := RESTART_DELAY * Pow2(n); // restartDelay << n: no bit is lost for n <= 5
      if d > MAX_RESTART_BACKOFF then MAX_RESTART_BACKOFF else d
  }

  lemma {:induction false} Pow2Grows(m: nat, n: nat)
    requires m <= n
    ensures Pow2(m) <= Pow2(n)
  {
    if m < n { Pow2Grows(m, n - 1); }
  }

  lemma Pow2Small()
    ensures Pow2(0) == 1 && Pow2(1) == 2 && Pow2(2) == 4 && Pow2(3) == 8 && Pow2(4) == 16 && Pow2(5) == 32
  {
    assert Pow2(1) == 2 * Pow2(0);
    assert Pow2(2) == 2 * Pow2(1);
    assert Pow2(3) == 2 * Pow2(2);
    assert Pow2(4) == 2 * Pow2(3);
  }

  // The backoff is the capped exponential, the cap on the shift included.
  lemma BackoffIsCappedExponential(failures: int)
    requires failures >= CRASH_LOOP_THRESHOLD
    ensures var d := SECOND * Pow2(failures - CRASH_LOOP_THRESHOLD);
            CrashBackoff(failures) == if d < 30 * SECOND then d else 30 * SECOND
  {
    Pow2Small();
    if failures - CRASH_LOOP_THRESHOLD > 5 { Pow2Grows(5, failures - CRASH_LOOP_THRESHOLD); }
  }

  lemma BackoffMonotone(f: int, g: int)
    requires f <= g
    ensures RESTART_DELAY <= CrashBackoff(f) <= CrashBackoff(g) <= MAX_RESTART_BACKOFF
  {
    Pow2Small();
    if f >= CRASH_LOOP_THRESHOLD {
      BackoffIsCappedExponential(f);
      BackoffIsCappedExponential(g);
      Pow2Grows(f - CRASH_LOOP_THRESHOLD, g - CRASH_LOOP_THRESHOLD);
    } else if g >= CRASH_LOOP_THRESHOLD {
      BackoffIsCappedExponential(g);
    }
  }

  // ---- the history that one supervise call observes ----

  // What becomes of an attempt to run the instance: its service is not
  // registered any more, its process cannot be started, or it runs.
  datatype Attempt = Gone | Failed | Ran

  // One iteration of the loop: the stop flag before the run and after it, the
  // attempt, how long it took, and the service spec as it is found after it.
  datatype Round = Round(stoppedBefore: bool, attempt: Attempt, ranFor: nat, stoppedAfter: bool,
                         registered: bool, autoRestart: bool, maxRestarts: int)

  datatype End = StoppedBefore | StoppedAfter | Unregistered | NoAutoRestart | Exhausted | Ongoing

  predicate Short(r: Round) {
    r.ranFor < MIN_STABLE_UPTIME
  }

  // Why supervise returns in a round that finds the given restart count.
  function EndOf(r: Round, restarts: int): End {
    if r.stoppedBefore then StoppedBefore
    else if r.stoppedAfter then StoppedAfter
    else if !r.registered then Unregistered
    else if !r.autoRestart then NoAutoRestart
    else if r.maxRestarts > 0 && restarts >= r.maxRestarts then Exhausted
    else Ongoing
  }

  // The number of rounds, from the i-th on, that end in a scheduled restart.
  function Scheduled(rounds: seq<Round>, i: nat, restarts: int): nat
    requires i <= |rounds|
    decreases |rounds| - i
  {
    if i < |rounds| && EndOf(rounds[i], restarts + i) == Ongoing then 1 + Scheduled(rounds, i + 1, restarts) else 0
  }

  // The length of the maximal suffix of short runs among the first i rounds.
  function ShortSuffix(rounds: seq<Round>, i: nat): nat
    requires i <= |rounds|
  {
    if i > 0 && Short(rounds[i - 1]) then 1 + ShortSuffix(rounds, i - 1) else 0
  }

  // How many of the first n rounds ran a process.
  function Launches(rounds: seq<Round>, n: nat): nat
    requires n <= |rounds|
  {
    if n == 0 then 0 else Launches(rounds, n - 1) + if rounds[n - 1].attempt.Ran? then 1 else 0
  }

  function DelayAfter(failures: int): int {
    if failures >= CRASH_LOOP_THRESHOLD then CrashBackoff(failures) else RESTART_DELAY
  }

  class Runner {
    var restarts: int      // the entry's restart counter in the store
    var status: Status     // the entry's status in the store
    var launches: nat

    // One attempt to run the instance, with what it writes.
    method RunOnce(attempt: Attempt)
      modifies this
      ensures restarts == old(restarts)
      ensures status == match attempt
                        case Gone => old(status)
                        case Failed => Errored
                        case Ran => Running
      ensures launches == old(launches) + if attempt.Ran? then 1 else 0
    {
      match attempt {
        case Gone =>
        case Failed =>
          status := Errored;
        case Ran =>
          launches := launches + 1;
          status := Running;
      }
    }

    // Runs the loop over a history; delays[i] is the pause enforced after round
    // i and errored[i] whether the entry then shows as errored.
    method Supervise(rounds: seq<Round>) returns (delays: seq<int>, errored: seq<bool>, end: End)
      modifies this
      ensures |delays| == |errored| == Scheduled(rounds, 0, old(restarts))
      ensures |delays| <= |rounds| && (|delays| < |rounds| ==> end != Ongoing)
      ensures end == Ongoing ==> |delays| == |rounds|
      ensures forall i :: 0 <= i < |delays| ==>
                delays[i] == DelayAfter(ShortSuffix(rounds, i + 1)) &&
                (errored[i] <==> ShortSuffix(rounds, i + 1) >= CRASH_LOOP_THRESHOLD)
      ensures restarts == old(restarts) + |delays|
      ensures end == if |delays| == |rounds| then Ongoing else EndOf(rounds[|delays|], old(restarts) + |delays|)
      ensures launches == old(launches) + Launches(rounds, if end == Ongoing || end == StoppedBefore then |delays| else |delays| + 1)
      // A restart is scheduled only in a round that no stop falls into, of a
      // registered, restarting service below its limit; the first round that is
      // not one of these ends the loop, for the first reason in this order.
      ensures forall i :: 0 <= i < |delays| ==>
                && !rounds[i].stoppedBefore && !rounds[i].stoppedAfter && rounds[i].registered && rounds[i].autoRestart
                && (rounds[i].maxRestarts > 0 ==> old(restarts) + i < rounds[i].maxRestarts)
      ensures |delays| < |rounds| ==>
                var r := rounds[|delays|];
                && (r.stoppedBefore || r.stoppedAfter || !r.registered || !r.autoRestart || 0 < r.maxRestarts <= old(restarts) + |delays|)
                && end == (if r.stoppedBefore then StoppedBefore
                           else if r.stoppedAfter then StoppedAfter
                           else if !r.registered then Unregistered
                           else if !r.autoRestart then NoAutoRestart
                           else Exhausted)
      // The status that is left: a stop keeps what the last attempt wrote.
      ensures var before := if |delays| == 0 then old(status) else if errored[|delays| - 1] then Errored else Starting;
              status == match end
                        case Ongoing => before
                        case StoppedBefore => before
                        case NoAutoRestart => Stopped
                        case Exhausted => Errored
                        case _ => if |delays| == |rounds| then before
                                  else match rounds[|delays|].attempt
                                       case Ran => Running
                                       case Failed => Errored
                                       case Gone => before
    {
      hide CrashBackoff, EndOf, Scheduled, ShortSuffix, Launches;
      Begins(rounds);
      var failures := 0;
      delays, errored := [], [];
      for i := 0 to |rounds|
        invariant failures == ShortSuffix(rounds, i)
        invariant |delays| == |errored| == i && restarts == old(restarts) + i && launches == old(launches) + Launches(rounds, i)
        invariant Scheduled(rounds, 0, old(restarts)) == i + Scheduled(rounds, i, old(restarts))
        invariant forall j :: 0 <= j < i ==>
                    delays[j] == DelayAfter(ShortSuffix(rounds, j + 1)) &&
                    (errored[j] <==> ShortSuffix(rounds, j + 1) >= CRASH_LOOP_THRESHOLD)
        invariant status == if i == 0 then old(status) else if errored[i - 1] then Errored else Starting
        invariant forall j :: 0 <= j < i ==>
                    && !rounds[j].stoppedBefore && !rounds[j].stoppedAfter && rounds[j].registered && rounds[j].autoRestart
                    && (rounds[j].maxRestarts > 0 ==> old(restarts) + j < rounds[j].maxRestarts)
      {
        var r := rounds[i];
        Unfolds(rounds, i, old(restarts));
        if r.stoppedBefore {
          return delays, errored, StoppedBefore;
        }
        RunOnce(r.attempt);
        if r.stoppedAfter {
          return delays, errored, StoppedAfter;
        }
        if !r.registered {
          return delays, errored, Unregistered;
        }
        if !r.autoRestart {
          status := Stopped;
          return delays, errored, NoAutoRestart;
        }
        if r.maxRestarts > 0 && restarts >= r.maxRestarts {
          status := Errored;
          return delays, errored, Exhausted;
        }
        failures := if r.ranFor < MIN_STABLE_UPTIME then failures + 1 else 0;
        restarts := restarts + 1;
        var delay := RESTART_DELAY;
        if failures >= CRASH_LOOP_THRESHOLD {
          status := Errored;
          delay := CrashBackoff(failures);
        } else {
          status := Starting;
        }
        delays := delays + [delay];
        errored := errored + [failures >= CRASH_LOOP_THRESHOLD];
      }
      Finishes(rounds, old(restarts));
      end := Ongoing;
    }
  }

  // ---- one round at a time ----

  lemma Begins(rounds: seq<Round>)
    ensures ShortSuffix(rounds, 0) == 0 && Launches(rounds, 0) == 0
  {
  }

  lemma Unfolds(rounds: seq<Round>, i: nat, restarts: int)
    requires i < |rounds|
    ensures var r := rounds[i];
            && EndOf(r, restarts + i) == (if r.stoppedBefore then StoppedBefore
                                          else if r.stoppedAfter then StoppedAfter
                                          else if !r.registered then Unregistered
                                          else if !r.autoRestart then NoAutoRestart
                                          else if 0 < r.maxRestarts <= restarts + i then Exhausted
                                          else Ongoing)
            && Scheduled(rounds, i, restarts) == (if EndOf(r, restarts + i) == Ongoing then 1 + Scheduled(rounds, i + 1, restarts) else 0)
            && ShortSuffix(rounds, i + 1) == (if r.ranFor < MIN_STABLE_UPTIME then 1 + ShortSuffix(rounds, i) else 0)
            && Launches(rounds, i + 1) == Launches(rounds, i) + (if r.attempt.Ran? then 1 else 0)
  {
  }

  lemma Finishes(rounds: seq<Round>, restarts: int)
    ensures Scheduled(rounds, |rounds|, restarts) == 0
  {
  }

  // ---- what follows for every history ----

  // The rounds among the first n that ran a process.
  function RanRounds(rounds: seq<Round>, n: nat): set<nat>
    requires n <= |rounds|
  {
    set j: nat | j < n && rounds[j].attempt == Ran
  }

  lemma {:induction false} LaunchesCounted(rounds: seq<Round>, n: nat)
    requires n <= |rounds|
    ensures Launches(rounds, n) == |RanRounds(rounds, n)|
  {
    if n > 0 {
      LaunchesCounted(rounds, n - 1);
      RanOneMore(rounds, n - 1);
    }
  }

  lemma RanOneMore(rounds: seq<Round>, n: nat)
    requires n < |rounds|
    ensures RanRounds(rounds, n + 1) == RanRounds(rounds, n) + if rounds[n].attempt == Ran then {n} else {}
  {
  }

  // Every run ends by itself, and the service stays registered and restarting.
  ghost predicate Undisturbed(rounds: seq<Round>) {
    forall j :: 0 <= j < |rounds| ==>
      !rounds[j].stoppedBefore && !rounds[j].stoppedAfter && rounds[j].registered && rounds[j].autoRestart
  }

  // A service limited to m restarts schedules at most m, so an instance is
  // launched at most m + 1 times; it schedules exactly m when every run ends by
  // itself and the service keeps its settings.
  lemma {:induction false} LaunchLimit(rounds: seq<Round>, i: nat, m: int)
    requires i <= |rounds| && 0 < m && forall j :: 0 <= j < |rounds| ==> rounds[j].maxRestarts == m
    ensures Scheduled(rounds, i, 0) <= if i <= m then m - i else 0
    ensures Undisturbed(rounds) && i <= m < |rounds| ==> Scheduled(rounds, i, 0) == m - i
    decreases |rounds| - i
  {
    if i < |rounds| && EndOf(rounds[i], i) == Ongoing { LaunchLimit(rounds, i + 1, m); }
  }

  lemma {:induction false} SuffixIsShort(rounds: seq<Round>, i: nat)
    requires i <= |rounds|
    ensures ShortSuffix(rounds, i) <= i
    ensures forall j :: i - ShortSuffix(rounds, i) <= j < i ==> rounds[j].ranFor < 3 * SECOND
    ensures ShortSuffix(rounds, i) < i ==> rounds[i - ShortSuffix(rounds, i) - 1].ranFor >= 3 * SECOND
  {
    if i > 0 && Short(rounds[i - 1]) { SuffixIsShort(rounds, i - 1); }
  }

  // A scheduled restart shows as errored exactly when the last four runs were
  // all short.
  lemma ErroredExactly(rounds: seq<Round>, i: nat)
    requires i < |rounds|
    ensures ShortSuffix(rounds, i + 1) >= CRASH_LOOP_THRESHOLD <==>
              i >= 3 && rounds[i].ranFor < 3 * SECOND && rounds[i - 1].ranFor < 3 * SECOND &&
              rounds[i - 2].ranFor < 3 * SECOND && rounds[i - 3].ranFor < 3 * SECOND
  {
    SuffixIsShort(rounds, i + 1);
  }

  // The pauses after the first m runs of a crash loop.
  function CrashLoopDelay(m: nat): int {
    if m == 0 then 0 else CrashLoopDelay(m - 1) + DelayAfter(m)
  }

  // Eight short runs in a row are held up by 34 seconds in all, and every
  // further one by 30 more.
  lemma {:induction false} CrashLoopTotal(m: nat)
    requires m >= 8
    ensures CrashLoopDelay(m) == (34 + 30 * (m - 8)) * SECOND
  {
    if m == 8 {
      Pow2Small();
      assert CrashLoopDelay(4) == 4 * SECOND by {
        assert CrashLoopDelay(2) == 2 * SECOND by { assert CrashLoopDelay(1) == SECOND; }
        assert CrashLoopDelay(3) == 3 * SECOND;
      }
      assert CrashLoopDelay(5) == 6 * SECOND;
      assert CrashLoopDelay(6) == 10 * SECOND;
      assert CrashLoopDelay(7) == 18 * SECOND;
    } else {
      CrashLoopTotal(m - 1);
    }
  }

  function Sum(v: seq<int>): int {
    if v == [] then 0 else Sum(v[..|v| - 1]) + v[|v| - 1]
  }

  // The pauses that Supervise enforces.
  ghost predicate Paused(rounds: seq<Round>, delays: seq<int>) {
    |delays| <= |rounds| &&
    forall i :: 0 <= i < |delays| ==> delays[i] == DelayAfter(ShortSuffix(rounds, i + 1))
  }

  // In any history, the pauses after m short runs that follow a stable run (or
  // the start) add up to that total: a crash loop cannot launch faster.
  lemma {:induction false} StreakDelay(rounds: seq<Round>, delays: seq<int>, from: nat, m: nat)
    requires Paused(rounds, delays) && from + m <= |delays|
    requires from == 0 || !Short(rounds[from - 1])
    requires forall j :: from <= j < from + m ==> Short(rounds[j])
    ensures Sum(delays[from..from + m]) == CrashLoopDelay(m) && ShortSuffix(rounds, from + m) == m
    decreases m
  {
    hide DelayAfter;
    if m > 0 {
      StreakDelay(rounds, delays, from, m - 1);
      var v := delays[from..from + m];
      assert v[..|v| - 1] == delays[from..from + m - 1];
    }
  }

  // ---- launches in a window of time ----

  // times[i] is when round i begins: not before the previous round has run and
  // its pause is over.
  ghost predicate Timed(times: seq<int>, rounds: seq<Round>, delays: seq<int>) {
    |delays| <= |rounds| && |times| == |delays| + 1 &&
    forall i :: 0 <= i < |delays| ==> times[i + 1] >= times[i] + rounds[i].ranFor + delays[i]
  }

  lemma DelayMonotone(f: int, g: int)
    requires f <= g
    ensures RESTART_DELAY <= DelayAfter(f) <= DelayAfter(g)
  {
    BackoffMonotone(f, g);
  }

  // The k + 1 launches around k short runs in a row span at least the pauses of
  // a crash loop of k runs, wherever in a streak they begin.
  lemma {:induction false} StreakSpan(times: seq<int>, rounds: seq<Round>, delays: seq<int>, from: nat, k: nat)
    requires Paused(rounds, delays) && Timed(times, rounds, delays) && from + k <= |delays|
    requires forall j :: from <= j < from + k ==> Short(rounds[j])
    ensures times[from + k] - times[from] >= CrashLoopDelay(k) && ShortSuffix(rounds, from + k) >= k
    decreases k
  {
    if k > 0 {
      StreakSpan(times, rounds, delays, from, k - 1);
      DelayMonotone(k, ShortSuffix(rounds, from + k));
    }
  }

  // A window of length w that sees nothing but short runs, k of them and k at
  // least 8, is at least 34 + 30(k - 8) seconds long.
  lemma CrashLoopWindow(times: seq<int>, rounds: seq<Round>, delays: seq<int>, from: nat, k: nat, w: int)
    requires Paused(rounds, delays) && Timed(times, rounds, delays) && from + k <= |delays|
    requires forall j :: from <= j < from + k ==> Short(rounds[j])
    requires times[from + k] - times[from] <= w && k >= 8
    ensures (k - 8) * 30 * SECOND <= w - 34 * SECOND
  {
    StreakSpan(times, rounds, delays, from, k);
    CrashLoopTotal(k);
  }

  // How far ahead of its long-term rate a streak of short runs may get, in
  // units of a fifth of a second.
  function Ahead(failures: nat): nat {
    if failures < CRASH_LOOP_THRESHOLD then 3 * failures else 12
  }

  lemma {:induction false} PaceKept(times: seq<int>, rounds: seq<Round>, delays: seq<int>, from: nat, k: nat)
    requires Paused(rounds, delays) && Timed(times, rounds, delays) && from + k <= |delays|
    ensures 5 * (times[from + k] - times[from]) >=
              (8 * k - Ahead(ShortSuffix(rounds, from + k)) + Ahead(ShortSuffix(rounds, from))) * SECOND
    decreases k
  {
    if k > 0 {
      PaceKept(times, rounds, delays, from, k - 1);
      var f, g := ShortSuffix(rounds, from + k - 1), ShortSuffix(rounds, from + k);
      assert 5 * (rounds[from + k - 1].ranFor + delays[from + k - 1]) >= (8 - Ahead(g) + Ahead(f)) * SECOND by {
        Pow2Small();
        DelayMonotone(0, g);
        if g > CRASH_LOOP_THRESHOLD {
          DelayMonotone(CRASH_LOOP_THRESHOLD + 1, g);
          BackoffIsCappedExponential(CRASH_LOOP_THRESHOLD + 1);
        }
      }
    }
  }

  // In any history at all, crash loops, stable runs and mixtures of both, a
  // window of length w sees at most 1 + (5w + 12)/8 launches, w in seconds:
  // in the long run five launches in eight seconds.
  lemma LaunchesInWindow(times: seq<int>, rounds: seq<Round>, delays: seq<int>, from: nat, k: nat, w: int)
    requires Paused(rounds, delays) && Timed(times, rounds, delays) && from + k <= |delays|
    requires times[from + k] - times[from] <= w
    ensures 8 * k * SECOND <= 5 * w + 12 * SECOND
  {
    PaceKept(times, rounds, delays, from, k);
  }

  // No smaller bound holds: four immediate crashes, then one run of just three
  // seconds, over and over.
  lemma WindowBoundAttained(cycles: nat) returns (times: seq<int>, rounds: seq<Round>, delays: seq<int>)
    ensures Paused(rounds, delays) && Timed(times, rounds, delays) && |delays| == 5 * cycles + 4
    ensures 5 * (times[|delays|] - times[0]) == (8 * |delays| - 12) * SECOND
  {
    var n := 5 * cycles + 4;
    rounds := seq(n, i => Round(false, Ran, if i % 5 == 4 then MIN_STABLE_UPTIME else 0, false, true, true, 0));
    delays := seq(n, i => RESTART_DELAY);
    times := seq(n + 1, i => (8 * (i / 5) + i % 5) * SECOND);
    forall i | 0 <= i < n ensures delays[i] == DelayAfter(ShortSuffix(rounds, i + 1)) {
      CycleSuffix(rounds, i + 1);
      Pow2Small();
    }
    forall i: nat | i < n ensures times[i + 1] >= times[i] + rounds[i].ranFor + delays[i] {
      assert i % 5 == 4 ==> (i + 1) / 5 == i / 5 + 1 && (i + 1) % 5 == 0;
      assert i % 5 < 4 ==> (i + 1) / 5 == i / 5 && (i + 1) % 5 == i % 5 + 1;
    }
    assert n / 5 == cycles && n % 5 == 4;
  }

  lemma {:induction false} CycleSuffix(rounds: seq<Round>, i: nat)
    requires i <= |rounds| && forall j :: 0 <= j < |rounds| ==> (Short(rounds[j]) <==> j % 5 != 4)
    ensures ShortSuffix(rounds, i) == i % 5
  {
    if i > 0 { CycleSuffix(rounds, i - 1); }
  }

  // ---- supervise against Stop ----

  // Where supervise stands: before its first check of the flag, past it and
  // bound to launch, with the process running, before the second check, in the
  // pause before the next round, or returned.
  datatype Pc = CheckBefore | Committed | InRun | CheckAfter | Pausing | Returned

  // `signalled`: the running process got the termination signal. `late` counts
  // the launches after the flag was set.
  datatype Race = Race(pc: Pc, stopped: bool, signalled: bool, late: nat)

  // A step of supervise (`restart` is its decision after the run), or Stop.
  datatype Move = Advance(restart: bool) | StopNow

  function Act(s: Race, mv: Move): Race {
    match mv
    case StopNow => s.(stopped := true, signalled := s.signalled || s.pc.InRun?)
    case Advance(restart) =>
      match s.pc
      case CheckBefore => s.(pc := if s.stopped then Returned else Committed)
      case Committed => s.(pc := InRun, signalled := false, late := s.late + if s.stopped then 1 else 0)
      case InRun => s.(pc := CheckAfter)
      case CheckAfter => s.(pc := if s.stopped || !restart then Returned else Pausing)
      case Pausing => s.(pc := CheckBefore)
      case Returned => s
  }

  function ActAll(s: Race, mvs: seq<Move>): Race {
    if mvs == [] then s else Act(ActAll(s, mvs[..|mvs| - 1]), mvs[|mvs| - 1])
  }

  // The steps supervise may still take once the flag is set.
  function StepsLeft(pc: Pc): nat {
    match pc
    case Pausing => 2
    case CheckBefore => 1
    case Committed => 3
    case InRun => 2
    case CheckAfter => 1
    case Returned => 0
  }

  function Advances(mvs: seq<Move>): nat {
    if mvs == [] then 0 else Advances(mvs[..|mvs| - 1]) + if mvs[|mvs| - 1].Advance? then 1 else 0
  }

  // Once the flag is set, at most one launch follows, namely the one supervise
  // was bound to, and supervise returns within three of its own steps.
  lemma {:induction false} StopEndsSupervision(s: Race, mvs: seq<Move>)
    requires s.stopped && s.late == 0
    ensures var n := ActAll(s, mvs);
            && n.stopped && n.late <= 1
            && (n.late == 1 <==> s.pc.Committed? && Advances(mvs) > 0)
            && StepsLeft(n.pc) == (if Advances(mvs) >= StepsLeft(s.pc) then 0 else StepsLeft(s.pc) - Advances(mvs))
            && (n.pc.Committed? ==> s.pc.Committed? && Advances(mvs) == 0)
  {
    if mvs != [] {
      StopEndsSupervision(s, mvs[..|mvs| - 1]);
    }
  }

  lemma ReturnedExactly(s: Race, mvs: seq<Move>)
    requires s.stopped && s.late == 0
    ensures ActAll(s, mvs).pc.Returned? <==>
              Advances(mvs) >= match s.pc
                               case Committed => 3   // launch, run to its end, check
                               case InRun => 2
                               case Pausing => 2
                               case CheckBefore => 1
                               case CheckAfter => 1
                               case Returned => 0
  {
    StopEndsSupervision(s, mvs);
  }

  // Stop leaves a process running that never got its signal exactly when it
  // came between the first check and the launch.
  lemma StopMissesExactly(s: Race)
    requires !s.stopped && (s.signalled ==> s.pc.InRun?)
    ensures var n := Act(s, StopNow);
            (exists mvs: seq<Move> :: (forall i :: 0 <= i < |mvs| ==> mvs[i].Advance?) &&
                                      ActAll(n, mvs).pc.InRun? && !ActAll(n, mvs).signalled) <==> s.pc.Committed?
  {
    var n := Act(s, StopNow);
    if s.pc.Committed? {
      var mvs := [Advance(true)];
      assert mvs[..0] == [] && ActAll(n, []) == n;
      assert ActAll(n, mvs).pc.InRun? && !ActAll(n, mvs).signalled;
    } else {
      forall mvs: seq<Move> | forall i :: 0 <= i < |mvs| ==> mvs[i].Advance?
        ensures !(ActAll(n, mvs).pc.InRun? && !ActAll(n, mvs).signalled)
      {
        SignalKept(n, mvs);
      }
    }
  }

  lemma {:induction false} SignalKept(n: Race, mvs: seq<Move>)
    requires n.stopped && !n.pc.Committed? && (n.pc.InRun? ==> n.signalled)
    requires forall i :: 0 <= i < |mvs| ==> mvs[i].Advance?
    ensures var z := ActAll(n, mvs); z.stopped && !z.pc.Committed? && (z.pc.InRun? ==> z.signalled)
  {
    if mvs != [] { SignalKept(n, mvs[..|mvs| - 1]); }
  }
}
