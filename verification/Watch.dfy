// The binary watcher of internal/daemon/daemon.go: a debounce automaton over a
// stream of file fingerprints.
module Watch {

  datatype BinSig = BinSig(size: int, mtime: int, valid: bool)

  const NO_SIG := BinSig(0, 0, false)
  const STABLE_TICKS := 2

  // What a file status reads as: a missing file or a directory has no fingerprint.
  datatype FileStatus = Missing | Directory | File(size: int, mtime: int)

  function StatBinary(f: FileStatus): BinSig {
    match f
    case File(size, mtime) => BinSig(size, mtime, true)
    case _ => NO_SIG
  }

  // Two readings are the same valid fingerprint exactly for files of the same
  // size and modification time.
  lemma SameFingerprintExactly(f: FileStatus, g: FileStatus)
    ensures StatBinary(f).valid && StatBinary(f) == StatBinary(g) <==> f.File? && g.File? && f.size == g.size && f.mtime == g.mtime
  {
  }

  // ---- declarative specification ----

  // The fingerprint the watcher has accepted after the first i ticks: the
  // reading of the last tick that triggered, or the initial one. It triggers a
  // reload then, which the daemon may still refuse.
  function Accepted(initial: BinSig, rs: seq<BinSig>, i: nat): BinSig
    requires i <= |rs|
    decreases i, 0
  {
    if i == 0 then initial
    else if Fires(initial, rs, i - 1) then rs[i - 1]
    else Accepted(initial, rs, i - 1)
  }

  // Tick i triggers a reload: its reading and the one before it are the same
  // valid fingerprint, and not the accepted one.
  predicate Fires(initial: BinSig, rs: seq<BinSig>, i: nat)
    requires i < |rs|
    decreases i, 1
  {
    i > 0 && rs[i] == rs[i - 1] && rs[i].valid && rs[i] != Accepted(initial, rs, i)
  }

  function Triggers(initial: BinSig, rs: seq<BinSig>, i: nat): seq<nat>
    requires i <= |rs|
  {
    if i == 0 then []
    else Triggers(initial, rs, i - 1) + (if Fires(initial, rs, i - 1) then [i - 1] else [])
  }

  // ---- the automaton ----

  function Readings(files: seq<FileStatus>): seq<BinSig> {
    seq(|files|, i requires 0 <= i < |files| => StatBinary(files[i]))
  }

  // The ticks at which the watcher triggers a reload, for the status of the
  // binary at its start and at each tick until it is stopped.
  method WatchBinary(first: FileStatus, files: seq<FileStatus>) returns (fired: seq<nat>)
    ensures fired == Triggers(StatBinary(first), Readings(files), |files|)
  {
    ghost var initial, rs := StatBinary(first), Readings(files);
    var accepted := StatBinary(first);
    var candidate := NO_SIG;
    var stable := 0;
    fired := [];
    for i := 0 to |files|
      invariant accepted == Accepted(initial, rs, i)
      invariant fired == Triggers(initial, rs, i)
      invariant stable == (if candidate.valid then 1 else 0)
      invariant candidate == (if i > 0 && rs[i - 1].valid && rs[i - 1] != accepted then rs[i - 1] else NO_SIG)
    {
      var cur := StatBinary(files[i]);
      if !cur.valid {
        candidate, stable := NO_SIG, 0;
      } else if cur == accepted {
        candidate, stable := NO_SIG, 0;
      } else if cur == candidate {
        stable := stable + 1;
        if stable >= STABLE_TICKS {
          accepted := cur;
          candidate, stable := NO_SIG, 0;
          fired := fired + [i];
        }
      } else {
        candidate, stable := cur, 1;
      }
    }
  }

  // ---- what follows for the triggers ----

  // The specification lists exactly the ticks that trigger, in order.
  lemma {:induction false} TriggersAreFires(initial: BinSig, rs: seq<BinSig>, i: nat)
    requires i <= |rs|
    ensures forall t: nat :: t in Triggers(initial, rs, i) <==> t < i && Fires(initial, rs, t)
    ensures forall a, b :: 0 <= a < b < |Triggers(initial, rs, i)| ==> Triggers(initial, rs, i)[a] < Triggers(initial, rs, i)[b]
  {
    if i > 0 {
      TriggersAreFires(initial, rs, i - 1);
      var before := Triggers(initial, rs, i - 1);
      forall a | 0 <= a < |before| ensures before[a] < i - 1 { assert before[a] in before; }
    }
  }

  // The accepted fingerprint is that of the last trigger.
  lemma {:induction false} AcceptedIsLastTrigger(initial: BinSig, rs: seq<BinSig>, i: nat)
    requires i <= |rs|
    ensures var ts := Triggers(initial, rs, i);
            (forall k :: 0 <= k < |ts| ==> ts[k] < i) &&
            Accepted(initial, rs, i) == if ts == [] then initial else rs[ts[|ts| - 1]]
  {
    hide Fires;
    if i > 0 {
      AcceptedIsLastTrigger(initial, rs, i - 1);
    }
  }

  // Two triggers in a row carry different fingerprints, both valid, and the
  // first carries another one than the initial.
  lemma {:induction false} TriggersChange(initial: BinSig, rs: seq<BinSig>, i: nat, a: nat)
    requires i <= |rs| && a < |Triggers(initial, rs, i)|
    ensures var ts := Triggers(initial, rs, i);
            && ts[a] < |rs| && rs[ts[a]].valid
            && rs[ts[a]] != if a == 0 then initial else if ts[a - 1] < |rs| then rs[ts[a - 1]] else NO_SIG
    ensures a > 0 ==> Triggers(initial, rs, i)[a - 1] < |rs|
  {
    hide Fires, Accepted;
    AcceptedIsLastTrigger(initial, rs, i - 1);
    if a < |Triggers(initial, rs, i - 1)| {
      TriggersChange(initial, rs, i - 1, a);
    } else {
      FiresOnChange(initial, rs, i - 1);
    }
  }

  lemma FiresOnChange(initial: BinSig, rs: seq<BinSig>, i: nat)
    requires i < |rs| && Fires(initial, rs, i)
    ensures rs[i].valid && rs[i] != Accepted(initial, rs, i)
  {
  }

  // Triggers are never on neighbouring ticks, so they number at most half the ticks.
  lemma {:induction false} TriggersAreRare(initial: BinSig, rs: seq<BinSig>, i: nat)
    requires i <= |rs|
    ensures 2 * |Triggers(initial, rs, i)| <= i
    ensures i > 0 && Fires(initial, rs, i - 1) ==> i >= 2 && !Fires(initial, rs, i - 2)
    ensures i > 0 && !Fires(initial, rs, i - 1) ==> 2 * |Triggers(initial, rs, i)| <= i - 1
  {
    if i > 0 {
      TriggersAreRare(initial, rs, i - 1);
      if i >= 2 && Fires(initial, rs, i - 2) {
        assert Accepted(initial, rs, i - 1) == rs[i - 2];
      }
    }
  }

  // A rebuild that settles is picked up: once two ticks in a row read the same
  // valid fingerprint, that is the accepted one.
  lemma SettledIsAccepted(initial: BinSig, rs: seq<BinSig>, i: nat)
    requires 0 < i < |rs| && rs[i] == rs[i - 1] && rs[i].valid
    ensures Accepted(initial, rs, i + 1) == rs[i]
  {
    assert Fires(initial, rs, i) || rs[i] == Accepted(initial, rs, i);
  }

  // A half-written binary is not: a fingerprint that no two neighbouring ticks
  // share is never accepted.
  lemma {:induction false} UnsettledNeverAccepted(initial: BinSig, rs: seq<BinSig>, i: nat, half: BinSig)
    requires i <= |rs| && half != initial
    requires forall j :: 0 < j < |rs| ==> !(rs[j] == rs[j - 1] == half)
    ensures Accepted(initial, rs, i) != half
  {
    if i > 0 { UnsettledNeverAccepted(initial, rs, i - 1, half); }
  }

  // The triggers without the accepted fingerprint: a tick triggers exactly when
  // its reading and the one before it are the same valid fingerprint and not
  // that of the trigger before, or the initial one if there is none.
  lemma TriggersExactly(initial: BinSig, rs: seq<BinSig>, i: nat, t: nat)
    requires i <= |rs|
    ensures t in Triggers(initial, rs, i) <==>
              0 < t < i && rs[t] == rs[t - 1] && rs[t].valid &&
              var before := Triggers(initial, rs, t);
              rs[t] != if before == [] then initial else if before[|before| - 1] < |rs| then rs[before[|before| - 1]] else NO_SIG
  {
    hide Accepted, Triggers;
    TriggersAreFires(initial, rs, i);
    if t < i { AcceptedIsLastTrigger(initial, rs, t); }
  }
}
