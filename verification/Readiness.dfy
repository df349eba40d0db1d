// The readiness gate of pkg/gpm/graceful.go: two flags that the application and
// the serving goroutine write without a common lock.
module Readiness {

  // Where the serving goroutine stands: before it looks at `readyManaged`, past
  // that with the value it read, or serving.
  datatype Pc = NotServing | Looked(managed: bool) | Serving

  datatype Gate = Gate(ready: bool, managed: bool, pc: Pc)

  // Ready() and SetReady(v) of the application; the two accesses of Serve; and
  // the arrival of the termination signal.
  datatype Move = Choose(v: bool) | Look | Store | Signal

  function Act(s: Gate, mv: Move): Gate {
    match mv
    case Choose(v) => s.(managed := true, ready := v)
    case Look => if s.pc.NotServing? then s.(pc := Looked(s.managed)) else s
    case Store =>
      if s.pc.Looked? then s.(ready := if s.pc.managed then s.ready else true, pc := Serving) else s
    case Signal => s.(ready := false)
  }

  function ActAll(s: Gate, mvs: seq<Move>): Gate {
    if mvs == [] then s else Act(ActAll(s, mvs[..|mvs| - 1]), mvs[|mvs| - 1])
  }

  predicate ServeOnly(mvs: seq<Move>) {
    forall i :: 0 <= i < |mvs| ==> mvs[i].Look? || mvs[i].Store?
  }

  // The application's choice is meant to stand whatever Serve does. It stands
  // exactly when it is "ready", or was not made between the two accesses of
  // Serve, or Serve has not gone on since.
  lemma ChoiceStandsExactly(s: Gate, v: bool, mvs: seq<Move>)
    requires ServeOnly(mvs)
    ensures ActAll(Act(s, Choose(v)), mvs).ready == v <==> v || s.pc != Looked(false) || Store !in mvs
  {
    AfterChoice(Act(s, Choose(v)), mvs);
  }

  lemma {:induction false} AfterChoice(s: Gate, mvs: seq<Move>)
    requires s.managed && ServeOnly(mvs)
    ensures var n := ActAll(s, mvs);
            && n.managed
            && n.ready == (s.ready || (s.pc == Looked(false) && Store in mvs))
            && (n.pc == Looked(false) <==> s.pc == Looked(false) && Store !in mvs)
  {
    if mvs != [] {
      var before, last := mvs[..|mvs| - 1], mvs[|mvs| - 1];
      assert mvs == before + [last];
      AfterChoice(s, before);
    }
  }

  // Without a choice of the application, the gate opens exactly when Serve has
  // made both its accesses.
  lemma {:induction false} OpensWhenServing(mvs: seq<Move>)
    requires ServeOnly(mvs)
    ensures var n := ActAll(Gate(false, false, NotServing), mvs);
            (n.ready <==> n.pc.Serving?) && !n.managed && n.pc != Looked(true)
  {
    if mvs != [] { OpensWhenServing(mvs[..|mvs| - 1]); }
  }

  // Serve looks at the flag `managed` and later stores `ready`.
  ghost predicate LookThenStore(mvs: seq<Move>) {
    exists i, j :: 0 <= i < j < |mvs| && mvs[i] == Look && mvs[j] == Store
  }

  // The signal is meant to shut the gate for good. Without a choice of the
  // application after it, the gate opens again exactly when Serve reads
  // "unmanaged", before the signal or after it, and stores after the signal.
  lemma ReopensExactly(s: Gate, mvs: seq<Move>)
    requires ServeOnly(mvs)
    ensures ActAll(Act(s, Signal), mvs).ready <==>
              (s.pc == Looked(false) && Store in mvs) || (s.pc.NotServing? && !s.managed && LookThenStore(mvs))
  {
    AfterSignal(Act(s, Signal), mvs);
  }

  lemma {:induction false} AfterSignal(s: Gate, mvs: seq<Move>)
    requires !s.ready && ServeOnly(mvs)
    ensures var n := ActAll(s, mvs);
            && n.managed == s.managed
            && (n.pc.NotServing? <==> s.pc.NotServing? && Look !in mvs)
            && (n.pc == Looked(false) <==> (s.pc == Looked(false) && Store !in mvs) ||
                                           (s.pc.NotServing? && !s.managed && Look in mvs && !LookThenStore(mvs)))
            && (n.ready <==> (s.pc == Looked(false) && Store in mvs) ||
                             (s.pc.NotServing? && !s.managed && LookThenStore(mvs)))
  {
    if mvs != [] {
      var before, last := mvs[..|mvs| - 1], mvs[|mvs| - 1];
      assert mvs == before + [last];
      AfterSignal(s, before);
      LookThenStoreSnoc(before, last);
    }
  }

  lemma LookThenStoreSnoc(mvs: seq<Move>, last: Move)
    ensures LookThenStore(mvs + [last]) <==> LookThenStore(mvs) || (Look in mvs && last == Store)
  {
    var more := mvs + [last];
    if LookThenStore(mvs) {
      var i, j :| 0 <= i < j < |mvs| && mvs[i] == Look && mvs[j] == Store;
      assert more[i] == Look && more[j] == Store;
    }
    if Look in mvs && last == Store {
      var i :| 0 <= i < |mvs| && mvs[i] == Look;
      assert more[i] == Look && more[|mvs|] == Store;
    }
  }

  // Once Serve has made its accesses, the gate stays shut after the signal
  // until the application opens it.
  lemma {:induction false} ShutAfterSignal(s: Gate, mvs: seq<Move>)
    requires s.pc.Serving? && forall i :: 0 <= i < |mvs| ==> mvs[i] != Choose(true)
    ensures var n := ActAll(Act(s, Signal), mvs); !n.ready && n.pc.Serving?
  {
    if mvs != [] { ShutAfterSignal(s, mvs[..|mvs| - 1]); }
  }
}
