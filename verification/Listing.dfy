// The status that the process list shows for a service.
module Listing {
  import opened InstanceList

  datatype Shown = Reloading | AllRunning | ComingUp | InError | AtRest

  function CountOf(l: seq<InstanceState>, status: Status): nat {
    if l == [] then 0 else CountOf(l[..|l| - 1], status) + if l[|l| - 1].status == status then 1 else 0
  }

  ghost predicate Has(l: seq<InstanceState>, status: Status) {
    exists st :: st in l && st.status == status
  }

  // The status of a service configured for n instances with entries l.
  method AggregateStatus(l: seq<InstanceState>, n: nat) returns (shown: Shown)
    requires n >= 1
    ensures shown == Reloading <==> Has(l, Draining)
    ensures shown == AllRunning <==> !Has(l, Draining) && CountOf(l, Running) == n
    ensures shown == InError <==> !Has(l, Draining) && !Has(l, Running) && Has(l, Errored)
    ensures shown == AtRest <==> forall st :: st in l ==> st.status == Stopped
  {
    var running, draining := 0, 0;
    for i := 0 to |l|
      invariant running == CountOf(l[..i], Running) && draining == CountOf(l[..i], Draining)
    {
      assert l[..i + 1][..i] == l[..i];
      match l[i].status {
        case Running => running := running + 1;
        case Draining => draining := draining + 1;
        case _ =>
      }
    }
    assert l[..|l|] == l;
    CountPositive(l, Running);
    CountPositive(l, Draining);
    if draining > 0 {
      return Reloading;
    }
    if running == n {
      return AllRunning;
    }
    if running > 0 {
      return ComingUp;
    }
    var hasErrored, hasStarting := false, false;
    for i := 0 to |l|
      invariant hasErrored <==> exists k :: 0 <= k < i && l[k].status == Errored
      invariant hasStarting <==> exists k :: 0 <= k < i && l[k].status == Starting
    {
      match l[i].status {
        case Errored => hasErrored := true;
        case Starting => hasStarting := true;
        case _ =>
      }
    }
    return if hasErrored then InError else if hasStarting then ComingUp else AtRest;
  }

  lemma {:induction false} CountPositive(l: seq<InstanceState>, status: Status)
    ensures CountOf(l, status) > 0 <==> Has(l, status)
  {
    if l != [] {
      var front := l[..|l| - 1];
      CountPositive(front, status);
      assert forall st :: st in l <==> st in front || st == l[|l| - 1];
    }
  }

  // The positions with that status.
  function Where(l: seq<InstanceState>, status: Status): set<nat> {
    set i: nat | i < |l| && l[i].status == status
  }

  lemma {:induction false} CountCounts(l: seq<InstanceState>, status: Status)
    ensures CountOf(l, status) == |Where(l, status)|
  {
    if l != [] {
      var n := |l| - 1;
      CountCounts(l[..n], status);
      WhereSnoc(l[..n], l[n], status);
      assert l == l[..n] + [l[n]];
    }
  }

  lemma WhereSnoc(l: seq<InstanceState>, st: InstanceState, status: Status)
    ensures Where(l + [st], status) == Where(l, status) + if st.status == status then {|l|} else {}
  {
  }
}
