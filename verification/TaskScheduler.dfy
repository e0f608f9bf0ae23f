/**
  Running a plan by repeatedly taking the next step whose dependencies are done.
 */
module TaskScheduler {
  import opened Basics

  datatype Status = Pending | Running | Done | Blocked | Skipped | Failed

  datatype Step = Step(id: int, status: Status, dependsOn: seq<int>)

  /** Step `j` is one that step `k` names as a dependency. */
  predicate Needs(steps: seq<Step>, k: nat, j: nat)
    requires k < |steps| && j < |steps|
  {
    steps[j].id in steps[k].dependsOn
  }

  /** Pending, and every step it names is done; ids that no step has do not hold it back. */
  predicate Ready(steps: seq<Step>, k: nat)
    requires k < |steps|
  {
    steps[k].status == Pending && forall j :: 0 <= j < |steps| && Needs(steps, k, j) ==> steps[j].status == Done
  }

  function FirstReady(steps: seq<Step>, from: nat): (r: Option<nat>)
    requires from <= |steps|
    ensures r.Some? ==> from <= r.value < |steps| && Ready(steps, r.value)
    ensures r.Some? ==> forall k :: from <= k < r.value ==> !Ready(steps, k)
    ensures r.None? ==> forall k :: from <= k < |steps| ==> !Ready(steps, k)
    decreases |steps| - from
  {
    if from == |steps| then None
    else if Ready(steps, from) then Some(from)
    else FirstReady(steps, from + 1)
  }

  /** The first step in plan order that is ready. */
  function NextPending(steps: seq<Step>): Option<nat> {
    FirstReady(steps, 0)
  }

  function PendingSet(steps: seq<Step>): set<nat> {
    set k | 0 <= k < |steps| && steps[k].status == Pending
  }

  function MarkDone(steps: seq<Step>, k: nat): seq<Step>
    requires k < |steps|
  {
    steps[k := steps[k].(status := Done)]
  }

  lemma MarkDoneShrinks(steps: seq<Step>, k: nat)
    requires k < |steps| && steps[k].status == Pending
    ensures PendingSet(MarkDone(steps, k)) == PendingSet(steps) - {k}
    ensures |PendingSet(MarkDone(steps, k))| < |PendingSet(steps)|
  {
    assert k in PendingSet(steps);
  }

  /** The order in which steps are run, until nothing is ready. */
  function Drain(steps: seq<Step>): seq<nat>
    decreases |PendingSet(steps)|
  {
    match NextPending(steps)
    case None => []
    case Some(k) =>
      MarkDoneShrinks(steps, k);
      [k] + Drain(MarkDone(steps, k))
  }

  /** The plan once nothing is ready any more. */
  function Drained(steps: seq<Step>): (r: seq<Step>)
    ensures |r| == |steps|
    decreases |PendingSet(steps)|
  {
    match NextPending(steps)
    case None => steps
    case Some(k) =>
      MarkDoneShrinks(steps, k);
      Drained(MarkDone(steps, k))
  }

  // ---- dependencies come first ---------------------------------------------------------------

  predicate RanBefore(order: seq<nat>, t: nat, j: nat)
    requires t <= |order|
  {
    exists u :: 0 <= u < t && order[u] == j
  }

  /** Every step runs at most once, and after all the steps it names. */
  lemma {:induction false} DependenciesFirst(steps: seq<Step>, t: nat)
    requires t < |Drain(steps)|
    ensures Drain(steps)[t] < |steps| && steps[Drain(steps)[t]].status == Pending
    ensures !RanBefore(Drain(steps), t, Drain(steps)[t])
    ensures forall j :: 0 <= j < |steps| && steps[j].id in steps[Drain(steps)[t]].dependsOn
              ==> steps[j].status == Done || RanBefore(Drain(steps), t, j)
    decreases |PendingSet(steps)|
  {
    var order := Drain(steps);
    var k := NextPending(steps).value;
    MarkDoneShrinks(steps, k);
    if t > 0 {
      var later := Drain(MarkDone(steps, k));
      DependenciesFirst(MarkDone(steps, k), t - 1);
      assert order[t] == later[t - 1] && order[0] == k;
      forall j | 0 <= j < |steps| && steps[j].id in steps[order[t]].dependsOn
        ensures steps[j].status == Done || RanBefore(order, t, j)
      {
        assert Needs(MarkDone(steps, k), order[t], j);
        if RanBefore(later, t - 1, j) {
          var u :| 0 <= u < t - 1 && later[u] == j;
          assert order[u + 1] == j;
        }
      }
      forall u | 0 <= u < t
        ensures order[u] != order[t]
      {
        if u > 0 {
          assert order[u] == later[u - 1];
        }
      }
    }
  }

  /** A run ends with nothing ready; what ran is no longer pending and nothing else changed. */
  lemma {:induction false} DrainStops(steps: seq<Step>)
    ensures NextPending(Drained(steps)).None?
    ensures forall k :: 0 <= k < |steps| ==>
              Drained(steps)[k] == if k in Drain(steps) then steps[k].(status := Done) else steps[k]
    decreases |PendingSet(steps)|
  {
    if NextPending(steps).Some? {
      var k := NextPending(steps).value;
      MarkDoneShrinks(steps, k);
      DrainStops(MarkDone(steps, k));
    }
  }

  // ---- completeness, exactly -------------------------------------------------------------------

  /** No step is running, blocked, skipped or failed. */
  predicate Settled(steps: seq<Step>) {
    forall k :: 0 <= k < |steps| ==> steps[k].status == Pending || steps[k].status == Done
  }

  /** Pending step `k` names pending step `j`. */
  predicate Waits(steps: seq<Step>, k: nat, j: nat)
    requires k < |steps| && j < |steps|
  {
    steps[k].status == Pending && steps[j].status == Pending && steps[j].id in steps[k].dependsOn
  }

  /** `rank` puts every pending step above the pending steps it names. */
  predicate Ranks(rank: seq<nat>, steps: seq<Step>) {
    && |rank| == |steps|
    && forall k, j :: 0 <= k < |steps| && 0 <= j < |steps| && Waits(steps, k, j) ==> rank[j] < rank[k]
  }

  /** The pending steps do not depend on each other in a circle. */
  ghost predicate Acyclic(steps: seq<Step>) {
    exists rank :: Ranks(rank, steps)
  }

  lemma {:induction false} LowestRank(rank: seq<nat>, todo: set<nat>) returns (low: nat)
    requires todo != {} && forall k :: k in todo ==> k < |rank|
    ensures low in todo && forall k :: k in todo ==> rank[low] <= rank[k]
    decreases todo
  {
    var k :| k in todo;
    low := k;
    if todo != {k} {
      var other := LowestRank(rank, todo - {k});
      low := if rank[other] < rank[k] then other else k;
    }
  }

  /** With no circle among them, some pending step is ready. */
  lemma SomethingReady(steps: seq<Step>, rank: seq<nat>)
    requires Settled(steps) && Ranks(rank, steps) && PendingSet(steps) != {}
    ensures NextPending(steps).Some?
  {
    var low := LowestRank(rank, PendingSet(steps));
    assert Ready(steps, low) by {
      forall j | 0 <= j < |steps| && Needs(steps, low, j)
        ensures steps[j].status == Done
      {
        assert !Waits(steps, low, j);
      }
    }
  }

  function Position(order: seq<nat>, k: nat): nat {
    if order == [] || order[0] == k then 0 else 1 + Position(order[1..], k)
  }

  lemma {:induction false} PositionExactly(order: seq<nat>, k: nat)
    requires k in order
    ensures Position(order, k) < |order| && order[Position(order, k)] == k
    ensures !RanBefore(order, Position(order, k), k)
  {
    if order[0] != k {
      assert k in order[1..];
      PositionExactly(order[1..], k);
      forall u | 0 <= u < Position(order, k)
        ensures order[u] != k
      {
        if u > 0 {
          assert order[u] == order[1..][u - 1];
        }
      }
    }
  }

  lemma {:induction false} PositionEarlier(order: seq<nat>, t: nat, j: nat)
    requires t <= |order| && RanBefore(order, t, j)
    ensures Position(order, j) < t
  {
    var u :| 0 <= u < t && order[u] == j;
    if order[0] != j {
      assert order[1..][u - 1] == j;
      PositionEarlier(order[1..], t - 1, j);
    }
  }

  /**
    Started with only pending and done steps, running the plan leaves nothing pending
    exactly when the pending steps do not depend on each other in a circle.
   */
  lemma CompletesExactlyWhenAcyclic(steps: seq<Step>)
    requires Settled(steps)
    ensures PendingSet(Drained(steps)) == {} <==> Acyclic(steps)
  {
    DrainStops(steps);
    var order, final := Drain(steps), Drained(steps);
    if Acyclic(steps) {
      var rank :| Ranks(rank, steps);
      assert Settled(final) && Ranks(rank, final) by {
        assert forall k, j :: 0 <= k < |steps| && 0 <= j < |steps| && Waits(final, k, j) ==> Waits(steps, k, j);
      }
      if PendingSet(final) != {} {
        SomethingReady(final, rank);
      }
    }
    if PendingSet(final) == {} {
      RankByPosition(steps);
    }
  }

  lemma RankByPosition(steps: seq<Step>)
    requires PendingSet(Drained(steps)) == {}
    ensures Acyclic(steps)
  {
    DrainStops(steps);
    var order := Drain(steps);
    var rank := seq(|steps|, k requires 0 <= k < |steps| => Position(order, k));
    forall k | 0 <= k < |steps| && steps[k].status == Pending
      ensures k in order
    {
      assert k !in PendingSet(Drained(steps));
    }
    forall k, j | 0 <= k < |steps| && 0 <= j < |steps| && Waits(steps, k, j)
      ensures rank[j] < rank[k]
    {
      PositionExactly(order, k);
      DependenciesFirst(steps, Position(order, k));
      PositionEarlier(order, Position(order, k), j);
    }
    assert Ranks(rank, steps);
  }
}
