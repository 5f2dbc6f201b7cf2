/** createUpgradeApps returns the first error of the shared list, and updateUpgradeApps decides from its text
    alone whether to roll back. Which error is first is up to the scheduler. */
module FirstError {
  import opened Cluster
  import opened Worker
  import opened Executor

  lemma {:induction false} RunSum(p: Plan, s: Exec, a: seq<nat>, b: seq<nat>)
    requires p.Valid() && |s.pcs| == |p.jobs|
    ensures Run(p, s, a + b) == Run(p, Run(p, s, a), b)
    decreases |b|
  {
    if b == [] {
      assert a + b == a;
    } else {
      RunSum(p, s, a, b[..|b| - 1]);
      assert (a + b)[..|a + b| - 1] == a + b[..|b| - 1];
    }
  }

  predicate Prefix(a: seq<Failure>, b: seq<Failure>) { |a| <= |b| && b[..|a|] == a }

  lemma {:induction false} ErrorsGrow(p: Plan, s: Exec, schedule: seq<nat>)
    requires p.Valid() && |s.pcs| == |p.jobs|
    ensures Prefix(s.errors, Run(p, s, schedule).errors)
    ensures forall i :: 0 <= i < |s.pcs| && s.pcs[i].Stopped? ==> Run(p, s, schedule).pcs[i].Stopped?
    ensures forall i :: 0 <= i < |s.pcs| && i !in schedule ==> Run(p, s, schedule).pcs[i] == s.pcs[i]
    decreases |schedule|
  {
    if schedule != [] {
      ErrorsGrow(p, s, schedule[..|schedule| - 1]);
      StepDescends(p, Run(p, s, schedule[..|schedule| - 1]), schedule[|schedule| - 1]);
    }
  }

  /** Worker i gets the next k steps. */
  function Solo(i: nat, k: nat): (schedule: seq<nat>)
    ensures forall j :: j in schedule ==> j == i
  {
    if k == 0 then [] else Solo(i, k - 1) + [i]
  }

  lemma {:induction false} SoloDescends(p: Plan, s: Exec, i: nat, k: nat)
    requires p.Valid() && |s.pcs| == |p.jobs| && i < |s.pcs|
    ensures Run(p, s, Solo(i, k)).pcs[i].Stopped? || Rank(Run(p, s, Solo(i, k)).pcs[i]) + k <= 20
  {
    if k > 0 {
      SoloDescends(p, s, i, k - 1);
      StepDescends(p, Run(p, s, Solo(i, k - 1)), i);
      assert Solo(i, k)[..|Solo(i, k)| - 1] == Solo(i, k - 1);
    }
  }

  /** The first n workers run to the end, one after the other. */
  function Drain(n: nat): seq<nat> {
    if n == 0 then [] else Drain(n - 1) + Solo(n - 1, 21)
  }

  lemma {:induction false} DrainStops(p: Plan, s: Exec, n: nat)
    requires p.Valid() && |s.pcs| == |p.jobs| && n <= |s.pcs|
    ensures forall i :: 0 <= i < n ==> Run(p, s, Drain(n)).pcs[i].Stopped?
  {
    if n > 0 {
      DrainStops(p, s, n - 1);
      var t := Run(p, s, Drain(n - 1));
      RunSum(p, s, Drain(n - 1), Solo(n - 1, 21));
      SoloDescends(p, t, n - 1, 21);
      ErrorsGrow(p, t, Solo(n - 1, 21));
    }
  }

  predicate CompleteRun(p: Plan, slots: Slots, schedule: seq<nat>)
    requires p.Valid()
  {
    Complete(Run(p, Start(p, slots), schedule))
  }

  /** Every plan has a complete run. */
  lemma DrainCompletes(p: Plan, slots: Slots)
    requires p.Valid()
    ensures CompleteRun(p, slots, Drain(|p.jobs|))
  {
    DrainStops(p, Start(p, slots), |p.jobs|);
  }

  lemma LandedAt(p: Plan, slots: Slots, schedule: seq<nat>, i: nat)
    requires p.Valid() && DistinctNames(p.jobs) && CompleteRun(p, slots, schedule)
    requires i < |p.jobs| && Started(p.jobs[i])
    ensures At(Run(p, Start(p, slots), schedule).slots, p.jobs[i].name) == Final(p, slots, i).slot
  {
    RunKeepsInv(p, slots, schedule);
    CompleteIsLanded(p, slots, Run(p, Start(p, slots), schedule));
  }

  /** The list of errors is empty exactly when no worker fails. */
  lemma ErrorsExactly(p: Plan, slots: Slots, schedule: seq<nat>)
    requires p.Valid() && DistinctNames(p.jobs) && CompleteRun(p, slots, schedule)
    ensures Run(p, Start(p, slots), schedule).errors == []
            <==> forall i :: 0 <= i < |p.jobs| ==> FailureOf(p, slots, i).None?
  {
    var s := Run(p, Start(p, slots), schedule);
    RunKeepsInv(p, slots, schedule);
    if s.errors != [] {
      var i := ListedIsFailure(p, slots, s, s.errors[0]);
    } else {
      forall i | 0 <= i < |p.jobs| ensures FailureOf(p, slots, i).None? {
        if FailureOf(p, slots, i).Some? { FailureIsListed(p, slots, s, i); assert false; }
      }
    }
  }

  /** After worker j alone has run, its error is the only one. */
  lemma SoloError(p: Plan, slots: Slots, j: nat)
    requires p.Valid() && DistinctNames(p.jobs)
    requires j < |p.jobs| && FailureOf(p, slots, j).Some?
    ensures var e := Run(p, Start(p, slots), Solo(j, 21)).errors;
            e != [] && e[0] == FailureOf(p, slots, j).value
  {
    var s := Start(p, slots);
    var t := Run(p, s, Solo(j, 21));
    RunKeepsInv(p, slots, Solo(j, 21));
    SoloDescends(p, s, j, 21);
    ErrorsGrow(p, s, Solo(j, 21));
    FailureIsListed(p, slots, t, j);
    var i := ListedIsFailure(p, slots, t, t.errors[0]);
    assert i !in Solo(j, 21) || i == j;
  }

  /** Any failing worker can be the one whose error is returned: it is when it runs to its end first. */
  lemma AnyFailureCanBeFirst(p: Plan, slots: Slots, j: nat) returns (schedule: seq<nat>)
    requires p.Valid() && DistinctNames(p.jobs)
    requires j < |p.jobs| && FailureOf(p, slots, j).Some?
    ensures CompleteRun(p, slots, schedule)
    ensures var e := Run(p, Start(p, slots), schedule).errors; e != [] && e[0] == FailureOf(p, slots, j).value
  {
    var n := |p.jobs|;
    var t := Run(p, Start(p, slots), Solo(j, 21));
    SoloError(p, slots, j);
    schedule := Solo(j, 21) + Drain(n);
    RunSum(p, Start(p, slots), Solo(j, 21), Drain(n));
    DrainStops(p, t, n);
    ErrorsGrow(p, t, Drain(n));
  }

  /** The texts updateUpgradeApps looks for: a failed re-creation, or pods that did not get ready. */
  predicate RollbackText(e: Error) { e.CannotRecreate? || e.PodsNotReady? }

  /** The run fails, and its returned error does or does not ask for a rollback. */
  predicate FailsWith(p: Plan, slots: Slots, schedule: seq<nat>, rollback: bool)
    requires p.Valid()
  {
    var e := Run(p, Start(p, slots), schedule).errors;
    CompleteRun(p, slots, schedule) && e != [] && RollbackText(e[0].error) == rollback
  }

  predicate WorkerFailsWith(p: Plan, slots: Slots, i: nat, rollback: bool)
    requires p.Valid()
  {
    i < |p.jobs| && FailureOf(p, slots, i).Some? && RollbackText(FailureOf(p, slots, i).value.error) == rollback
  }

  lemma DecisionFromWorker(p: Plan, slots: Slots, schedule: seq<nat>, rollback: bool) returns (i: nat)
    requires p.Valid() && DistinctNames(p.jobs)
    requires FailsWith(p, slots, schedule, rollback)
    ensures WorkerFailsWith(p, slots, i, rollback)
  {
    var s := Run(p, Start(p, slots), schedule);
    RunKeepsInv(p, slots, schedule);
    i := ListedIsFailure(p, slots, s, s.errors[0]);
  }

  /** With the same jobs and the same API failures, some interleaving fails asking for a rollback exactly when
      some worker fails with a rollback error, and some interleaving fails without asking for one exactly when
      some worker fails with another error. So the decision to roll back is the scheduler's whenever the
      workers fail in both ways, and is determined by the failures otherwise. */
  lemma RollbackDecision(p: Plan, slots: Slots, rollback: bool)
    requires p.Valid() && DistinctNames(p.jobs)
    ensures (exists schedule :: FailsWith(p, slots, schedule, rollback))
            <==> (exists i :: WorkerFailsWith(p, slots, i, rollback))
  {
    if i :| WorkerFailsWith(p, slots, i, rollback) {
      var schedule := AnyFailureCanBeFirst(p, slots, i);
      assert FailsWith(p, slots, schedule, rollback);
    }
    if schedule :| FailsWith(p, slots, schedule, rollback) {
      var i := DecisionFromWorker(p, slots, schedule, rollback);
    }
  }
}
