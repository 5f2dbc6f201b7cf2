/** What deleteApps reports: with distinct names, exactly the failures that the deletions have on their own. */
module DeleteErrors {
  import opened Text
  import opened Cluster
  import opened Worker
  import opened DeleteApps

  predicate DistinctJobs(t: Task) { forall i, j :: 0 <= i < j < |t.jobs| ==> t.jobs[i].name != t.jobs[j].name }

  /** The deletion of instance i if nothing else happened. */
  function Alone(t: Task, slots: Slots, i: nat): Result
    requires t.Valid() && i < |t.jobs|
  {
    RunJob(t.jobs[i], t.catalog, t.faults[i], At(slots, t.jobs[i].name))
  }

  /** Worker i is on the way to that result, or has it. */
  predicate OnTrack(t: Task, slots: Slots, s: Deletion, i: nat)
    requires t.Valid() && |s.stages| == |t.jobs| && i < |t.jobs|
  {
    var job := t.jobs[i];
    match s.stages[i]
    case Working(pc) =>
      !pc.Stopped? && Rest(job, t.catalog, t.faults[i], pc, At(s.slots, job.name)) == Alone(t, slots, i)
    case Ended(false) => Alone(t, slots, i).outcome.Failed?
    case AtChart => t.purge && Alone(t, slots, i).outcome.Succeeded?
    case _ => Alone(t, slots, i).outcome.Succeeded?
  }

  /** The worker is past deleting its chart. */
  predicate PastChart(stage: Stage) { stage.AtAppend? || stage.AtCheck? || stage == Ended(true) }

  /** What the errors hold of worker i: its own failure when it has failed, its chart when deleting that failed. */
  ghost predicate Tells(t: Task, slots: Slots, s: Deletion, i: nat)
    requires t.Valid() && |s.stages| == |t.jobs| && i < |t.jobs|
  {
    && (forall e :: NotDeleted(t.jobs[i].name, e) in s.errors <==>
          s.stages[i] == Ended(false) && Alone(t, slots, i).outcome == Failed(e))
    && (ChartNotDeleted(t.jobs[i].name) in s.errors <==> t.purge && t.chartFails[i] && PastChart(s.stages[i]))
  }

  /** Nobody else is told of. */
  predicate KnownNames(t: Task, s: Deletion) {
    forall p :: p in s.errors ==> exists i :: 0 <= i < |t.jobs| && t.jobs[i].name == p.name
  }

  ghost predicate Inv(t: Task, slots: Slots, s: Deletion)
    requires t.Valid()
  {
    && |s.stages| == |t.jobs| && KnownNames(t, s)
    && forall i :: 0 <= i < |t.jobs| ==> OnTrack(t, slots, s, i) && Tells(t, slots, s, i)
  }

  lemma StartKeepsInv(t: Task, slots: Slots)
    requires t.Valid()
    ensures Inv(t, slots, Begun(t, slots))
  {
    forall i | 0 <= i < |t.jobs| ensures OnTrack(t, slots, Begun(t, slots), i) {
      StepsAddUp(t.jobs[i], t.catalog, t.faults[i], At(slots, t.jobs[i].name));
    }
  }

  /** A worker's step as far as anybody can see: what it adds to the errors, and its slot. */
  lemma OwnStep(t: Task, slots: Slots, s: Deletion, i: nat)
    requires t.Valid() && Inv(t, slots, s) && i < |t.jobs|
    ensures OnTrack(t, slots, Step(t, s, i), i) && Tells(t, slots, Step(t, s, i), i)
  {
    assert OnTrack(t, slots, s, i) && Tells(t, slots, s, i);
    if s.stages[i].Working? && !s.stages[i].pc.Reported? {
      var job := t.jobs[i];
      var (pc, slot) := Local(job, t.catalog, t.faults[i], s.stages[i].pc, At(s.slots, job.name));
      assert Rest(job, t.catalog, t.faults[i], pc, slot) == Alone(t, slots, i);
    }
  }

  lemma StepKeepsNames(t: Task, slots: Slots, s: Deletion, i: nat)
    requires t.Valid() && Inv(t, slots, s) && i < |t.jobs|
    ensures KnownNames(t, Step(t, s, i))
    ensures forall p :: p in s.errors ==> p in Step(t, s, i).errors
    ensures forall p :: p in Step(t, s, i).errors ==> p in s.errors || p.name == t.jobs[i].name
  {
    var s' := Step(t, s, i);
    forall p | p in s'.errors ensures exists k :: 0 <= k < |t.jobs| && t.jobs[k].name == p.name {
      if p !in s.errors { assert t.jobs[i].name == p.name; }
    }
  }

  lemma OthersStep(t: Task, slots: Slots, s: Deletion, i: nat, j: nat)
    requires t.Valid() && Inv(t, slots, s) && DistinctJobs(t) && i < |t.jobs| && j < |t.jobs| && i != j
    ensures OnTrack(t, slots, Step(t, s, i), j) && Tells(t, slots, Step(t, s, i), j)
  {
    assert OnTrack(t, slots, s, j) && Tells(t, slots, s, j);
    assert t.jobs[i].name != t.jobs[j].name;
    StepKeepsNames(t, slots, s, i);
    assert Step(t, s, i).stages[j] == s.stages[j];
    assert At(Step(t, s, i).slots, t.jobs[j].name) == At(s.slots, t.jobs[j].name);
  }

  lemma {:induction false} RunKeepsInv(t: Task, slots: Slots, schedule: seq<nat>)
    requires t.Valid() && DistinctJobs(t)
    ensures Inv(t, slots, Run(t, slots, schedule))
  {
    if schedule == [] {
      StartKeepsInv(t, slots);
    } else {
      var s, i := Run(t, slots, schedule[..|schedule| - 1]), schedule[|schedule| - 1];
      RunKeepsInv(t, slots, schedule[..|schedule| - 1]);
      if i < |t.jobs| {
        StepKeepsNames(t, slots, s, i);
        forall j | 0 <= j < |t.jobs| ensures OnTrack(t, slots, Step(t, s, i), j) && Tells(t, slots, Step(t, s, i), j) {
          if i == j { OwnStep(t, slots, s, i); } else { OthersStep(t, slots, s, i, j); }
        }
      }
    }
  }

  /** After any complete interleaving the errors are exactly the failures of the deletions taken alone and, for those
      that succeed, the failing chart deletions of a purge. */
  lemma ErrorsExactly(t: Task, slots: Slots, schedule: seq<nat>, i: nat)
    requires t.Valid() && DistinctJobs(t) && Complete(Run(t, slots, schedule)) && i < |t.jobs|
    ensures var errors := Run(t, slots, schedule).errors;
            var alone := RunJob(t.jobs[i], t.catalog, t.faults[i], At(slots, t.jobs[i].name)).outcome;
            && (forall e :: NotDeleted(t.jobs[i].name, e) in errors <==> alone == Failed(e))
            && (ChartNotDeleted(t.jobs[i].name) in errors <==> alone.Succeeded? && t.purge && t.chartFails[i])
  {
    var s := Run(t, slots, schedule);
    RunKeepsInv(t, slots, schedule);
    assert OnTrack(t, slots, s, i) && Tells(t, slots, s, i);
    assert s.stages[i].Ended?;
  }

  /** No error is reported exactly when every instance can be deleted and so can its chart, if charts are purged. */
  lemma NoErrorExactly(t: Task, slots: Slots, schedule: seq<nat>)
    requires t.Valid() && DistinctJobs(t) && Complete(Run(t, slots, schedule))
    ensures Run(t, slots, schedule).errors == []
            <==> forall i :: 0 <= i < |t.jobs| ==>
                   RunJob(t.jobs[i], t.catalog, t.faults[i], At(slots, t.jobs[i].name)).outcome.Succeeded?
                   && !(t.purge && t.chartFails[i])
  {
    var errors := Run(t, slots, schedule).errors;
    RunKeepsInv(t, slots, schedule);
    forall i | 0 <= i < |t.jobs|
      ensures Alone(t, slots, i).outcome.Failed? ==>
                NotDeleted(t.jobs[i].name, Alone(t, slots, i).outcome.error) in errors
      ensures ChartNotDeleted(t.jobs[i].name) in errors
              <==> Alone(t, slots, i).outcome.Succeeded? && t.purge && t.chartFails[i]
    {
      ErrorsExactly(t, slots, schedule, i);
    }
    if errors != [] {
      var p := errors[0];
      assert p in errors;
      var i :| 0 <= i < |t.jobs| && t.jobs[i].name == p.name;
      ErrorsExactly(t, slots, schedule, i);
      assert Alone(t, slots, i).outcome.Failed? || (t.purge && t.chartFails[i]);
    }
  }
}
