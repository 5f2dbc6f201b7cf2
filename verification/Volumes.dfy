/** How an instance's volume follows its recorded size: the storage decision of SetChartData, carried out by the
    worker of the instance. */
module Volumes {
  import opened Text
  import opened Cluster
  import opened Executor
  import ChartData

  /** The volume of an instance has the given size when that is positive, and is absent otherwise. */
  predicate Agrees(slot: Slot, size: int) {
    if size > 0 then slot.volume.Some? && slot.volume.value.size == size else slot.volume.None?
  }

  /** The deletion half of a re-creation takes the volume along. */
  predicate Replaces(job: Job, f: Faults, slot: Slot) {
    job.action.Recreate? && job.deleteStorage && slot.app.Some? && FindApp !in f && ListVolumeToDrop !in f
  }

  /** A creation (or the second half of a re-creation) makes a volume only when there is none. */
  predicate Makes(job: Job, slot: Slot) {
    !job.action.Upgrade? && job.storageSize > 0 && slot.volume.None?
  }

  lemma CreationKeepsOrMakes(job: Job, cat: Catalog, f: Faults, slot: Slot)
    requires CreateInstance(job, job.requestedVersion, cat, f, slot).outcome.Succeeded?
    ensures CreateInstance(job, job.requestedVersion, cat, f, slot).slot.volume
            == if job.storageSize > 0 && slot.volume.None? then Some(Volume(job.storageSize, false)) else slot.volume
  {
  }

  lemma DeletionDropsOrKeeps(job: Job, f: Faults, slot: Slot)
    requires job.action.Recreate? && DeleteInstance(job, f, slot).outcome.Succeeded?
    ensures var volume := DeleteInstance(job, f, slot).slot.volume;
            if Replaces(job, f, slot) then volume.None?
            else (volume.None? <==> slot.volume.None?) && (volume.Some? ==> volume.value.size == slot.volume.value.size)
  {
  }

  /** The volume a successful worker leaves: a new one of the job's size where it replaces or makes one, and
      otherwise the size there was. */
  lemma SuccessVolume(job: Job, cat: Catalog, f: Faults, slot: Slot)
    requires Started(job) && RunJob(job, cat, f, slot).outcome.Succeeded?
    ensures var volume := RunJob(job, cat, f, slot).slot.volume;
            if Replaces(job, f, slot) || Makes(job, slot) then
              volume == if job.storageSize > 0 then Some(Volume(job.storageSize, false)) else None
            else (volume.None? <==> slot.volume.None?) && (volume.Some? ==> volume.value.size == slot.volume.value.size)
  {
    match job.action
    case Create => CreationKeepsOrMakes(job, cat, f, slot);
    case Recreate =>
      DeletionDropsOrKeeps(job, f, slot);
      CreationKeepsOrMakes(job, cat, f, DeleteInstance(job, f, slot).slot);
    case _ =>
  }

  /** After a successful run the volume agrees with the job's size exactly when it was replaced, was made, or
      agreed before. */
  lemma AgreesExactly(job: Job, cat: Catalog, f: Faults, slot: Slot)
    requires Started(job) && RunJob(job, cat, f, slot).outcome.Succeeded?
    ensures Agrees(RunJob(job, cat, f, slot).slot, job.storageSize)
            <==> Replaces(job, f, slot) || Makes(job, slot) || Agrees(slot, job.storageSize)
  {
    SuccessVolume(job, cat, f, slot);
  }

  // ----- What is never lost, and what is left over -----

  /** The job may take the storage of its instance away. */
  predicate MayDrop(job: Job, slot: Slot) { job.action in {Delete, Recreate} && job.deleteStorage && slot.app.Some? }

  /** Whatever fails and wherever the worker stops: a claim, and a volume that is claimed or was never released,
      survive unchanged unless the job deletes storage and its application object is there. */
  lemma StorageIsSafe(job: Job, cat: Catalog, f: Faults, slot: Slot)
    ensures !MayDrop(job, slot) && slot.claim.Some? ==> RunJob(job, cat, f, slot).slot.claim == slot.claim
    ensures !MayDrop(job, slot) && slot.volume.Some? && (slot.claim.Some? || !slot.volume.value.released) ==>
              RunJob(job, cat, f, slot).slot.volume == slot.volume
  {
    if job.action.Recreate? {
      var d := DeleteInstance(job, f, slot);
      assert !MayDrop(job, slot) ==> d.slot.claim == slot.claim && d.slot.volume == slot.volume;
    }
  }

  /** The same for the whole plan, after any complete interleaving with any errors. */
  lemma PlanStorageIsSafe(p: Plan, slots: Slots, schedule: seq<nat>, name: string)
    requires p.Valid() && DistinctNames(p.jobs) && Complete(Run(p, Start(p, slots), schedule))
    requires forall i :: 0 <= i < |p.jobs| && p.jobs[i].name == name ==> !MayDrop(p.jobs[i], At(slots, name))
    ensures var before, after := At(slots, name), At(Run(p, Start(p, slots), schedule).slots, name);
            && (before.claim.Some? ==> after.claim == before.claim)
            && (before.volume.Some? && (before.claim.Some? || !before.volume.value.released) ==>
                  after.volume == before.volume)
  {
    var s := Run(p, Start(p, slots), schedule);
    RunKeepsInv(p, slots, schedule);
    CompleteIsLanded(p, slots, s);
    if i :| 0 <= i < |p.jobs| && Started(p.jobs[i]) && p.jobs[i].name == name {
      StorageIsSafe(p.jobs[i], p.catalog, p.faults[i], At(slots, name));
    }
  }

  /** A deletion with storage that succeeds, no lookup having failed, leaves nothing of an instance exactly when its
      application object was there, or there was nothing but a workload: otherwise the storage stays behind. */
  lemma DeletedExactly(job: Job, cat: Catalog, f: Faults, slot: Slot)
    requires job.action.Delete? && job.deleteStorage && Quiet(f) && RunJob(job, cat, f, slot).outcome.Succeeded?
    ensures RunJob(job, cat, f, slot).slot == EMPTY
            <==> slot.app.Some? || (slot.volume.None? && slot.claim.None?)
  {
  }

  /** A success leaves the workload of an enabled instance in place and none of a disabled one. */
  lemma SuccessWorkload(job: Job, cat: Catalog, f: Faults, slot: Slot)
    requires Started(job) && RunJob(job, cat, f, slot).outcome.Succeeded?
    ensures RunJob(job, cat, f, slot).slot.workload == job.enabled
  {
  }

  // ----- With the decision of SetChartData -----

  /** The job carries out what was decided for an instance that was recorded with size `recorded`. */
  predicate Decided(job: Job, planned: ChartData.Storage, requested: int, reusing: bool) {
    var s := ChartData.Decide(planned, requested, reusing);
    job.action == s.action && job.deleteStorage == s.delete && job.storageSize == s.size
  }

  /** A running instance whose volume agrees with its recorded size ends with a volume that agrees with its
      final size, on both paths; when values are reused and the request gives no different positive size, the
      size is the one the volume has. */
  lemma AgreementIsKept(job: Job, planned: ChartData.Storage, requested: int, reusing: bool,
                        cat: Catalog, f: Faults, slot: Slot)
    requires Decided(job, planned, requested, reusing) && planned.size >= 0 && planned.action in {Upgrade, Recreate}
    requires slot.app.Some? && Quiet(f) && Agrees(slot, planned.size)
    requires RunJob(job, cat, f, slot).outcome.Succeeded?
    ensures Agrees(RunJob(job, cat, f, slot).slot, job.storageSize)
    ensures reusing ==> (Replaces(job, f, slot) <==> requested > 0 && requested != planned.size)
    ensures reusing && !(requested > 0 && requested != planned.size) ==>
              job.storageSize == planned.size && Agrees(RunJob(job, cat, f, slot).slot, planned.size)
  {
    AgreesExactly(job, cat, f, slot);
  }

  /** What happens when the recorded size is not the size of the volume, as when the planner recorded the size of
      another instance: without reused values the run still converges exactly when the request differs from the
      record, or agrees with the volume, or re-creates an instance that has none. */
  lemma WrongRecord(job: Job, planned: ChartData.Storage, requested: int, cat: Catalog, f: Faults, slot: Slot)
    requires Decided(job, planned, requested, false) && planned.size >= 0 && planned.action in {Upgrade, Recreate}
    requires !planned.delete && slot.app.Some? && Quiet(f)
    requires RunJob(job, cat, f, slot).outcome.Succeeded?
    ensures Agrees(RunJob(job, cat, f, slot).slot, requested)
            <==> requested != planned.size || Agrees(slot, requested)
                 || (requested > 0 && planned.action.Recreate? && slot.volume.None?)
  {
    AgreesExactly(job, cat, f, slot);
  }

  /** The same when values are reused, where the size of one chart is recorded for every planned instance: the run
      converges exactly when the request gives another positive size than the record, or the volume has the final
      size already, or an instance without a volume is re-created with one. */
  lemma WrongRecordReused(job: Job, planned: ChartData.Storage, requested: int, cat: Catalog, f: Faults, slot: Slot)
    requires Decided(job, planned, requested, true) && planned.size >= 0 && planned.action in {Upgrade, Recreate}
    requires slot.app.Some? && Quiet(f)
    requires RunJob(job, cat, f, slot).outcome.Succeeded?
    ensures job.storageSize == if requested > 0 then requested else planned.size
    ensures Agrees(RunJob(job, cat, f, slot).slot, job.storageSize)
            <==> (requested > 0 && requested != planned.size) || Agrees(slot, job.storageSize)
                 || (job.storageSize > 0 && (planned.action.Recreate? || requested != planned.size)
                     && slot.volume.None?)
  {
    AgreesExactly(job, cat, f, slot);
  }

  /** For every interleaving of a whole plan: without errors, each instance's volume agrees with its size exactly
      as its own worker decides. */
  lemma PlanAgrees(p: Plan, slots: Slots, schedule: seq<nat>, i: nat)
    requires p.Valid() && DistinctNames(p.jobs)
    requires Complete(Run(p, Start(p, slots), schedule)) && Run(p, Start(p, slots), schedule).errors == []
    requires i < |p.jobs| && Started(p.jobs[i])
    ensures var job, before := p.jobs[i], At(slots, p.jobs[i].name);
            Agrees(At(Run(p, Start(p, slots), schedule).slots, job.name), job.storageSize)
            <==> Replaces(job, p.faults[i], before) || Makes(job, before) || Agrees(before, job.storageSize)
  {
    NoErrorMeansDone(p, slots, schedule);
    AgreesExactly(p.jobs[i], p.catalog, p.faults[i], At(slots, p.jobs[i].name));
  }

  // ----- When a creation deploys, and when it succeeds -----

  /** The storage of a creation fails: through a failing call, or because a released volume without a claim is
      deleted but still taken for present. */
  predicate StorageFails(job: Job, f: Faults, slot: Slot) {
    job.storageSize > 0
    && (ListVolume in f || ListClaim in f || (slot.volume.None? && MakeVolume in f)
        || (slot.claim.None?
            && (MakeClaim in f || AwaitBound in f || (slot.volume.Some? && slot.volume.value.released))))
  }

  predicate TemplateOffers(job: Job, cat: Catalog, f: Faults) {
    FindTemplate !in f && job.template in cat
    && (job.requestedVersion == "" || Offers(cat, job.template, job.requestedVersion))
  }

  /** A creation gets as far as making the application object. */
  predicate Deploys(job: Job, cat: Catalog, f: Faults, slot: Slot) {
    TemplateOffers(job, cat, f) && !StorageFails(job, f, slot) && slot.app.None? && MakeApp !in f
  }

  lemma StorageFailsExactly(job: Job, f: Faults, slot: Slot)
    ensures PrepareStorage(job, f, slot).outcome.Failed? <==> StorageFails(job, f, slot)
    ensures PrepareStorage(job, f, slot).slot.app == slot.app
  {
  }

  /** The deletion half fails before it has found that there is no application object. */
  predicate WorkloadStays(job: Job, f: Faults, slot: Slot) {
    job.action.Recreate? && slot.workload && FindWorkload !in f && DropWorkload in f
  }

  /** Nothing keeps the job from making the application object of an instance that has none. */
  predicate LeavesApp(job: Job, cat: Catalog, f: Faults, slot: Slot) {
    !job.action.Upgrade? && Deploys(job, cat, f, slot) && !WorkloadStays(job, f, slot)
  }

  /** Whether a new instance has an application object afterwards, through the failing calls: it has none exactly
      when the template, the version, the storage or the creation of the object fails, or a re-creation cannot even
      remove a stray workload, or the job is an upgrade. */
  lemma NewInstanceDeploysExactly(job: Job, cat: Catalog, f: Faults, slot: Slot)
    requires Started(job) && slot.app.None?
    ensures RunJob(job, cat, f, slot).slot.app.Some? <==> LeavesApp(job, cat, f, slot)
  {
    StorageFailsExactly(job, f, slot);
    StorageFailsExactly(job, f, slot.(workload := false));
  }

  /** The application object of a running instance survives the deletion half of a re-creation. */
  predicate AppStays(job: Job, f: Faults, slot: Slot) { WorkloadStays(job, f, slot) || FindApp in f || DropApp in f }

  /** The deletion half gets to its end. */
  predicate Drops(job: Job, f: Faults, slot: Slot) {
    && !AppStays(job, f, slot) && AwaitAppGone !in f
    && (job.deleteStorage ==> !(slot.claim.Some? && DropClaim in f)
                              && !(slot.volume.Some? && (DropVolume in f || AwaitVolumeGone in f)))
  }

  /** Whether a running instance has an application object after a re-creation, through the failing calls: the old
      one stays, or the deletion half gets to its end and the new one is deployed on what storage is left. */
  lemma RecreationLeavesAppExactly(job: Job, cat: Catalog, f: Faults, slot: Slot)
    requires job.action.Recreate? && slot.app.Some? && Quiet(f - {FindApp})
    ensures var gone := slot.(app := None, workload := false);
            var left := if job.deleteStorage then gone.(volume := None, claim := None) else gone;
            RunJob(job, cat, f, slot).slot.app.Some?
            <==> AppStays(job, f, slot) || (Drops(job, f, slot) && Deploys(job, cat, f, left))
  {
    var gone := slot.(app := None, workload := false);
    var left := if job.deleteStorage then gone.(volume := None, claim := None) else gone;
    StorageFailsExactly(job, f, left);
    var d := DeleteInstance(job, f, slot);
    assert Drops(job, f, slot) <==> d.outcome.Succeeded? && FindApp !in f;
    assert Drops(job, f, slot) ==> d.slot == left;
    assert AppStays(job, f, slot) <==> d.slot.app.Some?;
  }

  /** A creation deploys, and so does every call after that. */
  predicate CreationPasses(job: Job, cat: Catalog, f: Faults, slot: Slot) {
    && Deploys(job, cat, f, slot) && AwaitNotes !in f && ListWorkload !in f
    && (if job.enabled then PodsReady !in f else DisableWorkload !in f)
  }

  lemma CreationPassesExactly(job: Job, cat: Catalog, f: Faults, slot: Slot)
    ensures CreateInstance(job, job.requestedVersion, cat, f, slot).outcome.Succeeded?
            <==> CreationPasses(job, cat, f, slot)
  {
    StorageFailsExactly(job, f, slot);
  }

  /** A creation succeeds exactly when it deploys and every call after that does. */
  lemma CreationSucceedsExactly(job: Job, cat: Catalog, f: Faults, slot: Slot)
    requires job.action.Create?
    ensures RunJob(job, cat, f, slot).outcome.Succeeded?
            <==> Deploys(job, cat, f, slot) && AwaitNotes !in f && ListWorkload !in f
                 && (if job.enabled then PodsReady !in f else DisableWorkload !in f)
  {
    CreationPassesExactly(job, cat, f, slot);
  }

  // ----- A released volume -----

  /** Without failing calls a creation of a version the catalog has succeeds exactly when the instance does not exist
      yet and does not have a released volume without a claim where it wants one. */
  lemma ReleasedVolumeExactly(job: Job, cat: Catalog, slot: Slot)
    requires job.action.Create? && TemplateOffers(job, cat, {})
    ensures RunJob(job, cat, {}, slot).outcome.Succeeded?
            <==> slot.app.None? && !(job.storageSize > 0 && slot.volume.Some? && slot.volume.value.released
                                     && slot.claim.None?)
  {
    CreationSucceedsExactly(job, cat, {}, slot);
  }

  /** In that case the released volume is gone and the claim never binds; the creation after that one succeeds. */
  lemma ReleasedVolumeCostsOneCreation(job: Job, cat: Catalog, slot: Slot)
    requires job.action.Create? && job.storageSize > 0 && TemplateOffers(job, cat, {}) && slot.app.None?
    requires slot.volume.Some? && slot.volume.value.released && slot.claim.None?
    ensures var first := RunJob(job, cat, {}, slot);
            && first.outcome == Failed(CallFailed(AwaitBound))
            && first.slot == slot.(volume := None, claim := Some(job.storageSize))
            && RunJob(job, cat, {}, first.slot).outcome.Succeeded?
            && Agrees(RunJob(job, cat, {}, first.slot).slot, job.storageSize)
  {
    ReleasedVolumeExactly(job, cat, RunJob(job, cat, {}, slot).slot);
  }
}
