/** Whether a failed update rolls back: which failures of a worker ask for it, and when some interleaving does. */
module Decision {
  import opened Cluster
  import opened Executor
  import opened FirstError
  import Volumes

  /** An upgrade has the application upgraded and its volume bound; what is left is the step for its state. */
  predicate Upgraded(job: Job, cat: Catalog, f: Faults, slot: Slot) {
    && slot.app.Some? && FindRunning !in f && FindVersion !in f
    && Offers(cat, slot.app.value.template, job.requestedVersion)
    && ReplaceApp !in f && UpgradeApp !in f
    && (job.storageSize > 0 ==> AwaitUpgradeBound !in f && slot.volume.Some? && slot.claim.Some?)
  }

  /** The last call of a creation or upgrade is the wait for the pods, and it fails. */
  predicate PodsTimeOut(job: Job, f: Faults) { ListWorkload !in f && job.enabled && PodsReady in f }

  /** The storage is to be dropped and a call for it fails; a claim whose list failed is still there, and keeps its
      volume from being deleted. */
  predicate DropFails(f: Faults, slot: Slot) {
    var claimSeen := slot.claim.Some? && ListClaimToDrop !in f;
    || (claimSeen && DropClaim in f)
    || (slot.volume.Some?
        && (AwaitVolumeGone in f
            || (ListVolumeToDrop !in f && (DropVolume in f || (slot.claim.Some? && !claimSeen)))))
  }

  /** The deletion half of a re-creation fails. */
  predicate DeletionFails(job: Job, f: Faults, slot: Slot) {
    || (slot.workload && FindWorkload !in f && DropWorkload in f)
    || (slot.app.Some? && FindApp !in f
        && (DropApp in f || AwaitAppGone in f || (job.deleteStorage && DropFails(f, slot))))
  }

  lemma DeletionFailsExactly(job: Job, f: Faults, slot: Slot)
    ensures DeleteInstance(job, f, slot).outcome.Failed? <==> DeletionFails(job, f, slot)
  {
  }

  /** What the creation half of a re-creation finds. */
  function AfterDeletion(job: Job, f: Faults, slot: Slot): Slot { DeleteInstance(job, f, slot).slot }

  /** The failures that ask for a rollback, through the failing calls: pods that do not get ready at the very end of
      a creation or upgrade, and any failure of the creation half of a re-creation. */
  predicate AsksForRollback(job: Job, cat: Catalog, f: Faults, slot: Slot) {
    match job.action
    case Create => Volumes.Deploys(job, cat, f, slot) && AwaitNotes !in f && PodsTimeOut(job, f)
    case Upgrade => Upgraded(job, cat, f, slot) && PodsTimeOut(job, f)
    case Recreate =>
      && !DeletionFails(job, f, slot)
      && !Volumes.CreationPasses(job, cat, f, AfterDeletion(job, f, slot))
    case _ => false
  }

  lemma CreationText(job: Job, cat: Catalog, f: Faults, slot: Slot)
    ensures var r := CreateInstance(job, job.requestedVersion, cat, f, slot).outcome;
            r.Failed? && RollbackText(r.error)
            <==> Volumes.Deploys(job, cat, f, slot) && AwaitNotes !in f && PodsTimeOut(job, f)
  {
    Volumes.StorageFailsExactly(job, f, slot);
    StorageText(job, f, slot);
  }

  lemma StorageText(job: Job, f: Faults, slot: Slot)
    ensures var r := PrepareStorage(job, f, slot).outcome; r.Failed? ==> !RollbackText(r.error)
  {
  }

  lemma UpgradeText(job: Job, cat: Catalog, f: Faults, slot: Slot)
    ensures var r := UpgradeInstance(job, cat, f, slot).outcome;
            r.Failed? && RollbackText(r.error) <==> Upgraded(job, cat, f, slot) && PodsTimeOut(job, f)
  {
  }

  lemma DeletionText(job: Job, f: Faults, slot: Slot)
    ensures var r := DeleteInstance(job, f, slot).outcome; r.Failed? ==> !RollbackText(r.error)
  {
  }

  /** A worker fails with a text that asks for a rollback exactly when its failing calls are of that kind; a failing
      re-creation asks for one exactly when its deletion half succeeded. */
  lemma AsksExactly(job: Job, cat: Catalog, f: Faults, slot: Slot)
    requires Started(job)
    ensures var r := RunJob(job, cat, f, slot).outcome;
            r.Failed? && RollbackText(r.error) <==> AsksForRollback(job, cat, f, slot)
    ensures var r := RunJob(job, cat, f, slot).outcome;
            job.action.Recreate? && r.Failed? ==> (RollbackText(r.error) <==> !DeletionFails(job, f, slot))
  {
    match job.action
    case Create => CreationText(job, cat, f, slot);
    case Upgrade => UpgradeText(job, cat, f, slot);
    case _ =>
      DeletionFailsExactly(job, f, slot);
      DeletionText(job, f, slot);
      Volumes.CreationPassesExactly(job, cat, f, AfterDeletion(job, f, slot));
  }

  /** Worker i fails in a way that asks for a rollback. */
  predicate WorkerAsks(p: Plan, slots: Slots, i: nat)
    requires p.Valid()
  {
    && i < |p.jobs| && Started(p.jobs[i])
    && AsksForRollback(p.jobs[i], p.catalog, p.faults[i], At(slots, p.jobs[i].name))
  }

  lemma WorkerAsksExactly(p: Plan, slots: Slots, i: nat)
    requires p.Valid()
    ensures WorkerFailsWith(p, slots, i, true) <==> WorkerAsks(p, slots, i)
    ensures WorkerFailsWith(p, slots, i, false)
            <==> i < |p.jobs| && FailureOf(p, slots, i).Some? && !WorkerAsks(p, slots, i)
  {
    if i < |p.jobs| && Started(p.jobs[i]) {
      AsksExactly(p.jobs[i], p.catalog, p.faults[i], At(slots, p.jobs[i].name));
    }
  }

  // ----- When the rollback is entered -----

  /** What updateUpgradeApps needs for a rollback besides the text of the error. */
  datatype Guards = Guards(fromCatalog: bool, backups: nat) {
    predicate Allow() { !fromCatalog && backups > 0 }
  }

  /** The run fails, and the rollback is or is not entered. */
  predicate Enters(p: Plan, slots: Slots, g: Guards, schedule: seq<nat>, rollback: bool)
    requires p.Valid()
  {
    var e := Run(p, Start(p, slots), schedule).errors;
    CompleteRun(p, slots, schedule) && e != [] && (g.Allow() && RollbackText(e[0].error)) == rollback
  }

  /** With the other two guards: some interleaving enters the rollback exactly when the charts are not from the
      catalog, something is backed up and some worker fails with pods that do not get ready or in the creation half
      of a re-creation; some interleaving fails without a rollback exactly when a worker fails in another way, or any
      worker fails while a guard is closed. */
  lemma RollbackEntered(p: Plan, slots: Slots, g: Guards)
    requires p.Valid() && DistinctNames(p.jobs)
    ensures (exists schedule :: Enters(p, slots, g, schedule, true))
            <==> !g.fromCatalog && g.backups > 0 && exists i :: WorkerAsks(p, slots, i)
    ensures (exists schedule :: Enters(p, slots, g, schedule, false))
            <==> exists i :: 0 <= i < |p.jobs| && FailureOf(p, slots, i).Some?
                             && (g.fromCatalog || g.backups == 0 || !WorkerAsks(p, slots, i))
  {
    RollbackDecision(p, slots, true);
    RollbackDecision(p, slots, false);
    forall i: nat
      ensures WorkerFailsWith(p, slots, i, true) <==> WorkerAsks(p, slots, i)
      ensures WorkerFailsWith(p, slots, i, false)
              <==> i < |p.jobs| && FailureOf(p, slots, i).Some? && !WorkerAsks(p, slots, i)
    {
      WorkerAsksExactly(p, slots, i);
    }
    if schedule :| Enters(p, slots, g, schedule, true) {
      assert FailsWith(p, slots, schedule, true);
    }
    if schedule :| FailsWith(p, slots, schedule, true) {
      assert Enters(p, slots, g, schedule, g.Allow());
    }
    if schedule :| FailsWith(p, slots, schedule, false) {
      assert Enters(p, slots, g, schedule, false);
    }
    if schedule :| Enters(p, slots, g, schedule, false) {
      assert FailsWith(p, slots, schedule, RollbackText(Run(p, Start(p, slots), schedule).errors[0].error));
    }
  }
}
