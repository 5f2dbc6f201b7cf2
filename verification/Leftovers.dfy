/** What a worker leaves on the cluster when it stops, successful or not, through the failing calls. */
module Leftovers {
  import opened Text
  import opened Cluster
  import opened Executor
  import opened Volumes

  // ----- Upgrade -----

  /** The application object is found and its template has the requested version. */
  predicate CanUpgrade(job: Job, cat: Catalog, f: Faults, slot: Slot) {
    && slot.app.Some? && FindRunning !in f && FindVersion !in f
    && Offers(cat, slot.app.value.template, job.requestedVersion)
  }

  /** An upgrade replaces the annotations before it upgrades, never touches the storage, and has restarted the workload
      once it has upgraded. */
  lemma UpgradeLeaves(job: Job, cat: Catalog, f: Faults, slot: Slot)
    requires job.action.Upgrade?
    ensures var after := RunJob(job, cat, f, slot).slot;
            var replaced := CanUpgrade(job, cat, f, slot) && ReplaceApp !in f;
            && after.volume == slot.volume && after.claim == slot.claim
            && (!replaced ==> after == slot)
            && (replaced ==>
                  && after.app.Some?
                  && after.app.value.annotations == WithState(job.annotations, job.enabled)
                  && after.app.value.template == slot.app.value.template
                  && after.app.value.version == (if UpgradeApp in f then slot.app.value.version
                                                 else job.requestedVersion)
                  && (UpgradeApp in f ==> after.workload == slot.workload)
                  && (UpgradeApp !in f && job.enabled ==> after.workload))
  {
  }

  /** The state annotation is "1" for an enabled instance and "0" for a disabled one, and the others stay. */
  lemma StateIsNoted(annotations: map<string, string>, enabled: bool, k: string)
    ensures var a := WithState(annotations, enabled);
            && "apphc.app.instance.state" in a
            && a["apphc.app.instance.state"] == (if enabled then "1" else "0")
            && (k != "apphc.app.instance.state" ==>
                  (k in a <==> k in annotations) && (k in annotations ==> a[k] == annotations[k]))
  {
  }

  // ----- Creation -----

  predicate Releases(slot: Slot) { slot.volume.Some? && slot.volume.value.released && slot.claim.None? }

  /** The part of a creation that sees to the volume goes through. */
  predicate VolumeDone(f: Faults, slot: Slot) {
    && ListVolume !in f
    && (slot.volume.None? ==> MakeVolume !in f)
    && (Releases(slot) ==> DropReleased !in f && AwaitReleasedGone !in f)
  }

  /** A creation that gets past the template has made or dropped its volume and made its claim as far as their own calls
      went through, whatever fails later. */
  lemma CreationLeavesStorage(job: Job, cat: Catalog, f: Faults, slot: Slot)
    requires job.action.Create? && TemplateOffers(job, cat, f) && job.storageSize > 0
    ensures var after := RunJob(job, cat, f, slot).slot;
            && after.volume == (if ListVolume in f then slot.volume
                                else if slot.volume.None? && MakeVolume !in f then Some(Volume(job.storageSize, false))
                                else if Releases(slot) && DropReleased !in f then None
                                else slot.volume)
            && after.claim == (if VolumeDone(f, slot) && ListClaim !in f && slot.claim.None? && MakeClaim !in f
                               then Some(job.storageSize) else slot.claim)
  {
  }

  /** One that cannot use the template, or needs no storage, leaves volume and claim alone. */
  lemma CreationLeavesNoStorage(job: Job, cat: Catalog, f: Faults, slot: Slot)
    requires job.action.Create? && (!TemplateOffers(job, cat, f) || job.storageSize <= 0)
    ensures var after := RunJob(job, cat, f, slot).slot; after.volume == slot.volume && after.claim == slot.claim
    ensures !TemplateOffers(job, cat, f) ==> RunJob(job, cat, f, slot).slot == slot
  {
  }

  /** The application object of a creation is the job's, from the moment it is made. */
  lemma CreationLeavesApp(job: Job, cat: Catalog, f: Faults, slot: Slot)
    requires job.action.Create? && slot.app.None?
    ensures var after := RunJob(job, cat, f, slot).slot;
            && (Deploys(job, cat, f, slot) ==>
                  && job.template in cat
                  && after.app == Some(AppObject(job.template,
                                                 if job.requestedVersion == "" then cat[job.template].defaultVersion
                                                 else job.requestedVersion,
                                                 WithState(job.annotations, job.enabled))))
            && (!Deploys(job, cat, f, slot) ==> after.app.None? && after.workload == slot.workload)
  {
    StorageFailsExactly(job, f, slot);
  }

  // ----- Deletion -----

  /** The application object is deleted. */
  predicate AppDropped(f: Faults, slot: Slot) {
    && !(slot.workload && FindWorkload !in f && DropWorkload in f)
    && slot.app.Some? && FindApp !in f && DropApp !in f
  }

  /** The deletion gets to the storage. */
  predicate ReachesStorage(job: Job, f: Faults, slot: Slot) {
    AppDropped(f, slot) && AwaitAppGone !in f && job.deleteStorage
  }

  /** What a deletion leaves: the claim goes first and releases the volume, and the volume goes only without a claim. */
  lemma DeletionLeaves(job: Job, cat: Catalog, f: Faults, slot: Slot)
    requires job.action.Delete?
    ensures var after := RunJob(job, cat, f, slot).slot;
            var claimDropped := ReachesStorage(job, f, slot) && slot.claim.Some? && ListClaimToDrop !in f
                                && DropClaim !in f;
            var volumeDropped := ReachesStorage(job, f, slot) && slot.volume.Some? && (slot.claim.None? || claimDropped)
                                 && ListVolumeToDrop !in f && DropVolume !in f;
            && after.app == (if AppDropped(f, slot) then None else slot.app)
            && after.workload == (slot.workload && !AppDropped(f, slot) && (FindWorkload in f || DropWorkload in f))
            && after.claim == (if claimDropped then None else slot.claim)
            && after.volume == (if volumeDropped then None
                                else if claimDropped && slot.volume.Some? then
                                  Some(Volume(slot.volume.value.size, true))
                                else slot.volume)
  {
  }
}
