/** One goroutine of the executor, cut at its API calls: a program counter and the slot of its instance.
    Between two of these steps any other goroutine may run. */
module Worker {
  import opened Text
  import opened Cluster

  datatype Pc =
    | Begin
    | AtDropWorkload | AtDropApp | AtAppGone | AtDropClaim | AtDropVolume | AtVolumeGone
    | AtTemplate | AtVolume | AtReleasedGone | AtClaim | AtBound | AtMakeApp | AtNotes
    | AtFindRunning | AtReplace | AtUpgrade | AtUpgradeBound
    | AtSettle
    | Reported(outcome: Outcome)
    | Stopped

  function Rank(pc: Pc): (r: nat)
    ensures r <= 20 && (r == 0 <==> pc.Stopped?)
  {
    match pc
    case Begin => 20
    case AtDropWorkload => 19
    case AtDropApp => 18
    case AtAppGone => 17
    case AtDropClaim => 16
    case AtDropVolume => 15
    case AtVolumeGone => 14
    case AtTemplate => 13
    case AtVolume => 12
    case AtReleasedGone => 11
    case AtClaim => 10
    case AtBound => 9
    case AtMakeApp => 8
    case AtNotes => 7
    case AtFindRunning => 6
    case AtReplace => 5
    case AtUpgrade => 4
    case AtUpgradeBound => 3
    case AtSettle => 2
    case Reported(_) => 1
    case Stopped => 0
  }

  function Fault(call: Call): Pc { Reported(Failed(CallFailed(call))) }

  /** An error after the deletion half of a re-creation is reported as a failed re-creation. */
  function Wrap(job: Job, o: Outcome): Outcome {
    if job.action.Recreate? && o.Failed? then Failed(CannotRecreate(o.error)) else o
  }

  function Abort(job: Job, e: Error): Pc { Reported(Wrap(job, Failed(e))) }

  function AfterDeletion(job: Job): Pc { if job.action.Recreate? then AtTemplate else Reported(Succeeded) }

  predicate Deleting(pc: Pc) { 14 <= Rank(pc) < 20 }

  predicate Creating(pc: Pc) { 7 <= Rank(pc) < 14 }

  predicate Upgrading(pc: Pc) { 3 <= Rank(pc) < 7 }

  function DeleteStep(job: Job, f: Faults, pc: Pc, slot: Slot): (r: (Pc, Slot))
    requires Deleting(pc)
    ensures Rank(r.0) < Rank(pc) && !r.0.Stopped?
  {
    match pc
    case AtDropWorkload =>
      if !slot.workload || FindWorkload in f then (AtDropApp, slot)
      else if DropWorkload in f then (Fault(DropWorkload), slot)
      else (AtDropApp, slot.(workload := false))
    case AtDropApp =>
      if slot.app.None? || FindApp in f then (AfterDeletion(job), slot)
      else if DropApp in f then (Fault(DropApp), slot)
      else (AtAppGone, slot.(app := None, workload := false))
    case AtAppGone =>
      (if AwaitAppGone in f then Fault(AwaitAppGone)
       else if job.deleteStorage then AtDropClaim else AfterDeletion(job), slot)
    case AtDropClaim =>
      if slot.claim.None? || ListClaimToDrop in f then (AtDropVolume, slot)
      else if DropClaim in f then (Fault(DropClaim), slot)
      else (AtDropVolume, slot.(claim := None, volume := Freed(slot.volume)))
    case AtDropVolume =>
      if slot.volume.None? then (AfterDeletion(job), slot)
      else if ListVolumeToDrop in f then (AtVolumeGone, slot)
      else if slot.claim.Some? || DropVolume in f then (Fault(DropVolume), slot)
      else (AtVolumeGone, slot.(volume := None))
    case AtVolumeGone =>
      (if AwaitVolumeGone in f then Fault(AwaitVolumeGone) else AfterDeletion(job), slot)
  }

  function CreateStep(job: Job, cat: Catalog, f: Faults, pc: Pc, slot: Slot): (r: (Pc, Slot))
    requires Creating(pc)
    ensures Rank(r.0) < Rank(pc) && !r.0.Stopped?
  {
    match pc
    case AtTemplate =>
      (if FindTemplate in f || job.template !in cat then Abort(job, CallFailed(FindTemplate))
       else if job.requestedVersion != "" && job.requestedVersion !in cat[job.template].versions then
         Abort(job, InvalidVersion)
       else if job.storageSize > 0 then AtVolume else AtMakeApp, slot)
    case AtVolume =>
      if ListVolume in f then (Abort(job, CallFailed(ListVolume)), slot)
      else if slot.volume.None? then
        if MakeVolume in f then (Abort(job, CallFailed(MakeVolume)), slot)
        else (AtClaim, slot.(volume := Some(Volume(job.storageSize, false))))
      else if slot.volume.value.released && slot.claim.None? then
        if DropReleased in f then (Abort(job, CallFailed(DropReleased)), slot)
        else (AtReleasedGone, slot.(volume := None))
      else (AtClaim, slot)
    case AtReleasedGone =>
      (if AwaitReleasedGone in f then Abort(job, CallFailed(AwaitReleasedGone)) else AtClaim, slot)
    case AtClaim =>
      if ListClaim in f then (Abort(job, CallFailed(ListClaim)), slot)
      else if slot.claim.Some? then (AtMakeApp, slot)
      else if MakeClaim in f then (Abort(job, CallFailed(MakeClaim)), slot)
      else (AtBound, slot.(claim := Some(job.storageSize)))
    case AtBound =>
      (if slot.volume.None? || AwaitBound in f then Abort(job, CallFailed(AwaitBound)) else AtMakeApp, slot)
    case AtMakeApp =>
      if slot.app.Some? || MakeApp in f then (Abort(job, CallFailed(MakeApp)), slot)
      else if job.template !in cat then (Abort(job, CallFailed(FindTemplate)), slot)
      else
        var version := Deployed(cat, job.template, job.requestedVersion);
        var app := AppObject(job.template, version, WithState(job.annotations, job.enabled));
        (AtNotes, slot.(app := Some(app), workload := true))
    case AtNotes =>
      (if AwaitNotes in f then Abort(job, CallFailed(AwaitNotes)) else AtSettle, slot)
  }

  function UpgradeStep(job: Job, cat: Catalog, f: Faults, pc: Pc, slot: Slot): (r: (Pc, Slot))
    requires Upgrading(pc)
    ensures Rank(r.0) < Rank(pc) && !r.0.Stopped?
  {
    match pc
    case AtFindRunning =>
      (if slot.app.None? || FindRunning in f then Fault(FindRunning)
       else if FindVersion in f then Fault(FindVersion)
       else if !Offers(cat, slot.app.value.template, job.requestedVersion) then Reported(Failed(InvalidVersion))
       else AtReplace, slot)
    case AtReplace =>
      if slot.app.None? || ReplaceApp in f then (Fault(ReplaceApp), slot)
      else (AtUpgrade, slot.(app := Some(slot.app.value.(annotations := WithState(job.annotations, job.enabled)))))
    case AtUpgrade =>
      if slot.app.None? || UpgradeApp in f then (Fault(UpgradeApp), slot)
      else
        (if job.storageSize > 0 then AtUpgradeBound else AtSettle,
         slot.(app := Some(slot.app.value.(version := job.requestedVersion)), workload := true))
    case AtUpgradeBound =>
      (if AwaitUpgradeBound in f || !Bound(slot) then Fault(AwaitUpgradeBound) else AtSettle, slot)
  }

  function SettleStep(job: Job, f: Faults, slot: Slot): (r: (Pc, Slot))
    ensures r.0.Reported?
  {
    if ListWorkload in f then (Abort(job, CallFailed(ListWorkload)), slot)
      else if job.enabled then
        (if PodsReady in f then Abort(job, PodsNotReady) else Reported(Succeeded), slot)
      else if !slot.workload then (Reported(Succeeded), slot)
      else if DisableWorkload in f then (Abort(job, CallFailed(DisableWorkload)), slot)
      else (Reported(Succeeded), slot.(workload := false))
  }

  /** The next step of a worker: at most one API call that changes the cluster. */
  function Local(job: Job, cat: Catalog, f: Faults, pc: Pc, slot: Slot): (r: (Pc, Slot))
    requires !pc.Reported? && !pc.Stopped?
    ensures Rank(r.0) < Rank(pc) && !r.0.Stopped?
  {
    if Deleting(pc) then DeleteStep(job, f, pc, slot)
    else if Creating(pc) then CreateStep(job, cat, f, pc, slot)
    else if Upgrading(pc) then UpgradeStep(job, cat, f, pc, slot)
    else if pc.AtSettle? then SettleStep(job, f, slot)
    else
      match job.action
      case NoAction => (Reported(Succeeded), slot)
      case Create => (AtTemplate, slot)
      case Upgrade => (AtFindRunning, slot)
      case _ => (AtDropWorkload, slot)
  }

  /** Where a worker ends up if it is left alone from this step on. */
  function Rest(job: Job, cat: Catalog, f: Faults, pc: Pc, slot: Slot): Result
    decreases Rank(pc)
  {
    if pc.Reported? then Result(slot, pc.outcome)
    else if pc.Stopped? then Result(slot, Succeeded)
    else
      var (pc', slot') := Local(job, cat, f, pc, slot);
      Rest(job, cat, f, pc', slot')
  }

  function Wrapped(job: Job, r: Result): Result { r.(outcome := Wrap(job, r.outcome)) }

  lemma RestSettle(job: Job, cat: Catalog, f: Faults, slot: Slot)
    ensures Rest(job, cat, f, AtSettle, slot) == Wrapped(job, Settled(job, f, slot))
  {
    var (pc, s) := Local(job, cat, f, AtSettle, slot);
    assert Rest(job, cat, f, pc, s) == Result(s, pc.outcome);
  }

  lemma RestMakeApp(job: Job, cat: Catalog, f: Faults, slot: Slot)
    requires job.template in cat
    ensures Rest(job, cat, f, AtMakeApp, slot)
            == Wrapped(job, Deploy(job, Deployed(cat, job.template, job.requestedVersion), f, slot))
  {
    var (pc, s) := Local(job, cat, f, AtMakeApp, slot);
    if slot.app.None? && MakeApp !in f && AwaitNotes !in f {
      assert Rest(job, cat, f, AtNotes, s) == Rest(job, cat, f, AtSettle, s);
      RestSettle(job, cat, f, s);
    }
  }

  lemma RestClaim(job: Job, cat: Catalog, f: Faults, slot: Slot)
    requires job.template in cat
    ensures var r := PrepareClaim(job, f, slot);
            Rest(job, cat, f, AtClaim, slot)
            == Wrapped(job, if r.outcome.Failed? then r
                            else Deploy(job, Deployed(cat, job.template, job.requestedVersion), f, r.slot))
  {
    var r := PrepareClaim(job, f, slot);
    var (pc, s) := Local(job, cat, f, AtClaim, slot);
    if r.outcome.Succeeded? {
      RestMakeApp(job, cat, f, r.slot);
    }
    if pc.AtBound? {
      assert Rest(job, cat, f, AtBound, s)
          == Rest(job, cat, f, Local(job, cat, f, AtBound, s).0, s);
    }
  }

  lemma RestVolume(job: Job, cat: Catalog, f: Faults, slot: Slot)
    requires job.template in cat && job.storageSize > 0
    ensures var r := PrepareStorage(job, f, slot);
            Rest(job, cat, f, AtVolume, slot)
            == Wrapped(job, if r.outcome.Failed? then r
                            else Deploy(job, Deployed(cat, job.template, job.requestedVersion), f, r.slot))
  {
    var r := PrepareVolume(job, f, slot);
    var (pc, s) := Local(job, cat, f, AtVolume, slot);
    if r.outcome.Succeeded? {
      RestClaim(job, cat, f, r.slot);
    }
    if pc.AtReleasedGone? {
      assert Rest(job, cat, f, AtReleasedGone, s)
          == Rest(job, cat, f, Local(job, cat, f, AtReleasedGone, s).0, s);
    }
  }

  lemma RestCreate(job: Job, cat: Catalog, f: Faults, slot: Slot)
    ensures Rest(job, cat, f, AtTemplate, slot)
            == Wrapped(job, CreateInstance(job, job.requestedVersion, cat, f, slot))
  {
    var (pc, s) := Local(job, cat, f, AtTemplate, slot);
    if pc.AtVolume? {
      RestVolume(job, cat, f, slot);
    } else if pc.AtMakeApp? {
      RestMakeApp(job, cat, f, slot);
    }
  }

  lemma RestUpgrade(job: Job, cat: Catalog, f: Faults, slot: Slot)
    requires job.action.Upgrade?
    ensures Rest(job, cat, f, AtFindRunning, slot) == UpgradeInstance(job, cat, f, slot)
  {
    var (pc, _) := Local(job, cat, f, AtFindRunning, slot);
    if pc.AtReplace? {
      var (pc1, s1) := Local(job, cat, f, AtReplace, slot);
      if pc1.AtUpgrade? {
        var (pc2, s2) := Local(job, cat, f, AtUpgrade, s1);
        RestSettle(job, cat, f, s2);
        if pc2.AtUpgradeBound? {
          assert Rest(job, cat, f, AtUpgradeBound, s2)
              == Rest(job, cat, f, Local(job, cat, f, AtUpgradeBound, s2).0, s2);
        }
        assert Rest(job, cat, f, AtUpgrade, s1) == Rest(job, cat, f, pc2, s2);
      }
      assert Rest(job, cat, f, AtReplace, slot) == Rest(job, cat, f, pc1, s1);
    }
  }

  /** What follows a deletion with this result: the creation half, or the report. */
  function Then(job: Job, cat: Catalog, f: Faults, d: Result): Result {
    if d.outcome.Failed? || !job.action.Recreate? then d
    else Wrapped(job, CreateInstance(job, job.requestedVersion, cat, f, d.slot))
  }

  lemma RestAfterDeletion(job: Job, cat: Catalog, f: Faults, slot: Slot)
    ensures Rest(job, cat, f, AfterDeletion(job), slot) == Then(job, cat, f, Result(slot, Succeeded))
  {
    RestCreate(job, cat, f, slot);
  }

  lemma RestDropVolume(job: Job, cat: Catalog, f: Faults, slot: Slot)
    ensures Rest(job, cat, f, AtDropVolume, slot)
            == Then(job, cat, f, if slot.volume.None? then Result(slot, Succeeded)
                                 else if ListVolumeToDrop in f then Report(f, AwaitVolumeGone, slot)
                                 else if slot.claim.Some? || DropVolume in f then
                                   Result(slot, Failed(CallFailed(DropVolume)))
                                 else Report(f, AwaitVolumeGone, slot.(volume := None)))
  {
    var (pc, s) := Local(job, cat, f, AtDropVolume, slot);
    RestAfterDeletion(job, cat, f, s);
    if pc.AtVolumeGone? {
      assert Rest(job, cat, f, AtVolumeGone, s) == Rest(job, cat, f, Local(job, cat, f, AtVolumeGone, s).0, s);
    }
  }

  lemma RestDropClaim(job: Job, cat: Catalog, f: Faults, slot: Slot)
    ensures Rest(job, cat, f, AtDropClaim, slot) == Then(job, cat, f, DropStorage(f, slot))
  {
    var (pc, freed) := Local(job, cat, f, AtDropClaim, slot);
    assert Rest(job, cat, f, AtDropClaim, slot) == Rest(job, cat, f, pc, freed);
    RestDropVolume(job, cat, f, freed);
  }

  lemma RestDropApp(job: Job, cat: Catalog, f: Faults, slot: Slot)
    ensures Rest(job, cat, f, AtDropApp, slot) == Then(job, cat, f, DropAppObject(job, f, slot))
  {
    var (pc, gone) := Local(job, cat, f, AtDropApp, slot);
    assert Rest(job, cat, f, AtDropApp, slot) == Rest(job, cat, f, pc, gone);
    RestAfterDeletion(job, cat, f, gone);
    if pc.AtAppGone? {
      var (pc', _) := Local(job, cat, f, AtAppGone, gone);
      assert Rest(job, cat, f, AtAppGone, gone) == Rest(job, cat, f, pc', gone);
      RestDropClaim(job, cat, f, gone);
    }
  }

  lemma RestDelete(job: Job, cat: Catalog, f: Faults, slot: Slot)
    ensures Rest(job, cat, f, AtDropWorkload, slot) == Then(job, cat, f, DeleteInstance(job, f, slot))
  {
    var (pc, idle) := Local(job, cat, f, AtDropWorkload, slot);
    assert Rest(job, cat, f, AtDropWorkload, slot) == Rest(job, cat, f, pc, idle);
    if pc.AtDropApp? {
      RestDropApp(job, cat, f, idle);
    }
  }

  /** Left alone from the beginning, the steps of a worker add up to the whole operation. */
  lemma StepsAddUp(job: Job, cat: Catalog, f: Faults, slot: Slot)
    ensures Rest(job, cat, f, Begin, slot) == RunJob(job, cat, f, slot)
  {
    match job.action
    case NoAction =>
    case Create => RestCreate(job, cat, f, slot);
    case Upgrade => RestUpgrade(job, cat, f, slot);
    case Delete => RestDelete(job, cat, f, slot);
    case Recreate => RestDelete(job, cat, f, slot);
  }
}
