/** Application instances on the cluster: the Rancher and Kubernetes objects that belong to one instance name,
    and the three client operations that create, upgrade and delete an instance as sequences of API calls. */
module Cluster {
  import opened Text

  const STATE_ANNOTATION := "apphc.app.instance.state"

  /** A persistent volume keeps its size; it is released once its claim has been deleted. */
  datatype Volume = Volume(size: int, released: bool)

  /** The deployed application object: the template and version in its external id, and its annotations. */
  datatype AppObject = AppObject(template: string, version: string, annotations: map<string, string>)

  /** Everything the cluster holds under one instance name. */
  datatype Slot = Slot(app: Option<AppObject>, workload: bool, volume: Option<Volume>, claim: Option<int>)

  const EMPTY := Slot(None, false, None, None)

  type Slots = map<string, Slot>

  function At(slots: Slots, name: string): Slot { if name in slots then slots[name] else EMPTY }

  /** A catalog template: its versions and the one deployed when no version is asked for. */
  datatype Template = Template(versions: set<string>, defaultVersion: string)

  type Catalog = map<string, Template>

  datatype Action = Create | Upgrade | Delete | Recreate | NoAction

  /** What a worker needs to know of an application instance. */
  datatype Job = Job(name: string, action: Action, currentVersion: string, requestedVersion: string,
                     enabled: bool, storageSize: int, deleteStorage: bool, template: string,
                     annotations: map<string, string>)

  /** The API calls of a worker that may fail. FindWorkload, FindApp, ListClaimToDrop and ListVolumeToDrop are
      the lookups whose errors the deletion code does not report. A volume list that keeps failing reads as an
      empty one, so the wait for the volume to be gone can end although the volume is still there. */
  datatype Call =
    | FindWorkload | DropWorkload | FindApp | DropApp | AwaitAppGone
    | ListClaimToDrop | DropClaim | ListVolumeToDrop | DropVolume | AwaitVolumeGone
    | FindTemplate | ListVolume | DropReleased | AwaitReleasedGone | MakeVolume
    | ListClaim | MakeClaim | AwaitBound | MakeApp | AwaitNotes
    | FindRunning | FindVersion | ReplaceApp | UpgradeApp | AwaitUpgradeBound
    | PodsReady | ListWorkload | DisableWorkload

  type Faults = set<Call>

  const SWALLOWED: Faults := {FindWorkload, FindApp, ListClaimToDrop, ListVolumeToDrop}

  predicate Quiet(f: Faults) { f !! SWALLOWED }

  datatype Error = CallFailed(call: Call) | InvalidVersion | PodsNotReady | CannotRecreate(cause: Error)

  datatype Outcome = Succeeded | Failed(error: Error)

  datatype Result = Result(slot: Slot, outcome: Outcome)

  function Report(f: Faults, call: Call, slot: Slot): Result
  {
    Result(slot, if call in f then Failed(CallFailed(call)) else Succeeded)
  }

  /** The version a creation deploys. */
  function Deployed(cat: Catalog, template: string, version: string): string
    requires template in cat
  {
    if version == "" then cat[template].defaultVersion else version
  }

  function WithState(annotations: map<string, string>, enabled: bool): map<string, string> {
    annotations[STATE_ANNOTATION := if enabled then "1" else "0"]
  }

  // ----- Deletion -----

  function DropStorage(f: Faults, slot: Slot): Result {
    var dropClaim := slot.claim.Some? && ListClaimToDrop !in f;
    if dropClaim && DropClaim in f then Result(slot, Failed(CallFailed(DropClaim)))
    else
      var freed := if dropClaim then slot.(claim := None, volume := Freed(slot.volume)) else slot;
      if freed.volume.None? then Result(freed, Succeeded)
      else if ListVolumeToDrop in f then Report(f, AwaitVolumeGone, freed)
      else if freed.claim.Some? || DropVolume in f then Result(freed, Failed(CallFailed(DropVolume)))
      else Report(f, AwaitVolumeGone, freed.(volume := None))
  }

  function Freed(v: Option<Volume>): Option<Volume> {
    match v
    case None => None
    case Some(v) => Some(v.(released := true))
  }

  function DropAppObject(job: Job, f: Faults, slot: Slot): Result {
    if slot.app.None? || FindApp in f then Result(slot, Succeeded)
    else if DropApp in f then Result(slot, Failed(CallFailed(DropApp)))
    else
      var gone := slot.(app := None, workload := false);
      if AwaitAppGone in f then Result(gone, Failed(CallFailed(AwaitAppGone)))
      else if job.deleteStorage then DropStorage(f, gone)
      else Result(gone, Succeeded)
  }

  function DeleteInstance(job: Job, f: Faults, slot: Slot): Result {
    var dropWorkload := slot.workload && FindWorkload !in f;
    if dropWorkload && DropWorkload in f then Result(slot, Failed(CallFailed(DropWorkload)))
    else DropAppObject(job, f, if dropWorkload then slot.(workload := false) else slot)
  }

  // ----- Creation -----

  /** cleanUpVolume followed by the creation of the volume. The identifier of a released volume is kept
      although the volume has just been deleted, so no new one is made in that case. */
  function PrepareVolume(job: Job, f: Faults, slot: Slot): Result {
    if ListVolume in f then Result(slot, Failed(CallFailed(ListVolume)))
    else
      match slot.volume
      case None =>
        if MakeVolume in f then Result(slot, Failed(CallFailed(MakeVolume)))
        else Result(slot.(volume := Some(Volume(job.storageSize, false))), Succeeded)
      case Some(v) =>
        if v.released && slot.claim.None? then
          if DropReleased in f then Result(slot, Failed(CallFailed(DropReleased)))
          else Report(f, AwaitReleasedGone, slot.(volume := None))
        else Result(slot, Succeeded)
  }

  function PrepareClaim(job: Job, f: Faults, slot: Slot): Result {
    if ListClaim in f then Result(slot, Failed(CallFailed(ListClaim)))
    else if slot.claim.Some? then Result(slot, Succeeded)
    else if MakeClaim in f then Result(slot, Failed(CallFailed(MakeClaim)))
    else
      var claimed := slot.(claim := Some(job.storageSize));
      if slot.volume.None? then Result(claimed, Failed(CallFailed(AwaitBound)))
      else Report(f, AwaitBound, claimed)
  }

  function PrepareStorage(job: Job, f: Faults, slot: Slot): Result {
    if job.storageSize <= 0 then Result(slot, Succeeded)
    else
      var r := PrepareVolume(job, f, slot);
      if r.outcome.Failed? then r else PrepareClaim(job, f, r.slot)
  }

  /** postDeploymentAction: wait for the pods of an enabled instance, or remove the workload of a disabled one. */
  function Settled(job: Job, f: Faults, slot: Slot): Result {
    if ListWorkload in f then Result(slot, Failed(CallFailed(ListWorkload)))
    else if job.enabled then Result(slot, if PodsReady in f then Failed(PodsNotReady) else Succeeded)
    else if !slot.workload then Result(slot, Succeeded)
    else if DisableWorkload in f then Result(slot, Failed(CallFailed(DisableWorkload)))
    else Result(slot.(workload := false), Succeeded)
  }

  function Deploy(job: Job, version: string, f: Faults, slot: Slot): Result {
    if slot.app.Some? || MakeApp in f then Result(slot, Failed(CallFailed(MakeApp)))
    else
      var app := AppObject(job.template, version, WithState(job.annotations, job.enabled));
      var made := slot.(app := Some(app), workload := true);
      if AwaitNotes in f then Result(made, Failed(CallFailed(AwaitNotes)))
      else Settled(job, f, made)
  }

  function CreateInstance(job: Job, version: string, cat: Catalog, f: Faults, slot: Slot): Result {
    if FindTemplate in f || job.template !in cat then Result(slot, Failed(CallFailed(FindTemplate)))
    else if version != "" && version !in cat[job.template].versions then Result(slot, Failed(InvalidVersion))
    else
      var r := PrepareStorage(job, f, slot);
      if r.outcome.Failed? then r else Deploy(job, Deployed(cat, job.template, version), f, r.slot)
  }

  // ----- Upgrade -----

  predicate Offers(cat: Catalog, template: string, version: string) {
    template in cat && version in cat[template].versions
  }

  function UpgradeInstance(job: Job, cat: Catalog, f: Faults, slot: Slot): Result {
    if slot.app.None? || FindRunning in f then Result(slot, Failed(CallFailed(FindRunning)))
    else if FindVersion in f then Result(slot, Failed(CallFailed(FindVersion)))
    else if !Offers(cat, slot.app.value.template, job.requestedVersion) then Result(slot, Failed(InvalidVersion))
    else if ReplaceApp in f then Result(slot, Failed(CallFailed(ReplaceApp)))
    else
      var replaced := slot.app.value.(annotations := WithState(job.annotations, job.enabled));
      if UpgradeApp in f then Result(slot.(app := Some(replaced)), Failed(CallFailed(UpgradeApp)))
      else
        var upgraded := slot.(app := Some(replaced.(version := job.requestedVersion)), workload := true);
        if job.storageSize > 0 && (AwaitUpgradeBound in f || !Bound(upgraded)) then
          Result(upgraded, Failed(CallFailed(AwaitUpgradeBound)))
        else Settled(job, f, upgraded)
  }

  predicate Bound(slot: Slot) { slot.volume.Some? && slot.claim.Some? }

  // ----- One worker -----

  /** What one worker of createUpgradeApps (or of deleteApps) does to its instance when nothing interferes. */
  function RunJob(job: Job, cat: Catalog, f: Faults, slot: Slot): Result {
    match job.action
    case NoAction => Result(slot, Succeeded)
    case Create => CreateInstance(job, job.requestedVersion, cat, f, slot)
    case Upgrade => UpgradeInstance(job, cat, f, slot)
    case Delete => DeleteInstance(job, f, slot)
    case Recreate =>
      var d := DeleteInstance(job, f, slot);
      if d.outcome.Failed? then d
      else
        var c := CreateInstance(job, job.requestedVersion, cat, f, d.slot);
        if c.outcome.Failed? then c.(outcome := Failed(CannotRecreate(c.outcome.error))) else c
  }

  /** A worker that reports success leaves its instance running the requested version (a creation without a
      requested version deploys the template's default) and carrying the job's annotations. An upgrade looks the
      version up in the template the instance was deployed from, a creation in the template of the job. */
  lemma SuccessRunsRequested(job: Job, cat: Catalog, f: Faults, slot: Slot)
    requires job.action in {Create, Upgrade, Recreate}
    requires RunJob(job, cat, f, slot).outcome.Succeeded?
    ensures job.action.Upgrade? ==>
              && slot.app.Some? && Offers(cat, slot.app.value.template, job.requestedVersion)
              && RunJob(job, cat, f, slot).slot.app
                 == Some(AppObject(slot.app.value.template, job.requestedVersion,
                                   WithState(job.annotations, job.enabled)))
    ensures !job.action.Upgrade? ==>
              && job.template in cat
              && (job.requestedVersion == "" || Offers(cat, job.template, job.requestedVersion))
              && RunJob(job, cat, f, slot).slot.app
                 == Some(AppObject(job.template, Deployed(cat, job.template, job.requestedVersion),
                                   WithState(job.annotations, job.enabled)))
  {
  }

  // ----- The client object -----

  /** The cluster as the API client sees it; each operation rewrites only the objects of one instance. */
  class Client {
    var slots: Slots
    const catalog: Catalog

    constructor (slots: Slots, catalog: Catalog)
      ensures this.slots == slots && this.catalog == catalog
    {
      this.slots := slots;
      this.catalog := catalog;
    }

    method Put(name: string, slot: Slot)
      modifies this
      ensures slots == old(slots)[name := slot]
    {
      slots := slots[name := slot];
    }

    method DeleteAppStorage(name: string, f: Faults) returns (outcome: Outcome)
      modifies this
      ensures slots == old(slots)[name := DropStorage(f, At(old(slots), name)).slot]
      ensures outcome == DropStorage(f, At(old(slots), name)).outcome
    {
      var s := At(slots, name);
      Put(name, s);
      if s.claim.Some? && ListClaimToDrop !in f {
        if DropClaim in f { return Failed(CallFailed(DropClaim)); }
        s := s.(claim := None, volume := Freed(s.volume));
        Put(name, s);
      }
      if s.volume.Some? {
        if ListVolumeToDrop !in f {
          if s.claim.Some? || DropVolume in f { return Failed(CallFailed(DropVolume)); }
          s := s.(volume := None);
          Put(name, s);
        }
        if AwaitVolumeGone in f { return Failed(CallFailed(AwaitVolumeGone)); }
      }
      outcome := Succeeded;
    }

    method DeleteAppInstance(job: Job, f: Faults) returns (outcome: Outcome)
      modifies this
      ensures slots == old(slots)[job.name := DeleteInstance(job, f, At(old(slots), job.name)).slot]
      ensures outcome == DeleteInstance(job, f, At(old(slots), job.name)).outcome
    {
      var s := At(slots, job.name);
      Put(job.name, s);
      if s.workload && FindWorkload !in f {
        if DropWorkload in f { return Failed(CallFailed(DropWorkload)); }
        s := s.(workload := false);
        Put(job.name, s);
      }
      if s.app.None? || FindApp in f { return Succeeded; }
      if DropApp in f { return Failed(CallFailed(DropApp)); }
      s := s.(app := None, workload := false);
      Put(job.name, s);
      if AwaitAppGone in f { return Failed(CallFailed(AwaitAppGone)); }
      if job.deleteStorage {
        outcome := DeleteAppStorage(job.name, f);
      } else {
        outcome := Succeeded;
      }
    }

    method PostDeploymentAction(job: Job, f: Faults) returns (outcome: Outcome)
      modifies this
      ensures slots == old(slots)[job.name := Settled(job, f, At(old(slots), job.name)).slot]
      ensures outcome == Settled(job, f, At(old(slots), job.name)).outcome
    {
      var s := At(slots, job.name);
      Put(job.name, s);
      if ListWorkload in f { return Failed(CallFailed(ListWorkload)); }
      if job.enabled {
        outcome := if PodsReady in f then Failed(PodsNotReady) else Succeeded;
      } else {
        if s.workload {
          if DisableWorkload in f { return Failed(CallFailed(DisableWorkload)); }
          Put(job.name, s.(workload := false));
        }
        outcome := Succeeded;
      }
    }

    method CreateStorage(job: Job, f: Faults) returns (outcome: Outcome)
      modifies this
      ensures slots == old(slots)[job.name := PrepareStorage(job, f, At(old(slots), job.name)).slot]
      ensures outcome == PrepareStorage(job, f, At(old(slots), job.name)).outcome
    {
      var s := At(slots, job.name);
      Put(job.name, s);
      if job.storageSize <= 0 { return Succeeded; }
      if ListVolume in f { return Failed(CallFailed(ListVolume)); }
      var found := s.volume.Some?;
      if found && s.volume.value.released && s.claim.None? {
        if DropReleased in f { return Failed(CallFailed(DropReleased)); }
        s := s.(volume := None);
        Put(job.name, s);
        if AwaitReleasedGone in f { return Failed(CallFailed(AwaitReleasedGone)); }
      }
      if !found {
        if MakeVolume in f { return Failed(CallFailed(MakeVolume)); }
        s := s.(volume := Some(Volume(job.storageSize, false)));
        Put(job.name, s);
      }
      if ListClaim in f { return Failed(CallFailed(ListClaim)); }
      if s.claim.None? {
        if MakeClaim in f { return Failed(CallFailed(MakeClaim)); }
        s := s.(claim := Some(job.storageSize));
        Put(job.name, s);
        if s.volume.None? || AwaitBound in f { return Failed(CallFailed(AwaitBound)); }
      }
      outcome := Succeeded;
    }

    method CreateAppInstance(job: Job, version: string, f: Faults) returns (outcome: Outcome)
      modifies this
      ensures slots == old(slots)[job.name := CreateInstance(job, version, catalog, f, At(old(slots), job.name)).slot]
      ensures outcome == CreateInstance(job, version, catalog, f, At(old(slots), job.name)).outcome
    {
      Put(job.name, At(slots, job.name));
      if FindTemplate in f || job.template !in catalog { return Failed(CallFailed(FindTemplate)); }
      if version != "" && version !in catalog[job.template].versions { return Failed(InvalidVersion); }
      outcome := CreateStorage(job, f);
      if outcome.Failed? { return; }
      if At(slots, job.name).app.Some? || MakeApp in f { return Failed(CallFailed(MakeApp)); }
      var deployed := Deployed(catalog, job.template, version);
      var app := AppObject(job.template, deployed, WithState(job.annotations, job.enabled));
      Put(job.name, At(slots, job.name).(app := Some(app), workload := true));
      if AwaitNotes in f { return Failed(CallFailed(AwaitNotes)); }
      outcome := PostDeploymentAction(job, f);
    }

    method UpgradeAppInstance(job: Job, f: Faults) returns (outcome: Outcome)
      modifies this
      ensures slots == old(slots)[job.name := UpgradeInstance(job, catalog, f, At(old(slots), job.name)).slot]
      ensures outcome == UpgradeInstance(job, catalog, f, At(old(slots), job.name)).outcome
    {
      var s := At(slots, job.name);
      Put(job.name, s);
      if s.app.None? || FindRunning in f { return Failed(CallFailed(FindRunning)); }
      if FindVersion in f { return Failed(CallFailed(FindVersion)); }
      if !Offers(catalog, s.app.value.template, job.requestedVersion) { return Failed(InvalidVersion); }
      if ReplaceApp in f { return Failed(CallFailed(ReplaceApp)); }
      s := s.(app := Some(s.app.value.(annotations := WithState(job.annotations, job.enabled))));
      Put(job.name, s);
      if UpgradeApp in f { return Failed(CallFailed(UpgradeApp)); }
      s := s.(app := Some(s.app.value.(version := job.requestedVersion)), workload := true);
      Put(job.name, s);
      if job.storageSize > 0 {
        if AwaitUpgradeBound in f || !Bound(s) { return Failed(CallFailed(AwaitUpgradeBound)); }
      }
      outcome := PostDeploymentAction(job, f);
    }
  }
}
