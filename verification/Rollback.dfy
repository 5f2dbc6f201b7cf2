/** The whole of a failed update: the listing, the backups made from it, a forward run of the plan that leaves
    whatever it leaves, and the replay of the backups on that cluster. */
module Rollback {
  import opened Text
  import opened AppMap
  import AppData
  import opened Cluster
  import opened Executor
  import opened FirstError
  import opened Volumes
  import Planner
  import Selection

  /** What the replay runs for a backup, over the annotations its map holds by then. */
  function JobOf(b: Planner.Backup, annotations: Strings): Job {
    Job(b.name, b.plan.nextAction, b.plan.currentVersion, b.plan.requestedVersion, b.state == 1, b.plan.storageSize,
        b.plan.deleteStorage, Get(annotations, AppData.TEMPLATE_NAME), annotations)
  }

  /** A backup asks for the version its instance was found running, always deletes the storage, and is one of the
      two actions that keep an instance; its size and state are the annotated ones, and it is replayed from the template
      its map names. */
  lemma BackupAsksForOldVersion(e: Planner.Running, policy: bool, annotations: Strings)
    requires Planner.BackupOf(e, policy).Some?
    ensures var job := JobOf(Planner.BackupOf(e, policy).value, annotations);
            && Started(job) && !job.action.Create? && job.deleteStorage
            && job.name == e.data.name && job.requestedVersion == e.data.plan.currentVersion
            && (job.action.Recreate? <==> policy || e.data.plan.requestedVersion == e.data.plan.currentVersion)
            && Atoi(Get(e.data.maps.annotations, AppData.VOLUME_SIZE)) == Some(job.storageSize)
            && (job.enabled <==> Atoi(Get(e.data.maps.annotations, AppData.STATE)) == Some(1))
            && job.template == Get(annotations, AppData.TEMPLATE_NAME) && job.annotations == annotations
            && job.currentVersion == e.data.plan.requestedVersion
  {
  }

  function VersionAt(slots: Slots, name: string): Option<string> {
    var app := At(slots, name).app;
    if app.None? then None else Some(app.value.version)
  }

  // ----- From the listing to the replay -----

  /** One update: the query and the listing it was answered with, the running instances found in it, the requested
      names (none when the request has no group ids), the backups, the annotations their maps hold when they are
      replayed, and the two plans. */
  datatype Attempt = Attempt(query: Selection.Query, items: seq<Selection.Item>, running: seq<Planner.Running>,
                             names: seq<string>, policy: bool, backups: seq<Planner.Backup>, notes: seq<Strings>,
                             forward: Plan, replay: Plan)

  /** The running instances are those that a query finds in a listing of the cluster. */
  ghost predicate Found(q: Selection.Query, items: seq<Selection.Item>, running: seq<Planner.Running>, slots: Slots) {
    && Selection.Lists(items, slots) && Selection.Readable(q, items)
    && |running| == |Selection.Records(q, items, q.name)|
    && forall j :: 0 <= j < |running| ==> running[j].data == Selection.Records(q, items, q.name)[j]
  }

  ghost predicate Listed(a: Attempt, slots: Slots) { Found(a.query, a.items, a.running, slots) }

  /** The backups are those of the planning loops, with or without group ids. */
  predicate BackedUp(a: Attempt) {
    if a.names == [] then Planner.BacksUp(a.backups, a.running, a.policy)
    else Planner.BackupList(a.names, a.running, a.policy) == Some(a.backups)
         && forall i, j :: 0 <= i < j < |a.names| ==> a.names[i] != a.names[j]
  }

  /** Both plans are made for the same instances: the requested ones, or all running ones. */
  predicate Plans(a: Attempt) {
    && a.forward.Valid() && DistinctNames(a.forward.jobs)
    && a.replay.Valid() && |a.replay.jobs| == |a.backups| == |a.notes|
    && (forall i :: 0 <= i < |a.backups| ==> a.replay.jobs[i] == JobOf(a.backups[i], a.notes[i]))
    && (forall i :: 0 <= i < |a.forward.jobs| && Started(a.forward.jobs[i]) ==>
          if a.names == [] then Runs(a.forward.jobs[i].name, a.running) else a.forward.jobs[i].name in a.names)
  }

  predicate Runs(name: string, running: seq<Planner.Running>) {
    exists j :: 0 <= j < |running| && running[j].data.name == name
  }

  ghost predicate Valid(a: Attempt, slots: Slots) { Listed(a, slots) && BackedUp(a) && Plans(a) }

  lemma RunningAsListed(a: Attempt, slots: Slots, j: nat)
    requires Listed(a, slots) && j < |a.running|
    ensures VersionAt(slots, a.running[j].data.name) == Some(a.running[j].data.plan.currentVersion)
  {
    var k := Selection.RecordIsListed(a.query, a.items, a.query.name, j);
    assert At(slots, a.items[k].name).app.Some?;
  }

  lemma FoundNamesDistinct(q: Selection.Query, items: seq<Selection.Item>, running: seq<Planner.Running>, slots: Slots)
    requires Found(q, items, running, slots)
    ensures Planner.DistinctNames(running)
  {
    forall i, j | 0 <= i < j < |running| ensures running[i].data.name != running[j].data.name {
      var k := Selection.RecordIsListed(q, items, q.name, i);
      var l := Selection.RecordIsListed(q, items, q.name, j);
      Selection.PlacesExact(q, items, q.name);
      assert k < l;
    }
  }

  predicate IsBackupOf(a: Attempt, b: Planner.Backup, j: int) {
    0 <= j < |a.running| && Planner.BackupOf(a.running[j], a.policy) == Some(b)
  }

  lemma BackupIsOfRunning(a: Attempt, slots: Slots, i: nat) returns (j: nat)
    requires Listed(a, slots) && BackedUp(a) && i < |a.backups|
    ensures IsBackupOf(a, a.backups[i], j)
  {
    if a.names == [] {
      j := i;
    } else {
      FoundNamesDistinct(a.query, a.items, a.running, slots);
      Planner.BackupsExact(a.names, a.running, a.policy);
      assert a.backups[i] in a.backups;
      var n, l :| 0 <= n < |a.names| && Planner.Match(a.names[n], a.running, l)
                  && Planner.BackupOf(a.running[l], a.policy) == Some(a.backups[i]);
      j := l;
    }
  }

  /** No two backups have one name. */
  lemma BackupNamesDistinct(a: Attempt, slots: Slots, i: nat, k: nat)
    requires Listed(a, slots) && BackedUp(a) && i < k < |a.backups|
    ensures a.backups[i].name != a.backups[k].name
  {
    FoundNamesDistinct(a.query, a.items, a.running, slots);
    if a.names == [] {
      assert IsBackupOf(a, a.backups[i], i) && IsBackupOf(a, a.backups[k], k);
    } else {
      Planner.BackupsExact(a.names, a.running, a.policy);
    }
  }

  /** The replay plan asks for the versions that ran before the update, whatever its backups' maps hold by then. */
  lemma ReplayIsInverse(a: Attempt, slots: Slots)
    requires Valid(a, slots)
    ensures DistinctNames(a.replay.jobs)
    ensures forall i :: 0 <= i < |a.replay.jobs| ==>
              && a.replay.jobs[i].action in {Upgrade, Recreate} && a.replay.jobs[i].deleteStorage
              && VersionAt(slots, a.replay.jobs[i].name) == Some(a.replay.jobs[i].requestedVersion)
  {
    forall i, k | 0 <= i < k < |a.backups| ensures a.backups[i].name != a.backups[k].name {
      BackupNamesDistinct(a, slots, i, k);
    }
    forall i | 0 <= i < |a.replay.jobs|
      ensures a.replay.jobs[i].name == a.backups[i].name
      ensures a.replay.jobs[i].action in {Upgrade, Recreate} && a.replay.jobs[i].deleteStorage
      ensures VersionAt(slots, a.replay.jobs[i].name) == Some(a.replay.jobs[i].requestedVersion)
    {
      var j := BackupIsOfRunning(a, slots, i);
      BackupAsksForOldVersion(a.running[j], a.policy, a.notes[i]);
      RunningAsListed(a, slots, j);
    }
  }

  // ----- Forward and back -----

  /** The cluster after both runs. */
  function After(p: Plan, q: Plan, slots: Slots, forward: seq<nat>, back: seq<nat>): Exec
    requires p.Valid() && q.Valid()
  {
    Run(q, Start(q, Run(p, Start(p, slots), forward).slots), back)
  }

  predicate Replayed(p: Plan, q: Plan, slots: Slots, forward: seq<nat>, back: seq<nat>)
    requires p.Valid() && q.Valid()
  {
    && Complete(Run(p, Start(p, slots), forward))
    && Complete(After(p, q, slots, forward, back)) && After(p, q, slots, forward, back).errors == []
  }

  function End(a: Attempt, slots: Slots, forward: seq<nat>, back: seq<nat>): Slots
    requires a.forward.Valid() && a.replay.Valid()
  {
    After(a.forward, a.replay, slots, forward, back).slots
  }

  /** The replay deploys the version it asks for: not so when it re-creates an instance without a version, which
      deploys the template's default. */
  predicate AsksFor(job: Job, cat: Catalog) {
    job.requestedVersion != "" || job.action.Upgrade?
    || (job.template in cat && cat[job.template].defaultVersion == "")
  }

  /** Whatever mix of successes and failures the forward run leaves, a replay of the backups that reports success
      leaves every backed-up instance at the version it was listed with, exactly when that version is not empty or
      the replay does not fall back on the template's default. */
  lemma InversePlan(a: Attempt, slots: Slots, forward: seq<nat>, back: seq<nat>, i: nat)
    requires Valid(a, slots) && Replayed(a.forward, a.replay, slots, forward, back) && i < |a.replay.jobs|
    ensures VersionAt(End(a, slots, forward, back), a.replay.jobs[i].name) == VersionAt(slots, a.replay.jobs[i].name)
            <==> AsksFor(a.replay.jobs[i], a.replay.catalog)
  {
    ReplayIsInverse(a, slots);
    var middle := Run(a.forward, Start(a.forward, slots), forward).slots;
    NoErrorMeansDone(a.replay, middle, back);
    assert Started(a.replay.jobs[i]);
    assert Executor.Runs(a.replay.catalog, a.replay.jobs[i], End(a, slots, forward, back));
  }

  /** Instances of neither plan are untouched, and an instance of the forward plan that was not backed up is left
      as the forward run left it. */
  lemma OutsideReplay(p: Plan, q: Plan, slots: Slots, forward: seq<nat>, back: seq<nat>, name: string)
    requires p.Valid() && q.Valid() && DistinctNames(p.jobs) && DistinctNames(q.jobs)
    requires Replayed(p, q, slots, forward, back) && !Planned(q, name)
    ensures var end := After(p, q, slots, forward, back).slots;
            && (!Planned(p, name) ==> (name in end <==> name in slots) && At(end, name) == At(slots, name))
            && (forall i :: 0 <= i < |p.jobs| && Started(p.jobs[i]) && p.jobs[i].name == name ==>
                  At(end, name) == Final(p, slots, i).slot)
  {
    var s := Run(p, Start(p, slots), forward);
    RunKeepsInv(p, slots, forward);
    CompleteIsLanded(p, slots, s);
    NoErrorMeansDone(q, s.slots, back);
  }

  // ----- Restoring the whole cluster -----

  ghost predicate SameVersions(a: Slots, b: Slots) { forall name :: VersionAt(a, name) == VersionAt(b, name) }

  /** No requested name belongs to an instance that the query does not select. */
  ghost predicate NoStrangers(a: Attempt, slots: Slots) {
    forall k :: 0 <= k < |a.items| && a.items[k].name in a.names ==> Selection.Stored(a.query, a.items[k], a.query.name)
  }

  lemma RunningIsBackedUp(a: Attempt, slots: Slots, j: nat)
    requires Valid(a, slots) && j < |a.running| && (a.names == [] || a.running[j].data.name in a.names)
    ensures Planned(a.replay, a.running[j].data.name)
  {
    FoundNamesDistinct(a.query, a.items, a.running, slots);
    ReplayIsInverse(a, slots);
    var name := a.running[j].data.name;
    var i: nat;
    if a.names == [] {
      i := j;
      assert Planner.BackupOf(a.running[j], a.policy) == Some(a.backups[j]);
    } else {
      Planner.BackupsExact(a.names, a.running, a.policy);
      var n :| 0 <= n < |a.names| && a.names[n] == name;
      assert Planner.Match(a.names[n], a.running, j);
      i :| i < |a.backups| && a.backups[i] == Planner.BackupOf(a.running[j], a.policy).value;
    }
    assert a.replay.jobs[i].name == name && Started(a.replay.jobs[i]);
  }

  /** The planned instances that are not backed up did not exist. */
  lemma OthersAreNew(a: Attempt, slots: Slots, i: nat)
    requires Valid(a, slots) && NoStrangers(a, slots)
    requires i < |a.forward.jobs| && Started(a.forward.jobs[i]) && !Planned(a.replay, a.forward.jobs[i].name)
    ensures At(slots, a.forward.jobs[i].name).app.None?
  {
    var name := a.forward.jobs[i].name;
    if a.names == [] {
      var j :| 0 <= j < |a.running| && a.running[j].data.name == name;
      RunningIsBackedUp(a, slots, j);
    } else if At(slots, name).app.Some? {
      var k :| 0 <= k < |a.items| && a.items[k].name == name;
      Selection.StoredIsRecorded(a.query, a.items, a.query.name, k);
      var j :| 0 <= j < |a.running| && Selection.Records(a.query, a.items, a.query.name)[j].name == name;
      RunningIsBackedUp(a, slots, j);
    }
  }

  /** The new instance of worker i is not removed by the rollback, and was made: no call that its application object
      depends on failed. */
  predicate LeftBehind(a: Attempt, slots: Slots, i: nat)
    requires a.forward.Valid() && i < |a.forward.jobs|
  {
    && Started(a.forward.jobs[i]) && !Planned(a.replay, a.forward.jobs[i].name)
    && LeavesApp(a.forward.jobs[i], a.forward.catalog, a.forward.faults[i], At(slots, a.forward.jobs[i].name))
  }

  /** A successful rollback restores the versions of the whole cluster exactly when some call kept each of the new
      instances from getting an application object: those that have one are left behind. */
  lemma RestoredExactly(a: Attempt, slots: Slots, forward: seq<nat>, back: seq<nat>)
    requires Valid(a, slots) && NoStrangers(a, slots) && Replayed(a.forward, a.replay, slots, forward, back)
    requires forall i :: 0 <= i < |a.replay.jobs| ==> AsksFor(a.replay.jobs[i], a.replay.catalog)
    ensures SameVersions(slots, End(a, slots, forward, back))
            <==> forall i :: 0 <= i < |a.forward.jobs| ==> !LeftBehind(a, slots, i)
  {
    var end := End(a, slots, forward, back);
    ReplayIsInverse(a, slots);
    forall i | 0 <= i < |a.forward.jobs| && Started(a.forward.jobs[i]) && !Planned(a.replay, a.forward.jobs[i].name)
      ensures VersionAt(slots, a.forward.jobs[i].name) == VersionAt(end, a.forward.jobs[i].name)
              <==> !LeftBehind(a, slots, i)
    {
      NewInstanceRestored(a, slots, forward, back, i);
    }
    forall name |
        forall i :: 0 <= i < |a.forward.jobs| && Started(a.forward.jobs[i]) && a.forward.jobs[i].name == name ==>
          Planned(a.replay, name)
      ensures VersionAt(slots, name) == VersionAt(end, name)
    {
      if Planned(a.replay, name) {
        var i :| 0 <= i < |a.replay.jobs| && Started(a.replay.jobs[i]) && a.replay.jobs[i].name == name;
        InversePlan(a, slots, forward, back, i);
      } else {
        OutsideReplay(a.forward, a.replay, slots, forward, back, name);
      }
    }
  }

  lemma NewInstanceRestored(a: Attempt, slots: Slots, forward: seq<nat>, back: seq<nat>, i: nat)
    requires Valid(a, slots) && NoStrangers(a, slots) && Replayed(a.forward, a.replay, slots, forward, back)
    requires i < |a.forward.jobs| && Started(a.forward.jobs[i]) && !Planned(a.replay, a.forward.jobs[i].name)
    ensures VersionAt(slots, a.forward.jobs[i].name) == VersionAt(End(a, slots, forward, back), a.forward.jobs[i].name)
            <==> !LeftBehind(a, slots, i)
  {
    var job := a.forward.jobs[i];
    ReplayIsInverse(a, slots);
    OthersAreNew(a, slots, i);
    OutsideReplay(a.forward, a.replay, slots, forward, back, job.name);
    NewInstanceDeploysExactly(job, a.forward.catalog, a.forward.faults[i], At(slots, job.name));
  }

  /** The volume of a backed-up instance after a successful replay without swallowed lookups: a re-creation
      restores the recorded size exactly when the forward run left the application in place, or left no volume
      where one is needed, or left the right one; an upgrade never touches the volume. */
  lemma VolumeAfterReplay(a: Attempt, slots: Slots, forward: seq<nat>, back: seq<nat>, i: nat)
    requires Valid(a, slots) && Replayed(a.forward, a.replay, slots, forward, back)
    requires i < |a.replay.jobs| && Quiet(a.replay.faults[i])
    ensures var job := a.replay.jobs[i];
            var middle := At(Run(a.forward, Start(a.forward, slots), forward).slots, job.name);
            Agrees(At(End(a, slots, forward, back), job.name), job.storageSize)
            <==> Agrees(middle, job.storageSize)
                 || (job.action.Recreate? && (middle.app.Some? || (job.storageSize > 0 && middle.volume.None?)))
  {
    ReplayIsInverse(a, slots);
    assert Started(a.replay.jobs[i]);
    PlanAgrees(a.replay, Run(a.forward, Start(a.forward, slots), forward).slots, back, i);
  }
}
