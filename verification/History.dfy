/** What is recorded with the instances on the cluster, over any sequence of successful calls: the annotations by
    which the next call plans, and the volumes they speak of. */
module History {
  import opened Text
  import opened AppMap
  import opened AppData
  import opened ChartData
  import opened Charting
  import Cluster
  import Executor
  import FirstError
  import Naming
  import Planner
  import Rollback
  import Selection
  import Update
  import Volumes

  /** The annotations of an instance name its template and the version that is deployed, its recorded size is that of
      its volume, and its state can be read; what has no application object has no volume. */
  predicate Recorded(name: string, slot: Cluster.Slot) {
    match slot.app
    case None => slot.volume.None?
    case Some(app) =>
      && name != "" && app.template == name && Get(app.annotations, TEMPLATE_NAME) == name
      && app.version != "" && Get(app.annotations, VERSION) == app.version
      && Get(app.annotations, STATE) in {"0", "1"}
      && RecordedSize(app).Some? && RecordedSize(app).value >= 0
      && Volumes.Agrees(slot, RecordedSize(app).value)
  }

  function RecordedSize(app: Cluster.AppObject): Option<int> { Atoi(Get(app.annotations, VOLUME_SIZE)) }

  ghost predicate AllRecorded(slots: Cluster.Slots) { forall name :: Recorded(name, Cluster.At(slots, name)) }

  // ----- One instance -----

  lemma TemplateKey()
    ensures Identity(TEMPLATE_NAME)
    ensures STATE != VERSION && STATE != TEMPLATE_NAME && STATE != VOLUME_SIZE
  {
    VersionKeysDiffer();
    var l := RESERVED_ANNOTATIONS;
    assert l[7] in l;
    assert |STATE| == 24 && |VERSION| == 26 && |TEMPLATE_NAME| == 32 && |VOLUME_SIZE| == 30;
  }

  lemma PreparedKeepsValues(d: Data, v: Option<Values>, k: string)
    requires Prepared(d, v).Some? && Get(d.maps.annotations, k) != ""
    ensures Get(Prepared(d, v).value.maps.annotations, k) == Get(d.maps.annotations, k)
    ensures Prepared(d, v).value.name == d.name
  {
    PreparedAnnotations(d, v);
  }

  /** A request changes none of the identity annotations that have a value, with and without reused values. */
  lemma ChartedKeepsValues(d: Data, i: Info, m: Maps, v: Option<Values>, c: Config, k: string)
    requires Identity(k) && Get(d.maps.annotations, k) != "" && Charted(d, i, m, v, c).Some?
    ensures Get(Charted(d, i, m, v, c).value.maps.annotations, k) == Get(d.maps.annotations, k)
    ensures Charted(d, i, m, v, c).value.name == d.name
  {
    PreparedKeepsValues(d, v, k);
    FinishedKeepsIdentity(Prepared(d, v).value, i, m, v.Some?, c, k);
  }

  lemma FinishedKeepsIdentity(d: Data, i: Info, m: Maps, reusing: bool, c: Config, k: string)
    requires Identity(k)
    ensures Get(Finished(d, i, m, reusing, c).maps.annotations, k) == Get(d.maps.annotations, k)
    ensures Finished(d, i, m, reusing, c).name == d.name
  {
    RequestedKeepsIdentity(d, i, m, k);
  }

  /** A planned record that suits what is on the cluster: a new instance is to be created, and a running one to be
      changed from the size that is recorded with it. */
  predicate Fits(d: Data, v: Option<Values>, slot: Cluster.Slot) {
    && d.name != "" && Get(d.maps.annotations, TEMPLATE_NAME) == d.name
    && Prepared(d, v).Some? && Prepared(d, v).value.plan.requestedVersion != ""
    && match slot.app
       case None => d.plan.nextAction == Cluster.Create
       case Some(app) =>
         && d.plan.nextAction in {Cluster.Upgrade, Cluster.Recreate}
         && RecordedSize(app) == Some(Prepared(d, v).value.plan.storageSize)
  }

  /** What the job of a charted record says about itself. */
  predicate SaysItself(job: Cluster.Job) {
    && job.name != "" && job.template == job.name == Get(job.annotations, TEMPLATE_NAME)
    && job.requestedVersion != "" && Get(job.annotations, VERSION) == job.requestedVersion
    && Get(job.annotations, VOLUME_SIZE) == Itoa(job.storageSize)
  }

  /** It creates what is not there, or carries out a storage decision on the recorded size of what is. */
  predicate CarriesOut(job: Cluster.Job, slot: Cluster.Slot, requested: int, reusing: bool) {
    && SaysItself(job) && Executor.Started(job)
    && match slot.app
       case None => !job.action.Upgrade?
       case Some(app) =>
         RecordedSize(app).Some?
         && exists action, delete ::
              Volumes.Decided(job, Storage(action, delete, RecordedSize(app).value), requested, reusing)
              && action in {Cluster.Upgrade, Cluster.Recreate}
  }

  lemma ChartedCarriesOut(d: Data, i: Info, m: Maps, v: Option<Values>, c: Config, slot: Cluster.Slot)
    requires Fits(d, v, slot)
    ensures Charted(d, i, m, v, c).Some? && JobOf(Charted(d, i, m, v, c).value).name == d.name
    ensures CarriesOut(JobOf(Charted(d, i, m, v, c).value), slot, i.persistentStorage, v.Some?)
  {
    TemplateKey();
    ChartedKeepsValues(d, i, m, v, c, TEMPLATE_NAME);
    ChartedAnnotations(d, i, m, v, c);
    PreparedPlan(d, v);
    Update.JobIsDecided(d, i, m, v, c);
  }

  lemma AnnotationsRecord(job: Cluster.Job, a: Strings)
    requires SaysItself(job) && 0 <= job.storageSize <= MAX_INT && a == Cluster.WithState(job.annotations, job.enabled)
    ensures Get(a, TEMPLATE_NAME) == job.name && Get(a, VERSION) == job.requestedVersion
    ensures Get(a, STATE) in {"0", "1"} && Atoi(Get(a, VOLUME_SIZE)) == Some(job.storageSize)
  {
    TemplateKey();
    AtoiItoa(job.storageSize);
  }

  /** A successful worker leaves a well-recorded instance well recorded. */
  lemma WorkerKeepsRecorded(job: Cluster.Job, requested: int, reusing: bool, cat: Cluster.Catalog, f: Cluster.Faults,
                            slot: Cluster.Slot)
    requires Recorded(job.name, slot) && CarriesOut(job, slot, requested, reusing)
    requires 0 <= job.storageSize <= MAX_INT && Cluster.Quiet(f)
    requires Cluster.RunJob(job, cat, f, slot).outcome.Succeeded?
    ensures Recorded(job.name, Cluster.RunJob(job, cat, f, slot).slot)
  {
    Cluster.SuccessRunsRequested(job, cat, f, slot);
    AnnotationsRecord(job, Cluster.WithState(job.annotations, job.enabled));
    if slot.app.Some? {
      var size := RecordedSize(slot.app.value).value;
      var action, delete :| Volumes.Decided(job, Storage(action, delete, size), requested, reusing)
                            && action in {Cluster.Upgrade, Cluster.Recreate};
      Volumes.AgreementIsKept(job, Storage(action, delete, size), requested, reusing, cat, f, slot);
    } else {
      Volumes.AgreesExactly(job, cat, f, slot);
    }
  }

  // ----- Sequences of calls -----

  /** A call as it reaches createUpgradeApps: the planned records, the values reused for each, what the request
      carries, the jobs made of them, and the schedule of the workers. */
  datatype Call = Call(records: seq<Data>, values: seq<Option<Values>>, info: Info, maps: Maps, config: Config,
                       plan: Executor.Plan, schedule: seq<nat>)
  {
    predicate Valid() { plan.Valid() && |records| == |values| == |plan.jobs| && Executor.DistinctNames(plan.jobs) }

    /** The job carries out a record that fits the cluster, and no swallowed lookup fails. */
    predicate Sound(w: nat, slots: Cluster.Slots)
      requires Valid() && w < |records|
    {
      && Fits(records[w], values[w], Cluster.At(slots, records[w].name))
      && Charted(records[w], info, maps, values[w], config).Some?
      && plan.jobs[w] == JobOf(Charted(records[w], info, maps, values[w], config).value)
      && 0 <= plan.jobs[w].storageSize <= MAX_INT && Cluster.Quiet(plan.faults[w])
    }

    function End(slots: Cluster.Slots): Cluster.Slots
      requires Valid()
    {
      Executor.Run(plan, Executor.Start(plan, slots), schedule).slots
    }

    /** It reports no error; instances that need nothing may be among the records. */
    predicate Succeeds(slots: Cluster.Slots) {
      && Valid()
      && (forall w :: 0 <= w < |records| && Executor.Started(plan.jobs[w]) ==> Sound(w, slots))
      && Executor.Complete(Executor.Run(plan, Executor.Start(plan, slots), schedule))
      && Executor.Run(plan, Executor.Start(plan, slots), schedule).errors == []
    }
  }

  lemma JobKeepsRecorded(call: Call, slots: Cluster.Slots, w: nat)
    requires AllRecorded(slots) && call.Succeeds(slots) && w < |call.records| && Executor.Started(call.plan.jobs[w])
    ensures Recorded(call.plan.jobs[w].name, Cluster.At(call.End(slots), call.plan.jobs[w].name))
  {
    var job := call.plan.jobs[w];
    assert call.Sound(w, slots);
    ChartedCarriesOut(call.records[w], call.info, call.maps, call.values[w], call.config,
                      Cluster.At(slots, call.records[w].name));
    LandedIsRecorded(call.plan, slots, call.schedule, w, call.info.persistentStorage, call.values[w].Some?);
  }

  lemma LandedIsRecorded(p: Executor.Plan, slots: Cluster.Slots, schedule: seq<nat>, w: nat, requested: int,
                         reusing: bool)
    requires p.Valid() && Executor.DistinctNames(p.jobs) && AllRecorded(slots)
    requires Executor.Complete(Executor.Run(p, Executor.Start(p, slots), schedule))
    requires Executor.Run(p, Executor.Start(p, slots), schedule).errors == []
    requires w < |p.jobs| && CarriesOut(p.jobs[w], Cluster.At(slots, p.jobs[w].name), requested, reusing)
    requires 0 <= p.jobs[w].storageSize <= MAX_INT && Cluster.Quiet(p.faults[w])
    ensures var end := Executor.Run(p, Executor.Start(p, slots), schedule).slots;
            Recorded(p.jobs[w].name, Cluster.At(end, p.jobs[w].name))
  {
    var job := p.jobs[w];
    assert Executor.Started(job);
    assert Recorded(job.name, Cluster.At(slots, job.name));
    Executor.NoErrorMeansDone(p, slots, schedule);
    assert Executor.Final(p, slots, w).outcome.Succeeded?;
    WorkerKeepsRecorded(job, requested, reusing, p.catalog, p.faults[w], Cluster.At(slots, job.name));
  }

  /** A successful call leaves a well-recorded cluster well recorded, whatever the schedule. */
  lemma CallKeepsRecorded(call: Call, slots: Cluster.Slots)
    requires AllRecorded(slots) && call.Succeeds(slots)
    ensures AllRecorded(call.End(slots))
  {
    Executor.NoErrorMeansDone(call.plan, slots, call.schedule);
    forall name ensures Recorded(name, Cluster.At(call.End(slots), name)) {
      if Executor.Planned(call.plan, name) {
        var w :| 0 <= w < |call.plan.jobs| && Executor.Started(call.plan.jobs[w]) && call.plan.jobs[w].name == name;
        JobKeepsRecorded(call, slots, w);
      } else {
        assert Recorded(name, Cluster.At(slots, name));
      }
    }
  }

  /** The cluster after some calls, all of them successful. */
  predicate AllSucceed(calls: seq<Call>, slots: Cluster.Slots)
    decreases |calls|, 0
  {
    calls == [] || (var n := |calls| - 1;
                    AllSucceed(calls[..n], slots) && calls[n].Succeeds(EndOf(calls[..n], slots)))
  }

  function EndOf(calls: seq<Call>, slots: Cluster.Slots): Cluster.Slots
    requires AllSucceed(calls, slots)
    decreases |calls|, 1
  {
    if calls == [] then slots
    else
      var n := |calls| - 1;
      calls[n].End(EndOf(calls[..n], slots))
  }

  /** From the empty cluster, after any sequence of successful calls, every instance is recorded with the template and
      version that are deployed and with the size of its volume, and a volume belongs to an application object. */
  lemma {:induction false} AlwaysRecorded(calls: seq<Call>)
    requires AllSucceed(calls, map[])
    ensures AllRecorded(EndOf(calls, map[]))
  {
    if calls != [] {
      var n := |calls| - 1;
      AlwaysRecorded(calls[..n]);
      CallKeepsRecorded(calls[n], EndOf(calls[..n], map[]));
    }
  }

  // ----- The next call -----

  lemma ListedIsRecorded(items: seq<Selection.Item>, slots: Cluster.Slots, k: nat)
    requires AllRecorded(slots) && Selection.Lists(items, slots) && k < |items|
    ensures var app := Cluster.At(slots, items[k].name).app;
            && app.Some? && Recorded(items[k].name, Cluster.At(slots, items[k].name))
            && Selection.SizeOf(items[k]) == RecordedSize(app.value) && items[k].external == Some(app.value.version)
            && Selection.StateOf(items[k]).Some?
  {
    assert Recorded(items[k].name, Cluster.At(slots, items[k].name));
    AtoiItoa(0);
    AtoiItoa(1);
    assert Itoa(0) == "0" && Itoa(1) == "1";
  }

  /** Every request can read every listing of such a cluster. */
  lemma EveryListingIsReadable(q: Selection.Query, items: seq<Selection.Item>, slots: Cluster.Slots)
    requires AllRecorded(slots) && Selection.Lists(items, slots)
    ensures Selection.Readable(q, items)
  {
    forall k | 0 <= k < |items| ensures !Selection.Unreadable(q, items[k]) {
      ListedIsRecorded(items, slots, k);
    }
  }

  /** A running instance, planned as it is when the request has no group ids, fits. */
  lemma RunningFits(q: Selection.Query, items: seq<Selection.Item>, slots: Cluster.Slots, k: nat)
    requires AllRecorded(slots) && Selection.Lists(items, slots) && k < |items| && Selection.Selected(q, items[k])
    ensures !Selection.Unreadable(q, items[k])
    ensures Fits(Selection.RecordOf(q, items[k]), None, Cluster.At(slots, items[k].name))
  {
    ListedIsRecorded(items, slots, k);
  }

  lemma NewRecordName(q: Selection.Query, gid: string, cycle: string, description: string, state: int)
    ensures var d := Selection.NewRecord(q, gid, cycle, description, state);
            d.name != "" && Get(d.maps.annotations, TEMPLATE_NAME) == d.name
  {
    assert |Naming.InstanceName(q.name, q.rootGroup, gid)| > 0;
  }

  /** A name runs exactly when there is a match for it among the running instances. */
  lemma MatchExactly(q: Selection.Query, items: seq<Selection.Item>, running: seq<Planner.Running>,
                     slots: Cluster.Slots, name: string)
    requires Rollback.Found(q, items, running, slots)
    requires forall k :: 0 <= k < |items| && items[k].name == name ==> Selection.Stored(q, items[k], q.name)
    ensures Cluster.At(slots, name).app.Some? <==> exists j :: Planner.Match(name, running, j)
  {
    if j :| Planner.Match(name, running, j) {
      var k := Selection.RecordIsListed(q, items, q.name, j);
    }
    if Cluster.At(slots, name).app.Some? {
      var k :| 0 <= k < |items| && items[k].name == name;
      Selection.StoredIsRecorded(q, items, q.name, k);
      var j :| 0 <= j < |running| && Selection.Records(q, items, q.name)[j].name == name;
      assert Planner.Match(name, running, j);
    }
  }

  /** A found instance was listed with a version. */
  lemma FoundHasVersion(q: Selection.Query, items: seq<Selection.Item>, running: seq<Planner.Running>,
                        slots: Cluster.Slots, j: nat)
    requires Rollback.Found(q, items, running, slots) && AllRecorded(slots) && j < |running|
    ensures running[j].data.plan.requestedVersion != ""
  {
    Selection.RecordsRefineFilter(q, items, q.name);
    var k := Selection.Places(q, items, q.name)[j];
    ListedIsRecorded(items, slots, k);
  }

  /** A requested instance, planned as it is when the request has group ids, fits exactly when it does not run yet or
      has the size of the last running instance: the planner records that size for all of them. */
  lemma RequestedFitsExactly(q: Selection.Query, gid: string, cycle: string, description: string, state: int,
                             policy: bool, items: seq<Selection.Item>, running: seq<Planner.Running>,
                             slots: Cluster.Slots)
    requires Rollback.Found(q, items, running, slots) && AllRecorded(slots) && (q.version != "" || running != [])
    requires forall k :: 0 <= k < |items| && items[k].name == Naming.InstanceName(q.name, q.rootGroup, gid) ==>
               Selection.Stored(q, items[k], q.name)
    ensures var d := Selection.NewRecord(q, gid, cycle, description, state);
            var app := Cluster.At(slots, d.name).app;
            Fits(Update.Planned(d, running, policy, q.version), None, Cluster.At(slots, d.name))
            <==> app.None? || (running != []
                               && RecordedSize(app.value) == Some(running[|running| - 1].data.plan.storageSize))
  {
    var d := Selection.NewRecord(q, gid, cycle, description, state);
    NewRecordName(q, gid, cycle, description, state);
    Rollback.FoundNamesDistinct(q, items, running, slots);
    MatchExactly(q, items, running, slots, d.name);
    Planner.Classification(d.name, d.plan, running, policy, q.version);
    if running != [] { FoundHasVersion(q, items, running, slots, |running| - 1); }
    var planned := Update.Planned(d, running, policy, q.version);
    PreparedPlan(planned, None);
    assert Prepared(planned, None).Some? && Prepared(planned, None).value.plan == planned.plan;
  }

  /** Where the cluster is well recorded, the charts of the running instances are found by their annotations. */
  lemma FoundIsAnnotated(q: Selection.Query, items: seq<Selection.Item>, running: seq<Planner.Running>,
                         slots: Cluster.Slots, ds: seq<Data>)
    requires Rollback.Found(q, items, running, slots) && AllRecorded(slots)
    requires forall i :: 0 <= i < |ds| ==> Get(ds[i].maps.annotations, TEMPLATE_NAME) == ds[i].name
    ensures Update.Annotated(ds, running)
  {
    forall i, j | 0 <= i < |ds| && Planner.Match(ds[i].name, running, j)
      ensures Get(running[j].data.maps.annotations, TEMPLATE_NAME) == Get(ds[i].maps.annotations, TEMPLATE_NAME)
      ensures Get(running[j].data.maps.annotations, VERSION) == running[j].data.plan.currentVersion
    {
      FoundIsRecorded(q, items, running, slots, j);
    }
  }

  lemma FoundIsRecorded(q: Selection.Query, items: seq<Selection.Item>, running: seq<Planner.Running>,
                        slots: Cluster.Slots, j: nat)
    requires Rollback.Found(q, items, running, slots) && AllRecorded(slots) && j < |running|
    ensures var e, slot := running[j].data, Cluster.At(slots, running[j].data.name);
            && slot.app.Some? && Recorded(e.name, slot) && e.maps.annotations == slot.app.value.annotations
            && e.plan.currentVersion == slot.app.value.version
            && Some(e.plan.storageSize) == RecordedSize(slot.app.value)
            && e.plan.nextAction in {Cluster.Upgrade, Cluster.Recreate}
  {
    Selection.RecordsRefineFilter(q, items, q.name);
    var k := Selection.Places(q, items, q.name)[j];
    ListedIsRecorded(items, slots, k);
  }

  // ----- Rollbacks -----

  /** The annotations a replay deploys are those of another job, which speak of that job's version and size. */
  predicate Notes(job: Cluster.Job, version: string, size: int) {
    && job.name != "" && job.template == job.name == Get(job.annotations, TEMPLATE_NAME)
    && Get(job.annotations, VERSION) == version && Get(job.annotations, VOLUME_SIZE) == Itoa(size)
  }

  predicate OfTemplate(slot: Cluster.Slot, template: string) {
    slot.app.Some? ==> slot.app.value.template == template
  }

  lemma CreationKeepsTemplate(job: Cluster.Job, cat: Cluster.Catalog, f: Cluster.Faults, slot: Cluster.Slot)
    requires OfTemplate(slot, job.template)
    ensures OfTemplate(Cluster.CreateInstance(job, job.requestedVersion, cat, f, slot).slot, job.template)
  {
    Volumes.StorageFailsExactly(job, f, slot);
  }

  lemma TemplateStays(job: Cluster.Job, cat: Cluster.Catalog, f: Cluster.Faults, slot: Cluster.Slot)
    requires OfTemplate(slot, job.template)
    ensures OfTemplate(Cluster.RunJob(job, cat, f, slot).slot, job.template)
  {
    CreationKeepsTemplate(job, cat, f, slot);
    var d := Cluster.DeleteInstance(job, f, slot);
    assert OfTemplate(d.slot, job.template);
    CreationKeepsTemplate(job, cat, f, d.slot);
  }

  /** Whether the volume has the noted size after a replay. */
  predicate NotedVolume(job: Cluster.Job, middle: Cluster.Slot, size: int) {
    if job.action.Recreate? && (middle.app.Some? || (job.storageSize > 0 && middle.volume.None?)) then
      job.storageSize == size
    else Volumes.Agrees(middle, size)
  }

  lemma ReplayedWorker(job: Cluster.Job, version: string, size: int, cat: Cluster.Catalog, f: Cluster.Faults,
                       middle: Cluster.Slot)
    requires job.action in {Cluster.Upgrade, Cluster.Recreate} && job.deleteStorage && job.requestedVersion != ""
    requires Notes(job, version, size) && 0 <= size <= MAX_INT && job.storageSize >= 0
    requires OfTemplate(middle, job.name)
    requires Cluster.Quiet(f) && Cluster.RunJob(job, cat, f, middle).outcome.Succeeded?
    ensures Recorded(job.name, Cluster.RunJob(job, cat, f, middle).slot)
            <==> version == job.requestedVersion && NotedVolume(job, middle, size)
  {
    Cluster.SuccessRunsRequested(job, cat, f, middle);
    Volumes.SuccessVolume(job, cat, f, middle);
    TemplateKey();
    AtoiItoa(size);
  }

  predicate ChartedJob(d: Data, i: Info, m: Maps, v: Option<Values>, c: Config, job: Cluster.Job, notes: Strings) {
    Charted(d, i, m, v, c).Some? && job == JobOf(Charted(d, i, m, v, c).value) && notes == job.annotations
  }

  /** An update without group ids: every running instance is planned, the forward jobs are those of the charted
      records, and the maps of the backups are the maps that were charted. */
  predicate Ungrouped(a: Rollback.Attempt, i: Info, m: Maps, values: seq<Option<Values>>, c: Config) {
    && a.names == [] && |a.forward.jobs| == |a.running| == |a.notes| == |values|
    && forall j :: 0 <= j < |a.running| ==>
         ChartedJob(a.running[j].data, i, m, values[j], c, a.forward.jobs[j], a.notes[j])
  }

  lemma UngroupedNotes(a: Rollback.Attempt, i: Info, m: Maps, values: seq<Option<Values>>, c: Config,
                       slots: Cluster.Slots, w: nat)
    requires AllRecorded(slots) && Rollback.Valid(a, slots) && Ungrouped(a, i, m, values, c) && w < |a.running|
    ensures var e, f, job := a.running[w].data, a.forward.jobs[w], a.replay.jobs[w];
            && Notes(job, f.requestedVersion, f.storageSize) && job.name == f.name == f.template == e.name
            && Executor.Started(f) && job.deleteStorage && job.action in {Cluster.Upgrade, Cluster.Recreate}
            && job.requestedVersion == e.plan.currentVersion != "" && job.storageSize == e.plan.storageSize >= 0
            && Recorded(e.name, Cluster.At(slots, e.name)) && Cluster.At(slots, e.name).app.Some?
  {
    var e, v := a.running[w].data, values[w];
    FoundIsRecorded(a.query, a.items, a.running, slots, w);
    TemplateKey();
    ChartedKeepsValues(e, i, m, v, c, TEMPLATE_NAME);
    ChartedAnnotations(e, i, m, v, c);
    PreparedPlan(e, v);
    Rollback.BackupAsksForOldVersion(a.running[w], a.policy, a.notes[w]);
    assert Rollback.IsBackupOf(a, a.backups[w], w);
  }

  /** A rollback without group ids breaks the record of an instance exactly when the update asked for another version,
      or the volume does not have the size that the update would have given it: the annotations are those of the
      update. With group ids the backups keep the old annotations. */
  lemma RollbackRecordsExactly(a: Rollback.Attempt, i: Info, m: Maps, values: seq<Option<Values>>, c: Config,
                               slots: Cluster.Slots, forward: seq<nat>, back: seq<nat>, w: nat)
    requires AllRecorded(slots) && Rollback.Valid(a, slots) && Ungrouped(a, i, m, values, c)
    requires Rollback.Replayed(a.forward, a.replay, slots, forward, back)
    requires w < |a.running| && 0 <= a.forward.jobs[w].storageSize <= MAX_INT && Cluster.Quiet(a.replay.faults[w])
    ensures var e, f, job := a.running[w].data, a.forward.jobs[w], a.replay.jobs[w];
            Recorded(e.name, Cluster.At(Rollback.End(a, slots, forward, back), e.name))
            <==> f.requestedVersion == e.plan.currentVersion
                 && NotedVolume(job, Executor.Final(a.forward, slots, w).slot, f.storageSize)
  {
    var e, f, job := a.running[w].data, a.forward.jobs[w], a.replay.jobs[w];
    UngroupedNotes(a, i, m, values, c, slots, w);
    var middle := Executor.Run(a.forward, Executor.Start(a.forward, slots), forward).slots;
    FirstError.LandedAt(a.forward, slots, forward, w);
    TemplateStays(f, a.forward.catalog, a.forward.faults[w], Cluster.At(slots, e.name));
    Rollback.ReplayIsInverse(a, slots);
    Executor.NoErrorMeansDone(a.replay, middle, back);
    assert Executor.Final(a.replay, middle, w).outcome.Succeeded?;
    ReplayedWorker(job, f.requestedVersion, f.storageSize, a.replay.catalog, a.replay.faults[w],
                   Cluster.At(middle, e.name));
  }
}
