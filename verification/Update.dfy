/** An update from planning to its end: what the planner records, SetChartData decides and the workers carry out,
    for the volumes of the instances and for their charts. */
module Update {
  import opened Text
  import opened AppMap
  import opened AppData
  import opened ChartData
  import opened Charting
  import opened Planner
  import Charts
  import Cluster
  import Executor
  import Selection
  import Volumes

  /** A requested instance after the comparison with the running ones. */
  function Planned(d: Data, running: seq<Running>, policy: bool, version: string): Data {
    d.(plan := Compared(d.name, d.plan, running, policy, version))
  }

  // ----- Volumes -----

  /** The job of a charted instance carries out the storage decision on what the planner recorded, or on the size
      read back from the reused chart. */
  lemma JobIsDecided(d: Data, i: Info, m: Maps, v: Option<Values>, c: Config)
    requires Prepared(d, v).Some?
    ensures Charted(d, i, m, v, c).Some?
    ensures var e := Prepared(d, v).value.plan;
            Volumes.Decided(JobOf(Charted(d, i, m, v, c).value),
                            Storage(e.nextAction, e.deleteStorage, e.storageSize), i.persistentStorage, v.Some?)
  {
    ChartedAnnotations(d, i, m, v, c);
  }

  /** Volumes follow the request: an instance that is planned to be upgraded or re-created, and whose volume agrees
      with the size the decision is made on, ends with a volume of its final size when that is positive and with none
      otherwise, in every interleaving that reports no error. */
  lemma ChartedConverges(e: Data, i: Info, m: Maps, v: Option<Values>, c: Config, p: Executor.Plan,
                         slots: Cluster.Slots, schedule: seq<nat>, w: nat)
    requires e.plan.nextAction in {Cluster.Upgrade, Cluster.Recreate} && Prepared(e, v).Some?
    requires Prepared(e, v).value.plan.storageSize >= 0
    requires p.Valid() && Executor.DistinctNames(p.jobs) && w < |p.jobs| && Cluster.Quiet(p.faults[w])
    requires Charted(e, i, m, v, c).Some? && p.jobs[w] == JobOf(Charted(e, i, m, v, c).value)
    requires Executor.Complete(Executor.Run(p, Executor.Start(p, slots), schedule))
    requires Executor.Run(p, Executor.Start(p, slots), schedule).errors == []
    requires Cluster.At(slots, p.jobs[w].name).app.Some?
    requires Volumes.Agrees(Cluster.At(slots, p.jobs[w].name), Prepared(e, v).value.plan.storageSize)
    ensures Volumes.Agrees(Cluster.At(Executor.Run(p, Executor.Start(p, slots), schedule).slots, p.jobs[w].name),
                           p.jobs[w].storageSize)
  {
    PreparedPlan(e, v);
    JobIsDecided(e, i, m, v, c);
    var plan := Prepared(e, v).value.plan;
    WorkerConverges(Storage(plan.nextAction, plan.deleteStorage, plan.storageSize), i.persistentStorage, v.Some?, p,
                    slots, schedule, w);
  }

  /** A request with group ids: the planned record is a requested one with a running match, and the decision is made
      on the size of the match when all running instances have one size and none is read back from a chart. */
  lemma VolumeConverges(d: Data, running: seq<Running>, j: nat, policy: bool, version: string, i: Info, m: Maps,
                        v: Option<Values>, c: Config, p: Executor.Plan, slots: Cluster.Slots, schedule: seq<nat>,
                        w: nat)
    requires DistinctNames(running) && Match(d.name, running, j) && d.plan.nextAction == Cluster.Create
    requires Charted(Planned(d, running, policy, version), i, m, v, c).Some?
    requires p.Valid() && Executor.DistinctNames(p.jobs) && w < |p.jobs| && Cluster.Quiet(p.faults[w])
    requires p.jobs[w] == JobOf(Charted(Planned(d, running, policy, version), i, m, v, c).value)
    requires Executor.Complete(Executor.Run(p, Executor.Start(p, slots), schedule))
    requires Executor.Run(p, Executor.Start(p, slots), schedule).errors == []
    requires running[j].data.plan.storageSize >= 0
    requires Prepared(Planned(d, running, policy, version), v).value.plan.storageSize
             == running[j].data.plan.storageSize
    requires Cluster.At(slots, p.jobs[w].name).app.Some?
    requires Volumes.Agrees(Cluster.At(slots, p.jobs[w].name), running[j].data.plan.storageSize)
    ensures var after := Executor.Run(p, Executor.Start(p, slots), schedule).slots;
            Volumes.Agrees(Cluster.At(after, p.jobs[w].name), p.jobs[w].storageSize)
  {
    Classification(d.name, d.plan, running, policy, version);
    ChartedConverges(Planned(d, running, policy, version), i, m, v, c, p, slots, schedule, w);
  }

  /** A request without group ids: the planned record is the running one itself, as it was read from the listing. */
  lemma RunningVolumeConverges(q: Selection.Query, item: Selection.Item, i: Info, m: Maps, v: Option<Values>,
                               c: Config, p: Executor.Plan, slots: Cluster.Slots, schedule: seq<nat>, w: nat)
    requires Selection.Selected(q, item) && !Selection.Unreadable(q, item)
    requires Charted(Selection.RecordOf(q, item), i, m, v, c).Some?
    requires p.Valid() && Executor.DistinctNames(p.jobs) && w < |p.jobs| && Cluster.Quiet(p.faults[w])
    requires p.jobs[w] == JobOf(Charted(Selection.RecordOf(q, item), i, m, v, c).value)
    requires Executor.Complete(Executor.Run(p, Executor.Start(p, slots), schedule))
    requires Executor.Run(p, Executor.Start(p, slots), schedule).errors == []
    requires Selection.SizeOf(item).value >= 0
    requires Prepared(Selection.RecordOf(q, item), v).value.plan.storageSize == Selection.SizeOf(item).value
    requires Cluster.At(slots, p.jobs[w].name).app.Some?
    requires Volumes.Agrees(Cluster.At(slots, p.jobs[w].name), Selection.SizeOf(item).value)
    ensures var after := Executor.Run(p, Executor.Start(p, slots), schedule).slots;
            Volumes.Agrees(Cluster.At(after, p.jobs[w].name), p.jobs[w].storageSize)
  {
    ChartedConverges(Selection.RecordOf(q, item), i, m, v, c, p, slots, schedule, w);
  }

  /** A requested instance that does not exist yet: without errors its volume agrees with its size exactly when it
      had none, or one of that size was left from before. */
  lemma NewVolumeConverges(p: Executor.Plan, slots: Cluster.Slots, schedule: seq<nat>, w: nat)
    requires p.Valid() && Executor.DistinctNames(p.jobs) && w < |p.jobs|
    requires p.jobs[w].action in {Cluster.Create, Cluster.Recreate}
    requires Executor.Complete(Executor.Run(p, Executor.Start(p, slots), schedule))
    requires Executor.Run(p, Executor.Start(p, slots), schedule).errors == []
    requires Cluster.At(slots, p.jobs[w].name).app.None?
    ensures var before := Cluster.At(slots, p.jobs[w].name);
            var after := Cluster.At(Executor.Run(p, Executor.Start(p, slots), schedule).slots, p.jobs[w].name);
            Volumes.Agrees(after, p.jobs[w].storageSize)
            <==> before.volume.None? || Volumes.Agrees(before, p.jobs[w].storageSize)
  {
    assert Executor.Started(p.jobs[w]);
    Volumes.PlanAgrees(p, slots, schedule, w);
  }

  lemma WorkerConverges(s: Storage, requested: int, reusing: bool, p: Executor.Plan, slots: Cluster.Slots,
                        schedule: seq<nat>, w: nat)
    requires p.Valid() && Executor.DistinctNames(p.jobs) && w < |p.jobs| && Cluster.Quiet(p.faults[w])
    requires Volumes.Decided(p.jobs[w], s, requested, reusing) && s.size >= 0
    requires s.action in {Cluster.Upgrade, Cluster.Recreate}
    requires Executor.Complete(Executor.Run(p, Executor.Start(p, slots), schedule))
    requires Executor.Run(p, Executor.Start(p, slots), schedule).errors == []
    requires Cluster.At(slots, p.jobs[w].name).app.Some?
    requires Volumes.Agrees(Cluster.At(slots, p.jobs[w].name), s.size)
    ensures Volumes.Agrees(Cluster.At(Executor.Run(p, Executor.Start(p, slots), schedule).slots, p.jobs[w].name),
                           p.jobs[w].storageSize)
  {
    assert Executor.Started(p.jobs[w]);
    Executor.NoErrorMeansDone(p, slots, schedule);
    assert Executor.Final(p, slots, w).outcome.Succeeded?;
    Volumes.AgreementIsKept(p.jobs[w], s, requested, reusing, p.catalog, p.faults[w],
                            Cluster.At(slots, p.jobs[w].name));
  }

  // ----- Charts -----

  function ItemOf(d: Data, chart: Charts.Chart): Charts.Item {
    Charts.Item(Get(d.maps.annotations, TEMPLATE_NAME), d.plan.currentVersion, d.plan.requestedVersion, chart)
  }

  /** The update writes the chart of an instance under its template and the version that is planned for it, if no later
      instance writes over it. */
  lemma NewChartIsWritten(r: Charts.Repo, plan: seq<Charts.Item>, i: nat, d: Data, chart: Charts.Chart)
    requires i < |plan| && plan[i] == ItemOf(d, chart)
    requires forall j :: i < j < |plan| ==> !Charts.Covers(plan[j].New(), plan[i].New())
    ensures Charts.Find(Charts.RewrittenAll(r, plan).charts,
                        Charts.Path(Get(d.maps.annotations, TEMPLATE_NAME), d.plan.requestedVersion)) == Some(chart)
  {
    Charts.LastWriteStays(r, plan, i, plan[i].New());
  }

  /** The chart a rollback restores for a backup, found through the annotations the backup shares. */
  function ChartOf(b: Backup, annotations: Strings): Charts.Path {
    Charts.Path(Get(annotations, TEMPLATE_NAME), b.plan.requestedVersion)
  }

  /** The chart a backup restores is the chart that was backed up for its instance exactly when the version
      annotation of the running instance names the version that was deployed. */
  lemma ChartBelongsExactly(d: Data, running: seq<Running>, j: nat, policy: bool, version: string,
                            chart: Charts.Chart, annotations: Strings)
    requires DistinctNames(running) && Match(d.name, running, j) && d.plan.nextAction == Cluster.Create
    requires BackupOf(running[j], policy).Some?
    requires Get(annotations, TEMPLATE_NAME) == Get(d.maps.annotations, TEMPLATE_NAME)
    ensures ChartOf(BackupOf(running[j], policy).value, annotations)
            == ItemOf(Planned(d, running, policy, version), chart).Old()
            <==> Get(running[j].data.maps.annotations, VERSION) == running[j].data.plan.currentVersion
  {
    Classification(d.name, d.plan, running, policy, version);
  }

  /** The chart a running instance was deployed from. */
  function DeployedChart(e: Data): Charts.Path {
    Charts.Path(Get(e.maps.annotations, TEMPLATE_NAME), e.plan.currentVersion)
  }

  /** The requested instances, the running ones, and the planned items with the charts to be restored. */
  ghost predicate ChartUpdate(ds: seq<Data>, running: seq<Running>, policy: bool, version: string,
                              plan: seq<Charts.Item>, list: seq<Charts.Path>)
  {
    && DistinctNames(running) && |plan| == |ds|
    && (forall i :: 0 <= i < |ds| ==> ds[i].plan.nextAction == Cluster.Create)
    && (forall i :: 0 <= i < |ds| ==>
          plan[i].template == Get(ds[i].maps.annotations, TEMPLATE_NAME)
          && plan[i].current == Planned(ds[i], running, policy, version).plan.currentVersion)
    && (forall r :: r in list ==> exists i, j ::
          0 <= i < |ds| && Match(ds[i].name, running, j)
          && r == DeployedChart(running[j].data))
  }

  /** Every running instance that is asked for has the template of its request and is annotated with the version
      that is deployed. */
  ghost predicate Annotated(ds: seq<Data>, running: seq<Running>) {
    forall i, j :: 0 <= i < |ds| && Match(ds[i].name, running, j) ==>
      && Get(running[j].data.maps.annotations, TEMPLATE_NAME) == Get(ds[i].maps.annotations, TEMPLATE_NAME)
      && Get(running[j].data.maps.annotations, VERSION) == running[j].data.plan.currentVersion
  }

  lemma OldChart(ds: seq<Data>, running: seq<Running>, policy: bool, version: string, plan: seq<Charts.Item>,
                 list: seq<Charts.Path>, i: nat, j: nat)
    requires ChartUpdate(ds, running, policy, version, plan, list) && Annotated(ds, running)
    requires i < |ds| && Match(ds[i].name, running, j)
    ensures plan[i].Old()
            == DeployedChart(running[j].data)
  {
    Classification(ds[i].name, ds[i].plan, running, policy, version);
  }

  /** Rolling an update back restores every backed-up chart and leaves all other charts alone except the new charts
      of the planned instances, whenever the templates are distinct and the annotations are right. */
  lemma UpdateRollsBackCharts(ds: seq<Data>, running: seq<Running>, policy: bool, version: string,
                              plan: seq<Charts.Item>, list: seq<Charts.Path>, r: Charts.Repo, k: Charts.Path)
    requires ChartUpdate(ds, running, policy, version, plan, list) && Annotated(ds, running)
    requires Charts.DistinctTemplates(plan)
    requires Charts.RestoresAt(list, k) || !Charts.Rewrites(plan, k)
    ensures var after := Charts.RewrittenAll(r, plan);
            Charts.Find(Charts.RestoredAll(after.charts, after.backup, list), k) == Charts.Find(r.charts, k)
  {
    forall path | path in list
      ensures exists i :: 0 <= i < |plan| && plan[i].template == path.template
      ensures forall l :: 0 <= l < |plan| && plan[l].template == path.template ==> plan[l].current == path.version
    {
      var i, j :| 0 <= i < |ds| && Match(ds[i].name, running, j)
        && path == DeployedChart(running[j].data);
      OldChart(ds, running, policy, version, plan, list, i, j);
      assert plan[i].Old() == path;
    }
    Charts.DistinctIsUndisturbed(plan);
    Charts.RollbackRestores(r, plan, list, k);
  }

  /** The charts of the backup list are such charts. */
  lemma BackupsNameOldCharts(ds: seq<Data>, running: seq<Running>, policy: bool, b: Backup)
    requires DistinctNames(running)
    requires forall i, j :: 0 <= i < j < |ds| ==> ds[i].name != ds[j].name
    requires BackupList(NamesOf(ds), running, policy).Some? && b in BackupList(NamesOf(ds), running, policy).value
    ensures exists i, j :: 0 <= i < |ds| && Match(ds[i].name, running, j) && BackupOf(running[j], policy) == Some(b)
              && ChartOf(b, running[j].data.maps.annotations)
                 == DeployedChart(running[j].data)
  {
    BackupsExact(NamesOf(ds), running, policy);
    var i, j :| 0 <= i < |NamesOf(ds)| && Match(NamesOf(ds)[i], running, j) && BackupOf(running[j], policy) == Some(b);
    assert Match(ds[i].name, running, j);
  }

  function NamesOf(ds: seq<Data>): seq<string> { seq(|ds|, i requires 0 <= i < |ds| => ds[i].name) }
}
