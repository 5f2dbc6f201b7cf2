/** CreateApp called twice: the annotations that the first call leaves on the cluster are what the second call finds
    its instances by. */
module CreateApp {
  import opened Text
  import opened AppMap
  import opened AppData
  import opened ChartData
  import opened Charting
  import opened Selection
  import Cluster
  import Executor
  import Naming

  // ----- Classification -----

  /** The loops over requested and running instances: what runs already is left alone. The catalog is asked for the
      instance's template once per other running instance; an answer None stands for a failed lookup. */
  method Classify(d: Instance, running: seq<Data>, answers: seq<Option<bool>>) returns (ok: bool)
    requires |answers| == |running|
    modifies d`nextAction, d`templateAvailable
    ensures ok <==> forall j :: 0 <= j < |running| && running[j].name != d.name ==> answers[j].Some?
    ensures ok ==> d.nextAction == if Runs(d.name, running) then Cluster.NoAction else old(d.nextAction)
    ensures ok && running != [] ==>
              var last := |running| - 1;
              d.templateAvailable == (running[last].name == d.name || answers[last] == Some(true))
    ensures running == [] ==> d.templateAvailable == old(d.templateAvailable)
  {
    for j := 0 to |running|
      invariant forall k :: 0 <= k < j && running[k].name != d.name ==> answers[k].Some?
      invariant d.nextAction == if Runs(d.name, running[..j]) then Cluster.NoAction else old(d.nextAction)
      invariant j > 0 ==> d.templateAvailable == (running[j - 1].name == d.name || answers[j - 1] == Some(true))
      invariant j == 0 ==> d.templateAvailable == old(d.templateAvailable)
    {
      assert Runs(d.name, running[..j + 1]) <==> Runs(d.name, running[..j]) || running[j].name == d.name by {
        assert running[..j + 1] == running[..j] + [running[j]];
        assert running[..j + 1][j] == running[j];
        assert forall k :: 0 <= k < j ==> running[..j + 1][k] == running[..j][k];
      }
      if running[j].name == d.name {
        d.nextAction, d.templateAvailable := Cluster.NoAction, true;
      } else {
        if answers[j].None? { return false; }
        d.templateAvailable := answers[j].value;
      }
    }
    assert running[..|running|] == running;
    ok := true;
  }

  // ----- What the first call leaves -----

  lemma IdentityKeys()
    ensures Identity(BASENAME) && Identity(CYCLE) && Identity(ROOT_GROUP_ID) && Identity(GROUP_ID)
    ensures STATE != BASENAME && STATE != CYCLE && STATE != ROOT_GROUP_ID && STATE != GROUP_ID && STATE != VOLUME_SIZE
  {
    var l := RESERVED_ANNOTATIONS;
    assert l[0] in l && l[1] in l && l[3] in l && l[4] in l;
    assert |VERSION| == 26 && |SCHEDULE| == 18 && |IMAGE_REPO| == 34 && |IMAGE_TAG| == 28 && |VOLUME_SIZE| == 30;
    assert |BASENAME| == 18 && BASENAME[10] == 'b' && SCHEDULE[10] == 's';
    assert |CYCLE| == 15 && |ROOT_GROUP_ID| == 32 && |GROUP_ID| == 27 && |STATE| == 24;
  }

  /** The annotations an instance is found by. */
  predicate Identified(a: Strings, q: Query, gid: string, cycle: string, size: int) {
    && Get(a, BASENAME) == q.name && Get(a, CYCLE) == cycle && Get(a, GROUP_ID) == gid
    && (q.rootGroup != "" ==> Get(a, ROOT_GROUP_ID) == q.rootGroup)
    && Get(a, VOLUME_SIZE) == Itoa(size)
  }

  lemma FirstIdentity(q: Query, gid: string, cycle: string, d: Data, i: Info, m: Maps, c: Config)
    requires d.maps.annotations == NewAnnotations(q, gid, cycle)
    ensures Charted(d, i, m, None, c).Some?
    ensures var a := Charted(d, i, m, None, c).value.maps.annotations;
            && Get(a, BASENAME) == q.name && Get(a, CYCLE) == cycle && Get(a, GROUP_ID) == gid
            && (q.rootGroup != "" ==> Get(a, ROOT_GROUP_ID) == q.rootGroup)
  {
    IdentityKeys();
    NewAnnotationsAre(q, gid, cycle);
    ChartedKeepsIdentity(d, i, m, c, BASENAME);
    ChartedKeepsIdentity(d, i, m, c, CYCLE);
    ChartedKeepsIdentity(d, i, m, c, ROOT_GROUP_ID);
    ChartedKeepsIdentity(d, i, m, c, GROUP_ID);
  }

  /** What is decided for a requested instance when nothing of it runs: its record says create, and everything it
      will be found by is written down. */
  lemma FirstDecision(q: Query, gid: string, cycle: string, d: Data, i: Info, m: Maps, c: Config)
    requires d.maps.annotations == NewAnnotations(q, gid, cycle) && d.plan.storageSize == -1
    requires d.plan.nextAction in {Cluster.Create, Cluster.NoAction}
    ensures Charted(d, i, m, None, c).Some?
    ensures var r := Charted(d, i, m, None, c).value;
            && Identified(r.maps.annotations, q, gid, cycle, i.persistentStorage)
            && r.plan.nextAction == d.plan.nextAction && r.name == d.name && r.state == d.state
  {
    IdentityKeys();
    ChartedKeepsIdentity(d, i, m, c, BASENAME);
    FirstIdentity(q, gid, cycle, d, i, m, c);
    ChartedAnnotations(d, i, m, None, c);
  }

  /** The second call finds the instance: its annotations still pass every filter of the request, and its state and
      size can be read. */
  lemma InstanceIsFound(q: Query, gid: string, cycle: string, a: Strings, enabled: bool, size: int, item: Item)
    requires q.name != "" && gid != "" && gid in q.groups && q.cycle in {"", cycle} && 0 <= size <= MAX_INT
    requires Identified(a, q, gid, cycle, size)
    requires item.external.Some? && item.annotations == Cluster.WithState(a, enabled)
    ensures Selected(q, item) && item.App() == q.name && !Unreadable(q, item)
  {
    IdentityKeys();
    AtoiItoa(size);
    AtoiItoa(0);
    AtoiItoa(1);
    assert Get(item.annotations, STATE) == Itoa(if enabled then 1 else 0);
  }

  // ----- The two calls -----

  /** The parts of a request besides the query, and the controller's configuration. */
  datatype Rest = Rest(cycle: string, description: string, state: int, info: Info, maps: Maps, config: Config)

  predicate ValidCall(q: Query, r: Rest) {
    && q.name != "" && q.cycle in {"", r.cycle} && r.info.persistentStorage <= MAX_INT
    && forall g :: 0 <= g < |q.groups| ==> q.groups[g] != ""
  }

  /** The requested record after classification: what runs is left alone. */
  function Classified(q: Query, r: Rest, gid: string, runs: bool): Data {
    var d := NewRecord(q, gid, r.cycle, r.description, r.state);
    d.(plan := d.plan.(nextAction := if runs then Cluster.NoAction else Cluster.Create))
  }

  /** The job of a requested instance; its chart data is set unless its template is available or the charts come
      from the catalog. */
  function JobFor(q: Query, r: Rest, gid: string, runs: bool, charted: bool): Cluster.Job {
    var d := Classified(q, r, gid, runs);
    match Charted(d, r.info, r.maps, None, r.config)
    case Some(e) => JobOf(if charted then e else d)
    case None => JobOf(d)
  }

  lemma JobDecision(q: Query, r: Rest, gid: string, runs: bool, charted: bool)
    ensures var job := JobFor(q, r, gid, runs, charted);
            && job.action == (if runs then Cluster.NoAction else Cluster.Create)
            && job.name == Naming.InstanceName(q.name, q.rootGroup, gid)
            && (charted ==> Identified(job.annotations, q, gid, r.cycle, r.info.persistentStorage))
            && (!charted ==> job.annotations == NewAnnotations(q, gid, r.cycle))
  {
    FirstDecision(q, gid, r.cycle, Classified(q, r, gid, runs), r.info, r.maps, r.config);
  }

  /** One job per group id; runs and charted say for each whether it runs already and whether its chart is set. */
  predicate CallPlan(p: Executor.Plan, q: Query, r: Rest, runs: seq<bool>, charted: seq<bool>) {
    && p.Valid() && |p.jobs| == |runs| == |charted| == |q.groups|
    && forall g :: 0 <= g < |q.groups| ==> p.jobs[g] == JobFor(q, r, q.groups[g], runs[g], charted[g])
  }

  ghost predicate NothingApplies(q: Query, slots: Cluster.Slots) {
    forall name :: Cluster.At(slots, name).app.Some? ==> !Applies(q, Cluster.At(slots, name).app.value.annotations)
  }

  /** The first call: nothing of the request runs, every job is a creation, and there was no error. */
  ghost predicate FirstCall(p: Executor.Plan, q: Query, r: Rest, charted: bool, slots: Cluster.Slots,
                            schedule: seq<nat>)
  {
    && ValidCall(q, r) && NothingApplies(q, slots) && Executor.DistinctNames(p.jobs)
    && CallPlan(p, q, r, seq(|q.groups|, _ => false), seq(|q.groups|, _ => charted))
    && var s := Executor.Run(p, Executor.Start(p, slots), schedule);
       Executor.Complete(s) && s.errors == []
  }

  function SlotsAfter(p: Executor.Plan, slots: Cluster.Slots, schedule: seq<nat>): Cluster.Slots
    requires p.Valid()
  {
    Executor.Run(p, Executor.Start(p, slots), schedule).slots
  }

  lemma FirstJobRuns(p: Executor.Plan, q: Query, r: Rest, charted: bool, slots: Cluster.Slots, schedule: seq<nat>,
                     g: nat)
    requires FirstCall(p, q, r, charted, slots, schedule) && g < |q.groups|
    ensures p.jobs[g] == JobFor(q, r, q.groups[g], false, charted)
    ensures p.jobs[g].action == Cluster.Create && Executor.Started(p.jobs[g])
    ensures var app := Cluster.At(SlotsAfter(p, slots, schedule), p.jobs[g].name).app;
            app.Some? && app.value.annotations == Cluster.WithState(p.jobs[g].annotations, p.jobs[g].enabled)
  {
    JobDecision(q, r, q.groups[g], false, charted);
    Executor.NoErrorMeansDone(p, slots, schedule);
    assert Executor.Started(p.jobs[g]);
    assert Executor.Runs(p.catalog, p.jobs[g], SlotsAfter(p, slots, schedule));
  }

  /** What is listed after the first call is one of its instances, or does not answer the request. */
  lemma ListedAfterFirst(p: Executor.Plan, q: Query, r: Rest, charted: bool, slots: Cluster.Slots, schedule: seq<nat>,
                         items: seq<Item>, k: nat)
    requires FirstCall(p, q, r, charted, slots, schedule) && Lists(items, SlotsAfter(p, slots, schedule))
    requires k < |items| && !Executor.Planned(p, items[k].name)
    ensures !Candidate(q, items[k])
  {
    Executor.NoErrorMeansDone(p, slots, schedule);
    var after := SlotsAfter(p, slots, schedule);
    assert Executor.Untouched(p, slots, after);
    assert Cluster.At(after, items[k].name) == Cluster.At(slots, items[k].name);
  }

  lemma FirstInstanceIsFound(p: Executor.Plan, q: Query, r: Rest, slots: Cluster.Slots, schedule: seq<nat>,
                             items: seq<Item>, g: nat, k: nat)
    requires FirstCall(p, q, r, true, slots, schedule) && Lists(items, SlotsAfter(p, slots, schedule))
    requires g < |q.groups| && k < |items|
    requires items[k].name == Naming.InstanceName(q.name, q.rootGroup, q.groups[g])
    ensures Stored(q, items[k], q.name) && !Unreadable(q, items[k])
  {
    FirstJobRuns(p, q, r, true, slots, schedule, g);
    JobDecision(q, r, q.groups[g], false, true);
    InstanceIsFound(q, q.groups[g], r.cycle, p.jobs[g].annotations, p.jobs[g].enabled, r.info.persistentStorage,
                    items[k]);
  }

  /** After a successful first call, whatever order the cluster lists its applications in: the second call can read
      the listing, and finds every requested instance among the running ones. */
  lemma SecondCallFinds(p: Executor.Plan, q: Query, r: Rest, slots: Cluster.Slots, schedule: seq<nat>, items: seq<Item>)
    requires FirstCall(p, q, r, true, slots, schedule) && Lists(items, SlotsAfter(p, slots, schedule))
    ensures Readable(q, items)
    ensures forall g :: 0 <= g < |q.groups| ==> Runs(p.jobs[g].name, Records(q, items, q.name))
  {
    forall g | 0 <= g < |q.groups|
      ensures p.jobs[g].name == Naming.InstanceName(q.name, q.rootGroup, q.groups[g])
    {
      FirstJobRuns(p, q, r, true, slots, schedule, g);
      JobDecision(q, r, q.groups[g], false, true);
    }
    forall k | 0 <= k < |items| ensures !Unreadable(q, items[k]) {
      if Executor.Planned(p, items[k].name) {
        var g :| 0 <= g < |p.jobs| && Executor.Started(p.jobs[g]) && p.jobs[g].name == items[k].name;
        FirstInstanceIsFound(p, q, r, slots, schedule, items, g, k);
      } else {
        ListedAfterFirst(p, q, r, true, slots, schedule, items, k);
      }
    }
    forall g | 0 <= g < |q.groups| ensures Runs(p.jobs[g].name, Records(q, items, q.name)) {
      FirstJobRuns(p, q, r, true, slots, schedule, g);
      var k :| 0 <= k < |items| && items[k].name == p.jobs[g].name;
      FirstInstanceIsFound(p, q, r, slots, schedule, items, g, k);
      StoredIsRecorded(q, items, q.name, k);
    }
  }

  lemma {:induction false} IdlePlan(p: Executor.Plan, slots: Cluster.Slots, schedule: seq<nat>)
    requires p.Valid() && forall g :: 0 <= g < |p.jobs| ==> p.jobs[g].action == Cluster.NoAction
    ensures Executor.Run(p, Executor.Start(p, slots), schedule) == Executor.Start(p, slots)
    ensures Executor.Complete(Executor.Start(p, slots))
  {
    if schedule != [] {
      IdlePlan(p, slots, schedule[..|schedule| - 1]);
    }
  }

  /** What the second call finds running. */
  function RunsIn(q: Query, items: seq<Item>): (runs: seq<bool>)
    ensures |runs| == |q.groups|
  {
    seq(|q.groups|, g requires 0 <= g < |q.groups| =>
      Readable(q, items) && Runs(Naming.InstanceName(q.name, q.rootGroup, q.groups[g]), Records(q, items, q.name)))
  }

  /** CreateApp is idempotent: the second call plans nothing, changes nothing on the cluster and has nothing done to
      report, so it answers that the application is deployed already. */
  lemma SecondCallIsUnchanged(p: Executor.Plan, q: Query, r: Rest, slots: Cluster.Slots, schedule: seq<nat>,
                              items: seq<Item>, second: Executor.Plan, charted: seq<bool>, again: seq<nat>)
    requires FirstCall(p, q, r, true, slots, schedule) && Lists(items, SlotsAfter(p, slots, schedule))
    requires CallPlan(second, q, r, RunsIn(q, items), charted)
    ensures Readable(q, items)
    ensures var after := SlotsAfter(p, slots, schedule);
            var s := Executor.Run(second, Executor.Start(second, after), again);
            Executor.Complete(s) && s.slots == after && s.done == [] && s.errors == []
  {
    SecondCallFinds(p, q, r, slots, schedule, items);
    forall g | 0 <= g < |q.groups| ensures second.jobs[g].action == Cluster.NoAction {
      FirstJobRuns(p, q, r, true, slots, schedule, g);
      JobDecision(q, r, q.groups[g], false, true);
      JobDecision(q, r, q.groups[g], RunsIn(q, items)[g], charted[g]);
    }
    IdlePlan(second, SlotsAfter(p, slots, schedule), again);
  }

  /** When the charts come from the catalog no size is recorded with the instances, so after a successful first call
      every listing fails and the application can no longer be created, updated or upgraded through the same query. */
  lemma FromCatalogIsUnreadable(p: Executor.Plan, q: Query, r: Rest, slots: Cluster.Slots, schedule: seq<nat>,
                                items: seq<Item>)
    requires FirstCall(p, q, r, false, slots, schedule) && Lists(items, SlotsAfter(p, slots, schedule))
    requires q.groups != []
    ensures !Readable(q, items)
  {
    FirstJobRuns(p, q, r, false, slots, schedule, 0);
    JobDecision(q, r, q.groups[0], false, false);
    var k :| 0 <= k < |items| && items[k].name == p.jobs[0].name;
    NewAnnotationsAre(q, q.groups[0], r.cycle);
    NoSizeYet(q, q.groups[0], r.cycle);
    SizelessIsUnreadable(q, q.groups[0], r.cycle, p.jobs[0].annotations, p.jobs[0].enabled, items[k]);
  }

  lemma SizelessIsUnreadable(q: Query, gid: string, cycle: string, a: Strings, enabled: bool, item: Item)
    requires q.name != "" && gid != "" && gid in q.groups && q.cycle in {"", cycle}
    requires Get(a, BASENAME) == q.name && Get(a, CYCLE) == cycle && Get(a, GROUP_ID) == gid
    requires q.rootGroup != "" ==> Get(a, ROOT_GROUP_ID) == q.rootGroup
    requires VOLUME_SIZE !in a && item.annotations == Cluster.WithState(a, enabled)
    ensures Unreadable(q, item)
  {
    IdentityKeys();
  }

  lemma NoSizeYet(q: Query, gid: string, cycle: string)
    ensures VOLUME_SIZE !in NewAnnotations(q, gid, cycle)
  {
    assert |VOLUME_SIZE| == 30 && |BASENAME| == 18 && |CYCLE| == 15 && |ROOT_GROUP_ID| == 32 && |GROUP_ID| == 27;
    assert |VERSION| == 26 && |ID| == 21 && |TEMPLATE_NAME| == 32;
  }
}
