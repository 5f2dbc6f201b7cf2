/** An input for which a successful rollback leaves an instance recorded with a version it does not run. */
module HistoryCases {
  import opened Text
  import opened AppMap
  import opened AppData
  import opened ChartData
  import opened Charting
  import opened Cluster
  import opened Executor
  import opened FirstError
  import opened History
  import opened RollbackCases
  import Rollback
  import Selection

  /** A well-recorded instance without a volume, and a request without group ids for another version that the catalog
      has. */
  predicate OtherVersion(c: Scene, i: Info) {
    && c.Valid() && Recorded(c.item.name, c.Slots()[c.item.name]) && c.volume.None? && c.claim.None? && !c.policy
    && Get(c.item.annotations, STATE) == "1" && i.persistentStorage == 0
    && c.query.version != "" && c.query.version != c.item.external.value
    && Offers(c.catalog, c.template, c.query.version)
  }

  function Upgraded(c: Scene, i: Info, m: Maps, config: Config): Job
    requires c.Valid() && Charted(c.running.data, i, m, None, config).Some?
  {
    AppData.JobOf(Charted(c.running.data, i, m, None, config).value)
  }

  lemma UpgradedJob(c: Scene, i: Info, m: Maps, config: Config)
    requires OtherVersion(c, i)
    ensures Charted(c.running.data, i, m, None, config).Some?
    ensures var job := Upgraded(c, i, m, config);
            && job.name == c.item.name && job.action.Upgrade? && job.enabled && job.storageSize == 0
            && job.requestedVersion == c.query.version
  {
    var d := c.running.data;
    TemplateKey();
    ChartedKeepsIdentity(d, i, m, config, TEMPLATE_NAME);
    ChartedAnnotations(d, i, m, None, config);
    PreparedPlan(d, None);
    assert "1" == Itoa(1);
    AtoiItoa(1);
  }

  /** The pods of the upgraded instance do not get ready. */
  function Attempted(c: Scene, job: Job): Rollback.Attempt
    requires c.Valid()
  {
    c.Attempt([], Plan([job], c.catalog, [{PodsReady}]), job.annotations)
  }

  lemma SceneIsRecorded(c: Scene)
    requires c.Valid() && Recorded(c.item.name, c.Slots()[c.item.name])
    ensures AllRecorded(c.Slots())
  {
  }

  lemma SingleIsUngrouped(a: Rollback.Attempt, i: Info, m: Maps, config: Config)
    requires a.names == [] && |a.running| == |a.forward.jobs| == |a.notes| == 1
    requires ChartedJob(a.running[0].data, i, m, None, config, a.forward.jobs[0], a.notes[0])
    ensures Ungrouped(a, i, m, [None], config)
  {
  }

  lemma UpgradeFails(c: Scene, i: Info, job: Job)
    requires OtherVersion(c, i) && job.name == c.item.name && job.action.Upgrade? && job.enabled
    requires job.storageSize == 0 && job.requestedVersion == c.query.version
    ensures var p := Plan([job], c.catalog, [{PodsReady}]);
            && FailureOf(p, c.Slots(), 0).Some? && RollbackText(FailureOf(p, c.Slots(), 0).value.error)
            && Final(p, c.Slots(), 0).slot.app.Some? && Final(p, c.Slots(), 0).slot.app.value.template == c.template
  {
  }

  /** The upgrade times out, the rollback is entered and succeeds, and the instance runs its old version under an
      annotation that names the new one. */
  lemma RecordIsBroken(c: Scene, i: Info, m: Maps, config: Config)
    returns (job: Job, forward: seq<nat>, back: seq<nat>)
    requires OtherVersion(c, i)
    ensures Charted(c.running.data, i, m, None, config).Some? && job == Upgraded(c, i, m, config)
    ensures var a := Attempted(c, job);
            && Rollback.Valid(a, c.Slots()) && AllRecorded(c.Slots())
            && FailsWith(a.forward, c.Slots(), forward, true)
            && Rollback.Replayed(a.forward, a.replay, c.Slots(), forward, back)
            && !Recorded(c.item.name, At(Rollback.End(a, c.Slots(), forward, back), c.item.name))
  {
    UpgradedJob(c, i, m, config);
    job := Upgraded(c, i, m, config);
    SingleIsUngrouped(Attempted(c, job), i, m, config);
    forward, back := UpgradeIsRolledBack(c, i, job);
    RollbackRecordsExactly(Attempted(c, job), i, m, [None], config, c.Slots(), forward, back, 0);
  }

  lemma UpgradeIsRolledBack(c: Scene, i: Info, job: Job) returns (forward: seq<nat>, back: seq<nat>)
    requires OtherVersion(c, i) && job.name == c.item.name && job.action.Upgrade? && job.enabled
    requires job.storageSize == 0 && job.requestedVersion == c.query.version
    ensures var a := Attempted(c, job);
            && Rollback.Valid(a, c.Slots()) && AllRecorded(c.Slots())
            && FailsWith(a.forward, c.Slots(), forward, true)
            && Rollback.Replayed(a.forward, a.replay, c.Slots(), forward, back)
  {
    var a := Attempted(c, job);
    SingleIsValid(c, job, {PodsReady}, job.annotations);
    SceneIsRecorded(c);
    UpgradeFails(c, i, job);
    forward := AnyFailureCanBeFirst(a.forward, c.Slots(), 0);
    LandedAt(a.forward, c.Slots(), forward, 0);
    back := Drain(1);
    BackIsUpgrade(c, i, job.annotations);
    ReplaySucceeds(c, job.annotations, Run(a.forward, Start(a.forward, c.Slots()), forward).slots);
  }

  lemma BackIsUpgrade(c: Scene, i: Info, notes: Strings)
    requires OtherVersion(c, i)
    ensures c.Back(notes).action.Upgrade? && c.Back(notes).enabled && c.Back(notes).storageSize <= 0
  {
    assert "1" == Itoa(1);
    AtoiItoa(1);
  }
}
