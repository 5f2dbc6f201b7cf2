/** Inputs for which a successful rollback does not restore the cluster. */
module RollbackCases {
  import opened Text
  import opened AppMap
  import AppData
  import opened Cluster
  import opened Executor
  import opened FirstError
  import opened Volumes
  import opened Rollback
  import Planner
  import Selection

  /** A cluster with one running instance, as the listing shows it. */
  datatype Scene = Scene(query: Selection.Query, item: Selection.Item, running: Planner.Running, policy: bool,
                         template: string, catalog: Catalog, volume: Option<Volume>, claim: Option<int>)
  {
    /** The instance is selected and can be backed up; its version is in the catalog. */
    predicate Valid() {
      && Selection.Stored(query, item, query.name) && !Selection.Unreadable(query, item)
      && running.data == Selection.RecordOf(query, item)
      && Planner.BackupOf(running, policy).Some? && item.external.value != ""
      && Offers(catalog, template, item.external.value)
    }

    function Slots(): Slots
      requires Valid()
    {
      map[item.name := Slot(Some(AppObject(template, item.external.value, item.annotations)), true, volume, claim)]
    }

    function Backup(): Planner.Backup
      requires Valid()
    {
      Planner.BackupOf(running, policy).value
    }

    /** The job of the backup, over what its map holds when it is replayed. */
    function Back(notes: Strings): Job
      requires Valid()
    {
      JobOf(Backup(), notes)
    }

    function Attempt(names: seq<string>, forward: Plan, notes: Strings): Rollback.Attempt
      requires Valid()
    {
      Rollback.Attempt.Attempt(query, [item], [running], names, policy, [Backup()], [notes], forward,
                               Plan([Back(notes)], catalog, [{}]))
    }
  }

  lemma SceneIsListed(c: Scene, names: seq<string>, forward: Plan, notes: Strings)
    requires c.Valid()
    ensures Listed(c.Attempt(names, forward, notes), c.Slots())
  {
    var items := [c.item];
    assert items[..0] == [];
    assert Selection.Records(c.query, items, c.query.name) == [Selection.RecordOf(c.query, c.item)];
    assert Selection.Lists(items, c.Slots()) by {
      assert items[0].name == c.item.name;
    }
  }

  lemma BackIsInverse(c: Scene, notes: Strings)
    requires c.Valid()
    ensures var job := c.Back(notes);
            && Started(job) && job.name == c.item.name && job.requestedVersion == c.item.external.value
            && job.deleteStorage && !job.action.Create?
  {
    BackupAsksForOldVersion(c.running, c.policy, notes);
  }

  /** A plan without group ids for the one running instance. */
  lemma SingleIsValid(c: Scene, job: Job, f: Faults, notes: Strings)
    requires c.Valid() && job.name == c.item.name
    ensures Valid(c.Attempt([], Plan([job], c.catalog, [f]), notes), c.Slots())
  {
    var a := c.Attempt([], Plan([job], c.catalog, [f]), notes);
    SceneIsListed(c, [], a.forward, notes);
    assert a.running[0].data.name == job.name;
  }

  // ----- A new instance stays -----

  /** A new instance that needs nothing the catalog does not have, and an upgrade of the running one. */
  predicate NewBesideOld(c: Scene, added: Job, kept: Job) {
    && c.Valid() && c.volume.None? && c.claim.None?
    && added.action.Create? && added.enabled && added.storageSize <= 0 && added.name != c.item.name
    && TemplateOffers(added, c.catalog, {})
    && kept.action.Upgrade? && kept.enabled && kept.storageSize <= 0 && kept.name == c.item.name
    && Offers(c.catalog, c.template, kept.requestedVersion)
    && var back := c.Back(c.item.annotations); back.action.Upgrade? && back.enabled && back.storageSize <= 0
  }

  /** The pods of the old instance do not get ready, and nothing else fails. */
  function NewBesideOldPlan(c: Scene, added: Job, kept: Job): Plan { Plan([added, kept], c.catalog, [{}, {PodsReady}]) }

  lemma OneBackup(other: string, name: string, e: Planner.Running, policy: bool)
    requires other != name && e.data.name == name && Planner.BackupOf(e, policy).Some?
    ensures Planner.BackupList([other, name], [e], policy) == Some([Planner.BackupOf(e, policy).value])
  {
    var none: seq<Planner.Backup>, b := [], Planner.BackupOf(e, policy).value;
    Planner.BackupsForExact(other, [e], policy);
    Planner.BackupsForExact(name, [e], policy);
    assert Planner.Match(name, [e], 0);
    assert [other, name][..1] == [other] && [other][..0] == [];
    assert none + none == none && none + [b] == [b];
    assert Planner.BackupList([other], [e], policy) == Some(none);
  }

  lemma NewBesideOldIsValid(c: Scene, added: Job, kept: Job)
    requires NewBesideOld(c, added, kept)
    ensures Valid(c.Attempt([added.name, kept.name], NewBesideOldPlan(c, added, kept), c.item.annotations), c.Slots())
    ensures NoStrangers(c.Attempt([added.name, kept.name], NewBesideOldPlan(c, added, kept), c.item.annotations),
                        c.Slots())
  {
    var names, p := [added.name, kept.name], NewBesideOldPlan(c, added, kept);
    var a := c.Attempt(names, p, c.item.annotations);
    SceneIsListed(c, names, p, c.item.annotations);
    assert BackedUp(a) by { OneBackup(added.name, kept.name, c.running, c.policy); }
    assert Plans(a);
  }

  /** The forward run creates the new instance and fails on the old one, asking for a rollback. */
  lemma NewBesideOldForward(c: Scene, added: Job, kept: Job)
    requires NewBesideOld(c, added, kept)
    ensures var p := NewBesideOldPlan(c, added, kept);
            && FailureOf(p, c.Slots(), 0).None? && FailureOf(p, c.Slots(), 1).Some?
            && RollbackText(FailureOf(p, c.Slots(), 1).value.error)
            && At(c.Slots(), added.name) == EMPTY
            && Final(p, c.Slots(), 1).slot.app.Some?
            && Final(p, c.Slots(), 1).slot.app.value.template == c.template
  {
    CreationSucceedsExactly(added, c.catalog, {}, EMPTY);
  }

  lemma NewBesideOldIsLeft(c: Scene, added: Job, kept: Job)
    requires NewBesideOld(c, added, kept)
    ensures var a := c.Attempt([added.name, kept.name], NewBesideOldPlan(c, added, kept), c.item.annotations);
            && LeftBehind(a, c.Slots(), 0) && AsksFor(a.replay.jobs[0], a.replay.catalog)
  {
    BackIsInverse(c, c.item.annotations);
    assert LeavesApp(added, c.catalog, {}, EMPTY);
  }

  lemma NewBesideOldIsRolledBack(c: Scene, added: Job, kept: Job) returns (forward: seq<nat>, back: seq<nat>)
    requires NewBesideOld(c, added, kept)
    ensures var a := c.Attempt([added.name, kept.name], NewBesideOldPlan(c, added, kept), c.item.annotations);
            FailsWith(a.forward, c.Slots(), forward, true) && Replayed(a.forward, a.replay, c.Slots(), forward, back)
  {
    var p := NewBesideOldPlan(c, added, kept);
    NewBesideOldForward(c, added, kept);
    forward := AnyFailureCanBeFirst(p, c.Slots(), 1);
    LandedAt(p, c.Slots(), forward, 1);
    back := Drain(1);
    ReplaySucceeds(c, c.item.annotations, Run(p, Start(p, c.Slots()), forward).slots);
  }

  /** A request for a new group id beside an old one: the old instance's upgrade times out, the rollback is entered
      and succeeds, and yet the cluster does not run what it ran before, because the new instance is still there. */
  lemma NewInstanceStays(c: Scene, added: Job, kept: Job) returns (forward: seq<nat>, back: seq<nat>)
    requires NewBesideOld(c, added, kept)
    ensures var a := c.Attempt([added.name, kept.name], NewBesideOldPlan(c, added, kept), c.item.annotations);
            && Valid(a, c.Slots())
            && FailsWith(a.forward, c.Slots(), forward, true)
            && Replayed(a.forward, a.replay, c.Slots(), forward, back)
            && !SameVersions(c.Slots(), End(a, c.Slots(), forward, back))
  {
    var a := c.Attempt([added.name, kept.name], NewBesideOldPlan(c, added, kept), c.item.annotations);
    forward, back := NewBesideOldIsRolledBack(c, added, kept);
    NewBesideOldIsValid(c, added, kept);
    BackIsInverse(c, c.item.annotations);
    NewBesideOldIsLeft(c, added, kept);
    RestoredExactly(a, c.Slots(), forward, back);
  }

  /** The replay of the one backup as an upgrade succeeds on a cluster where its application object is in place. */
  lemma ReplaySucceeds(c: Scene, notes: Strings, middle: Slots)
    requires c.Valid() && c.Back(notes).action.Upgrade? && c.Back(notes).enabled && c.Back(notes).storageSize <= 0
    requires At(middle, c.item.name).app.Some? && At(middle, c.item.name).app.value.template == c.template
    ensures var q := Plan([c.Back(notes)], c.catalog, [{}]);
            CompleteRun(q, middle, Drain(1)) && Run(q, Start(q, middle), Drain(1)).errors == []
  {
    BackIsInverse(c, notes);
    OneJobRuns(c.Back(notes), c.catalog, middle);
  }

  lemma OneJobRuns(job: Job, catalog: Catalog, slots: Slots)
    requires Started(job) && RunJob(job, catalog, {}, At(slots, job.name)).outcome.Succeeded?
    ensures var q := Plan([job], catalog, [{}]);
            CompleteRun(q, slots, Drain(1)) && Run(q, Start(q, slots), Drain(1)).errors == []
  {
    var q := Plan([job], catalog, [{}]);
    DrainCompletes(q, slots);
    assert Final(q, slots, 0).outcome.Succeeded?;
    ErrorsExactly(q, slots, Drain(1));
  }

  // ----- A volume keeps the new size -----

  /** A re-creation of the running instance with another volume size, and a backup that re-creates it over the
      annotations of the forward job, since its map is the one that was charted. */
  predicate Resized(c: Scene, kept: Job, size: int) {
    && c.Valid() && size > 0 && c.volume == Some(Volume(size, false)) && c.claim == Some(size)
    && kept.action.Recreate? && kept.deleteStorage && kept.storageSize > 0 && kept.storageSize != size
    && kept.name == c.item.name && TemplateOffers(kept, c.catalog, {})
    && var back := c.Back(kept.annotations);
       back.action.Recreate? && back.enabled && back.storageSize == size && TemplateOffers(back, c.catalog, {})
  }

  function ResizedPlan(c: Scene, kept: Job): Plan { Plan([kept], c.catalog, [{MakeApp}]) }

  /** The forward run replaces the volume and then cannot make the application object. */
  lemma ResizedForward(c: Scene, kept: Job, size: int)
    requires Resized(c, kept, size)
    ensures var p := ResizedPlan(c, kept);
            && FailureOf(p, c.Slots(), 0).Some? && RollbackText(FailureOf(p, c.Slots(), 0).value.error)
            && Final(p, c.Slots(), 0).slot
               == Slot(None, false, Some(Volume(kept.storageSize, false)), Some(kept.storageSize))
  {
  }

  lemma ResizedIsValid(c: Scene, kept: Job, size: int)
    requires Resized(c, kept, size)
    ensures Valid(c.Attempt([], ResizedPlan(c, kept), kept.annotations), c.Slots())
    ensures Agrees(At(c.Slots(), kept.name), c.Back(kept.annotations).storageSize)
  {
    SingleIsValid(c, kept, {MakeApp}, kept.annotations);
  }

  /** An update without group ids that changes the volume size: the volume is replaced, the application cannot be made
      again, the rollback is entered and succeeds, and the volume keeps the new size: the deletion half of the replay
      finds no application object and leaves the storage alone. */
  lemma VolumeKeepsNewSize(c: Scene, kept: Job, size: int) returns (forward: seq<nat>, back: seq<nat>)
    requires Resized(c, kept, size)
    ensures var a := c.Attempt([], ResizedPlan(c, kept), kept.annotations);
            && Valid(a, c.Slots())
            && FailsWith(a.forward, c.Slots(), forward, true)
            && Replayed(a.forward, a.replay, c.Slots(), forward, back)
            && Agrees(At(c.Slots(), kept.name), a.replay.jobs[0].storageSize)
            && !Agrees(At(End(a, c.Slots(), forward, back), kept.name), a.replay.jobs[0].storageSize)
  {
    var p := ResizedPlan(c, kept);
    var a := c.Attempt([], p, kept.annotations);
    var slots := c.Slots();
    ResizedIsValid(c, kept, size);
    ResizedForward(c, kept, size);
    BackIsInverse(c, kept.annotations);
    forward := AnyFailureCanBeFirst(p, slots, 0);
    LandedAt(p, slots, forward, 0);
    back := Drain(1);
    ReplayRecreates(c, kept.annotations, Run(p, Start(p, slots), forward).slots);
    VolumeAfterReplay(a, slots, forward, back, 0);
  }

  lemma RecreatedWhereNothingRuns(job: Job, cat: Catalog, slot: Slot)
    requires job.action.Recreate? && job.enabled && TemplateOffers(job, cat, {})
    requires slot.app.None? && !slot.workload && Bound(slot)
    ensures RunJob(job, cat, {}, slot).outcome.Succeeded?
  {
  }

  lemma ReplayRecreates(c: Scene, notes: Strings, middle: Slots)
    requires c.Valid() && c.Back(notes).action.Recreate? && c.Back(notes).enabled
    requires TemplateOffers(c.Back(notes), c.catalog, {})
    requires At(middle, c.item.name).app.None? && !At(middle, c.item.name).workload
    requires Bound(At(middle, c.item.name))
    ensures var q := Plan([c.Back(notes)], c.catalog, [{}]);
            CompleteRun(q, middle, Drain(1)) && Run(q, Start(q, middle), Drain(1)).errors == []
  {
    BackIsInverse(c, notes);
    RecreatedWhereNothingRuns(c.Back(notes), c.catalog, At(middle, c.item.name));
    OneJobRuns(c.Back(notes), c.catalog, middle);
  }
}
