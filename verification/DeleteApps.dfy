/** deleteApps: one goroutine per selected instance deletes it from the cluster, then its chart, then reports it;
    the goroutine that sees a full list removes the application's root chart directory. */
module DeleteApps {
  import opened Text
  import opened Cluster
  import opened Worker
  import opened Pool
  import opened Executor

  datatype Problem = NotDeleted(name: string, error: Error) | ChartNotDeleted(name: string)

  /** The selected instances, the API calls and chart deletions that fail, whether charts are purged, and whether
      appending to the list and looking at its length are one step. */
  datatype Task = Task(jobs: seq<Job>, catalog: Catalog, faults: seq<Faults>, chartFails: seq<bool>, purge: bool,
                       fused: bool)
  {
    predicate Valid() {
      && |faults| == |chartFails| == |jobs|
      && forall i :: 0 <= i < |jobs| ==> jobs[i].action.Delete? && jobs[i].deleteStorage
    }
  }

  datatype Stage = Working(pc: Pc) | AtChart | AtAppend | AtCheck | Ended(ok: bool)

  datatype Deletion = Deletion(slots: Slots, stages: seq<Stage>, done: seq<Entry>, errors: seq<Problem>,
                               removals: nat)

  function Begun(t: Task, slots: Slots): Deletion {
    Deletion(slots, seq(|t.jobs|, i requires 0 <= i < |t.jobs| => Working(Begin)), [], [], 0)
  }

  function EntryOf(job: Job): Entry { Entry(job.name, job.requestedVersion) }

  function Checked(t: Task, s: Deletion): Deletion {
    if |s.done| == |t.jobs| then s.(removals := s.removals + 1) else s
  }

  function Moved(s: Deletion, i: nat, stage: Stage): Deletion
    requires i < |s.stages|
  {
    s.(stages := s.stages[i := stage])
  }

  function Appended(t: Task, s: Deletion, i: nat): Deletion
    requires i < |s.stages| == |t.jobs|
  {
    var more := s.(done := s.done + [EntryOf(t.jobs[i])]);
    if !t.purge then Moved(more, i, Ended(true))
    else if t.fused then Checked(t, Moved(more, i, Ended(true)))
    else Moved(more, i, AtCheck)
  }

  function Worked(t: Task, s: Deletion, i: nat, pc: Pc): Deletion
    requires t.Valid() && i < |s.stages| == |t.jobs|
  {
    if pc.Stopped? then s
    else if pc == Reported(Succeeded) then Moved(s, i, if t.purge then AtChart else AtAppend)
    else if pc.Reported? then
      Moved(s.(errors := s.errors + [NotDeleted(t.jobs[i].name, pc.outcome.error)]), i, Ended(false))
    else
      var name := t.jobs[i].name;
      var (pc', slot) := Local(t.jobs[i], t.catalog, t.faults[i], pc, At(s.slots, name));
      Moved(s.(slots := s.slots[name := slot]), i, Working(pc'))
  }

  function Step(t: Task, s: Deletion, i: nat): (s': Deletion)
    requires t.Valid() && |s.stages| == |t.jobs|
    ensures |s'.stages| == |s.stages|
  {
    if i >= |s.stages| then s
    else
      match s.stages[i]
      case Working(pc) => Worked(t, s, i, pc)
      case AtChart =>
        var told := if t.chartFails[i] then s.(errors := s.errors + [ChartNotDeleted(t.jobs[i].name)]) else s;
        Moved(told, i, AtAppend)
      case AtAppend => Appended(t, s, i)
      case AtCheck => Checked(t, Moved(s, i, Ended(true)))
      case Ended(_) => s
  }

  function Run(t: Task, slots: Slots, schedule: seq<nat>): (s: Deletion)
    requires t.Valid()
    ensures |s.stages| == |t.jobs|
  {
    if schedule == [] then Begun(t, slots)
    else Step(t, Run(t, slots, schedule[..|schedule| - 1]), schedule[|schedule| - 1])
  }

  predicate Complete(s: Deletion) { forall i :: 0 <= i < |s.stages| ==> s.stages[i].Ended? }

  // ----- What every interleaving keeps -----

  /** The application object is gone by the time a worker gets here, unless its lookup failed. */
  predicate Passed(stage: Stage) {
    match stage
    case Working(pc) =>
      pc.AtAppGone? || pc.AtDropClaim? || pc.AtDropVolume? || pc.AtVolumeGone? || pc == Reported(Succeeded)
    case Ended(ok) => ok
    case _ => true
  }

  predicate Listed(stage: Stage) { stage.AtCheck? || stage == Ended(true) }

  function Entries(t: Task, stages: seq<Stage>): seq<Option<Entry>>
    requires |stages| == |t.jobs|
  {
    seq(|stages|, i requires 0 <= i < |stages| => if Listed(stages[i]) then Some(EntryOf(t.jobs[i])) else None)
  }

  predicate Sound(t: Task, s: Deletion, i: nat)
    requires t.Valid() && i < |s.stages| == |t.jobs|
  {
    var stage := s.stages[i];
    && (stage.Working? ==> stage.pc.Begin? || Deleting(stage.pc) || stage.pc.Reported?)
    && (Passed(stage) && FindApp !in t.faults[i] ==> At(s.slots, t.jobs[i].name).app.None?)
    && (stage.AtCheck? ==> t.purge && !t.fused)
    && (stage == Ended(false) ==> s.errors != [])
  }

  /** The directory is removed only when the list is full; a full list means it has been removed or somebody is
      about to look. */
  predicate Removals(t: Task, s: Deletion)
    requires |s.stages| == |t.jobs|
  {
    && (s.removals > 0 ==> t.purge && |s.done| == |t.jobs|)
    && (t.fused ==> s.removals <= 1)
    && (t.purge && |s.done| == |t.jobs| > 0 ==>
          s.removals > 0 || exists i :: 0 <= i < |s.stages| && s.stages[i].AtCheck?)
  }

  predicate Inv(t: Task, s: Deletion)
    requires t.Valid()
  {
    && |s.stages| == |t.jobs|
    && (forall i :: 0 <= i < |t.jobs| ==> Sound(t, s, i))
    && multiset(s.done) == multiset(Collected(Entries(t, s.stages)))
    && Removals(t, s)
  }

  lemma StartKeepsInv(t: Task, slots: Slots)
    requires t.Valid()
    ensures Inv(t, Begun(t, slots))
  {
    CollectedEmpty(Entries(t, Begun(t, slots).stages));
  }

  /** The list has one entry per listed worker, so it is full exactly when every worker is listed. */
  lemma FullExactly(t: Task, s: Deletion)
    requires t.Valid() && Inv(t, s)
    ensures |s.done| <= |t.jobs|
    ensures |s.done| == |t.jobs| <==> forall i :: 0 <= i < |s.stages| ==> Listed(s.stages[i])
  {
    var e := Entries(t, s.stages);
    CollectedLength(e);
    assert |multiset(s.done)| == |multiset(Collected(e))|;
    if forall i :: 0 <= i < |e| ==> e[i].Some? {
      forall i | 0 <= i < |s.stages| ensures Listed(s.stages[i]) { assert e[i].Some?; }
    }
  }

  /** No deletion step brings an application object back. */
  lemma DeleteStepLeaves(job: Job, cat: Catalog, f: Faults, pc: Pc, slot: Slot)
    requires job.action.Delete? && (pc.Begin? || Deleting(pc))
    ensures var (pc', slot') := Local(job, cat, f, pc, slot);
            && (slot.app.None? ==> slot'.app.None?)
            && (pc'.Begin? || Deleting(pc') || pc'.Reported?)
            && (Passed(Working(pc')) && FindApp !in f && (Passed(Working(pc)) ==> slot.app.None?) ==> slot'.app.None?)
  {
  }

  /** A step that does not append. */
  lemma MoveKeepsList(t: Task, s: Deletion, i: nat, stage: Stage)
    requires t.Valid() && |s.stages| == |t.jobs| && i < |s.stages|
    requires Listed(stage) == Listed(s.stages[i])
    ensures Entries(t, s.stages[i := stage]) == Entries(t, s.stages)
  {
  }

  lemma LocalKeepsInv(t: Task, s: Deletion, i: nat)
    requires t.Valid() && Inv(t, s) && i < |t.jobs|
    requires s.stages[i].Working? && !s.stages[i].pc.Reported?
    ensures Inv(t, Step(t, s, i))
  {
    assert Sound(t, s, i);
    var pc, name := s.stages[i].pc, t.jobs[i].name;
    DeleteStepLeaves(t.jobs[i], t.catalog, t.faults[i], pc, At(s.slots, name));
    var (pc', slot) := Local(t.jobs[i], t.catalog, t.faults[i], pc, At(s.slots, name));
    var s' := Step(t, s, i);
    assert s' == s.(slots := s.slots[name := slot], stages := s.stages[i := Working(pc')]);
    MoveKeepsList(t, s, i, Working(pc'));
    SlotKeepsSound(t, s, i, pc', slot);
    StageKeepsRemovals(t, s, i, Working(pc'));
  }

  lemma SlotKeepsSound(t: Task, s: Deletion, i: nat, pc: Pc, slot: Slot)
    requires t.Valid() && Inv(t, s) && i < |t.jobs| && s.stages[i].Working?
    requires At(s.slots, t.jobs[i].name).app.None? ==> slot.app.None?
    requires pc.Begin? || Deleting(pc) || pc.Reported?
    requires Passed(Working(pc)) && FindApp !in t.faults[i] ==> slot.app.None?
    ensures var s' := s.(slots := s.slots[t.jobs[i].name := slot], stages := s.stages[i := Working(pc)]);
            forall j :: 0 <= j < |t.jobs| ==> Sound(t, s', j)
  {
    var s' := s.(slots := s.slots[t.jobs[i].name := slot], stages := s.stages[i := Working(pc)]);
    forall j | 0 <= j < |t.jobs| ensures Sound(t, s', j) {
      assert Sound(t, s, j);
    }
  }

  lemma StageKeepsRemovals(t: Task, s: Deletion, i: nat, stage: Stage)
    requires t.Valid() && Inv(t, s) && i < |t.jobs| && !s.stages[i].AtCheck?
    ensures Removals(t, s.(stages := s.stages[i := stage]))
  {
    if w :| 0 <= w < |s.stages| && s.stages[w].AtCheck? {
      assert s.stages[i := stage][w].AtCheck?;
    }
  }

  predicate Telling(stage: Stage) { stage.AtChart? || (stage.Working? && stage.pc.Reported?) }

  lemma TellKeepsSound(t: Task, s: Deletion, i: nat, j: nat)
    requires t.Valid() && Inv(t, s) && i < |t.jobs| && Telling(s.stages[i]) && j < |t.jobs|
    ensures Sound(t, Step(t, s, i), j)
  {
    assert Sound(t, s, i) && Sound(t, s, j);
  }

  /** A worker that reports, or deletes its chart. */
  lemma TellKeepsInv(t: Task, s: Deletion, i: nat)
    requires t.Valid() && Inv(t, s) && i < |t.jobs| && Telling(s.stages[i])
    ensures Inv(t, Step(t, s, i))
  {
    var s' := Step(t, s, i);
    MoveKeepsList(t, s, i, s'.stages[i]);
    forall j | 0 <= j < |t.jobs| ensures Sound(t, s', j) {
      TellKeepsSound(t, s, i, j);
    }
    StageKeepsRemovals(t, s, i, s'.stages[i]);
  }

  lemma AppendKeepsList(t: Task, s: Deletion, i: nat)
    requires t.Valid() && Inv(t, s) && i < |t.jobs| && s.stages[i].AtAppend?
    ensures multiset(Step(t, s, i).done) == multiset(Collected(Entries(t, Step(t, s, i).stages)))
  {
    var e := Entries(t, s.stages);
    assert Entries(t, Step(t, s, i).stages) == e[i := Some(EntryOf(t.jobs[i]))];
    Delivered(e, i, EntryOf(t.jobs[i]));
  }

  lemma AppendKeepsSound(t: Task, s: Deletion, i: nat, j: nat)
    requires t.Valid() && Inv(t, s) && i < |t.jobs| && s.stages[i].AtAppend? && j < |t.jobs|
    ensures Sound(t, Step(t, s, i), j)
  {
    assert Sound(t, s, i) && Sound(t, s, j);
  }

  lemma AppendKeepsRemovals(t: Task, s: Deletion, i: nat)
    requires t.Valid() && Inv(t, s) && i < |t.jobs| && s.stages[i].AtAppend?
    ensures Removals(t, Step(t, s, i))
  {
    var s' := Step(t, s, i);
    FullExactly(t, s);
    assert !Listed(s.stages[i]) && |s.done| < |t.jobs| && s.removals == 0;
    if t.purge && !t.fused {
      assert s'.stages[i].AtCheck?;
    }
  }

  lemma AppendKeepsInv(t: Task, s: Deletion, i: nat)
    requires t.Valid() && Inv(t, s) && i < |t.jobs| && s.stages[i].AtAppend?
    ensures Inv(t, Step(t, s, i))
  {
    var s' := Step(t, s, i);
    AppendKeepsList(t, s, i);
    AppendKeepsRemovals(t, s, i);
    forall j | 0 <= j < |t.jobs| ensures Sound(t, s', j) {
      AppendKeepsSound(t, s, i, j);
    }
  }

  lemma CheckKeepsSound(t: Task, s: Deletion, i: nat, j: nat)
    requires t.Valid() && Inv(t, s) && i < |t.jobs| && s.stages[i].AtCheck? && j < |t.jobs|
    ensures Sound(t, Step(t, s, i), j)
  {
    assert Sound(t, s, i) && Sound(t, s, j);
  }

  lemma CheckKeepsRemovals(t: Task, s: Deletion, i: nat)
    requires t.Valid() && Inv(t, s) && i < |t.jobs| && s.stages[i].AtCheck?
    ensures Removals(t, Step(t, s, i))
  {
    assert Sound(t, s, i);
  }

  lemma CheckKeepsInv(t: Task, s: Deletion, i: nat)
    requires t.Valid() && Inv(t, s) && i < |t.jobs| && s.stages[i].AtCheck?
    ensures Inv(t, Step(t, s, i))
  {
    MoveKeepsList(t, s, i, Ended(true));
    CheckKeepsRemovals(t, s, i);
    forall j | 0 <= j < |t.jobs| ensures Sound(t, Step(t, s, i), j) {
      CheckKeepsSound(t, s, i, j);
    }
  }

  lemma {:induction false} RunKeepsInv(t: Task, slots: Slots, schedule: seq<nat>)
    requires t.Valid()
    ensures Inv(t, Run(t, slots, schedule))
  {
    if schedule == [] {
      StartKeepsInv(t, slots);
    } else {
      var s, i := Run(t, slots, schedule[..|schedule| - 1]), schedule[|schedule| - 1];
      RunKeepsInv(t, slots, schedule[..|schedule| - 1]);
      if i < |t.jobs| {
        assert Sound(t, s, i);
        match s.stages[i]
        case Working(pc) => if pc.Reported? { TellKeepsInv(t, s, i); } else { LocalKeepsInv(t, s, i); }
        case AtChart => TellKeepsInv(t, s, i);
        case AtAppend => AppendKeepsInv(t, s, i);
        case AtCheck => CheckKeepsInv(t, s, i);
        case Ended(_) =>
      }
    }
  }

  // ----- The barrier -----

  /** In every state of every run: once the root directory has been removed, every selected instance has been
      listed, and is gone from the cluster unless the lookup of its application object failed. */
  lemma Barrier(t: Task, slots: Slots, schedule: seq<nat>, i: nat)
    requires t.Valid() && Run(t, slots, schedule).removals > 0 && i < |t.jobs|
    ensures Listed(Run(t, slots, schedule).stages[i])
    ensures FindApp !in t.faults[i] ==> At(Run(t, slots, schedule).slots, t.jobs[i].name).app.None?
  {
    var s := Run(t, slots, schedule);
    RunKeepsInv(t, slots, schedule);
    FullExactly(t, s);
    assert Sound(t, s, i);
  }

  /** When every deletion succeeds the root directory is removed if and only if charts are purged and something was
      selected; it is removed once if appending and looking are one step. */
  lemma RemovedExactly(t: Task, slots: Slots, schedule: seq<nat>)
    requires t.Valid() && Complete(Run(t, slots, schedule))
    requires forall i :: 0 <= i < |t.jobs| ==> Run(t, slots, schedule).stages[i] == Ended(true)
    ensures t.jobs != [] ==> (Run(t, slots, schedule).removals > 0 <==> t.purge)
    ensures t.jobs != [] && t.fused && t.purge ==> Run(t, slots, schedule).removals == 1
  {
    RunKeepsInv(t, slots, schedule);
    FullExactly(t, Run(t, slots, schedule));
  }

  /** Without an error there is one entry for every selected instance, so what follows only then, the removal of
      the shared storage and of the namespace, finds every selected instance gone. */
  lemma NoErrorMeansGone(t: Task, slots: Slots, schedule: seq<nat>)
    requires t.Valid() && Complete(Run(t, slots, schedule)) && Run(t, slots, schedule).errors == []
    ensures |Run(t, slots, schedule).done| == |t.jobs|
    ensures multiset(Run(t, slots, schedule).done)
            == multiset(seq(|t.jobs|, i requires 0 <= i < |t.jobs| =>
                              Entry(t.jobs[i].name, t.jobs[i].requestedVersion)))
    ensures forall i :: 0 <= i < |t.jobs| && FindApp !in t.faults[i] ==>
              At(Run(t, slots, schedule).slots, t.jobs[i].name).app.None?
  {
    var s := Run(t, slots, schedule);
    RunKeepsInv(t, slots, schedule);
    forall i | 0 <= i < |t.jobs| ensures s.stages[i] == Ended(true) {
      assert Sound(t, s, i);
    }
    FullExactly(t, s);
    forall i | 0 <= i < |t.jobs| && FindApp !in t.faults[i] ensures At(s.slots, t.jobs[i].name).app.None? {
      assert Sound(t, s, i);
    }
    CollectedAll(Entries(t, s.stages),
                 seq(|t.jobs|, i requires 0 <= i < |t.jobs| => Entry(t.jobs[i].name, t.jobs[i].requestedVersion)));
  }

  /** The lookup errors that the deletion code drops: it reports success for an instance it has not deleted, and
      exactly for those. */
  lemma ReportedButRunning(job: Job, cat: Catalog, f: Faults, slot: Slot)
    requires job.action.Delete? && slot.app.Some? && RunJob(job, cat, f, slot).outcome.Succeeded?
    ensures RunJob(job, cat, f, slot).slot.app.Some? <==> FindApp in f
  {
  }
}
