/** createUpgradeApps: one goroutine per planned instance, any interleaving of their API calls, and the two
    shared lists the goroutines append to. A run is a schedule, the list of workers in the order they step. */
module Executor {
  import opened Text
  import opened Cluster
  import opened Worker
  import opened Pool

  datatype Entry = Entry(name: string, version: string)

  datatype Failure = Failure(name: string, error: Error)

  /** The jobs, what the catalog holds, and which API calls of each worker fail. */
  datatype Plan = Plan(jobs: seq<Job>, catalog: Catalog, faults: seq<Faults>) {
    predicate Valid() { |faults| == |jobs| }
  }

  /** The jobs that do anything: the others get no goroutine, or one without a matching case. */
  predicate Started(job: Job) { job.action in {Create, Upgrade, Recreate} }

  predicate DistinctNames(jobs: seq<Job>) {
    forall i, j :: 0 <= i < j < |jobs| && Started(jobs[i]) && Started(jobs[j]) ==> jobs[i].name != jobs[j].name
  }

  datatype Exec = Exec(slots: Slots, pcs: seq<Pc>, done: seq<Entry>, errors: seq<Failure>)

  function Start(p: Plan, slots: Slots): Exec {
    Exec(slots, seq(|p.jobs|, i requires 0 <= i < |p.jobs| => if Started(p.jobs[i]) then Begin else Stopped), [], [])
  }

  /** The append that ends a goroutine. */
  function Finish(p: Plan, s: Exec, i: nat): (s': Exec)
    requires |s.pcs| == |p.jobs| && i < |s.pcs| && s.pcs[i].Reported?
  {
    match s.pcs[i].outcome
    case Succeeded =>
      s.(pcs := s.pcs[i := Stopped], done := s.done + [Entry(p.jobs[i].name, p.jobs[i].requestedVersion)])
    case Failed(e) =>
      s.(pcs := s.pcs[i := Stopped], errors := s.errors + [Failure(p.jobs[i].name, e)])
  }

  /** One step of worker i: its next API call, or the append that ends it. */
  function Step(p: Plan, s: Exec, i: nat): (s': Exec)
    requires p.Valid() && |s.pcs| == |p.jobs|
    ensures |s'.pcs| == |s.pcs|
  {
    if i >= |s.pcs| || s.pcs[i].Stopped? then s
    else if s.pcs[i].Reported? then Finish(p, s, i)
    else
      var job := p.jobs[i];
      var (pc, slot) := Local(job, p.catalog, p.faults[i], s.pcs[i], At(s.slots, job.name));
      s.(pcs := s.pcs[i := pc], slots := s.slots[job.name := slot])
  }

  lemma StepDescends(p: Plan, s: Exec, i: nat)
    requires p.Valid() && |s.pcs| == |p.jobs|
    ensures i < |s.pcs| ==> Step(p, s, i).pcs[i].Stopped? || Rank(Step(p, s, i).pcs[i]) < Rank(s.pcs[i])
    ensures forall j :: 0 <= j < |s.pcs| && (j != i || s.pcs[j].Stopped?) ==> Step(p, s, i).pcs[j] == s.pcs[j]
    ensures |s.errors| <= |Step(p, s, i).errors| && Step(p, s, i).errors[..|s.errors|] == s.errors
  {
  }

  function Run(p: Plan, s: Exec, schedule: seq<nat>): (s': Exec)
    requires p.Valid() && |s.pcs| == |p.jobs|
    ensures |s'.pcs| == |s.pcs|
    decreases |schedule|
  {
    if schedule == [] then s
    else Step(p, Run(p, s, schedule[..|schedule| - 1]), schedule[|schedule| - 1])
  }

  /** wg.Wait() has returned. */
  predicate Complete(s: Exec) { forall i :: 0 <= i < |s.pcs| ==> s.pcs[i].Stopped? }

  // ----- What every interleaving keeps -----

  /** The result of worker i run alone on the slots the execution started from. */
  function Final(p: Plan, slots: Slots, i: nat): Result
    requires p.Valid() && i < |p.jobs|
  {
    RunJob(p.jobs[i], p.catalog, p.faults[i], At(slots, p.jobs[i].name))
  }

  function Finals(p: Plan, slots: Slots): (finals: seq<Result>)
    requires p.Valid()
    ensures |finals| == |p.jobs|
  {
    seq(|p.jobs|, i requires 0 <= i < |p.jobs| => Final(p, slots, i))
  }

  function DoneEntry(job: Job, final: Result): Option<Entry> {
    if Started(job) && final.outcome.Succeeded? then Some(Entry(job.name, job.requestedVersion)) else None
  }

  function ErrorEntry(job: Job, final: Result): Option<Failure> {
    if Started(job) && final.outcome.Failed? then Some(Failure(job.name, final.outcome.error)) else None
  }

  /** The entries of the workers that have stopped. */
  function DoneEntries(jobs: seq<Job>, finals: seq<Result>, pcs: seq<Pc>): seq<Option<Entry>>
    requires |pcs| == |finals| == |jobs|
  {
    seq(|pcs|, i requires 0 <= i < |pcs| => if pcs[i].Stopped? then DoneEntry(jobs[i], finals[i]) else None)
  }

  function ErrorEntries(jobs: seq<Job>, finals: seq<Result>, pcs: seq<Pc>): seq<Option<Failure>>
    requires |pcs| == |finals| == |jobs|
  {
    seq(|pcs|, i requires 0 <= i < |pcs| => if pcs[i].Stopped? then ErrorEntry(jobs[i], finals[i]) else None)
  }

  /** What is left of worker i, from its own point of view, still leads to its solo result. */
  predicate OnTrack(p: Plan, slots: Slots, s: Exec, i: nat)
    requires p.Valid() && |s.pcs| == |p.jobs| && i < |p.jobs|
  {
    var job := p.jobs[i];
    && (s.pcs[i].Stopped? ==> At(s.slots, job.name) == Final(p, slots, i).slot)
    && (!s.pcs[i].Stopped? ==>
          Rest(job, p.catalog, p.faults[i], s.pcs[i], At(s.slots, job.name)) == Final(p, slots, i))
    && (!s.pcs[i].Begin? ==> job.name in s.slots)
  }

  predicate Planned(p: Plan, name: string) {
    exists i :: 0 <= i < |p.jobs| && Started(p.jobs[i]) && p.jobs[i].name == name
  }

  predicate Untouched(p: Plan, slots: Slots, now: Slots) {
    && (forall name :: name in slots && !Planned(p, name) ==> name in now && now[name] == slots[name])
    && (forall name :: name in now ==> name in slots || Planned(p, name))
    && slots.Keys <= now.Keys
  }

  predicate Tracks(p: Plan, slots: Slots, s: Exec)
    requires p.Valid() && |s.pcs| == |p.jobs|
  {
    forall i :: 0 <= i < |p.jobs| && Started(p.jobs[i]) ==> OnTrack(p, slots, s, i)
  }

  predicate Idle(p: Plan, pcs: seq<Pc>)
    requires |pcs| == |p.jobs|
  {
    forall i :: 0 <= i < |p.jobs| && !Started(p.jobs[i]) ==> pcs[i].Stopped?
  }

  predicate Lists(jobs: seq<Job>, finals: seq<Result>, s: Exec)
    requires |s.pcs| == |finals| == |jobs|
  {
    && multiset(s.done) == multiset(Collected(DoneEntries(jobs, finals, s.pcs)))
    && multiset(s.errors) == multiset(Collected(ErrorEntries(jobs, finals, s.pcs)))
  }

  predicate Inv(p: Plan, slots: Slots, s: Exec)
    requires p.Valid()
  {
    && |s.pcs| == |p.jobs|
    && Tracks(p, slots, s)
    && Idle(p, s.pcs)
    && Lists(p.jobs, Finals(p, slots), s)
    && Untouched(p, slots, s.slots)
  }

  lemma StartInv(p: Plan, slots: Slots)
    requires p.Valid()
    ensures Inv(p, slots, Start(p, slots))
  {
    var s := Start(p, slots);
    forall i | 0 <= i < |p.jobs| && Started(p.jobs[i]) ensures OnTrack(p, slots, s, i) {
      StepsAddUp(p.jobs[i], p.catalog, p.faults[i], At(slots, p.jobs[i].name));
    }
    CollectedEmpty(DoneEntries(p.jobs, Finals(p, slots), s.pcs));
    CollectedEmpty(ErrorEntries(p.jobs, Finals(p, slots), s.pcs));
  }

  lemma FinishKeepsLists(jobs: seq<Job>, finals: seq<Result>, s: Exec, i: nat, s': Exec)
    requires |s.pcs| == |finals| == |jobs| == |s'.pcs| && Lists(jobs, finals, s)
    requires i < |jobs| && Started(jobs[i]) && !s.pcs[i].Stopped? && s'.pcs == s.pcs[i := Stopped]
    requires finals[i].outcome.Succeeded? ==>
               s'.done == s.done + [Entry(jobs[i].name, jobs[i].requestedVersion)] && s'.errors == s.errors
    requires finals[i].outcome.Failed? ==>
               s'.errors == s.errors + [Failure(jobs[i].name, finals[i].outcome.error)] && s'.done == s.done
    ensures Lists(jobs, finals, s')
  {
    var d, d' := DoneEntries(jobs, finals, s.pcs), DoneEntries(jobs, finals, s'.pcs);
    var e, e' := ErrorEntries(jobs, finals, s.pcs), ErrorEntries(jobs, finals, s'.pcs);
    if finals[i].outcome.Succeeded? {
      var x := Entry(jobs[i].name, jobs[i].requestedVersion);
      assert d' == d[i := Some(x)] && e' == e;
      Delivered(d, i, x);
    } else {
      var x := Failure(jobs[i].name, finals[i].outcome.error);
      assert d' == d && e' == e[i := Some(x)];
      Delivered(e, i, x);
    }
  }

  lemma AdvanceKeepsLists(jobs: seq<Job>, finals: seq<Result>, s: Exec, i: nat, s': Exec)
    requires |s.pcs| == |finals| == |jobs| == |s'.pcs| && Lists(jobs, finals, s)
    requires i < |jobs| && !s.pcs[i].Stopped? && !s'.pcs[i].Stopped?
    requires s'.pcs == s.pcs[i := s'.pcs[i]] && s'.done == s.done && s'.errors == s.errors
    ensures Lists(jobs, finals, s')
  {
    assert DoneEntries(jobs, finals, s'.pcs) == DoneEntries(jobs, finals, s.pcs);
    assert ErrorEntries(jobs, finals, s'.pcs) == ErrorEntries(jobs, finals, s.pcs);
  }

  lemma StepKeepsLists(p: Plan, slots: Slots, s: Exec, i: nat)
    requires p.Valid() && Inv(p, slots, s) && i < |p.jobs| && !s.pcs[i].Stopped?
    ensures Lists(p.jobs, Finals(p, slots), Step(p, s, i))
  {
    assert OnTrack(p, slots, s, i);
    if s.pcs[i].Reported? {
      assert Final(p, slots, i).outcome == s.pcs[i].outcome;
      FinishKeepsLists(p.jobs, Finals(p, slots), s, i, Finish(p, s, i));
    } else {
      AdvanceKeepsLists(p.jobs, Finals(p, slots), s, i, Step(p, s, i));
    }
  }

  lemma StepKeepsTrack(p: Plan, slots: Slots, s: Exec, i: nat, j: nat)
    requires p.Valid() && Inv(p, slots, s) && DistinctNames(p.jobs)
    requires i < |p.jobs| && !s.pcs[i].Stopped? && j < |p.jobs| && Started(p.jobs[j])
    ensures OnTrack(p, slots, Step(p, s, i), j)
  {
    assert OnTrack(p, slots, s, i) && OnTrack(p, slots, s, j);
    if i != j {
      assert p.jobs[i].name != p.jobs[j].name;
    }
  }

  lemma StepKeepsTracks(p: Plan, slots: Slots, s: Exec, i: nat)
    requires p.Valid() && Inv(p, slots, s) && DistinctNames(p.jobs)
    requires i < |p.jobs| && !s.pcs[i].Stopped?
    ensures Tracks(p, slots, Step(p, s, i))
  {
    forall j | 0 <= j < |p.jobs| && Started(p.jobs[j]) ensures OnTrack(p, slots, Step(p, s, i), j) {
      StepKeepsTrack(p, slots, s, i, j);
    }
  }

  /** The frame of one step, with the worker's own step left abstract. */
  lemma PutKeepsUntouched(p: Plan, slots: Slots, now: Slots, i: nat, slot: Slot)
    requires Untouched(p, slots, now) && i < |p.jobs| && Started(p.jobs[i])
    ensures Untouched(p, slots, now[p.jobs[i].name := slot])
  {
    assert Planned(p, p.jobs[i].name);
  }

  lemma StepKeepsFrame(p: Plan, slots: Slots, s: Exec, i: nat)
    requires p.Valid() && Inv(p, slots, s) && i < |p.jobs| && !s.pcs[i].Stopped?
    ensures Untouched(p, slots, Step(p, s, i).slots)
    ensures Idle(p, Step(p, s, i).pcs)
  {
    if !s.pcs[i].Reported? {
      var (_, slot) := Local(p.jobs[i], p.catalog, p.faults[i], s.pcs[i], At(s.slots, p.jobs[i].name));
      PutKeepsUntouched(p, slots, s.slots, i, slot);
    }
  }

  lemma StepKeepsInv(p: Plan, slots: Slots, s: Exec, i: nat)
    requires p.Valid() && Inv(p, slots, s) && DistinctNames(p.jobs)
    ensures Inv(p, slots, Step(p, s, i))
  {
    if i < |p.jobs| && !s.pcs[i].Stopped? {
      StepKeepsLists(p, slots, s, i);
      StepKeepsFrame(p, slots, s, i);
      StepKeepsTracks(p, slots, s, i);
    }
  }

  /** The invariant holds in every state of every run. */
  lemma {:induction false} RunKeepsInv(p: Plan, slots: Slots, schedule: seq<nat>)
    requires p.Valid() && DistinctNames(p.jobs)
    ensures Inv(p, slots, Run(p, Start(p, slots), schedule))
  {
    if schedule == [] {
      StartInv(p, slots);
    } else {
      RunKeepsInv(p, slots, schedule[..|schedule| - 1]);
      StepKeepsInv(p, slots, Run(p, Start(p, slots), schedule[..|schedule| - 1]), schedule[|schedule| - 1]);
    }
  }

  // ----- Confluence -----

  /** The planned jobs run to the end one after the other, in list order. */
  function Sequential(p: Plan, slots: Slots, n: nat): Slots
    requires p.Valid() && n <= |p.jobs|
  {
    if n == 0 then slots
    else
      var before := Sequential(p, slots, n - 1);
      var job := p.jobs[n - 1];
      if Started(job) then
        before[job.name := RunJob(job, p.catalog, p.faults[n - 1], At(before, job.name)).slot]
      else before
  }

  /** Every planned instance is where its worker alone would have left it, and nothing else has moved. */
  predicate Landed(p: Plan, slots: Slots, now: Slots)
    requires p.Valid()
  {
    && Untouched(p, slots, now)
    && forall i :: 0 <= i < |p.jobs| && Started(p.jobs[i]) ==>
         p.jobs[i].name in now && now[p.jobs[i].name] == Final(p, slots, i).slot
  }

  lemma LandedIsUnique(p: Plan, slots: Slots, a: Slots, b: Slots)
    requires p.Valid() && Landed(p, slots, a) && Landed(p, slots, b)
    ensures a == b
  {
    forall name ensures name in a <==> name in b
      ensures name in a ==> a[name] == b[name]
    {
      if Planned(p, name) {
        var i :| 0 <= i < |p.jobs| && Started(p.jobs[i]) && p.jobs[i].name == name;
      }
    }
  }

  lemma CompleteIsLanded(p: Plan, slots: Slots, s: Exec)
    requires p.Valid() && Inv(p, slots, s) && Complete(s)
    ensures Landed(p, slots, s.slots)
  {
    forall i | 0 <= i < |p.jobs| && Started(p.jobs[i])
      ensures p.jobs[i].name in s.slots && s.slots[p.jobs[i].name] == Final(p, slots, i).slot
    {
      assert OnTrack(p, slots, s, i);
    }
  }

  predicate LandedUpTo(p: Plan, slots: Slots, now: Slots, n: nat)
    requires p.Valid() && n <= |p.jobs|
  {
    && Untouched(p, slots, now)
    && forall i :: 0 <= i < |p.jobs| && Started(p.jobs[i]) ==>
         if i < n then p.jobs[i].name in now && now[p.jobs[i].name] == Final(p, slots, i).slot
         else At(now, p.jobs[i].name) == At(slots, p.jobs[i].name)
  }

  lemma {:induction false} SequentialLands(p: Plan, slots: Slots, n: nat)
    requires p.Valid() && DistinctNames(p.jobs) && n <= |p.jobs|
    ensures LandedUpTo(p, slots, Sequential(p, slots, n), n)
  {
    if n > 0 {
      var before := Sequential(p, slots, n - 1);
      SequentialLands(p, slots, n - 1);
      if Started(p.jobs[n - 1]) {
        var slot := Final(p, slots, n - 1).slot;
        assert Sequential(p, slots, n) == before[p.jobs[n - 1].name := slot];
        PutKeepsUntouched(p, slots, before, n - 1, slot);
        forall i | 0 <= i < |p.jobs| && i != n - 1 && Started(p.jobs[i])
          ensures p.jobs[i].name != p.jobs[n - 1].name
        {
        }
      }
    }
  }

  function AllDone(jobs: seq<Job>, finals: seq<Result>): seq<Option<Entry>>
    requires |finals| == |jobs|
  {
    seq(|jobs|, i requires 0 <= i < |jobs| => DoneEntry(jobs[i], finals[i]))
  }

  function AllErrors(jobs: seq<Job>, finals: seq<Result>): seq<Option<Failure>>
    requires |finals| == |jobs|
  {
    seq(|jobs|, i requires 0 <= i < |jobs| => ErrorEntry(jobs[i], finals[i]))
  }

  lemma CompleteLists(jobs: seq<Job>, finals: seq<Result>, s: Exec)
    requires |s.pcs| == |finals| == |jobs| && Lists(jobs, finals, s) && Complete(s)
    ensures multiset(s.done) == multiset(Collected(AllDone(jobs, finals)))
    ensures multiset(s.errors) == multiset(Collected(AllErrors(jobs, finals)))
  {
    assert DoneEntries(jobs, finals, s.pcs) == AllDone(jobs, finals);
    assert ErrorEntries(jobs, finals, s.pcs) == AllErrors(jobs, finals);
  }

  /** Every complete run ends with the cluster of the sequential execution, and with exactly the entries and
      errors of the workers run alone, whatever the interleaving. */
  lemma InterleavingRefinesSequential(p: Plan, slots: Slots, schedule: seq<nat>)
    requires p.Valid() && DistinctNames(p.jobs)
    requires Complete(Run(p, Start(p, slots), schedule))
    ensures Run(p, Start(p, slots), schedule).slots == Sequential(p, slots, |p.jobs|)
    ensures multiset(Run(p, Start(p, slots), schedule).done) == multiset(Collected(AllDone(p.jobs, Finals(p, slots))))
    ensures multiset(Run(p, Start(p, slots), schedule).errors)
            == multiset(Collected(AllErrors(p.jobs, Finals(p, slots))))
  {
    var s := Run(p, Start(p, slots), schedule);
    RunKeepsInv(p, slots, schedule);
    CompleteLists(p.jobs, Finals(p, slots), s);
    CompleteIsLanded(p, slots, s);
    SequentialLands(p, slots, |p.jobs|);
    LandedIsUnique(p, slots, s.slots, Sequential(p, slots, |p.jobs|));
  }

  lemma Confluence(p: Plan, slots: Slots, a: seq<nat>, b: seq<nat>)
    requires p.Valid() && DistinctNames(p.jobs)
    requires Complete(Run(p, Start(p, slots), a)) && Complete(Run(p, Start(p, slots), b))
    ensures var s, t := Run(p, Start(p, slots), a), Run(p, Start(p, slots), b);
            s.slots == t.slots && multiset(s.done) == multiset(t.done) && multiset(s.errors) == multiset(t.errors)
  {
    InterleavingRefinesSequential(p, slots, a);
    InterleavingRefinesSequential(p, slots, b);
  }

  // ----- Results -----

  function RequestedEntries(jobs: seq<Job>): seq<Option<Entry>> {
    seq(|jobs|, i requires 0 <= i < |jobs| =>
      if Started(jobs[i]) then Some(Entry(jobs[i].name, jobs[i].requestedVersion)) else None)
  }

  predicate Runs(cat: Catalog, job: Job, slots: Slots) {
    var app := At(slots, job.name).app;
    && app.Some? && app.value.annotations == WithState(job.annotations, job.enabled)
    && if job.action.Upgrade? then Offers(cat, app.value.template, job.requestedVersion)
                                   && app.value.version == job.requestedVersion
       else job.template in cat && app.value.template == job.template
            && app.value.version == Deployed(cat, job.template, job.requestedVersion)
  }

  /** The error worker i reports when it fails. */
  function FailureOf(p: Plan, slots: Slots, i: nat): Option<Failure>
    requires p.Valid() && i < |p.jobs|
  {
    ErrorEntry(p.jobs[i], Final(p, slots, i))
  }

  /** The error of a stopped worker is in the list. */
  lemma FailureIsListed(p: Plan, slots: Slots, s: Exec, i: nat)
    requires p.Valid() && Inv(p, slots, s) && i < |p.jobs|
    requires s.pcs[i].Stopped? && FailureOf(p, slots, i).Some?
    ensures FailureOf(p, slots, i).value in s.errors
  {
    CollectedHas(ErrorEntries(p.jobs, Finals(p, slots), s.pcs), i);
    assert FailureOf(p, slots, i).value in multiset(s.errors);
  }

  /** Every listed error is the error of a stopped worker. */
  lemma ListedIsFailure(p: Plan, slots: Slots, s: Exec, x: Failure) returns (i: nat)
    requires p.Valid() && Inv(p, slots, s) && x in s.errors
    ensures i < |p.jobs| && s.pcs[i].Stopped? && FailureOf(p, slots, i) == Some(x)
  {
    var e := ErrorEntries(p.jobs, Finals(p, slots), s.pcs);
    assert x in multiset(s.errors);
    assert x in Collected(e);
    CollectedFrom(e, x);
    i :| 0 <= i < |e| && e[i] == Some(x);
  }

  /** The state form of NoErrorMeansDone. */
  lemma NoErrorState(p: Plan, slots: Slots, s: Exec)
    requires p.Valid() && Inv(p, slots, s) && Complete(s) && s.errors == []
    ensures forall i :: 0 <= i < |p.jobs| && Started(p.jobs[i]) ==>
              Final(p, slots, i).outcome.Succeeded? && Runs(p.catalog, p.jobs[i], s.slots)
    ensures multiset(s.done) == multiset(Collected(RequestedEntries(p.jobs)))
  {
    CompleteIsLanded(p, slots, s);
    forall i | 0 <= i < |p.jobs| && Started(p.jobs[i])
      ensures Final(p, slots, i).outcome.Succeeded? && Runs(p.catalog, p.jobs[i], s.slots)
    {
      if Final(p, slots, i).outcome.Failed? {
        FailureIsListed(p, slots, s, i);
        assert false;
      }
      SuccessRunsRequested(p.jobs[i], p.catalog, p.faults[i], At(slots, p.jobs[i].name));
    }
    assert DoneEntries(p.jobs, Finals(p, slots), s.pcs) == RequestedEntries(p.jobs);
  }

  /** No error means that every started job runs what was requested, that the done list is a permutation of
      exactly those jobs, and that nothing else changed. */
  lemma NoErrorMeansDone(p: Plan, slots: Slots, schedule: seq<nat>)
    requires p.Valid() && DistinctNames(p.jobs)
    requires Complete(Run(p, Start(p, slots), schedule))
    requires Run(p, Start(p, slots), schedule).errors == []
    ensures forall i :: 0 <= i < |p.jobs| && Started(p.jobs[i]) ==>
              Final(p, slots, i).outcome.Succeeded?
              && Runs(p.catalog, p.jobs[i], Run(p, Start(p, slots), schedule).slots)
    ensures multiset(Run(p, Start(p, slots), schedule).done) == multiset(Collected(RequestedEntries(p.jobs)))
    ensures Landed(p, slots, Run(p, Start(p, slots), schedule).slots)
  {
    RunKeepsInv(p, slots, schedule);
    NoErrorState(p, slots, Run(p, Start(p, slots), schedule));
    CompleteIsLanded(p, slots, Run(p, Start(p, slots), schedule));
  }
}
