/** updateUpgradeApps, the planning half: the requested instances are compared with the running ones, and a backup
    record with swapped versions is made for every match. */
module Planner {
  import opened Text
  import opened AppMap
  import opened AppData
  import Cluster

  /** A running instance when the planner reads it: its values, and the two map objects a backup will share. */
  datatype Running = Running(data: Data, annotations: StrMap, labels: StrMap)

  /** The backup of a running instance: a new record, but over the instance's own annotations and labels. */
  datatype Backup = Backup(name: string, state: int, namespace: string, templateAvailable: bool, plan: Standing,
                           annotations: StrMap, labels: StrMap)

  function ActionFor(policy: bool, running: Data): Action {
    if policy || running.plan.requestedVersion == running.plan.currentVersion then Cluster.Recreate
    else Cluster.Upgrade
  }

  function Matched(name: string, plan: Standing, running: Data, policy: bool): Standing {
    if name != running.name then plan
    else plan.(nextAction := ActionFor(policy, running), currentVersion := Get(running.maps.annotations, VERSION))
  }

  /** The part of the inner loop that is not guarded by the name comparison. */
  function Inherited(plan: Standing, running: Data, version: string): Standing {
    plan.(requestedVersion := if version == "" then running.plan.requestedVersion else plan.requestedVersion,
          storageSize := running.plan.storageSize)
  }

  /** The running instance of that name; the last one if there are several. */
  function LastMatch(name: string, running: seq<Running>): Option<Data> {
    if running == [] then None
    else
      var last := running[|running| - 1].data;
      if last.name == name then Some(last) else LastMatch(name, running[..|running| - 1])
  }

  function PlannedFor(plan: Standing, found: Option<Data>, last: Data, policy: bool, version: string): Standing {
    Standing(if found.Some? then Get(found.value.maps.annotations, VERSION) else plan.currentVersion,
             if version == "" then last.plan.requestedVersion else plan.requestedVersion,
             if found.Some? then ActionFor(policy, found.value) else plan.nextAction,
             last.plan.storageSize, plan.deleteStorage)
  }

  /** A requested instance after the inner loop: its action and current version come from the match, its size and,
      when the request names no version, its requested version from the last running instance of all. */
  function Compared(name: string, plan: Standing, running: seq<Running>, policy: bool, version: string): Standing {
    if running == [] then plan
    else PlannedFor(plan, LastMatch(name, running), running[|running| - 1].data, policy, version)
  }

  lemma ComparedNext(name: string, plan: Standing, running: seq<Running>, e: Running, policy: bool, version: string)
    ensures Compared(name, plan, running + [e], policy, version)
            == Inherited(Matched(name, Compared(name, plan, running, policy, version), e.data, policy), e.data, version)
  {
    var more := running + [e];
    assert more[..|more| - 1] == running;
    assert LastMatch(name, more) == if e.data.name == name then Some(e.data) else LastMatch(name, running);
  }

  /** getBackupData: the versions swap places, the volume size and the state come from the annotations. */
  function BackupOf(e: Running, policy: bool): Option<Backup> {
    match (Atoi(Get(e.data.maps.annotations, VOLUME_SIZE)), Atoi(Get(e.data.maps.annotations, STATE)))
    case (Some(size), Some(state)) =>
      Some(Backup(e.data.name, state, e.data.namespace, e.data.templateAvailable,
                  Standing(e.data.plan.requestedVersion, e.data.plan.currentVersion, ActionFor(policy, e.data), size,
                           true), e.annotations, e.labels))
    case _ => None
  }

  /** The backups the inner loop collects for one requested instance; None when one of them cannot be made. */
  function BackupsFor(name: string, running: seq<Running>, policy: bool): Option<seq<Backup>> {
    if running == [] then Some([])
    else
      var last := running[|running| - 1];
      match BackupsFor(name, running[..|running| - 1], policy)
      case None => None
      case Some(list) =>
        if name != last.data.name then Some(list)
        else
          match BackupOf(last, policy)
          case None => None
          case Some(b) => Some(list + [b])
  }

  function BackupList(names: seq<string>, running: seq<Running>, policy: bool): Option<seq<Backup>> {
    if names == [] then Some([])
    else
      match BackupList(names[..|names| - 1], running, policy)
      case None => None
      case Some(list) =>
        match BackupsFor(names[|names| - 1], running, policy)
        case None => None
        case Some(more) => Some(list + more)
  }

  // ----- The loops -----

  /** There is a backup exactly when the recorded volume size and state are numbers; it asks for the version that
      runs, was at the version that was asked for, and shares the two map objects of the instance. */
  method GetBackupData(e: Running, policy: bool) returns (b: Option<Backup>)
    ensures b == BackupOf(e, policy)
    ensures b.Some? <==> Atoi(Get(e.data.maps.annotations, VOLUME_SIZE)).Some?
                         && Atoi(Get(e.data.maps.annotations, STATE)).Some?
    ensures b.Some? ==>
              && b.value.plan.requestedVersion == e.data.plan.currentVersion
              && b.value.plan.currentVersion == e.data.plan.requestedVersion
              && Some(b.value.plan.storageSize) == Atoi(Get(e.data.maps.annotations, VOLUME_SIZE))
              && Some(b.value.state) == Atoi(Get(e.data.maps.annotations, STATE))
              && b.value.plan.deleteStorage && b.value.name == e.data.name
              && b.value.namespace == e.data.namespace && b.value.templateAvailable == e.data.templateAvailable
              && b.value.annotations == e.annotations && b.value.labels == e.labels
              && (b.value.plan.nextAction == Cluster.Recreate
                  <==> policy || e.data.plan.requestedVersion == e.data.plan.currentVersion)
              && b.value.plan.nextAction in {Cluster.Recreate, Cluster.Upgrade}
  {
    var size := Atoi(Get(e.data.maps.annotations, VOLUME_SIZE));
    if size.None? { return None; }
    var state := Atoi(Get(e.data.maps.annotations, STATE));
    if state.None? { return None; }
    var versions := Standing(e.data.plan.requestedVersion, e.data.plan.currentVersion, ActionFor(policy, e.data),
                             size.value, true);
    b := Some(Backup(e.data.name, state.value, e.data.namespace, e.data.templateAvailable, versions, e.annotations,
                     e.labels));
  }

  method MatchWith(d: Instance, e: Data, policy: bool)
    modifies d`nextAction, d`currentVersion
    ensures d.Plan() == Matched(d.name, old(d.Plan()), e, policy)
  {
    if d.name == e.name {
      if policy || e.plan.requestedVersion == e.plan.currentVersion {
        d.nextAction := Cluster.Recreate;
      } else {
        d.nextAction := Cluster.Upgrade;
      }
      d.currentVersion := Get(e.maps.annotations, VERSION);
    }
  }

  method Inherit(d: Instance, e: Data, version: string)
    modifies d`requestedVersion, d`storageSize
    ensures d.Plan() == Inherited(old(d.Plan()), e, version)
  {
    if version == "" { d.requestedVersion := e.plan.requestedVersion; }
    d.storageSize := e.plan.storageSize;
  }

  lemma {:induction false} FailureStays(name: string, running: seq<Running>, policy: bool, n: nat)
    requires n <= |running| && BackupsFor(name, running[..n], policy).None?
    ensures BackupsFor(name, running, policy).None?
    decreases |running|
  {
    if n < |running| {
      var front := running[..|running| - 1];
      assert front[..n] == running[..n];
      FailureStays(name, front, policy, n);
    } else {
      assert running[..n] == running;
    }
  }

  /** What one running instance adds to the backups of a requested one. */
  function Extended(list: seq<Backup>, name: string, e: Running, policy: bool): Option<seq<Backup>> {
    if name != e.data.name then Some(list)
    else
      match BackupOf(e, policy)
      case None => None
      case Some(b) => Some(list + [b])
  }

  lemma ExtendedNext(name: string, running: seq<Running>, j: nat, policy: bool, list: seq<Backup>)
    requires j < |running| && BackupsFor(name, running[..j], policy) == Some(list)
    ensures BackupsFor(name, running[..j + 1], policy) == Extended(list, name, running[j], policy)
  {
    assert running[..j + 1][..j] == running[..j];
  }

  method BackUpMatch(list: seq<Backup>, name: string, e: Running, policy: bool) returns (more: Option<seq<Backup>>)
    ensures more == Extended(list, name, e, policy)
  {
    if name != e.data.name { return Some(list); }
    var b := GetBackupData(e, policy);
    more := if b.None? then None else Some(list + [b.value]);
  }

  /** The inner loop: one requested instance against all running ones. A match that cannot be backed up ends the
      planning. */
  method CompareAll(d: Instance, running: seq<Running>, policy: bool, version: string)
    returns (backups: Option<seq<Backup>>)
    modifies d`nextAction, d`currentVersion, d`requestedVersion, d`storageSize
    ensures backups == BackupsFor(d.name, running, policy)
    ensures backups.Some? ==> d.Plan() == Compared(d.name, old(d.Plan()), running, policy, version)
  {
    ghost var plan := d.Plan();
    var list := [];
    for j := 0 to |running|
      invariant BackupsFor(d.name, running[..j], policy) == Some(list)
      invariant d.Plan() == Compared(d.name, plan, running[..j], policy, version)
    {
      var e := running[j];
      assert running[..j + 1] == running[..j] + [e];
      ComparedNext(d.name, plan, running[..j], e, policy, version);
      ExtendedNext(d.name, running, j, policy, list);
      MatchWith(d, e.data, policy);
      var more := BackUpMatch(list, d.name, e, policy);
      if more.None? {
        FailureStays(d.name, running, policy, j + 1);
        return None;
      }
      list := more.value;
      Inherit(d, e.data, version);
    }
    assert running[..|running|] == running;
    backups := Some(list);
  }

  lemma {:induction false} ListFailureStays(names: seq<string>, running: seq<Running>, policy: bool, n: nat)
    requires n <= |names| && BackupList(names[..n], running, policy).None?
    ensures BackupList(names, running, policy).None?
    decreases |names|
  {
    if n < |names| {
      var front := names[..|names| - 1];
      assert front[..n] == names[..n];
      ListFailureStays(front, running, policy, n);
    } else {
      assert names[..n] == names;
    }
  }

  ghost predicate Distinct(list: seq<Instance>) {
    forall i, j :: 0 <= i < j < |list| ==> list[i] != list[j]
  }

  /** The outer loop, for a request that lists group ids; `names` and `plans` are what it starts from. */
  method CompareRequested(requested: seq<Instance>, running: seq<Running>, policy: bool, version: string,
                          ghost names: seq<string>, ghost plans: seq<Standing>)
    returns (backups: Option<seq<Backup>>)
    requires Distinct(requested) && |names| == |plans| == |requested|
    requires forall i :: 0 <= i < |names| ==> requested[i].name == names[i] && requested[i].Plan() == plans[i]
    modifies requested`nextAction, requested`currentVersion, requested`requestedVersion, requested`storageSize
    ensures backups == BackupList(names, running, policy)
    ensures backups.Some? ==> forall i :: 0 <= i < |names| ==>
              requested[i].Plan() == Compared(names[i], plans[i], running, policy, version)
  {
    var list := [];
    for i := 0 to |requested|
      invariant BackupList(names[..i], running, policy) == Some(list)
      invariant forall k :: 0 <= k < i ==>
                  requested[k].Plan() == Compared(names[k], plans[k], running, policy, version)
      invariant forall k :: i <= k < |names| ==> requested[k].Plan() == plans[k]
    {
      assert names[..i + 1][..i] == names[..i];
      backups := CompareAll(requested[i], running, policy, version);
      if backups.None? {
        ListFailureStays(names, running, policy, i + 1);
        return;
      }
      list := list + backups.value;
    }
    assert names[..|names|] == names;
    backups := Some(list);
  }

  /** The backups of a request without group ids: one per running instance, in order. */
  predicate BacksUp(list: seq<Backup>, running: seq<Running>, policy: bool) {
    |list| == |running| && forall j :: 0 <= j < |running| ==> BackupOf(running[j], policy) == Some(list[j])
  }

  predicate CanBackUp(running: seq<Running>, policy: bool) {
    forall j :: 0 <= j < |running| ==> BackupOf(running[j], policy).Some?
  }

  /** The loop for a request without group ids, which plans the running records themselves: every running instance
      is backed up, or one of them cannot be. */
  method BackUpRunning(running: seq<Running>, policy: bool) returns (backups: Option<seq<Backup>>)
    ensures backups.Some? <==> CanBackUp(running, policy)
    ensures backups.Some? ==> BacksUp(backups.value, running, policy)
  {
    var list := [];
    for j := 0 to |running|
      invariant |list| == j && forall k :: 0 <= k < j ==> BackupOf(running[k], policy) == Some(list[k])
    {
      var b := GetBackupData(running[j], policy);
      if b.None? { return None; }
      list := list + [b.value];
    }
    backups := Some(list);
  }

  // ----- What the planning decides -----

  predicate DistinctNames(running: seq<Running>) {
    forall i, j :: 0 <= i < j < |running| ==> running[i].data.name != running[j].data.name
  }

  predicate Match(name: string, running: seq<Running>, j: int) {
    0 <= j < |running| && running[j].data.name == name
  }

  lemma {:induction false} LastMatchIsAMatch(name: string, running: seq<Running>)
    ensures LastMatch(name, running).None? <==> forall j :: !Match(name, running, j)
    ensures LastMatch(name, running).Some? ==>
              exists j :: Match(name, running, j) && running[j].data == LastMatch(name, running).value
  {
    if running != [] {
      var n := |running| - 1;
      LastMatchIsAMatch(name, running[..n]);
      if running[n].data.name == name {
        assert Match(name, running, n);
      } else {
        forall j | Match(name, running, j) ensures Match(name, running[..n], j) { }
        if LastMatch(name, running).Some? {
          var j :| Match(name, running[..n], j) && running[..n][j].data == LastMatch(name, running).value;
          assert Match(name, running, j);
        } else {
          forall j ensures !Match(name, running, j) { assert !Match(name, running[..n], j); }
        }
      }
    }
  }

  /** A requested instance is created exactly when no running instance has its name, and otherwise re-created
      exactly when the policy says so or the running versions are equal; its current version is the version
      annotation of the match. */
  lemma Classification(name: string, plan: Standing, running: seq<Running>, policy: bool, version: string)
    requires DistinctNames(running) && plan.nextAction == Cluster.Create
    ensures var c := Compared(name, plan, running, policy, version);
            && (c.nextAction == Cluster.Create <==> forall j :: !Match(name, running, j))
            && (forall j :: Match(name, running, j) ==>
                  var e := running[j].data.plan;
                  c.nextAction == (if policy || e.requestedVersion == e.currentVersion then Cluster.Recreate
                                   else Cluster.Upgrade)
                  && c.currentVersion == Get(running[j].data.maps.annotations, VERSION))
  {
    LastMatchIsAMatch(name, running);
  }

  /** The size an instance is recorded with is that of the last running instance, whatever its name: two running
      instances of different sizes are enough for a wrong record. */
  lemma WrongSizeWitness(a: Running, b: Running, plan: Standing)
    requires a.data.name != b.data.name && a.data.plan.storageSize != b.data.plan.storageSize
    ensures Compared(a.data.name, plan, [a, b], false, "").storageSize != a.data.plan.storageSize
    ensures a.data.plan.requestedVersion != b.data.plan.requestedVersion ==>
              Compared(a.data.name, plan, [a, b], false, "").requestedVersion != a.data.plan.requestedVersion
  {
  }

  /** Every match is recorded with its own size, whatever is requested, exactly when all running instances that
      can be matched have the size of the last one. */
  lemma SizesRecordedExactly(running: seq<Running>, plan: Standing, policy: bool, version: string)
    requires DistinctNames(running)
    ensures (forall name, j :: Match(name, running, j) ==>
               Compared(name, plan, running, policy, version).storageSize == running[j].data.plan.storageSize)
            <==> forall i, j :: 0 <= i < |running| && 0 <= j < |running| ==>
                   running[i].data.plan.storageSize == running[j].data.plan.storageSize
  {
    if forall name, j :: Match(name, running, j) ==>
         Compared(name, plan, running, policy, version).storageSize == running[j].data.plan.storageSize {
      forall i | 0 <= i < |running|
        ensures running[i].data.plan.storageSize == running[|running| - 1].data.plan.storageSize
      {
        assert Match(running[i].data.name, running, i);
      }
    }
  }

  /** Without a requested version, every match is recorded with the version that is asked for of itself exactly when
      the same version is asked for of all running instances. */
  lemma VersionsRecordedExactly(running: seq<Running>, plan: Standing, policy: bool)
    requires DistinctNames(running)
    ensures (forall name, j :: Match(name, running, j) ==>
               Compared(name, plan, running, policy, "").requestedVersion == running[j].data.plan.requestedVersion)
            <==> forall i, j :: 0 <= i < |running| && 0 <= j < |running| ==>
                   running[i].data.plan.requestedVersion == running[j].data.plan.requestedVersion
  {
    if forall name, j :: Match(name, running, j) ==>
         Compared(name, plan, running, policy, "").requestedVersion == running[j].data.plan.requestedVersion {
      forall i | 0 <= i < |running|
        ensures running[i].data.plan.requestedVersion == running[|running| - 1].data.plan.requestedVersion
      {
        assert Match(running[i].data.name, running, i);
      }
    }
  }

  /** A requested version is kept, and so is the decision about storage; without running instances nothing changes. */
  lemma ComparedKeeps(name: string, plan: Standing, running: seq<Running>, policy: bool, version: string)
    ensures var c := Compared(name, plan, running, policy, version);
            && (version != "" ==> c.requestedVersion == plan.requestedVersion)
            && c.deleteStorage == plan.deleteStorage
            && (running == [] ==> c == plan)
            && ((forall j :: !Match(name, running, j)) ==> c.currentVersion == plan.currentVersion)
  {
    LastMatchIsAMatch(name, running);
  }

  /** With distinct running names a requested instance has at most one backup. */
  lemma {:induction false} BackupsForExact(name: string, running: seq<Running>, policy: bool)
    requires DistinctNames(running)
    ensures (forall j :: !Match(name, running, j)) ==> BackupsFor(name, running, policy) == Some([])
    ensures forall j :: Match(name, running, j) ==>
              BackupsFor(name, running, policy)
              == match BackupOf(running[j], policy) case None => None case Some(b) => Some([b])
  {
    if running != [] {
      var n := |running| - 1;
      BackupsForExact(name, running[..n], policy);
      forall j | 0 <= j < n ensures Match(name, running[..n], j) <==> Match(name, running, j) { }
      if Match(name, running, n) {
        forall j ensures !Match(name, running[..n], j) { }
        forall j | Match(name, running, j) ensures j == n { }
        var none: seq<Backup>, b := [], BackupOf(running[n], policy);
        assert BackupsFor(name, running[..n], policy) == Some(none);
        if b.Some? { assert none + [b.value] == [b.value]; }
      } else {
        forall j | Match(name, running, j) ensures Match(name, running[..n], j) { }
        if forall j :: !Match(name, running, j) {
          forall j ensures !Match(name, running[..n], j) { }
        }
      }
    }
  }

  ghost predicate HasBackup(names: seq<string>, running: seq<Running>, policy: bool, b: Backup) {
    exists i, j :: 0 <= i < |names| && Match(names[i], running, j) && BackupOf(running[j], policy) == Some(b)
  }

  lemma HasBackupMore(names: seq<string>, running: seq<Running>, policy: bool, b: Backup)
    requires names != [] && HasBackup(names[..|names| - 1], running, policy, b)
    ensures HasBackup(names, running, policy, b)
    ensures b.name in names[..|names| - 1]
  {
    var n := |names| - 1;
    var i, j :| 0 <= i < n && Match(names[..n][i], running, j) && BackupOf(running[j], policy) == Some(b);
    assert Match(names[i], running, j);
  }

  /** One entry for each requested instance that is running, under its name, and no other entry. */
  ghost predicate ExactBackups(names: seq<string>, running: seq<Running>, policy: bool, list: seq<Backup>) {
    && (forall i, j :: 0 <= i < |names| && Match(names[i], running, j) ==>
          BackupOf(running[j], policy).Some? && BackupOf(running[j], policy).value in list)
    && (forall b :: b in list ==> HasBackup(names, running, policy, b))
    && (forall k, l :: 0 <= k < l < |list| ==> list[k].name != list[l].name)
  }

  lemma OneMoreName(names: seq<string>, name: string, running: seq<Running>, policy: bool, front: seq<Backup>,
                    last: seq<Backup>)
    requires names != [] && name == names[|names| - 1] && forall i, j :: 0 <= i < j < |names| ==> names[i] != names[j]
    requires ExactBackups(names[..|names| - 1], running, policy, front)
    requires (forall j :: !Match(name, running, j)) ==> last == []
    requires forall j :: Match(name, running, j) ==>
               BackupOf(running[j], policy).Some? && last == [BackupOf(running[j], policy).value]
    ensures ExactBackups(names, running, policy, front + last)
  {
    var n := |names| - 1;
    forall b | b in front ensures HasBackup(names, running, policy, b) && b.name != name {
      HasBackupMore(names, running, policy, b);
    }
    forall b | b in last ensures HasBackup(names, running, policy, b) && b.name == name {
      var j :| Match(name, running, j);
      assert Match(names[n], running, j);
    }
    forall i, j | 0 <= i < |names| && Match(names[i], running, j)
      ensures BackupOf(running[j], policy).Some? && BackupOf(running[j], policy).value in front + last
    {
      if i < n { assert Match(names[..n][i], running, j); }
    }
  }

  /** The backup list has exactly one entry with swapped versions for each requested instance that is running, and
      no other entry. */
  lemma {:induction false} BackupsExact(names: seq<string>, running: seq<Running>, policy: bool)
    requires DistinctNames(running) && BackupList(names, running, policy).Some?
    requires forall i, j :: 0 <= i < j < |names| ==> names[i] != names[j]
    ensures ExactBackups(names, running, policy, BackupList(names, running, policy).value)
  {
    if names != [] {
      var n := |names| - 1;
      BackupsExact(names[..n], running, policy);
      BackupsForExact(names[n], running, policy);
      OneMoreName(names, names[n], running, policy, BackupList(names[..n], running, policy).value,
                  BackupsFor(names[n], running, policy).value);
    }
  }
}
