/** The table of lock keys that every mutating request goes through, and the handlers around it. */
module Locks {

  const UPGRADE_CLUSTER := "UpgradeCluster"
  const ENABLE_DISABLE := "EnableDisableApps"
  const DELETE_APPS := "DeleteApps"
  const CREATE_NODE := "AddNode"
  const UPDATE_NODE := "UpdateNodeState"
  const DELETE_NODE := "RemoveNode"
  const ANY := "AnyAction"

  /** The keys whose holder locks out everybody. */
  const GLOBALS := [ENABLE_DISABLE, DELETE_APPS, UPGRADE_CLUSTER, CREATE_NODE, DELETE_NODE]

  /** A key is locked while it is held, and every key is while applications are enabled or disabled or deleted all
      together, the cluster is upgraded, or a node is added or removed. */
  predicate Locked(keys: set<string>, key: string) {
    || key in keys
    || "EnableDisableApps" in keys || "DeleteApps" in keys || "UpgradeCluster" in keys
    || "AddNode" in keys || "RemoveNode" in keys
  }

  lemma LockedByGlobals(keys: set<string>, key: string)
    ensures Locked(keys, key) <==> key in keys || exists g :: g in GLOBALS && g in keys
  {
    var l := GLOBALS;
    assert l[0] in l && l[1] in l && l[2] in l && l[3] in l && l[4] in l;
  }

  class LockTable {
    var keys: set<string>

    constructor ()
      ensures keys == {}
    {
      keys := {};
    }

    method Lock(key: string)
      modifies this
      ensures keys == old(keys) + {key}
    {
      keys := keys + {key};
    }

    method Unlock(key: string)
      modifies this
      ensures keys == old(keys) - {key}
    {
      if key in keys {
        keys := keys - {key};
      }
    }

    method IsLocked(key: string) returns (locked: bool)
      ensures locked <==> Locked(keys, key)
    {
      var list := [key] + GLOBALS;
      for k := 0 to |list|
        invariant forall j :: 0 <= j < k ==> list[j] !in keys
      {
        if list[k] in keys {
          LockedByGlobals(keys, key);
          return true;
        }
      }
      LockedByGlobals(keys, key);
      assert list[0] == key && forall g :: g in GLOBALS ==> g in list;
      locked := false;
    }
  }

  // ----- The handlers -----

  /** CreateApp, UpgradeApp, UpdateApp and DeleteApp are AppOp; the other kinds have one handler each. */
  datatype Op = AppOp(name: string, rootGroup: string) | MetadataOp(name: string) | EnableDisableOp | DeleteAppsOp
              | UpgradeClusterOp | CreateNodeOp | DeleteNodeOp | UpdateNodeOp

  /** The key a handler takes and gives back. */
  function LockKey(op: Op): string {
    match op
    case AppOp(name, root) => name + root
    case MetadataOp(name) => name
    case EnableDisableOp => ENABLE_DISABLE
    case DeleteAppsOp => DELETE_APPS
    case UpgradeClusterOp => UPGRADE_CLUSTER
    case CreateNodeOp => CREATE_NODE
    case DeleteNodeOp => DELETE_NODE
    case UpdateNodeOp => UPDATE_NODE
  }

  /** The key a handler looks up before it takes its own. */
  function CheckKey(op: Op): string {
    if op.CreateNodeOp? || op.DeleteNodeOp? || op.UpdateNodeOp? then ANY else LockKey(op)
  }

  /** The kinds that shut out everybody. */
  predicate GlobalKind(op: Op) {
    op.EnableDisableOp? || op.DeleteAppsOp? || op.UpgradeClusterOp? || op.CreateNodeOp? || op.DeleteNodeOp?
  }

  /** An operation of such a kind, or an application that is named like their keys. */
  predicate Global(op: Op) { GlobalKind(op) || LockKey(op) in GLOBALS }

  lemma GlobalHasKey(op: Op)
    ensures Global(op) <==> LockKey(op) in GLOBALS
    ensures Global(op) <==> forall key :: Locked({LockKey(op)}, key)
  {
    var l := GLOBALS;
    assert l[0] in l && l[1] in l && l[2] in l && l[3] in l && l[4] in l;
    LockedByGlobals({LockKey(op)}, LockKey(op) + "'");
    assert LockKey(op) != LockKey(op) + "'" by { assert |LockKey(op) + "'"| == |LockKey(op)| + 1; }
    forall key ensures LockKey(op) in GLOBALS ==> Locked({LockKey(op)}, key) {
      LockedByGlobals({LockKey(op)}, key);
    }
  }

  /** While an operation of one of these kinds has its key in the table, every key is locked. */
  lemma KindLocksEverybody(op: Op, keys: set<string>, key: string)
    requires GlobalKind(op) && LockKey(op) in keys
    ensures Locked(keys, key)
  {
  }

  /** Checked is the state between looking at the table and taking the key. An upgrade whose clean command fails
      is abandoned: it is over, but its key stays. */
  datatype Phase = Waiting | Checked | Running | Refused | Finished | Abandoned

  predicate Holding(phase: Phase) { phase.Running? || phase.Abandoned? }

  datatype State = State(keys: set<string>, phases: seq<Phase>)

  /** Admit is check and lock in one step, Check and Take are the two steps of the handlers. */
  datatype Event = Admit(i: nat) | Check(i: nat) | Take(i: nat) | Release(i: nat) | Abandon(i: nat)

  function Idle(ops: seq<Op>): State { State({}, seq(|ops|, _ => Waiting)) }

  function Enter(s: State, i: nat, op: Op): State
    requires i < |s.phases|
  {
    if Locked(s.keys, CheckKey(op)) then s.(phases := s.phases[i := Refused])
    else State(s.keys + {LockKey(op)}, s.phases[i := Running])
  }

  function Step(ops: seq<Op>, s: State, e: Event): (s': State)
    requires |s.phases| == |ops|
    ensures |s'.phases| == |ops|
  {
    if e.i >= |ops| then s
    else
      var op, phase := ops[e.i], s.phases[e.i];
      match e
      case Admit(i) => if phase.Waiting? then Enter(s, i, op) else s
      case Check(i) =>
        if !phase.Waiting? then s
        else s.(phases := s.phases[i := if Locked(s.keys, CheckKey(op)) then Refused else Checked])
      case Take(i) => if phase.Checked? then State(s.keys + {LockKey(op)}, s.phases[i := Running]) else s
      case Release(i) => if phase.Running? then State(s.keys - {LockKey(op)}, s.phases[i := Finished]) else s
      case Abandon(i) => if phase.Running? && op.UpgradeClusterOp? then s.(phases := s.phases[i := Abandoned]) else s
  }

  function Run(ops: seq<Op>, events: seq<Event>): (s: State)
    ensures |s.phases| == |ops|
  {
    if events == [] then Idle(ops)
    else Step(ops, Run(ops, events[..|events| - 1]), events[|events| - 1])
  }

  /** Runs in which every handler checks and locks in one step. */
  predicate Atomic(events: seq<Event>) { forall k :: 0 <= k < |events| ==> !events[k].Check? && !events[k].Take? }

  // ----- Safety -----

  /** One holder per key, except that node-state updates share theirs. */
  predicate OneHolder(ops: seq<Op>, s: State)
    requires |s.phases| == |ops|
  {
    forall i, j :: 0 <= i < j < |ops| && Holding(s.phases[i]) && Holding(s.phases[j]) ==>
      LockKey(ops[i]) != LockKey(ops[j]) || (ops[i].UpdateNodeOp? && ops[j].UpdateNodeOp?)
  }

  /** The operations of the global kinds exclude each other. */
  predicate OneGlobal(ops: seq<Op>, s: State)
    requires |s.phases| == |ops|
  {
    forall i, j :: 0 <= i < j < |ops| && Holding(s.phases[i]) && Holding(s.phases[j]) ==>
      !(Global(ops[i]) && Global(ops[j]))
  }

  /** Nobody's key has been freed by somebody else, again except among node-state updates. */
  predicate KeysKept(ops: seq<Op>, s: State)
    requires |s.phases| == |ops|
  {
    forall i :: 0 <= i < |ops| && Holding(s.phases[i]) && !ops[i].UpdateNodeOp? ==> LockKey(ops[i]) in s.keys
  }

  /** Every key in the table belongs to a holder. */
  predicate KeysOwned(ops: seq<Op>, s: State)
    requires |s.phases| == |ops|
  {
    forall k :: k in s.keys ==> exists i :: 0 <= i < |ops| && Holding(s.phases[i]) && LockKey(ops[i]) == k
  }

  predicate Safe(ops: seq<Op>, s: State)
    requires |s.phases| == |ops|
  {
    OneHolder(ops, s) && OneGlobal(ops, s) && KeysKept(ops, s)
  }

  /** An application whose lock key is the key of the node-state updates, and such an update. */
  predicate Clash(ops: seq<Op>) {
    exists i, j :: 0 <= i < |ops| && 0 <= j < |ops| && ops[i] != UpdateNodeOp && LockKey(ops[i]) == UPDATE_NODE
                   && ops[j].UpdateNodeOp?
  }

  lemma KeysDiffer()
    ensures UPDATE_NODE !in GLOBALS
    ensures forall i, j :: 0 <= i < j < |GLOBALS| ==> GLOBALS[i] != GLOBALS[j]
    ensures ANY !in GLOBALS && ANY != UPDATE_NODE
  {
    assert |UPDATE_NODE| == 15 && |ANY| == 9 && DELETE_APPS[0] == 'D' && DELETE_NODE[0] == 'R';
    forall k | 0 <= k < |GLOBALS| ensures |GLOBALS[k]| != 15 && |GLOBALS[k]| != 9 { }
  }

  lemma EnterKeepsSafe(ops: seq<Op>, s: State, i: nat)
    requires |s.phases| == |ops| && Safe(ops, s) && !Clash(ops) && i < |ops| && s.phases[i].Waiting?
    ensures Safe(ops, Enter(s, i, ops[i]))
  {
    KeysDiffer();
    var s' := Enter(s, i, ops[i]);
    if !Locked(s.keys, CheckKey(ops[i])) {
      forall j | 0 <= j < |ops| && j != i && Holding(s.phases[j])
        ensures LockKey(ops[j]) != LockKey(ops[i]) || (ops[j].UpdateNodeOp? && ops[i].UpdateNodeOp?)
        ensures !Global(ops[j])
      {
        assert ops[j].UpdateNodeOp? || LockKey(ops[j]) in s.keys;
        if ops[i].UpdateNodeOp? && LockKey(ops[j]) == UPDATE_NODE { assert ops[j].UpdateNodeOp?; }
        if ops[j].UpdateNodeOp? && LockKey(ops[i]) == UPDATE_NODE { assert ops[i].UpdateNodeOp?; }
      }
    }
  }

  lemma StepKeepsSafe(ops: seq<Op>, s: State, e: Event)
    requires |s.phases| == |ops| && Safe(ops, s) && !Clash(ops) && !e.Check? && !e.Take?
    ensures Safe(ops, Step(ops, s, e))
  {
    if e.i < |ops| {
      if e.Admit? && s.phases[e.i].Waiting? {
        EnterKeepsSafe(ops, s, e.i);
      } else if e.Release? && s.phases[e.i].Running? {
        var s' := Step(ops, s, e);
        forall j | 0 <= j < |ops| && Holding(s'.phases[j]) && !ops[j].UpdateNodeOp? ensures LockKey(ops[j]) in s'.keys {
          assert j != e.i && Holding(s.phases[j]) && Holding(s.phases[e.i]);
        }
      }
    }
  }

  lemma {:induction false} RunIsSafe(ops: seq<Op>, events: seq<Event>)
    requires !Clash(ops) && Atomic(events)
    ensures Safe(ops, Run(ops, events))
  {
    if events != [] {
      RunIsSafe(ops, events[..|events| - 1]);
      StepKeepsSafe(ops, Run(ops, events[..|events| - 1]), events[|events| - 1]);
    }
  }

  lemma RunOfTwo(ops: seq<Op>, a: Event, b: Event)
    ensures Run(ops, [a, b]) == Step(ops, Step(ops, Idle(ops), a), b)
  {
    assert [a, b][..1] == [a] && [a][..0] == [];
    assert Run(ops, [a]) == Step(ops, Run(ops, []), a);
  }

  lemma {:induction false} ClashIsUnsafe(ops: seq<Op>, i: nat, j: nat)
    requires i < |ops| && j < |ops| && ops[i] != UpdateNodeOp && LockKey(ops[i]) == UPDATE_NODE
    requires ops[j].UpdateNodeOp?
    ensures !Safe(ops, Run(ops, [Admit(i), Admit(j)]))
  {
    KeysDiffer();
    RunOfTwo(ops, Admit(i), Admit(j));
    var s := Run(ops, [Admit(i), Admit(j)]);
    assert Step(ops, Idle(ops), Admit(i)).keys == {UPDATE_NODE};
    assert Holding(s.phases[i]) && Holding(s.phases[j]);
  }

  /** With check and lock in one step, every run is safe exactly when no application has the lock key
      "UpdateNodeState" beside a node-state update. The reserved keys of the other kinds are harmless. */
  lemma SafeExactly(ops: seq<Op>)
    ensures (forall events :: Atomic(events) ==> Safe(ops, Run(ops, events))) <==> !Clash(ops)
  {
    if Clash(ops) {
      var i, j :| 0 <= i < |ops| && 0 <= j < |ops| && ops[i] != UpdateNodeOp && LockKey(ops[i]) == UPDATE_NODE
                  && ops[j].UpdateNodeOp?;
      ClashIsUnsafe(ops, i, j);
      assert Atomic([Admit(i), Admit(j)]);
    } else {
      forall events | Atomic(events) ensures Safe(ops, Run(ops, events)) {
        RunIsSafe(ops, events);
      }
    }
  }

  // ----- Admission -----

  lemma {:induction false} RunOwnsKeys(ops: seq<Op>, events: seq<Event>)
    requires Atomic(events)
    ensures KeysOwned(ops, Run(ops, events))
  {
    if events != [] {
      var s, e := Run(ops, events[..|events| - 1]), events[|events| - 1];
      RunOwnsKeys(ops, events[..|events| - 1]);
      var s' := Run(ops, events);
      forall k | k in s'.keys ensures exists i :: 0 <= i < |ops| && Holding(s'.phases[i]) && LockKey(ops[i]) == k {
        if k in s.keys {
          var i :| 0 <= i < |ops| && Holding(s.phases[i]) && LockKey(ops[i]) == k;
          assert Holding(s'.phases[i]);
        } else {
          assert Holding(s'.phases[e.i]) && LockKey(ops[e.i]) == k;
        }
      }
    }
  }

  /** A holder of a global key, or of the key that is looked up, has it in the table. */
  lemma HolderIsSeen(ops: seq<Op>, s: State, i: nat, j: nat)
    requires |s.phases| == |ops| && KeysKept(ops, s) && !Clash(ops) && i < |ops| && j < |ops| && Holding(s.phases[j])
    requires Global(ops[j]) || LockKey(ops[j]) == CheckKey(ops[i])
    ensures Locked(s.keys, CheckKey(ops[i]))
  {
    KeysDiffer();
    assert !ops[j].UpdateNodeOp?;
    assert LockKey(ops[j]) in s.keys;
  }

  /** A waiting operation is let in exactly when no operation of a global kind holds its key and no operation holds
      the key it looks up, and is refused otherwise. In particular an operation of a global kind is let in while
      applications are being changed. */
  lemma AdmittedExactly(ops: seq<Op>, events: seq<Event>, i: nat)
    requires !Clash(ops) && Atomic(events) && i < |ops| && Run(ops, events).phases[i].Waiting?
    ensures Step(ops, Run(ops, events), Admit(i)).phases[i].Running?
            <==> forall j :: 0 <= j < |ops| && Holding(Run(ops, events).phases[j]) ==>
                   !Global(ops[j]) && LockKey(ops[j]) != CheckKey(ops[i])
    ensures var s, s' := Run(ops, events), Step(ops, Run(ops, events), Admit(i));
            && (s'.phases[i].Running? ==> s'.keys == s.keys + {LockKey(ops[i])})
            && (!s'.phases[i].Running? ==> s'.phases[i].Refused? && s'.keys == s.keys)
  {
    var s := Run(ops, events);
    RunIsSafe(ops, events);
    RunOwnsKeys(ops, events);
    forall j | 0 <= j < |ops| && Holding(s.phases[j]) && (Global(ops[j]) || LockKey(ops[j]) == CheckKey(ops[i]))
      ensures Locked(s.keys, CheckKey(ops[i]))
    {
      HolderIsSeen(ops, s, i, j);
    }
    assert Step(ops, s, Admit(i)) == Enter(s, i, ops[i]);
  }

  predicate Reserved(key: string) {
    key in {"EnableDisableApps", "DeleteApps", "UpgradeCluster", "AddNode", "RemoveNode"}
  }

  /** A holder keeps out a request that looks up this key: applications by name and root group together, metadata by
      the application's name, and node-state updates only somebody who is named like them. */
  predicate KeepsOut(holder: Op, key: string) {
    match holder
    case AppOp(name, root) => name + root == key || Reserved(name + root)
    case MetadataOp(name) => name == key || Reserved(name)
    case UpdateNodeOp => key == "UpdateNodeState"
    case _ => true
  }

  lemma KeepsOutExactly(holder: Op, op: Op)
    ensures Global(holder) || LockKey(holder) == CheckKey(op) <==> KeepsOut(holder, CheckKey(op))
    ensures op.AppOp? ==> CheckKey(op) == op.name + op.rootGroup
    ensures op.MetadataOp? ==> CheckKey(op) == op.name
    ensures op.CreateNodeOp? || op.DeleteNodeOp? || op.UpdateNodeOp? ==> CheckKey(op) == "AnyAction"
  {
    KeysDiffer();
    ReservedExactly(LockKey(holder));
  }

  lemma ReservedExactly(key: string)
    ensures Reserved(key) <==> key in GLOBALS
  {
    var l := GLOBALS;
    assert l[0] in l && l[1] in l && l[2] in l && l[3] in l && l[4] in l;
  }

  /** By kind: a waiting application request is let in exactly when no holder keeps out its name and root group, one
      for metadata when none keeps out the name, and a node request when none keeps out the key "AnyAction": in
      particular node-state updates and application requests do not keep each other out. */
  lemma AdmittedByKind(ops: seq<Op>, events: seq<Event>, i: nat)
    requires !Clash(ops) && Atomic(events) && i < |ops| && Run(ops, events).phases[i].Waiting?
    ensures var s, s' := Run(ops, events), Step(ops, Run(ops, events), Admit(i));
            && (ops[i].AppOp? ==>
                  (s'.phases[i].Running?
                   <==> forall j :: 0 <= j < |ops| && Holding(s.phases[j]) ==>
                          !KeepsOut(ops[j], ops[i].name + ops[i].rootGroup)))
            && (ops[i].MetadataOp? ==>
                  (s'.phases[i].Running?
                   <==> forall j :: 0 <= j < |ops| && Holding(s.phases[j]) ==> !KeepsOut(ops[j], ops[i].name)))
            && (ops[i].CreateNodeOp? || ops[i].DeleteNodeOp? || ops[i].UpdateNodeOp? ==>
                  (s'.phases[i].Running?
                   <==> forall j :: 0 <= j < |ops| && Holding(s.phases[j]) ==> !KeepsOut(ops[j], "AnyAction")))
  {
    AdmittedExactly(ops, events, i);
    forall j | 0 <= j < |ops|
      ensures Global(ops[j]) || LockKey(ops[j]) == CheckKey(ops[i]) <==> KeepsOut(ops[j], CheckKey(ops[i]))
    {
      KeepsOutExactly(ops[j], ops[i]);
    }
  }

  /** While an operation of a global kind holds its key, a step of any run lets nobody in. */
  lemma GlobalShutsOut(ops: seq<Op>, s: State, g: nat, e: Event)
    requires |s.phases| == |ops| && Safe(ops, s) && g < |ops| && Global(ops[g]) && Holding(s.phases[g])
    requires !e.Check? && !e.Take?
    ensures forall i :: 0 <= i < |ops| && Step(ops, s, e).phases[i].Running? ==> s.phases[i].Running?
    ensures s.phases[g].Abandoned? ==> Step(ops, s, e).phases[g].Abandoned?
  {
    KeysDiffer();
    assert LockKey(ops[g]) in s.keys;
  }

  /** After an upgrade whose clean command failed, no operation is ever let in again. */
  lemma {:induction false} AbandonedForever(ops: seq<Op>, events: seq<Event>, more: seq<Event>, g: nat)
    requires !Clash(ops) && Atomic(events) && Atomic(more) && g < |ops| && Run(ops, events).phases[g].Abandoned?
    ensures Run(ops, events + more).phases[g].Abandoned?
    ensures forall i :: 0 <= i < |ops| && Run(ops, events + more).phases[i].Running? ==>
              Run(ops, events).phases[i].Running?
    decreases |more|
  {
    if more == [] {
      assert events + more == events;
    } else {
      var n := |more| - 1;
      AbandonedForever(ops, events, more[..n], g);
      var before := events + more[..n];
      assert (events + more)[..|events + more| - 1] == before && (events + more)[|events + more| - 1] == more[n];
      AbandonedIsUpgrade(ops, events, g);
      RunIsSafe(ops, before);
      GlobalShutsOut(ops, Run(ops, before), g, more[n]);
    }
  }

  lemma {:induction false} AbandonedIsUpgrade(ops: seq<Op>, events: seq<Event>, g: nat)
    requires g < |ops| && Run(ops, events).phases[g].Abandoned?
    ensures Global(ops[g])
  {
    if events != [] {
      var s := Run(ops, events[..|events| - 1]);
      if s.phases[g].Abandoned? {
        AbandonedIsUpgrade(ops, events[..|events| - 1], g);
      } else {
        assert GLOBALS[2] == UPGRADE_CLUSTER;
      }
    }
  }

  // ----- Without atomicity -----

  lemma RunOfFour(ops: seq<Op>, a: Event, b: Event, c: Event, d: Event)
    ensures Run(ops, [a, b, c, d]) == Step(ops, Step(ops, Run(ops, [a, b]), c), d)
  {
    assert [a, b, c, d][..3] == [a, b, c] && [a, b, c][..2] == [a, b];
    assert Run(ops, [a, b, c]) == Step(ops, Run(ops, [a, b]), c);
  }

  /** Two operations that may hold their keys at the same time. */
  predicate Compatible(a: Op, b: Op) {
    (LockKey(a) != LockKey(b) || (a.UpdateNodeOp? && b.UpdateNodeOp?)) && !(Global(a) && Global(b))
  }

  /** The handlers look and lock in two steps, and then any two operations that are let in alone are let in
      together, whatever their keys. */
  lemma RaceWitness(ops: seq<Op>, i: nat, j: nat)
    requires i < j < |ops|
    ensures var s := Run(ops, [Check(i), Check(j), Take(i), Take(j)]);
            && Holding(s.phases[i]) && Holding(s.phases[j])
            && (!Compatible(ops[i], ops[j]) ==> !Safe(ops, s))
  {
    var looked := Run(ops, [Check(i), Check(j)]);
    RunOfTwo(ops, Check(i), Check(j));
    RunOfFour(ops, Check(i), Check(j), Take(i), Take(j));
    assert looked == Idle(ops).(phases := Idle(ops).phases[i := Checked][j := Checked]);
  }

  predicate AllCompatible(ops: seq<Op>) { forall i, j :: 0 <= i < j < |ops| ==> Compatible(ops[i], ops[j]) }

  lemma StepKeepsKeys(ops: seq<Op>, s: State, e: Event)
    requires |s.phases| == |ops| && AllCompatible(ops) && KeysKept(ops, s)
    ensures KeysKept(ops, Step(ops, s, e))
  {
    var s' := Step(ops, s, e);
    forall j | 0 <= j < |ops| && Holding(s'.phases[j]) && !ops[j].UpdateNodeOp? ensures LockKey(ops[j]) in s'.keys {
      if j < e.i < |ops| {
        assert Compatible(ops[j], ops[e.i]);
      } else if e.i < j {
        assert Compatible(ops[e.i], ops[j]);
      }
    }
  }

  lemma {:induction false} CompatibleKeepKeys(ops: seq<Op>, events: seq<Event>)
    requires AllCompatible(ops)
    ensures KeysKept(ops, Run(ops, events))
  {
    if events != [] {
      CompatibleKeepKeys(ops, events[..|events| - 1]);
      StepKeepsKeys(ops, Run(ops, events[..|events| - 1]), events[|events| - 1]);
    }
  }

  /** In two steps the table excludes nothing: every run is safe exactly when no two of the operations would have to
      exclude each other. */
  lemma TwoStepSafeExactly(ops: seq<Op>)
    ensures (forall events :: Safe(ops, Run(ops, events))) <==> AllCompatible(ops)
  {
    if AllCompatible(ops) {
      forall events ensures Safe(ops, Run(ops, events)) {
        CompatibleKeepKeys(ops, events);
      }
    } else {
      var i, j :| 0 <= i < j < |ops| && !Compatible(ops[i], ops[j]);
      RaceWitness(ops, i, j);
    }
  }
}
