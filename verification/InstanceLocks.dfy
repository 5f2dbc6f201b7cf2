/** Whether the lock key of an application, which joins name and root group without a separator, keeps two requests
    from working on one instance, whose name joins them with dashes. */
module InstanceLocks {
  import opened Text
  import opened Naming
  import opened Locks

  /** Lower-case and without the characters that separate the parts of a name. */
  predicate Clean(s: string) { forall i :: 0 <= i < |s| ==> Plain(s[i]) && s[i] != '-' }

  /** Names that are deployed as they are. */
  predicate Clear(name: string, root: string, gid: string) {
    Untouched(name, root, gid) && Clean(name) && Clean(root) && Clean(gid)
  }

  function Parts(name: string, root: string, gid: string): (parts: seq<string>)
    ensures parts != []
  {
    if root == "" then [name, gid] else [name, root, gid]
  }

  lemma KubeNameOfPlain(s: string)
    requires forall i :: 0 <= i < |s| ==> Plain(s[i])
    ensures KubeName(s) == s
  {
  }

  /** Such a name can be taken apart again. */
  lemma NameHasParts(name: string, root: string, gid: string)
    requires Clear(name, root, gid)
    ensures Split(InstanceName(name, root, gid), '-') == Parts(name, root, gid)
  {
    var parts := Parts(name, root, gid);
    assert Join([gid], '-') == gid;
    assert Join([root, gid], '-') == root + ['-'] + gid;
    assert Join([name, gid], '-') == name + ['-'] + gid;
    assert [name, root, gid][1..] == [root, gid] && [name, gid][1..] == [gid];
    assert Joined(name, root, gid) == Join(parts, '-');
    KubeNameOfPlain(Joined(name, root, gid));
    SplitJoin(parts, '-');
  }

  /** Names without capital letters, underscores and dashes, none of them shortened, determine the instance. */
  lemma ClearNamesDiffer(name: string, root: string, gid: string, name': string, root': string, gid': string)
    requires Clear(name, root, gid) && Clear(name', root', gid')
    ensures InstanceName(name, root, gid) == InstanceName(name', root', gid')
            <==> name == name' && root == root' && gid == gid'
  {
    NameHasParts(name, root, gid);
    NameHasParts(name', root', gid');
    var p, q := Parts(name, root, gid), Parts(name', root', gid');
    assert p == q ==> |p| == |q| && p[0] == q[0] && p[1] == q[1] && p[|p| - 1] == q[|q| - 1];
  }

  /** With such names, two requests that hold their locks at the same time have no instance in common, in every run
      in which each handler checks and locks in one step. */
  lemma HoldersHaveOwnInstances(ops: seq<Op>, events: seq<Event>, i: nat, j: nat, gid: string, gid': string)
    requires Atomic(events) && !Clash(ops) && i < j < |ops| && ops[i].AppOp? && ops[j].AppOp?
    requires Holding(Run(ops, events).phases[i]) && Holding(Run(ops, events).phases[j])
    requires Clear(ops[i].name, ops[i].rootGroup, gid) && Clear(ops[j].name, ops[j].rootGroup, gid')
    ensures InstanceName(ops[i].name, ops[i].rootGroup, gid) != InstanceName(ops[j].name, ops[j].rootGroup, gid')
  {
    RunIsSafe(ops, events);
    ClearNamesDiffer(ops[i].name, ops[i].rootGroup, gid, ops[j].name, ops[j].rootGroup, gid');
  }

  lemma GlobalsHaveNoDash()
    ensures forall g :: g in GLOBALS ==> '-' !in g
  {
  }

  /** A dash in the name is enough to break this: the application "a-b" and the application "a" of root group "b"
      have different keys and are both let in, and their instances of one group have one name. */
  lemma SharedInstance(a: string, b: string, gid: string)
    requires b != "" && |a| + 1 + |b| <= NAME_LENGTH
    ensures var ops := [AppOp(a + "-" + b, ""), AppOp(a, b)];
            && LockKey(ops[0]) != LockKey(ops[1])
            && InstanceName(a + "-" + b, "", gid) == InstanceName(a, b, gid)
            && Run(ops, [Admit(0), Admit(1)]).phases == [Running, Running]
  {
    var ops := [AppOp(a + "-" + b, ""), AppOp(a, b)];
    assert LockKey(ops[0]) == a + "-" + b && LockKey(ops[1]) == a + b;
    assert |LockKey(ops[0])| != |LockKey(ops[1])|;
    assert Joined(a + "-" + b, "", ShortGroup(gid)) == Joined(a, b, ShortGroup(gid));
    GlobalsHaveNoDash();
    assert (a + "-" + b)[|a|] == '-';
    RunOfTwo(ops, Admit(0), Admit(1));
    var one := Step(ops, Idle(ops), Admit(0));
    assert one == State({a + "-" + b}, [Running, Waiting]);
    assert !Locked(one.keys, a + b);
  }
}
