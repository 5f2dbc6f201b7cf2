/** The workload counts of the cluster report, and the memory check in front of every deployment; both in 32-bit
    unsigned arithmetic. */
module Accounting {
  import opened Text

  // ----- Workloads -----

  /** The two annotations that are looked at; either may be empty. */
  datatype App = App(name: string, state: string)

  function Names(apps: seq<App>): seq<string> {
    if apps == [] then [] else Names(apps[..|apps| - 1]) + [apps[|apps| - 1].name]
  }

  function ActiveNames(apps: seq<App>): seq<string> {
    if apps == [] then []
    else
      var last := apps[|apps| - 1];
      ActiveNames(apps[..|apps| - 1]) + if last.state == "1" then [last.name] else []
  }

  function Counter(counts: map<string, nat>, name: string): nat { if name in counts then counts[name] else 0 }

  /** The map holds the multiplicities of a list, and no other keys. */
  ghost predicate Counts(counts: map<string, nat>, list: seq<string>) {
    forall name :: Counter(counts, name) == multiset(list)[name] && (name in counts <==> name in list)
  }

  /** The increment of a 32-bit counter. */
  function Next(n: nat): nat { if n == UINT32 - 1 then 0 else n + 1 }

  /** A 32-bit counter in a map; a missing one starts at zero. */
  function Bumped(counts: map<string, nat>, name: string): map<string, nat> {
    counts[name := Next(Counter(counts, name))]
  }

  function Tally(list: seq<string>): map<string, nat> {
    if list == [] then map[] else Bumped(Tally(list[..|list| - 1]), list[|list| - 1])
  }

  lemma CountsNext(counts: map<string, nat>, list: seq<string>, name: string)
    requires Counts(counts, list) && |list| + 1 < UINT32
    ensures Counts(Bumped(counts, name), list + [name])
  {
    assert multiset(list + [name]) == multiset(list) + multiset{name};
    assert multiset(list)[name] <= |multiset(list)| == |list| by { MultiplicityIsBounded(list, name); }
  }

  /** All counters of a map together. */
  ghost function Sum(counts: map<string, nat>): nat {
    if counts == map[] then 0
    else
      var name :| name in counts;
      counts[name] + Sum(counts - {name})
  }

  /** It does not matter which counter is taken out first. */
  lemma {:induction false} SumWithout(counts: map<string, nat>, name: string)
    requires name in counts
    ensures Sum(counts) == counts[name] + Sum(counts - {name})
    decreases |counts|
  {
    var first :| first in counts && Sum(counts) == counts[first] + Sum(counts - {first});
    if first != name {
      SumWithout(counts - {first}, name);
      SumWithout(counts - {name}, first);
      assert counts - {first} - {name} == counts - {name} - {first};
    }
  }

  lemma SumBumped(counts: map<string, nat>, name: string)
    requires Counter(counts, name) + 1 < UINT32
    ensures Sum(Bumped(counts, name)) == Sum(counts) + 1
  {
    SumWithout(Bumped(counts, name), name);
    if name in counts {
      SumWithout(counts, name);
      assert Bumped(counts, name) - {name} == counts - {name};
    } else {
      assert Bumped(counts, name) - {name} == counts;
    }
  }

  /** Below 2^32 entries nothing wraps: the counters are the multiplicities of the names, they add up to the length
      of the list, and the keys are the names that occur. */
  lemma {:induction false} TallyCounts(list: seq<string>)
    requires |list| < UINT32
    ensures Counts(Tally(list), list) && Sum(Tally(list)) == |list|
  {
    if list != [] {
      var n := |list| - 1;
      TallyCounts(list[..n]);
      CountsNext(Tally(list[..n]), list[..n], list[n]);
      MultiplicityIsBounded(list[..n], list[n]);
      SumBumped(Tally(list[..n]), list[n]);
      assert list == list[..n] + [list[n]];
    }
  }

  lemma {:induction false} MultiplicityIsBounded(list: seq<string>, name: string)
    ensures multiset(list)[name] <= |list|
  {
    if list != [] {
      var n := |list| - 1;
      MultiplicityIsBounded(list[..n], name);
      assert list == list[..n] + [list[n]];
      assert multiset(list) == multiset(list[..n]) + multiset{list[n]};
    }
  }

  lemma {:induction false} NamesLength(apps: seq<App>)
    ensures |Names(apps)| == |apps| && |ActiveNames(apps)| <= |apps|
    ensures multiset(ActiveNames(apps)) <= multiset(Names(apps))
  {
    if apps != [] {
      NamesLength(apps[..|apps| - 1]);
    }
  }

  lemma NamesNext(apps: seq<App>, k: nat)
    requires k < |apps|
    ensures Tally(Names(apps[..k + 1])) == Bumped(Tally(Names(apps[..k])), apps[k].name)
    ensures apps[k].state != "1" ==> ActiveNames(apps[..k + 1]) == ActiveNames(apps[..k])
    ensures apps[k].state == "1" ==>
              Tally(ActiveNames(apps[..k + 1])) == Bumped(Tally(ActiveNames(apps[..k])), apps[k].name)
              && |ActiveNames(apps[..k + 1])| == |ActiveNames(apps[..k])| + 1
    ensures |ActiveNames(apps[..k])| <= k
  {
    assert apps[..k + 1][..k] == apps[..k];
    NamesLength(apps[..k]);
    TallyNext(Names(apps[..k]), apps[k].name);
    TallyNext(ActiveNames(apps[..k]), apps[k].name);
  }

  lemma TallyNext(list: seq<string>, name: string)
    ensures Tally(list + [name]) == Bumped(Tally(list), name)
  {
    assert (list + [name])[..|list|] == list;
  }

  /** The counting loop. */
  method CountInstances(apps: seq<App>)
    returns (created: map<string, nat>, active: map<string, nat>, total: nat, totalActive: nat)
    requires |apps| < UINT32
    ensures created == Tally(Names(apps)) && total == |Names(apps)|
    ensures active == Tally(ActiveNames(apps)) && totalActive == |ActiveNames(apps)|
  {
    created, active, total, totalActive := map[], map[], 0, 0;
    for k := 0 to |apps|
      invariant created == Tally(Names(apps[..k])) && total == k
      invariant active == Tally(ActiveNames(apps[..k])) && totalActive == |ActiveNames(apps[..k])| <= k
    {
      NamesNext(apps, k);
      created := Bumped(created, apps[k].name);
      total := Next(total);
      if apps[k].state == "1" {
        totalActive := Next(totalActive);
        active := Bumped(active, apps[k].name);
      }
    }
    assert apps[..|apps|] == apps;
    NamesLength(apps);
  }

  /** No application has more active than created instances, so the active total is at most the total, and an
      application is reported active exactly when one of its instances has state "1". */
  lemma ActiveWithinCreated(apps: seq<App>, name: string)
    requires |apps| < UINT32
    ensures Counter(Tally(ActiveNames(apps)), name) <= Counter(Tally(Names(apps)), name)
    ensures |ActiveNames(apps)| <= |Names(apps)| == |apps|
    ensures name in Tally(ActiveNames(apps))
            <==> exists i :: 0 <= i < |apps| && apps[i].name == name && apps[i].state == "1"
  {
    NamesLength(apps);
    TallyCounts(Names(apps));
    TallyCounts(ActiveNames(apps));
    assert multiset(ActiveNames(apps))[name] <= multiset(Names(apps))[name];
    ActiveExactly(apps, name);
  }

  lemma {:induction false} ActiveExactly(apps: seq<App>, name: string)
    ensures name in ActiveNames(apps) <==> exists i :: 0 <= i < |apps| && apps[i].name == name && apps[i].state == "1"
  {
    if apps != [] {
      var n := |apps| - 1;
      ActiveExactly(apps[..n], name);
      if i :| 0 <= i < n && apps[..n][i].name == name && apps[..n][i].state == "1" {
        assert apps[i].name == name;
      }
      if i :| 0 <= i < |apps| && apps[i].name == name && apps[i].state == "1" {
        if i < n { assert apps[..n][i].name == name && apps[..n][i].state == "1"; }
      }
    }
  }

  // ----- Memory -----

  function Wrap(n: int): (r: nat)
    ensures r < UINT32
  {
    n % UINT32
  }

  /** Go's division truncates. */
  function InMegabytes(kilobytes: int): int { if kilobytes < 0 then -(-kilobytes / 1024) else kilobytes / 1024 }

  /** Megabytes with or without their unit; None is an error. */
  function ParseMemoryString(s: string): Option<int> {
    match Atoi(if HasSuffix(s, "Mi") then s[..|s| - 2] else s)
    case None => None
    case Some(n) => Some(Wrap(n))
  }

  /** The free memory in megabytes. An allocatable amount in another unit counts as none. */
  function ParseAllMemoryString(allocatable: string, used: string): Option<int> {
    var total := if HasSuffix(allocatable, "Ki") then Atoi(allocatable[..|allocatable| - 2]) else Some(0);
    match (total, ParseMemoryString(used))
    case (Some(t), Some(a)) => Some(Wrap(Wrap(InMegabytes(t)) - a))
    case _ => None
  }

  /** The check lets a request pass when the amounts cannot be read. */
  predicate Admitted(memory: int, instances: int, allocatable: string, used: string) {
    memory > 0 ==>
      match ParseAllMemoryString(allocatable, used)
      case None => true
      case Some(free) => Wrap(memory * instances) < free
  }

  function Kilobytes(n: int): string { Itoa(n) + "Ki" }

  function Megabytes(n: int): string { Itoa(n) + "Mi" }

  lemma KilobytesRead(n: int)
    requires 0 <= n <= MAX_INT
    ensures HasSuffix(Kilobytes(n), "Ki") && Atoi(Kilobytes(n)[..|Kilobytes(n)| - 2]) == Some(n)
  {
    AtoiItoa(n);
    var t := Kilobytes(n);
    assert t[..|t| - 2] == Itoa(n) && t[|t| - 2..] == "Ki";
  }

  lemma MegabytesRead(n: int)
    requires 0 <= n < UINT32
    ensures ParseMemoryString(Megabytes(n)) == Some(n)
  {
    AtoiItoa(n);
    WrapSmall(n);
    var a := Megabytes(n);
    assert a[..|a| - 2] == Itoa(n) && a[|a| - 2..] == "Mi";
  }

  lemma FreeMemory(total: int, used: int)
    requires 0 <= total <= MAX_INT && 0 <= used < UINT32
    ensures ParseAllMemoryString(Kilobytes(total), Megabytes(used)) == Some(Wrap(Wrap(total / 1024) - used))
  {
    KilobytesRead(total);
    MegabytesRead(used);
  }

  lemma WrapSmall(n: int)
    requires 0 <= n < UINT32
    ensures Wrap(n) == n
  {
  }

  /** While the product and the total fit 32 bits and no more is used than there is, a request is admitted
      exactly when it is smaller than the free memory. */
  lemma AdmittedExactly(memory: int, instances: int, total: int, used: int)
    requires memory > 0 && instances >= 0 && memory * instances < UINT32
    requires 0 <= total <= MAX_INT && 0 <= used <= total / 1024 < UINT32
    ensures Admitted(memory, instances, Kilobytes(total), Megabytes(used))
            <==> memory * instances < total / 1024 - used
  {
    FreeMemory(total, used);
    WrapSmall(total / 1024);
    WrapSmall(total / 1024 - used);
    WrapSmall(memory * instances);
  }

  /** For all amounts: the product wraps, and a node with more used than it has counts as almost empty. */
  lemma AdmittedInGeneral(memory: int, instances: int, total: int, used: int)
    requires memory > 0 && instances >= 0
    requires 0 <= total <= MAX_INT && total / 1024 < UINT32 && 0 <= used < UINT32
    ensures Admitted(memory, instances, Kilobytes(total), Megabytes(used))
            <==> memory * instances % UINT32
                 < if used <= total / 1024 then total / 1024 - used else UINT32 + total / 1024 - used
  {
    FreeMemory(total, used);
    WrapSmall(total / 1024);
    if used <= total / 1024 {
      WrapSmall(total / 1024 - used);
    } else {
      WrapNegative(total / 1024 - used);
    }
  }

  /** An allocatable amount in another unit counts as none, and amounts that cannot be read let every request pass; so
      does a request without a memory limit. */
  lemma AdmittedUnread(memory: int, instances: int, allocatable: string, used: string)
    ensures memory <= 0 ==> Admitted(memory, instances, allocatable, used)
    ensures Atoi(if HasSuffix(used, "Mi") then used[..|used| - 2] else used).None? ==>
              Admitted(memory, instances, allocatable, used)
    ensures HasSuffix(allocatable, "Ki") && Atoi(allocatable[..|allocatable| - 2]).None? ==>
              Admitted(memory, instances, allocatable, used)
    ensures memory > 0 && !HasSuffix(allocatable, "Ki") && ParseMemoryString(used) == Some(0) ==>
              !Admitted(memory, instances, allocatable, used)
  {
  }

  lemma WrapNegative(n: int)
    requires -UINT32 < n < 0
    ensures Wrap(n) == n + UINT32
  {
    assert (n + UINT32) % UINT32 == n % UINT32;
  }
}
