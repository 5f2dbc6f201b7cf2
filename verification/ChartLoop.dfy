/** SetChartData for all records of a plan in one request, in place, and what the backups hold afterwards. */
module ChartLoop {
  import opened Text
  import opened AppMap
  import opened AppData
  import opened ChartData
  import opened Charting
  import opened Planner

  /** Everything the records consist of. */
  ghost function Footprint(ds: seq<Instance>): set<object> {
    if ds == [] then {} else {ds[0]} + ds[0].Repr() + Footprint(ds[1..])
  }

  /** No two records share an object, and none shares one with the request. */
  ghost predicate Separate(ds: seq<Instance>, r: Request) {
    ds != [] ==>
      && ds[0].Apart() && ds[0] !in ds[0].Repr()
      && ({ds[0]} + ds[0].Repr()) !! Footprint(ds[1..]) && ({ds[0]} + ds[0].Repr()) !! r.Repr()
      && Separate(ds[1..], r)
  }

  ghost function ValuesOf(ds: seq<Instance>): (r: seq<Data>)
    reads Footprint(ds)
    ensures |r| == |ds|
  {
    if ds == [] then [] else [ds[0].Value()] + ValuesOf(ds[1..])
  }

  /** Every record is charted as if it were the only one the request serves. */
  function ChartedAll(ds: seq<Data>, i: Info, m: Maps, v: Option<Values>, c: Config): Option<seq<Data>> {
    if ds == [] then Some([])
    else
      match (Charted(ds[0], i, m, v, c), ChartedAll(ds[1..], i, m, v, c))
      case (Some(d), Some(rest)) => Some([d] + rest)
      case _ => None
  }

  lemma {:induction false} StrippedForAll(ds: seq<Data>, i: Info, m: Maps, v: Option<Values>, c: Config)
    ensures ChartedAll(ds, i, Stripped(m), v, c) == ChartedAll(ds, i, m, v, c)
  {
    if ds != [] {
      StrippedIsEnough(ds[0], i, m, v, c);
      StrippedForAll(ds[1..], i, m, v, c);
    }
  }

  lemma {:induction false} FootprintOfSeparate(ds: seq<Instance>, r: Request)
    requires Separate(ds, r)
    ensures Footprint(ds) !! r.Repr()
  {
    if ds != [] { FootprintOfSeparate(ds[1..], r); }
  }

  function Joined(d: Option<Data>, rest: Option<seq<Data>>): Option<seq<Data>> {
    if d.None? || rest.None? then None else Some([d.value] + rest.value)
  }

  lemma FirstAndRest(first: Data, rest: seq<Data>, i: Info, m: Maps, v: Option<Values>, c: Config)
    ensures ChartedAll([first] + rest, i, m, v, c) == Joined(Charted(first, i, m, v, c), ChartedAll(rest, i, m, v, c))
  {
    assert ([first] + rest)[1..] == rest;
  }

  lemma {:induction false} FootprintIsAllocated(ds: seq<Instance>)
    ensures forall o :: o in Footprint(ds) ==> allocated(o)
  {
    if ds != [] {
      FootprintIsAllocated(ds[1..]);
    }
  }

  /** What charting a record may write. */
  ghost function Written(d: Instance, r: Request): set<object> { {d, r.annotations, r.labels} + d.Repr() }

  ghost function AllWritten(ds: seq<Instance>, r: Request): set<object> { Footprint(ds) + {r.annotations, r.labels} }

  lemma FirstIsApart(ds: seq<Instance>, r: Request)
    requires Separate(ds, r) && ds != []
    ensures Written(ds[0], r) <= AllWritten(ds, r) && AllWritten(ds[1..], r) <= AllWritten(ds, r)
    ensures Written(ds[0], r) !! Footprint(ds[1..])
    ensures ({ds[0]} + ds[0].Repr()) !! AllWritten(ds[1..], r)
  {
    FootprintOfSeparate(ds[1..], r);
  }

  method SetOne(d: Instance, r: Request, v: Option<Values>, c: Config, ghost before: Data, ghost m: Maps)
    returns (ok: bool, ghost e: Option<Data>)
    requires d.Apart() && r.Apart() && d.Repr() !! r.Repr() && before == d.Value() && m == MapsOf(r)
    modifies Written(d, r)
    ensures e == Charted(before, r.info, m, v, c) && ok == e.Some?
    ensures ok ==> d.Value() == e.value && MapsOf(r) == Stripped(m)
  {
    e := Charted(before, r.info, m, v, c);
    ok := SetChartData(d, r, v, c);
  }

  /** SetChartData leaves the records alone that share nothing with the record and the request. */
  method SetBeside(d: Instance, others: seq<Instance>, r: Request, v: Option<Values>, c: Config,
                   ghost before: Data, ghost m: Maps)
    returns (ok: bool, ghost e: Option<Data>)
    requires d.Apart() && r.Apart() && d.Repr() !! r.Repr() && Written(d, r) !! Footprint(others)
    requires before == d.Value() && m == MapsOf(r)
    modifies Written(d, r)
    ensures ValuesOf(others) == old(ValuesOf(others))
    ensures e == Charted(before, r.info, m, v, c) && ok == e.Some?
    ensures ok ==> d.Value() == e.value && MapsOf(r) == Stripped(m)
  {
    FootprintIsAllocated(others);
    ok, e := SetOne(d, r, v, c, before, m);
  }

  method SetServed(ds: seq<Instance>, r: Request, v: Option<Values>, c: Config, ghost m: Maps)
    returns (ok: bool, ghost all: Option<seq<Data>>)
    requires Separate(ds, r) && r.Apart() && MapsOf(r) == Stripped(m)
    modifies AllWritten(ds, r)
    ensures all == ChartedAll(old(ValuesOf(ds)), r.info, m, v, c) && ok == all.Some?
    ensures ok ==> ValuesOf(ds) == all.value
    decreases ds, 1
  {
    StrippedForAll(ValuesOf(ds), r.info, m, v, c);
    ok, all := SetAll(ds, r, v, c);
  }

  /** The request has served the first record already; that one stays as it is. */
  method SetRest(first: Instance, ds: seq<Instance>, r: Request, v: Option<Values>, c: Config, ghost m: Maps)
    returns (ok: bool, ghost all: Option<seq<Data>>)
    requires Separate(ds, r) && r.Apart() && MapsOf(r) == Stripped(m)
    requires ({first} + first.Repr()) !! AllWritten(ds, r)
    modifies AllWritten(ds, r)
    ensures all == ChartedAll(old(ValuesOf(ds)), r.info, m, v, c) && ok == all.Some?
    ensures ok ==> ValuesOf(ds) == all.value
    ensures first.Value() == old(first.Value())
    decreases ds, 2
  {
    ok, all := SetServed(ds, r, v, c, m);
  }

  /** The loop over the records, as a recursion over those that are left: it fails exactly when one of them cannot be
      charted, and otherwise leaves each as the fresh request charts it. */
  method SetAll(ds: seq<Instance>, r: Request, v: Option<Values>, c: Config)
    returns (ok: bool, ghost all: Option<seq<Data>>)
    requires Separate(ds, r) && r.Apart()
    modifies AllWritten(ds, r)
    ensures all == ChartedAll(old(ValuesOf(ds)), r.info, old(MapsOf(r)), v, c) && ok == all.Some?
    ensures ok ==> ValuesOf(ds) == all.value
    decreases ds, 0
  {
    if ds == [] { return true, Some([]); }
    ghost var first, m, d := ds[0].Value(), MapsOf(r), None;
    FirstAndRest(first, ValuesOf(ds[1..]), r.info, m, v, c);
    FirstIsApart(ds, r);
    ok, d := SetBeside(ds[0], ds[1..], r, v, c, first, m);
    if !ok { all := None; return; }
    ok, all := SetRest(ds[0], ds[1..], r, v, c, m);
    all := Joined(d, all);
  }

  // ----- Backups that share the records' maps -----

  lemma {:induction false} ValuesAt(ds: seq<Instance>, j: nat)
    requires j < |ds|
    ensures ValuesOf(ds)[j] == ds[j].Value()
  {
    if j > 0 { ValuesAt(ds[1..], j - 1); }
  }

  /** The snapshots are over the maps of the records. */
  predicate SharesMaps(es: seq<Instance>, snapshots: seq<Running>) {
    |snapshots| == |es| && forall j :: 0 <= j < |es| ==> es[j].annotations == snapshots[j].annotations
  }

  /** The maps of the backups hold the annotations of the records. */
  ghost predicate HoldMaps(backups: seq<Backup>, ds: seq<Data>)
    reads set b | b in backups :: b.annotations
  {
    |backups| == |ds|
    && forall j :: 0 <= j < |backups| ==> backups[j].annotations.entries == ds[j].maps.annotations
  }

  lemma BackupsHoldMaps(es: seq<Instance>, snapshots: seq<Running>, backups: seq<Backup>, policy: bool)
    requires SharesMaps(es, snapshots) && BacksUp(backups, snapshots, policy)
    ensures HoldMaps(backups, ValuesOf(es))
  {
    forall j | 0 <= j < |es| ensures backups[j].annotations.entries == ValuesOf(es)[j].maps.annotations {
      ValuesAt(es, j);
      assert BackupOf(snapshots[j], policy) == Some(backups[j]);
    }
  }

  method ChartBackedUp(es: seq<Instance>, r: Request, v: Option<Values>, c: Config, snapshots: seq<Running>,
                       backups: seq<Backup>, policy: bool)
    returns (ok: bool, ghost all: Option<seq<Data>>)
    requires Separate(es, r) && r.Apart() && SharesMaps(es, snapshots) && BacksUp(backups, snapshots, policy)
    modifies AllWritten(es, r)
    ensures all == ChartedAll(old(ValuesOf(es)), r.info, old(MapsOf(r)), v, c) && ok == all.Some?
    ensures ok ==> ValuesOf(es) == all.value && HoldMaps(backups, all.value)
  {
    ok, all := SetAll(es, r, v, c);
    BackupsHoldMaps(es, snapshots, backups, policy);
  }

  /** An update without group ids up to its charts: the running records are backed up and then charted themselves, so
      that the maps of the backups hold the annotations of the update, while their versions are still the old ones. */
  method BackUpAndChartAll(es: seq<Instance>, r: Request, policy: bool, v: Option<Values>, c: Config,
                           snapshots: seq<Running>)
    returns (ok: bool, backups: Option<seq<Backup>>, ghost all: Option<seq<Data>>)
    requires Separate(es, r) && r.Apart() && SharesMaps(es, snapshots)
    modifies AllWritten(es, r)
    ensures backups.Some? <==> CanBackUp(snapshots, policy)
    ensures backups.Some? ==> BacksUp(backups.value, snapshots, policy)
    ensures ok <==> backups.Some? && all.Some?
    ensures backups.Some? ==> all == ChartedAll(old(ValuesOf(es)), r.info, old(MapsOf(r)), v, c)
    ensures ok ==> ValuesOf(es) == all.value && HoldMaps(backups.value, all.value)
  {
    FootprintIsAllocated(es);
    backups := BackUpRunning(snapshots, policy);
    if backups.None? { return false, None, None; }
    assert ValuesOf(es) == old(ValuesOf(es)) && MapsOf(r) == old(MapsOf(r));
    ok, all := ChartBackedUp(es, r, v, c, snapshots, backups.value, policy);
  }
}
