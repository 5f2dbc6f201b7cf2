/** One request served to several instances, and what becomes of a backup that shares its maps with a record that
    SetChartData rewrites. */
module Charting {
  import opened Text
  import opened AppMap
  import opened AppData
  import opened ChartData
  import opened Planner
  import Cluster

  /** The maps of the request after it has served that many instances. */
  function Served(m: Maps, instances: nat): Maps {
    if instances == 0 then m else Stripped(Served(m, instances - 1))
  }

  lemma {:induction false} ServedMaps(m: Maps, instances: nat)
    requires instances > 0
    ensures Served(m, instances) == Stripped(m)
  {
    if instances > 1 {
      ServedMaps(m, instances - 1);
      var s := Stripped(m);
      assert s.annotations - Keys(RESERVED_ANNOTATIONS) == s.annotations;
      assert s.labels - Keys(RESERVED_LABELS) == s.labels;
    }
  }

  /** The order in which the instances are served does not matter: each gets what the fresh request gives it. */
  lemma ServedAlike(d: Data, i: Info, m: Maps, v: Option<Values>, c: Config, instances: nat)
    ensures Charted(d, i, Served(m, instances), v, c) == Charted(d, i, m, v, c)
  {
    if instances > 0 {
      ServedMaps(m, instances);
      StrippedIsEnough(d, i, m, v, c);
    }
  }

  // ----- What the final annotations record -----

  lemma VersionKeysDiffer()
    ensures VERSION != SCHEDULE && VERSION != IMAGE_REPO && VERSION != IMAGE_TAG && VERSION != VOLUME_SIZE
    ensures TEMPLATE_NAME != SCHEDULE && TEMPLATE_NAME != IMAGE_REPO && TEMPLATE_NAME != IMAGE_TAG
    ensures TEMPLATE_NAME != VOLUME_SIZE && TEMPLATE_NAME != VERSION
  {
    assert |VERSION| == 26 && |SCHEDULE| == 18 && |IMAGE_REPO| == 34 && |IMAGE_TAG| == 28 && |VOLUME_SIZE| == 30;
    assert |TEMPLATE_NAME| == 32;
  }

  lemma ScalarsKeepVersion(d: Data, i: Info)
    ensures Get(WithScalars(d, i).maps.annotations, VERSION) == Get(d.maps.annotations, VERSION)
    ensures WithScalars(d, i).plan == d.plan
  {
    VersionKeysDiffer();
  }

  lemma RequestedVersionAnnotated(d: Data, i: Info, m: Maps)
    ensures Get(Requested(d, i, m).maps.annotations, VERSION) == d.plan.requestedVersion
    ensures Requested(d, i, m).plan == d.plan
  {
    VersionKeysDiffer();
    ScalarsKeepVersion(WithSchedule(WithMaps(WithLabels(WithAnnotations(d, m.annotations), m.labels), m), i), i);
  }

  lemma FinishedAnnotations(d: Data, i: Info, reusing: bool, c: Config)
    ensures var r := WithManaged(WithStorage(d, i, reusing), c);
            && Get(r.maps.annotations, VERSION) == Get(d.maps.annotations, VERSION)
            && Get(r.maps.annotations, VOLUME_SIZE) == Itoa(r.plan.storageSize)
            && r.plan.requestedVersion == d.plan.requestedVersion && r.plan.currentVersion == d.plan.currentVersion
            && Storage(r.plan.nextAction, r.plan.deleteStorage, r.plan.storageSize)
               == Decide(Storage(d.plan.nextAction, d.plan.deleteStorage, d.plan.storageSize), i.persistentStorage,
                         reusing)
  {
    VersionKeysDiffer();
  }

  /** The version annotation of a charted instance is the version to be deployed, its volume annotation the size to
      be deployed, and its action and storage follow from the storage decision. */
  lemma ChartedAnnotations(d: Data, i: Info, m: Maps, v: Option<Values>, c: Config)
    requires Charted(d, i, m, v, c).Some?
    ensures var r, e := Charted(d, i, m, v, c).value, Prepared(d, v).value;
            && Get(r.maps.annotations, VERSION) == r.plan.requestedVersion == e.plan.requestedVersion
            && Get(r.maps.annotations, VOLUME_SIZE) == Itoa(r.plan.storageSize)
            && Storage(r.plan.nextAction, r.plan.deleteStorage, r.plan.storageSize)
               == Decide(Storage(e.plan.nextAction, e.plan.deleteStorage, e.plan.storageSize), i.persistentStorage,
                         v.Some?)
  {
    var e := Prepared(d, v).value;
    RequestedVersionAnnotated(e, i, m);
    FinishedAnnotations(Requested(e, i, m), i, v.Some?, c);
  }

  /** A key that only requests and earlier charts set. */
  predicate Free(k: string) { k !in RESERVED_ANNOTATIONS && k != IMAGE_REPO && k != IMAGE_TAG }

  lemma ReservedKeys()
    ensures VERSION in RESERVED_ANNOTATIONS && SCHEDULE in RESERVED_ANNOTATIONS && VOLUME_SIZE in RESERVED_ANNOTATIONS
  {
    var l := RESERVED_ANNOTATIONS;
    assert l[2] in l && l[6] in l && l[8] in l;
  }

  lemma RequestedFree(d: Data, i: Info, m: Maps, k: string)
    requires Free(k)
    ensures Lookup(Requested(d, i, m).maps.annotations, k)
            == Override(Lookup(m.annotations, k), Lookup(d.maps.annotations, k))
  {
    ReservedKeys();
    var labelled := WithLabels(WithAnnotations(d, m.annotations), m.labels);
    assert Lookup(labelled.maps.annotations, k) == Override(Lookup(m.annotations, k), Lookup(d.maps.annotations, k));
    ScalarsKeepFree(WithSchedule(WithMaps(labelled, m), i), i, k);
  }

  lemma ScalarsKeepFree(d: Data, i: Info, k: string)
    requires Free(k)
    ensures Lookup(WithScalars(d, i).maps.annotations, k) == Lookup(d.maps.annotations, k)
  {
  }

  /** The annotations a record holds before the request is merged: its own where they have a value, otherwise those
      of the earlier chart that are not Helm's. */
  function OwnAnnotations(d: Data, v: Option<Values>): Strings {
    if v.None? then d.maps.annotations else Reused(d.maps.annotations, OnlyReusable(v.value.annotations))
  }

  lemma PreparedAnnotations(d: Data, v: Option<Values>)
    requires Prepared(d, v).Some?
    ensures Prepared(d, v).value.maps.annotations == OwnAnnotations(d, v)
  {
  }

  /** An annotation that the controller does not set itself has the request's value, or else the record's own. */
  lemma AnnotationPrecedence(d: Data, i: Info, m: Maps, v: Option<Values>, c: Config, k: string)
    requires Charted(d, i, m, v, c).Some? && Free(k)
    ensures Lookup(Charted(d, i, m, v, c).value.maps.annotations, k)
            == Override(Lookup(m.annotations, k), Lookup(OwnAnnotations(d, v), k))
  {
    var e := Prepared(d, v).value;
    PreparedAnnotations(d, v);
    RequestedFree(e, i, m, k);
    ReservedKeys();
  }

  /** A key that only the controller sets, and that SetChartData does not set. */
  predicate Identity(k: string) {
    k in RESERVED_ANNOTATIONS && k != VERSION && k != SCHEDULE && k != VOLUME_SIZE && k != IMAGE_REPO && k != IMAGE_TAG
  }

  lemma ScalarsKeepIdentity(d: Data, i: Info, k: string)
    requires Identity(k)
    ensures Get(WithScalars(d, i).maps.annotations, k) == Get(d.maps.annotations, k)
    ensures WithScalars(d, i).plan == d.plan
  {
  }

  lemma RequestedKeepsIdentity(d: Data, i: Info, m: Maps, k: string)
    requires Identity(k)
    ensures Get(Requested(d, i, m).maps.annotations, k) == Get(d.maps.annotations, k)
    ensures Requested(d, i, m).plan == d.plan && Requested(d, i, m).name == d.name
  {
    var labelled := WithLabels(WithAnnotations(d, m.annotations), m.labels);
    assert k !in m.annotations - Keys(RESERVED_ANNOTATIONS);
    assert Get(labelled.maps.annotations, k) == Get(d.maps.annotations, k);
    ScalarsKeepIdentity(WithSchedule(WithMaps(labelled, m), i), i, k);
  }

  /** Without reused values the request changes none of the annotations an instance is found by. */
  lemma ChartedKeepsIdentity(d: Data, i: Info, m: Maps, c: Config, k: string)
    requires Identity(k)
    ensures Charted(d, i, m, None, c).Some?
    ensures var r := Charted(d, i, m, None, c).value;
            Get(r.maps.annotations, k) == Get(d.maps.annotations, k) && r.name == d.name && r.state == d.state
  {
    RequestedKeepsIdentity(Defaulted(d), i, m, k);
  }

  lemma PreparedPlan(d: Data, v: Option<Values>)
    requires Prepared(d, v).Some?
    ensures Prepared(d, v).value.plan.nextAction == d.plan.nextAction
    ensures v.Some? && v.value.instanceStorage.Some? ==>
              Some(Prepared(d, v).value.plan.storageSize) == ReusedSize(v.value.instanceStorage.value)
    ensures v.None? || v.value.instanceStorage.None? ==>
              Prepared(d, v).value.plan.storageSize == d.plan.storageSize
  {
  }

  /** The size the storage decision for a requested instance without a running match is made on: that of the reused
      chart, or of the last running instance, or unknown. */
  function DecidedOn(running: seq<Running>, v: Option<Values>): int {
    if v.Some? && v.value.instanceStorage.Some? && ReusedSize(v.value.instanceStorage.value).Some? then
      ReusedSize(v.value.instanceStorage.value).value
    else if running == [] then -1
    else running[|running| - 1].data.plan.storageSize
  }

  /** A requested instance without a running match is created, unless it has been given the size of a reused chart or
      of a running instance and the request asks for another one: then it is re-created. */
  lemma NewInstanceAction(d: Data, running: seq<Running>, policy: bool, version: string, i: Info, m: Maps,
                          v: Option<Values>, c: Config)
    requires d.plan.nextAction == Cluster.Create && d.plan.storageSize == -1
    requires forall j :: !Match(d.name, running, j)
    requires Prepared(d.(plan := Compared(d.name, d.plan, running, policy, version)), v).Some?
    ensures var planned := d.(plan := Compared(d.name, d.plan, running, policy, version));
            var r := Charted(planned, i, m, v, c);
            && r.Some?
            && r.value.plan.nextAction
               == if DecidedOn(running, v) != -1 && DecidedOn(running, v) != i.persistentStorage then Cluster.Recreate
                  else Cluster.Create
  {
    LastMatchIsAMatch(d.name, running);
    var planned := d.(plan := Compared(d.name, d.plan, running, policy, version));
    PreparedPlan(planned, v);
    ChartedAnnotations(planned, i, m, v, c);
  }

  // ----- Backups -----

  ghost predicate Reads(e: Instance, r: Running)
    reads e, e.Repr()
  {
    e.Value() == r.data && e.annotations == r.annotations && e.labels == r.labels
  }

  /** Backing up a running instance and then charting the planned one, which is the running record itself when the
      request lists no group ids. The versions of the backup are safe either way, but in that case its version
      annotation, which the catalog is searched with, becomes the new version. */
  method BackUpAndChart(d: Instance, e: Instance, r: Request, policy: bool, v: Option<Values>, c: Config,
                        snapshot: Running)
    returns (ok: bool, b: Option<Backup>)
    requires d == e || d.Repr() !! e.Repr()
    requires d.Apart() && r.Apart() && d.Repr() !! r.Repr() && e.Repr() !! r.Repr() && Reads(e, snapshot)
    modifies d, d.Repr(), r.annotations, r.labels
    ensures b == BackupOf(snapshot, policy)
    ensures ok <==> b.Some? && Charted(old(d.Value()), r.info, old(MapsOf(r)), v, c).Some?
    ensures ok ==> b.Some? && b.value.plan.requestedVersion == snapshot.data.plan.currentVersion
    ensures ok ==> Get(b.value.annotations.entries, VERSION)
                   == if d == e then d.requestedVersion else Get(snapshot.data.maps.annotations, VERSION)
  {
    b := GetBackupData(snapshot, policy);
    if b.None? { return false, b; }
    ghost var m := MapsOf(r);
    ghost var before := d.Value();
    ok := SetChartData(d, r, v, c);
    if ok {
      ChartedAnnotations(before, r.info, m, v, c);
    }
  }
}
