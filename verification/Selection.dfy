/** AppsData: the running instances a request applies to, and the records of the instances it asks for. */
module Selection {
  import opened Text
  import opened AppMap
  import opened AppData
  import Cluster
  import Naming

  /** An application object of the project; external is the version in its external id, None when that does not
      parse. */
  datatype Item = Item(name: string, namespace: string, description: string, annotations: Strings, labels: Strings,
                       external: Option<string>)
  {
    function App(): string { Get(annotations, BASENAME) }
    function Group(): string { Get(annotations, GROUP_ID) }
  }

  /** The fields of a request that select instances; empty ones do not filter. */
  datatype Query = Query(name: string, cycle: string, rootGroup: string, groups: seq<string>, version: string)

  /** A listing of the application objects on the cluster, in whatever order; each is listed once. */
  ghost predicate Lists(items: seq<Item>, slots: Cluster.Slots) {
    && (forall k :: 0 <= k < |items| ==>
          var app := Cluster.At(slots, items[k].name).app;
          items[k].external.Some? && app.Some? && app.value.version == items[k].external.value
          && app.value.annotations == items[k].annotations)
    && (forall name :: Cluster.At(slots, name).app.Some? ==> exists k :: 0 <= k < |items| && items[k].name == name)
    && (forall k, l :: 0 <= k < l < |items| ==> items[k].name != items[l].name)
  }

  // ----- Selecting running instances -----

  /** Everything but the list of group ids. */
  predicate Applies(q: Query, annotations: Strings) {
    && Get(annotations, BASENAME) != ""
    && (q.name == "" || q.name == Get(annotations, BASENAME))
    && (q.cycle == "" || q.cycle == Get(annotations, CYCLE))
    && (q.rootGroup == "" || q.rootGroup == Get(annotations, ROOT_GROUP_ID))
    && Get(annotations, GROUP_ID) != ""
  }

  predicate Candidate(q: Query, item: Item) { Applies(q, item.annotations) }

  predicate Selected(q: Query, item: Item) { Candidate(q, item) && (q.groups == [] || item.Group() in q.groups) }

  function StateOf(item: Item): Option<int> {
    var s := Get(item.annotations, STATE);
    if s == "" then Some(0) else Atoi(s)
  }

  function SizeOf(item: Item): Option<int> { Atoi(Get(item.annotations, VOLUME_SIZE)) }

  /** The items that make the listing fail. */
  predicate Unreadable(q: Query, item: Item) {
    (Candidate(q, item) && StateOf(item).None?) || (Selected(q, item) && (item.external.None? || SizeOf(item).None?))
  }

  function RecordOf(q: Query, item: Item): Data
    requires StateOf(item).Some? && item.external.Some? && SizeOf(item).Some?
  {
    var current := item.external.value;
    var keep := q.version == "" || current == q.version;
    Data(item.name, StateOf(item).value, item.namespace, true,
         Standing(current, if keep then current else q.version, if keep then Cluster.Recreate else Cluster.Upgrade,
                  SizeOf(item).value, false),
         Maps(item.annotations, item.labels, map[], map[], map[]), NO_SPEC.(description := item.description))
  }

  function SampleOf(item: Item): Data
    requires StateOf(item).Some?
  {
    var current := Get(item.annotations, VERSION);
    Data(item.name, StateOf(item).value, item.namespace, false, Standing(current, current, Cluster.NoAction, 0, false),
         Maps(item.annotations, map[], map[], map[], map[]), NO_SPEC)
  }

  predicate Readable(q: Query, items: seq<Item>) { forall i :: 0 <= i < |items| ==> !Unreadable(q, items[i]) }

  /** The selected items of one application, in listing order. */
  function Records(q: Query, items: seq<Item>, app: string): seq<Data>
    requires Readable(q, items)
  {
    if items == [] then []
    else
      var last := items[|items| - 1];
      Records(q, items[..|items| - 1], app)
      + if Selected(q, last) && last.App() == app then [RecordOf(q, last)] else []
  }

  function Sample(q: Query, items: seq<Item>): Option<Data>
    requires Readable(q, items)
  {
    if items == [] then None
    else
      var before := Sample(q, items[..|items| - 1]);
      var last := items[|items| - 1];
      if before.None? && Candidate(q, last) then Some(SampleOf(last)) else before
  }

  // ----- Selecting instances to be deleted -----

  /** Here the version of the annotation is a filter too, and the cycle is none. */
  predicate ToDelete(q: Option<Query>, item: Item) {
    && item.App() != ""
    && (q.Some? ==>
          && (q.value.name == "" || q.value.name == item.App())
          && (q.value.version == "" || q.value.version == Get(item.annotations, VERSION))
          && (q.value.rootGroup == "" || q.value.rootGroup == Get(item.annotations, ROOT_GROUP_ID))
          && item.Group() != ""
          && (q.value.groups == [] || item.Group() in q.value.groups))
  }

  /** The target namespace is not recorded. */
  function DeletionRecord(q: Option<Query>, item: Item): Data {
    Data(item.name, 0, "", true,
         Standing(Get(item.annotations, VERSION), if q.Some? then q.value.version else "", Cluster.Delete, 0, false),
         Maps(item.annotations, map[], map[], map[], map[]), NO_SPEC)
  }

  function DeletionRecords(q: Option<Query>, items: seq<Item>, app: string): seq<Data> {
    if items == [] then []
    else
      var last := items[|items| - 1];
      DeletionRecords(q, items[..|items| - 1], app)
      + if ToDelete(q, last) && last.App() == app then [DeletionRecord(q, last)] else []
  }

  class AppsData {
    var requested: seq<Data>
    var running: map<string, seq<Data>>
    var sample: Option<Data>

    constructor ()
      ensures requested == [] && running == map[] && sample == None
    {
      requested, running, sample := [], map[], None;
    }

    function Running(app: string): seq<Data>
      reads this
    {
      if app in running then running[app] else []
    }

    method Store(app: string, d: Data)
      modifies this`running
      ensures forall a :: Running(a) == old(Running(a)) + if a == app then [d] else []
    {
      running := running[app := Running(app) + [d]];
    }

    /** One item of the collection; false stands for the returned error. */
    method Consider(q: Query, item: Item) returns (ok: bool)
      modifies this`running, this`sample
      ensures ok <==> !Unreadable(q, item)
      ensures ok ==> sample == if old(sample).None? && Candidate(q, item) then Some(SampleOf(item)) else old(sample)
      ensures ok ==> forall a :: Running(a) == old(Running(a)) + if Selected(q, item) && item.App() == a
                                                                 then [RecordOf(q, item)] else []
    {
      if !Candidate(q, item) { return true; }
      if StateOf(item).None? { return false; }
      if sample.None? { sample := Some(SampleOf(item)); }
      if q.groups != [] && item.Group() !in q.groups { return true; }
      if item.external.None? || SizeOf(item).None? { return false; }
      Store(item.App(), RecordOf(q, item));
      ok := true;
    }

    /** The loop over the collection. */
    method ConsiderAll(q: Query, items: seq<Item>) returns (ok: bool)
      requires running == map[] && sample == None
      modifies this`running, this`sample
      ensures ok <==> Readable(q, items)
      ensures ok ==> sample == Sample(q, items) && forall a :: Running(a) == Records(q, items, a)
    {
      for k := 0 to |items|
        invariant Readable(q, items[..k])
        invariant sample == Sample(q, items[..k]) && forall a :: Running(a) == Records(q, items[..k], a)
      {
        assert items[..k + 1][..k] == items[..k];
        ok := Consider(q, items[k]);
        if !ok { return; }
      }
      assert items[..|items|] == items;
      ok := true;
    }

    /** AppendRunningAppsData on the listed collection; None stands for a listing that fails. */
    method AppendRunning(q: Query, list: Option<seq<Item>>) returns (ok: bool)
      requires running == map[] && sample == None
      modifies this`running, this`sample
      ensures ok <==> list.Some? && Readable(q, list.value)
      ensures ok ==> sample == Sample(q, list.value) && forall a :: Running(a) == Records(q, list.value, a)
    {
      if list.None? { return false; }
      ok := ConsiderAll(q, list.value);
    }

    method ConsiderDeletion(q: Option<Query>, item: Item)
      modifies this`running
      ensures forall a :: Running(a) == old(Running(a)) + if ToDelete(q, item) && item.App() == a
                                                           then [DeletionRecord(q, item)] else []
    {
      if ToDelete(q, item) {
        Store(item.App(), DeletionRecord(q, item));
      }
    }

    /** The loop over the collection. */
    method CollectToDelete(q: Option<Query>, items: seq<Item>)
      requires running == map[]
      modifies this`running
      ensures forall a :: Running(a) == DeletionRecords(q, items, a)
    {
      for k := 0 to |items|
        invariant forall a :: Running(a) == DeletionRecords(q, items[..k], a)
      {
        assert items[..k + 1][..k] == items[..k];
        ConsiderDeletion(q, items[k]);
      }
      assert items[..|items|] == items;
    }

    /** AppendAppsDataToDelete; without a query every instance of every application is selected. */
    method AppendToDelete(q: Option<Query>, list: Option<seq<Item>>) returns (ok: bool)
      requires running == map[]
      modifies this`running
      ensures ok <==> list.Some?
      ensures forall a :: Running(a) == if ok then DeletionRecords(q, list.value, a) else []
    {
      if list.None? { return false; }
      CollectToDelete(q, list.value);
      ok := true;
    }

    /** AppendNewAppInstances: one record per group id, in order. */
    method AppendNew(q: Query, cycle: string, description: string, state: int)
      modifies this`requested
      ensures requested == old(requested) + NewRecords(q, q.groups, cycle, description, state)
    {
      for k := 0 to |q.groups|
        invariant requested == old(requested) + NewRecords(q, q.groups[..k], cycle, description, state)
      {
        var d := NewRecord(q, q.groups[k], cycle, description, state);
        NewRecordsNext(q, k, cycle, description, state, d);
        requested := requested + [d];
      }
      assert q.groups[..|q.groups|] == q.groups;
    }
  }

  // ----- What is selected -----

  predicate Stored(q: Query, item: Item, app: string) { Selected(q, item) && item.App() == app }

  /** The places of the stored items. */
  function Places(q: Query, items: seq<Item>, app: string): seq<nat> {
    if items == [] then []
    else
      var n := |items| - 1;
      Places(q, items[..n], app) + if Stored(q, items[n], app) then [n] else []
  }

  predicate Picks(q: Query, items: seq<Item>, app: string, at: seq<nat>) {
    && (forall i, j :: 0 <= i < j < |at| ==> at[i] < at[j])
    && (forall i :: 0 <= i < |at| ==> at[i] < |items| && Stored(q, items[at[i]], app))
    && (forall k :: 0 <= k < |items| && Stored(q, items[k], app) ==> k in at)
  }

  lemma PicksNext(q: Query, items: seq<Item>, app: string, front: seq<nat>)
    requires items != [] && Picks(q, items[..|items| - 1], app, front)
    ensures var n := |items| - 1; Picks(q, items, app, front + if Stored(q, items[n], app) then [n] else [])
  {
    var n := |items| - 1;
    forall k | 0 <= k < |items| && Stored(q, items[k], app) && k < n ensures k in front {
      assert Stored(q, items[..n][k], app);
    }
    forall i | 0 <= i < |front| ensures front[i] < n && Stored(q, items[front[i]], app) {
      assert Stored(q, items[..n][front[i]], app);
    }
  }

  /** The places run up through the collection, and are exactly those of the items that satisfy all predicates. */
  lemma {:induction false} PlacesExact(q: Query, items: seq<Item>, app: string)
    ensures Picks(q, items, app, Places(q, items, app))
  {
    if items != [] {
      var n := |items| - 1;
      PlacesExact(q, items[..n], app);
      PicksNext(q, items, app, Places(q, items[..n], app));
    }
  }

  /** The stored list is the subsequence of the collection at those places, in the same order. */
  lemma {:induction false} RecordsRefineFilter(q: Query, items: seq<Item>, app: string)
    requires Readable(q, items)
    ensures var at := Places(q, items, app);
            && |Records(q, items, app)| == |at|
            && forall i :: 0 <= i < |at| ==>
                 && at[i] < |items| && Stored(q, items[at[i]], app) && !Unreadable(q, items[at[i]])
                 && Records(q, items, app)[i] == RecordOf(q, items[at[i]])
  {
    PlacesExact(q, items, app);
    if items != [] {
      var n := |items| - 1;
      RecordsRefineFilter(q, items[..n], app);
      forall i | 0 <= i < |Places(q, items[..n], app)|
        ensures Records(q, items[..n], app)[i] == RecordOf(q, items[Places(q, items[..n], app)[i]])
      {
        assert items[..n][Places(q, items[..n], app)[i]] == items[Places(q, items[..n], app)[i]];
      }
    }
  }

  predicate Runs(name: string, running: seq<Data>) { exists j :: 0 <= j < |running| && running[j].name == name }

  lemma StoredIsRecorded(q: Query, items: seq<Item>, app: string, k: nat)
    requires Readable(q, items) && k < |items| && Stored(q, items[k], app)
    ensures Runs(items[k].name, Records(q, items, app))
  {
    PlacesExact(q, items, app);
    RecordsRefineFilter(q, items, app);
    var at := Places(q, items, app);
    var i :| 0 <= i < |at| && at[i] == k;
    assert Records(q, items, app)[i].name == items[k].name;
  }

  /** A stored record comes from a listed item, whose version it was found running; two records come from two
      items. */
  lemma RecordIsListed(q: Query, items: seq<Item>, app: string, j: nat) returns (k: nat)
    requires Readable(q, items) && j < |Records(q, items, app)|
    ensures k < |items| && Stored(q, items[k], app) && items[k].external.Some?
    ensures Records(q, items, app)[j].name == items[k].name
    ensures Records(q, items, app)[j].plan.currentVersion == items[k].external.value
    ensures j < |Places(q, items, app)| && k == Places(q, items, app)[j]
  {
    RecordsRefineFilter(q, items, app);
    k := Places(q, items, app)[j];
  }

  /** A listed instance makes the listing fail exactly when it has the name, cycle and root group of the request and a
      state that is no number, or, its group id being asked for too, a version that cannot be told or a size that is no
      number. */
  lemma UnreadableExactly(q: Query, item: Item)
    ensures var a := item.annotations;
            Unreadable(q, item)
            <==> Get(a, BASENAME) != "" && Get(a, GROUP_ID) != ""
                 && (q.name != "" ==> Get(a, BASENAME) == q.name)
                 && (q.cycle != "" ==> Get(a, CYCLE) == q.cycle)
                 && (q.rootGroup != "" ==> Get(a, ROOT_GROUP_ID) == q.rootGroup)
                 && ((Get(a, STATE) != "" && Atoi(Get(a, STATE)).None?)
                     || ((q.groups != [] ==> Get(a, GROUP_ID) in q.groups)
                         && (item.external.None? || Atoi(Get(a, VOLUME_SIZE)).None?)))
  {
  }

  /** Every stored instance is one the request asks for: of its application, and of its name, cycle, root group and
      group ids as far as it names any. */
  lemma RecordsAreAskedFor(q: Query, items: seq<Item>, app: string, j: nat)
    requires Readable(q, items) && j < |Records(q, items, app)|
    ensures var a := Records(q, items, app)[j].maps.annotations;
            && Get(a, BASENAME) == app != "" && Get(a, GROUP_ID) != ""
            && (q.name != "" ==> Get(a, BASENAME) == q.name)
            && (q.cycle != "" ==> Get(a, CYCLE) == q.cycle)
            && (q.rootGroup != "" ==> Get(a, ROOT_GROUP_ID) == q.rootGroup)
            && (q.groups != [] ==> Get(a, GROUP_ID) in q.groups)
  {
    RecordsRefineFilter(q, items, app);
  }

  /** And every listed instance that a request asks for is stored, with what is listed of it. */
  lemma AskedForIsRecorded(q: Query, items: seq<Item>, app: string, k: nat)
    requires Readable(q, items) && k < |items|
    requires Get(items[k].annotations, BASENAME) == app != "" && Get(items[k].annotations, GROUP_ID) != ""
    requires q.name != "" ==> Get(items[k].annotations, BASENAME) == q.name
    requires q.cycle != "" ==> Get(items[k].annotations, CYCLE) == q.cycle
    requires q.rootGroup != "" ==> Get(items[k].annotations, ROOT_GROUP_ID) == q.rootGroup
    requires q.groups != [] ==> Get(items[k].annotations, GROUP_ID) in q.groups
    ensures exists d :: d in Records(q, items, app) && ShowsItem(d, items[k])
  {
    PlacesExact(q, items, app);
    RecordsRefineFilter(q, items, app);
    var at := Places(q, items, app);
    assert Stored(q, items[k], app);
    var i :| 0 <= i < |at| && at[i] == k;
    assert ShowsItem(Records(q, items, app)[i], items[k]);
  }

  /** A record over what is listed of an instance: no state reads as 0. */
  predicate ShowsItem(d: Data, item: Item) {
    && d.name == item.name && d.namespace == item.namespace && d.spec.description == item.description
    && d.maps.annotations == item.annotations && d.maps.labels == item.labels
    && item.external == Some(d.plan.currentVersion)
    && Atoi(Get(item.annotations, VOLUME_SIZE)) == Some(d.plan.storageSize)
    && (if Get(item.annotations, STATE) == "" then d.state == 0
        else Atoi(Get(item.annotations, STATE)) == Some(d.state))
  }

  /** The sample has the name, cycle and root group of the request, whatever its group id, and the state and version
      it is annotated with; there is one as soon as some listed instance has them. */
  lemma SampleIsAskedFor(q: Query, items: seq<Item>)
    requires Readable(q, items) && Sample(q, items).Some?
    ensures var d, a := Sample(q, items).value, Sample(q, items).value.maps.annotations;
            && (if Get(a, STATE) == "" then d.state == 0 else Atoi(Get(a, STATE)) == Some(d.state))
            && d.plan.currentVersion == d.plan.requestedVersion == Get(a, VERSION)
            && Get(a, BASENAME) != "" && Get(a, GROUP_ID) != ""
            && (q.name != "" ==> Get(a, BASENAME) == q.name)
            && (q.cycle != "" ==> Get(a, CYCLE) == q.cycle)
            && (q.rootGroup != "" ==> Get(a, ROOT_GROUP_ID) == q.rootGroup)
  {
    SampleIsFirst(q, items);
    var k := FirstCandidate(q, items);
  }

  lemma AskedForIsSampled(q: Query, items: seq<Item>, k: nat)
    requires Readable(q, items) && k < |items|
    requires Get(items[k].annotations, BASENAME) != "" && Get(items[k].annotations, GROUP_ID) != ""
    requires q.name != "" ==> Get(items[k].annotations, BASENAME) == q.name
    requires q.cycle != "" ==> Get(items[k].annotations, CYCLE) == q.cycle
    requires q.rootGroup != "" ==> Get(items[k].annotations, ROOT_GROUP_ID) == q.rootGroup
    ensures Sample(q, items).Some?
  {
    SampleIsFirst(q, items);
    assert Candidate(q, items[k]);
  }

  lemma {:induction false} FirstCandidate(q: Query, items: seq<Item>) returns (k: nat)
    requires exists i :: 0 <= i < |items| && Candidate(q, items[i])
    ensures k < |items| && Candidate(q, items[k]) && forall j :: 0 <= j < k ==> !Candidate(q, items[j])
  {
    if Candidate(q, items[0]) {
      k := 0;
    } else {
      var i :| 0 <= i < |items| && Candidate(q, items[i]);
      assert Candidate(q, items[1..][i - 1]);
      k := FirstCandidate(q, items[1..]);
      k := k + 1;
    }
  }

  /** Every stored record is to be re-created exactly when its requested version is its current one. */
  lemma RecordAction(q: Query, item: Item)
    requires Selected(q, item) && !Unreadable(q, item)
    ensures var d := RecordOf(q, item);
            && (d.plan.nextAction == Cluster.Recreate <==> d.plan.requestedVersion == d.plan.currentVersion)
            && (d.plan.nextAction == Cluster.Upgrade <==> d.plan.requestedVersion != d.plan.currentVersion)
            && d.plan.currentVersion == item.external.value
            && (q.version != "" ==> d.plan.requestedVersion == q.version)
  {
  }

  /** The sample is made from the first candidate, whether or not its group id is asked for. */
  lemma {:induction false} SampleIsFirst(q: Query, items: seq<Item>)
    requires Readable(q, items)
    ensures Sample(q, items).None? <==> forall k :: 0 <= k < |items| ==> !Candidate(q, items[k])
    ensures forall k :: 0 <= k < |items| && Candidate(q, items[k])
                        && (forall j :: 0 <= j < k ==> !Candidate(q, items[j]))
              ==> Sample(q, items) == Some(SampleOf(items[k]))
  {
    if items != [] {
      var n := |items| - 1;
      var front := items[..n];
      SampleIsFirst(q, front);
      forall k | 0 <= k < n ensures front[k] == items[k] { }
      forall k | 0 <= k < |items| && Candidate(q, items[k]) && (forall j :: 0 <= j < k ==> !Candidate(q, items[j]))
        ensures Sample(q, items) == Some(SampleOf(items[k]))
      {
        if k < n {
          assert Candidate(q, front[k]) && forall j :: 0 <= j < k ==> !Candidate(q, front[j]);
        }
      }
      if forall k :: 0 <= k < |items| ==> !Candidate(q, items[k]) {
        forall k | 0 <= k < n ensures !Candidate(q, front[k]) { }
      }
    }
  }

  predicate DeletedAs(q: Option<Query>, item: Item, app: string, d: Data) {
    ToDelete(q, item) && item.App() == app && d == DeletionRecord(q, item)
  }

  lemma DeletionNext(q: Option<Query>, items: seq<Item>, app: string, d: Data)
    requires items != []
    ensures d in DeletionRecords(q, items, app)
            <==> d in DeletionRecords(q, items[..|items| - 1], app) || DeletedAs(q, items[|items| - 1], app, d)
  {
  }

  /** Exactly the instances that pass the filters are selected for deletion; a version in the request is then the
      version each of them runs. */
  lemma {:induction false} DeletionExact(q: Option<Query>, items: seq<Item>, app: string, d: Data)
    ensures d in DeletionRecords(q, items, app) <==> exists k :: 0 <= k < |items| && DeletedAs(q, items[k], app, d)
    ensures d in DeletionRecords(q, items, app) && q.Some? && q.value.version != "" ==>
              d.plan.requestedVersion == d.plan.currentVersion == q.value.version
  {
    if items != [] {
      var n := |items| - 1;
      DeletionExact(q, items[..n], app, d);
      DeletionNext(q, items, app, d);
      if k :| 0 <= k < n && DeletedAs(q, items[..n][k], app, d) {
        assert DeletedAs(q, items[k], app, d);
      }
      if k :| 0 <= k < |items| && DeletedAs(q, items[k], app, d) {
        if k < n { assert DeletedAs(q, items[..n][k], app, d); }
      }
    }
  }

  /** What is selected for deletion is of its application, and of the name, version, root group and group ids of the
      request as far as it names any; without a request, every instance of every application is. */
  lemma DeletedIsAskedFor(q: Option<Query>, items: seq<Item>, app: string, d: Data)
    requires d in DeletionRecords(q, items, app)
    ensures var a := d.maps.annotations;
            && Get(a, BASENAME) == app != "" && d.plan.nextAction == Cluster.Delete
            && d.plan.currentVersion == Get(a, VERSION)
            && (q.Some? ==>
                  && Get(a, GROUP_ID) != ""
                  && (q.value.name != "" ==> Get(a, BASENAME) == q.value.name)
                  && (q.value.version != "" ==> Get(a, VERSION) == q.value.version)
                  && (q.value.rootGroup != "" ==> Get(a, ROOT_GROUP_ID) == q.value.rootGroup)
                  && (q.value.groups != [] ==> Get(a, GROUP_ID) in q.value.groups))
  {
    DeletionExact(q, items, app, d);
  }

  lemma AskedForIsDeleted(q: Option<Query>, items: seq<Item>, app: string, k: nat)
    requires k < |items| && Get(items[k].annotations, BASENAME) == app != ""
    requires q.Some? ==>
               && Get(items[k].annotations, GROUP_ID) != ""
               && (q.value.name != "" ==> Get(items[k].annotations, BASENAME) == q.value.name)
               && (q.value.version != "" ==> Get(items[k].annotations, VERSION) == q.value.version)
               && (q.value.rootGroup != "" ==> Get(items[k].annotations, ROOT_GROUP_ID) == q.value.rootGroup)
               && (q.value.groups != [] ==> Get(items[k].annotations, GROUP_ID) in q.value.groups)
    ensures exists d :: d in DeletionRecords(q, items, app) && d.name == items[k].name
                        && d.maps.annotations == items[k].annotations
  {
    var d := DeletionRecord(q, items[k]);
    DeletionExact(q, items, app, d);
    assert DeletedAs(q, items[k], app, d);
  }

  // ----- Requested instances -----

  function NewAnnotations(q: Query, gid: string, cycle: string): Strings {
    var root := if q.rootGroup == "" then map[] else map[ROOT_GROUP_ID := q.rootGroup];
    root + map[BASENAME := q.name, ID := Naming.InstanceId(q.name, q.rootGroup, gid), CYCLE := cycle, GROUP_ID := gid,
               VERSION := q.version, TEMPLATE_NAME := Naming.InstanceName(q.name, q.rootGroup, gid)]
  }

  function NewLabels(q: Query, gid: string, cycle: string): Strings {
    var root := if q.rootGroup == "" then map[] else map[ROOT_GROUP_ID := q.rootGroup];
    root + map[CYCLE := cycle, GROUP_ID := gid]
  }

  /** The record of an instance that is asked for: to be created, of unknown size. */
  function NewRecord(q: Query, gid: string, cycle: string, description: string, state: int): Data {
    var id := Naming.InstanceId(q.name, q.rootGroup, gid);
    Data(Naming.InstanceName(q.name, q.rootGroup, gid), state, KubeName(q.name), false,
         Standing("", q.version, Cluster.Create, -1, false),
         Maps(NewAnnotations(q, gid, cycle), NewLabels(q, gid, cycle), map[], map[], map[]),
         NO_SPEC.(description := if description == "" then "Application " + q.name + ", instance ID " + id
                                 else description))
  }

  function NewRecords(q: Query, groups: seq<string>, cycle: string, description: string, state: int): (r: seq<Data>)
    ensures |r| == |groups|
  {
    if groups == [] then []
    else
      var n := |groups| - 1;
      NewRecords(q, groups[..n], cycle, description, state) + [NewRecord(q, groups[n], cycle, description, state)]
  }

  lemma NewRecordsOf(q: Query, groups: seq<string>, gid: string, cycle: string, description: string, state: int)
    ensures NewRecords(q, groups + [gid], cycle, description, state)
            == NewRecords(q, groups, cycle, description, state) + [NewRecord(q, gid, cycle, description, state)]
  {
    var more := groups + [gid];
    assert more[..|groups|] == groups && more[|groups|] == gid;
  }

  lemma NewRecordsNext(q: Query, k: nat, cycle: string, description: string, state: int, d: Data)
    requires k < |q.groups| && d == NewRecord(q, q.groups[k], cycle, description, state)
    ensures NewRecords(q, q.groups[..k + 1], cycle, description, state)
            == NewRecords(q, q.groups[..k], cycle, description, state) + [d]
  {
    assert q.groups[..k + 1] == q.groups[..k] + [q.groups[k]];
    NewRecordsOf(q, q.groups[..k], q.groups[k], cycle, description, state);
  }

  lemma NewAnnotationsAre(q: Query, gid: string, cycle: string)
    ensures var a := NewAnnotations(q, gid, cycle);
            && Get(a, BASENAME) == q.name && Get(a, CYCLE) == cycle && Get(a, GROUP_ID) == gid
            && Get(a, ROOT_GROUP_ID) == q.rootGroup && Get(a, VERSION) == q.version
            && Get(a, TEMPLATE_NAME) == Naming.InstanceName(q.name, q.rootGroup, gid)
            && Get(a, ID) == Naming.InstanceId(q.name, q.rootGroup, gid)
  {
    assert |BASENAME| == 18 && |CYCLE| == 15 && |ROOT_GROUP_ID| == 32 && |GROUP_ID| == 27;
    assert |VERSION| == 26 && |ID| == 21 && |TEMPLATE_NAME| == 32;
    assert TEMPLATE_NAME[19] == 't' && ROOT_GROUP_ID[19] == 'r';
  }

  lemma NewLabelsAre(q: Query, gid: string, cycle: string)
    ensures var l := NewLabels(q, gid, cycle);
            Get(l, CYCLE) == cycle && Get(l, GROUP_ID) == gid && Get(l, ROOT_GROUP_ID) == q.rootGroup
  {
    assert |CYCLE| == 15 && |ROOT_GROUP_ID| == 32 && |GROUP_ID| == 27;
  }

  /** The record of a requested instance: deployed under its short name, from the template of that name, in the
      namespace of the application; annotated and labelled with what it will be found by. */
  lemma NewRecordIs(q: Query, gid: string, cycle: string, description: string, state: int)
    ensures var d := NewRecord(q, gid, cycle, description, state);
            var a := d.maps.annotations;
            && d.name == Naming.InstanceName(q.name, q.rootGroup, gid) == Get(a, TEMPLATE_NAME)
            && d.namespace == KubeName(q.name) && d.state == state && !d.templateAvailable
            && d.plan == Standing("", q.version, Cluster.Create, -1, false)
            && Get(a, BASENAME) == q.name && Get(a, CYCLE) == cycle && Get(a, GROUP_ID) == gid
            && Get(a, ROOT_GROUP_ID) == q.rootGroup && Get(a, VERSION) == q.version
            && Get(a, ID) == Naming.InstanceId(q.name, q.rootGroup, gid)
            && Get(d.maps.labels, CYCLE) == cycle && Get(d.maps.labels, GROUP_ID) == gid
            && Get(d.maps.labels, ROOT_GROUP_ID) == q.rootGroup
            && d.spec.description == (if description != "" then description
                                      else "Application " + q.name + ", instance ID " + Get(a, ID))
  {
    NewAnnotationsAre(q, gid, cycle);
    NewLabelsAre(q, gid, cycle);
  }
}
