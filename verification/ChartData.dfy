/** SetChartData: the values a new chart is written from, merged out of defaults, the last good chart, the
    request, and the values the controller manages itself. */
module ChartData {
  import opened Text
  import opened AppMap
  import opened AppData
  import Cluster

  /** The part of an earlier chart's values that is read back. */
  datatype Values = Values(configs: Strings, secrets: Strings, image: Image, annotations: Strings, labels: Strings,
                           env: Strings, instanceStorage: Option<string>, shared: bool, ports: seq<Port>,
                           schedule: Option<string>)

  /** The two configured endpoints every instance is told about. */
  datatype Config = Config(flexHost: string, flexPort: string)

  const SECRETS_DIR := "APP_INSTANCE_SECRETS_DIR"
  const CONFIG_DIR := "APP_INSTANCE_CONFIG_DIR"
  const INSTANCE_STORAGE_DIR := "APP_INSTANCE_STORAGE_DIR"
  const STORAGE_DIR := "APP_STORAGE_DIR"

  const DEFAULT_ENV: Strings :=
    map[SECRETS_DIR := "/opt/app/secret/", CONFIG_DIR := "/opt/app/config/",
        INSTANCE_STORAGE_DIR := "/opt/app/storage/instance", STORAGE_DIR := "/opt/app/storage/shared"]

  const RESERVED_ANNOTATIONS :=
    [BASENAME, CYCLE, SCHEDULE, ROOT_GROUP_ID, GROUP_ID, ID, VERSION, TEMPLATE_NAME, VOLUME_SIZE]

  const RESERVED_LABELS := [BASENAME, CYCLE, ROOT_GROUP_ID, GROUP_ID, ID, VERSION, TEMPLATE_NAME, VOLUME_SIZE]

  const DRAFT_BASENAME := "apphc.draft.app.basename"
  const MON_BASENAME := "apphc.mon.app_basename"

  function MapsOf(r: Request): Maps
    reads r.Repr()
  {
    Maps(r.annotations.entries, r.labels.entries, r.configs.entries, r.env.entries, r.secrets.entries)
  }

  /** The request after a call: the reserved keys have been deleted from its labels and annotations. */
  function Stripped(m: Maps): Maps {
    m.(annotations := m.annotations - Keys(RESERVED_ANNOTATIONS), labels := m.labels - Keys(RESERVED_LABELS))
  }

  // ----- Reuse of the last good chart -----

  /** The size of a reused instance volume: the digits before a two-letter unit; an empty number counts as zero.
      None stands for a returned error or a slice out of range. */
  function ReusedSize(size: string): Option<int> {
    if |size| < 2 then None
    else if |size| == 2 then Some(0)
    else Atoi(size[..|size| - 2])
  }

  function WithSize(d: Data, v: Values): Option<Data> {
    match v.instanceStorage
    case None => Some(d)
    case Some(size) =>
      match ReusedSize(size)
      case None => None
      case Some(n) => Some(d.(plan := d.plan.(storageSize := n)))
  }

  function WithReused(d: Data, v: Values): Option<Data> {
    var state := if STATE in v.annotations then Atoi(v.annotations[STATE]) else None;
    if state.None? then None
    else
      WithSize(d.(state := state.value,
                  plan := d.plan.(requestedVersion := if VERSION in v.annotations then v.annotations[VERSION]
                                                      else d.plan.requestedVersion),
                  maps := Maps(Reused(d.maps.annotations, OnlyReusable(v.annotations)),
                               Reused(d.maps.labels, v.labels),
                               d.maps.configs + v.configs, d.maps.env + v.env, d.maps.secrets + v.secrets),
                  spec := d.spec.(image := v.image,
                                  ports := d.spec.ports + v.ports,
                                  shared := d.spec.shared || v.shared,
                                  schedule := if v.schedule.Some? then v.schedule.value else d.spec.schedule)), v)
  }

  function WithReusedIfAny(d: Data, v: Option<Values>): Option<Data> {
    if v.None? then Some(d) else WithReused(d, v.value)
  }

  // ----- The request -----

  function WithAnnotations(d: Data, m: Strings): Data {
    d.(maps := d.maps.(annotations := (d.maps.annotations + (m - Keys(RESERVED_ANNOTATIONS)))
                                        [VERSION := d.plan.requestedVersion]))
  }

  function WithLabels(d: Data, m: Strings): Data {
    var merged := d.maps.labels + (m - Keys(RESERVED_LABELS));
    var drafted := if HasValue(m, DRAFT_BASENAME) then merged["draft" := d.name] else merged;
    d.(maps := d.maps.(labels := drafted[MON_BASENAME := Get(d.maps.annotations, BASENAME)]))
  }

  function WithMaps(d: Data, m: Maps): Data {
    d.(maps := d.maps.(configs := d.maps.configs + m.configs, env := d.maps.env + m.env,
                       secrets := d.maps.secrets + m.secrets))
  }

  function Annotate(d: Data, key: string, value: string): Data {
    d.(maps := d.maps.(annotations := d.maps.annotations[key := value]))
  }

  function WithSchedule(d: Data, i: Info): (r: Data)
    ensures r.maps == d.maps.(annotations := r.maps.annotations) && r.plan == d.plan
  {
    if Get(d.maps.annotations, CYCLE) == TYPE_PERIODIC then
      var schedule := if i.schedule.Some? then i.schedule.value else d.spec.schedule;
      Annotate(d.(spec := d.spec.(schedule := schedule)), SCHEDULE, schedule)
    else d
  }

  function NamedPort(p: Port, appName: string): Port {
    p.(name := KubeName(if p.name == "" then appName else p.name))
  }

  function WithDescription(d: Data, i: Info): (r: Data)
    ensures r.maps == d.maps && r.plan == d.plan
  {
    if i.description != "" then d.(spec := d.spec.(description := i.description)) else d
  }

  /** The image annotations that come with a request. */
  function RepoNote(i: Info): Strings { if i.imageRepo == "" then map[] else map[IMAGE_REPO := i.imageRepo] }

  function TagNote(i: Info): Strings { if i.imageTag == "" then map[] else map[IMAGE_TAG := i.imageTag] }

  function WithRepo(d: Data, i: Info): (r: Data)
    ensures r.maps == d.maps.(annotations := r.maps.annotations) && r.plan == d.plan
    ensures r.maps.annotations == d.maps.annotations + RepoNote(i)
  {
    if i.imageRepo == "" then d
    else Annotate(d.(spec := d.spec.(image := d.spec.image.(repository := i.imageRepo))), IMAGE_REPO, i.imageRepo)
  }

  function WithTag(d: Data, i: Info): (r: Data)
    ensures r.maps == d.maps.(annotations := r.maps.annotations) && r.plan == d.plan
    ensures r.maps.annotations == d.maps.annotations + TagNote(i)
  {
    if i.imageTag == "" then d
    else Annotate(d.(spec := d.spec.(image := d.spec.image.(tag := i.imageTag))), IMAGE_TAG, i.imageTag)
  }

  function WithPorts(d: Data, i: Info): (r: Data)
    ensures r.maps == d.maps && r.plan == d.plan
  {
    if i.ports == [] then d
    else d.(spec := d.spec.(ports := seq(|i.ports|, k requires 0 <= k < |i.ports| => NamedPort(i.ports[k], i.name))))
  }

  function WithScalars(d: Data, i: Info): (r: Data)
    ensures r.maps == d.maps.(annotations := r.maps.annotations) && r.plan == d.plan
    ensures r.maps.annotations == d.maps.annotations + RepoNote(i) + TagNote(i)
  {
    WithPorts(WithTag(WithRepo(WithDescription(d, i), i), i), i)
  }

  // ----- Storage -----

  /** The storage part of the decision: what to do with the instance, whether its volume goes, and the final size. */
  datatype Storage = Storage(action: Action, delete: bool, size: int)

  /** current is -1 for an instance that does not exist yet; reusing says whether earlier values are reused. */
  function Decide(s: Storage, requested: int, reusing: bool): Storage {
    var resized := s.size != -1 && s.size != requested;
    Storage(if resized then Cluster.Recreate else s.action,
            if reusing then requested > 0 && s.size != requested else s.delete || resized,
            if reusing && requested <= 0 then s.size else requested)
  }

  function WithStorage(d: Data, i: Info, reusing: bool): Data {
    var s := Decide(Storage(d.plan.nextAction, d.plan.deleteStorage, d.plan.storageSize), i.persistentStorage, reusing);
    Annotate(d.(plan := d.plan.(nextAction := s.action, deleteStorage := s.delete, storageSize := s.size),
                spec := d.spec.(shared := d.spec.shared || i.sharedStorage > 0)), VOLUME_SIZE, Itoa(s.size))
  }

  // ----- The managed environment -----

  /** The root group variable is set only when the instance has a root group. */
  function ManagedRoot(root: string): Strings {
    if root != "" then map["APP_INSTANCE_ROOT_GROUP_ID" := root] else map[]
  }

  function ManagedAlways(name: string, version: string, annotations: Strings, secrets: Strings, c: Config): Strings {
    map["APP_NAME" := Get(annotations, BASENAME),
        "APP_INSTANCE_NAME" := name,
        "APP_INSTANCE_ID" := Get(annotations, ID),
        "APP_INSTANCE_GROUP_ID" := Get(annotations, GROUP_ID),
        "APP_INSTANCE_VERSION" := version,
        "APP_INSTANCE_FLEX_API_HOST" := c.flexHost,
        "APP_INSTANCE_FLEX_API_PORT" := c.flexPort,
        "APP_INSTANCE_APP_ID" := Get(secrets, "app_id"),
        "APP_INSTANCE_SECRET_KEY" := Get(secrets, "secret_key")]
  }

  /** The variables the controller sets last. */
  function Managed(d: Data, c: Config): Strings {
    ManagedRoot(Get(d.maps.annotations, ROOT_GROUP_ID))
    + ManagedAlways(d.name, d.plan.requestedVersion, d.maps.annotations, d.maps.secrets, c)
  }

  function WithManaged(d: Data, c: Config): Data { d.(maps := d.maps.(env := d.maps.env + Managed(d, c))) }

  // ----- All of it -----

  function Requested(d: Data, i: Info, m: Maps): Data
  {
    WithScalars(WithSchedule(WithMaps(WithLabels(WithAnnotations(d, m.annotations), m.labels), m), i), i)
  }

  function Defaulted(d: Data): Data { d.(maps := d.maps.(env := d.maps.env + DEFAULT_ENV)) }

  function Prepared(d: Data, v: Option<Values>): Option<Data> {
    WithReusedIfAny(Defaulted(d), v)
  }

  function Finished(d: Data, i: Info, m: Maps, reusing: bool, c: Config): Data {
    WithManaged(WithStorage(Requested(d, i, m), i, reusing), c)
  }

  function Charted(d: Data, i: Info, m: Maps, v: Option<Values>, c: Config): Option<Data>
  {
    match Prepared(d, v)
    case None => None
    case Some(e) => Some(Finished(e, i, m, v.Some?, c))
  }

  // ----- What the merge means -----

  function Lookup(m: Strings, k: string): Option<string> { if k in m then Some(m[k]) else None }

  function Override(later: Option<string>, earlier: Option<string>): Option<string> {
    if later.Some? then later else earlier
  }

  function ReusedEnv(v: Option<Values>): Strings { if v.Some? then v.value.env else map[] }

  /** What WithReused leaves of the environment. */
  lemma ReusedEnvOf(d: Data, v: Option<Values>)
    requires WithReusedIfAny(d, v).Some?
    ensures WithReusedIfAny(d, v).value.maps.env == d.maps.env + ReusedEnv(v)
  {
  }

  lemma RequestedEnv(d: Data, i: Info, m: Maps)
    ensures Requested(d, i, m).maps.env == d.maps.env + m.env
  {
    var e := WithMaps(WithLabels(WithAnnotations(d, m.annotations), m.labels), m);
    assert e.maps.env == d.maps.env + m.env;
  }

  lemma ManagedEnv(d: Data, c: Config)
    ensures WithManaged(d, c).maps.env == d.maps.env + Managed(WithManaged(d, c), c)
  {
  }

  lemma EnvAfter(d: Data, i: Info, m: Maps, v: Option<Values>, c: Config)
    requires Charted(d, i, m, v, c).Some?
    ensures Charted(d, i, m, v, c).value.maps.env
            == d.maps.env + DEFAULT_ENV + ReusedEnv(v) + m.env + Managed(Charted(d, i, m, v, c).value, c)
  {
    var e := Prepared(d, v).value;
    ReusedEnvOf(Defaulted(d), v);
    RequestedEnv(e, i, m);
    ManagedEnv(WithStorage(Requested(e, i, m), i, v.Some?), c);
  }

  /** Every environment variable has its managed value, or else the request's, or else the reused chart's, or else
      the default, or else what the record held before. */
  lemma EnvPrecedence(d: Data, i: Info, m: Maps, v: Option<Values>, c: Config, k: string)
    requires Charted(d, i, m, v, c).Some?
    ensures var r := Charted(d, i, m, v, c).value;
            Lookup(r.maps.env, k)
            == Override(Lookup(Managed(r, c), k),
               Override(Lookup(m.env, k),
               Override(Lookup(ReusedEnv(v), k),
               Override(Lookup(DEFAULT_ENV, k), Lookup(d.maps.env, k)))))
  {
    EnvAfter(d, i, m, v, c);
  }

  /** Two records that agree on everything but unreserved labels and annotations. */
  predicate SameReserved(r: Data, s: Data) {
    && (forall k :: k in RESERVED_ANNOTATIONS ==> Lookup(r.maps.annotations, k) == Lookup(s.maps.annotations, k))
    && (forall k :: k in RESERVED_LABELS ==> Lookup(r.maps.labels, k) == Lookup(s.maps.labels, k))
    && s == r.(maps := r.maps.(annotations := s.maps.annotations, labels := s.maps.labels))
  }

  lemma SameBasics(r: Data, s: Data)
    requires SameReserved(r, s)
    ensures Get(r.maps.annotations, BASENAME) == Get(s.maps.annotations, BASENAME)
    ensures Get(r.maps.annotations, CYCLE) == Get(s.maps.annotations, CYCLE)
    ensures Get(r.maps.annotations, ROOT_GROUP_ID) == Get(s.maps.annotations, ROOT_GROUP_ID)
    ensures Get(r.maps.annotations, GROUP_ID) == Get(s.maps.annotations, GROUP_ID)
    ensures Get(r.maps.annotations, ID) == Get(s.maps.annotations, ID)
  {
    var l := RESERVED_ANNOTATIONS;
    assert l[0] in l && l[1] in l && l[3] in l && l[4] in l && l[5] in l;
    assert Lookup(r.maps.annotations, l[0]) == Lookup(s.maps.annotations, l[0]);
    assert Lookup(r.maps.annotations, l[1]) == Lookup(s.maps.annotations, l[1]);
    assert Lookup(r.maps.annotations, l[3]) == Lookup(s.maps.annotations, l[3]);
    assert Lookup(r.maps.annotations, l[4]) == Lookup(s.maps.annotations, l[4]);
    assert Lookup(r.maps.annotations, l[5]) == Lookup(s.maps.annotations, l[5]);
  }

  lemma SameAnnotations(r: Data, s: Data, a: Strings, b: Strings)
    requires SameReserved(r, s)
    ensures SameReserved(WithAnnotations(r, a), WithAnnotations(s, b))
  {
  }

  lemma DraftIsNotReserved()
    ensures "draft" !in RESERVED_LABELS
  {
    forall k | 0 <= k < 8 ensures |RESERVED_LABELS[k]| > 5 { }
  }

  lemma SameLabels(r: Data, s: Data, a: Strings, b: Strings)
    requires SameReserved(r, s)
    ensures SameReserved(WithLabels(r, a), WithLabels(s, b))
  {
    DraftIsNotReserved();
    SameBasics(r, s);
  }

  lemma SameDescription(r: Data, s: Data, i: Info)
    requires SameReserved(r, s)
    ensures SameReserved(WithDescription(r, i), WithDescription(s, i))
  {
  }

  lemma SameRepo(r: Data, s: Data, i: Info)
    requires SameReserved(r, s)
    ensures SameReserved(WithRepo(r, i), WithRepo(s, i))
  {
  }

  lemma SameTag(r: Data, s: Data, i: Info)
    requires SameReserved(r, s)
    ensures SameReserved(WithTag(r, i), WithTag(s, i))
  {
  }

  lemma SamePorts(r: Data, s: Data, i: Info)
    requires SameReserved(r, s)
    ensures SameReserved(WithPorts(r, i), WithPorts(s, i))
  {
  }

  lemma SameScalars(r: Data, s: Data, i: Info)
    requires SameReserved(r, s)
    ensures SameReserved(WithScalars(r, i), WithScalars(s, i))
  {
    SameDescription(r, s, i);
    var r, s := WithDescription(r, i), WithDescription(s, i);
    SameRepo(r, s, i);
    SameTag(WithRepo(r, i), WithRepo(s, i), i);
    SamePorts(WithTag(WithRepo(r, i), i), WithTag(WithRepo(s, i), i), i);
  }

  lemma SameSchedule(r: Data, s: Data, i: Info)
    requires SameReserved(r, s)
    ensures SameReserved(WithSchedule(r, i), WithSchedule(s, i))
  {
    SameBasics(r, s);
  }

  lemma SameStorage(r: Data, s: Data, i: Info, reusing: bool)
    requires SameReserved(r, s)
    ensures SameReserved(WithStorage(r, i, reusing), WithStorage(s, i, reusing))
  {
  }

  lemma SameManaged(r: Data, s: Data, c: Config)
    requires SameReserved(r, s)
    ensures SameReserved(WithManaged(r, c), WithManaged(s, c))
  {
    SameBasics(r, s);
  }

  /** A request with other labels and annotations changes nothing but unreserved labels and annotations: every
      reserved key, the versions, the action, the storage decision and the whole environment stay the same. */
  lemma RequestCannotReach(d: Data, i: Info, m: Maps, n: Maps, v: Option<Values>, c: Config)
    requires n == m.(annotations := n.annotations, labels := n.labels)
    ensures Charted(d, i, m, v, c).Some? == Charted(d, i, n, v, c).Some?
    ensures Charted(d, i, m, v, c).Some? ==>
              SameReserved(Charted(d, i, m, v, c).value, Charted(d, i, n, v, c).value)
  {
    var e := Prepared(d, v);
    if e.Some? {
      var e := e.value;
      SameAnnotations(e, e, m.annotations, n.annotations);
      var r1, s1 := WithAnnotations(e, m.annotations), WithAnnotations(e, n.annotations);
      SameLabels(r1, s1, m.labels, n.labels);
      var r2, s2 := WithMaps(WithLabels(r1, m.labels), m), WithMaps(WithLabels(s1, n.labels), n);
      assert SameReserved(r2, s2);
      SameSchedule(r2, s2, i);
      SameScalars(WithSchedule(r2, i), WithSchedule(s2, i), i);
      SameStorage(Requested(e, i, m), Requested(e, i, n), i, v.Some?);
      SameManaged(WithStorage(Requested(e, i, m), i, v.Some?), WithStorage(Requested(e, i, n), i, v.Some?), c);
    }
  }

  lemma DraftBaseIsNotReserved()
    ensures DRAFT_BASENAME !in RESERVED_LABELS
  {
    assert |DRAFT_BASENAME| == 24;
    forall k | 0 <= k < 8 ensures |RESERVED_LABELS[k]| != 24 { }
  }

  lemma StrippedAnnotations(d: Data, m: Strings)
    ensures WithAnnotations(d, m - Keys(RESERVED_ANNOTATIONS)) == WithAnnotations(d, m)
  {
    assert (m - Keys(RESERVED_ANNOTATIONS)) - Keys(RESERVED_ANNOTATIONS) == m - Keys(RESERVED_ANNOTATIONS);
  }

  lemma StrippedLabels(d: Data, m: Strings)
    ensures WithLabels(d, m - Keys(RESERVED_LABELS)) == WithLabels(d, m)
  {
    var kept := m - Keys(RESERVED_LABELS);
    assert kept - Keys(RESERVED_LABELS) == kept;
    DraftBaseIsNotReserved();
    assert HasValue(kept, DRAFT_BASENAME) == HasValue(m, DRAFT_BASENAME);
  }

  /** The keys a call deletes from the request were of no effect, so serving several instances with one request
      gives each of them what it would have got alone. */
  lemma StrippedIsEnough(d: Data, i: Info, m: Maps, v: Option<Values>, c: Config)
    ensures Charted(d, i, Stripped(m), v, c) == Charted(d, i, m, v, c)
  {
    var e := Prepared(d, v);
    if e.Some? {
      StrippedAnnotations(e.value, m.annotations);
      StrippedLabels(WithAnnotations(e.value, m.annotations), m.labels);
    }
  }

  // ----- The in-place procedure -----

  method SetDefaults(d: Instance)
    requires d.Apart()
    modifies d.env
    ensures d.Value() == Defaulted(old(d.Value()))
  {
    AddEntries(d.env, DEFAULT_ENV);
  }

  method ReuseMaps(d: Instance, v: Values)
    requires d.Apart()
    modifies d.Repr()
    ensures d.Value() == old(d.Value()).(
              maps := Maps(Reused(old(d.annotations.entries), OnlyReusable(v.annotations)),
                           Reused(old(d.labels.entries), v.labels),
                           old(d.configs.entries) + v.configs, old(d.env.entries) + v.env,
                           old(d.secrets.entries) + v.secrets))
  {
    AddEntries(d.configs, v.configs);
    AddEntries(d.secrets, v.secrets);
    ReuseEntries(d.annotations, OnlyReusable(v.annotations));
    ReuseEntries(d.labels, v.labels);
    AddEntries(d.env, v.env);
  }

  method ReusePlan(d: Instance, v: Values, state: int, size: int)
    modifies d
    ensures d.Value() == old(d.Value()).(
              state := state,
              plan := old(d.Value()).plan.(
                storageSize := size,
                requestedVersion := if VERSION in v.annotations then v.annotations[VERSION]
                                    else old(d.requestedVersion)))
  {
    if VERSION in v.annotations { d.requestedVersion := v.annotations[VERSION]; }
    d.state := state;
    d.storageSize := size;
  }

  method ReuseSpec(d: Instance, v: Values)
    modifies d
    ensures d.Value() == old(d.Value()).(
              spec := old(d.Value()).spec.(
                image := v.image, shared := old(d.shared) || v.shared, ports := old(d.ports) + v.ports,
                schedule := if v.schedule.Some? then v.schedule.value else old(d.schedule)))
  {
    d.image := v.image;
    if v.shared { d.shared := true; }
    d.ports := d.ports + v.ports;
    if v.schedule.Some? { d.schedule := v.schedule.value; }
  }

  /** The reuse branch; it reports whether the earlier values could be read. */
  method ReuseValues(d: Instance, v: Values) returns (ok: bool)
    requires d.Apart()
    modifies d, d.Repr()
    ensures ok == WithReused(old(d.Value()), v).Some?
    ensures ok ==> d.Value() == WithReused(old(d.Value()), v).value
  {
    var state := if STATE in v.annotations then Atoi(v.annotations[STATE]) else None;
    var size := if v.instanceStorage.Some? then ReusedSize(v.instanceStorage.value) else Some(d.storageSize);
    if state.None? || size.None? { return false; }
    ReuseMaps(d, v);
    ReusePlan(d, v, state.value, size.value);
    ReuseSpec(d, v);
    ok := true;
  }

  method MergeAnnotations(d: Instance, r: Request)
    requires d.Apart() && r.annotations !in d.Repr()
    modifies d.annotations, r.annotations
    ensures d.Value() == WithAnnotations(old(d.Value()), old(r.annotations.entries))
    ensures r.annotations.entries == old(r.annotations.entries) - Keys(RESERVED_ANNOTATIONS)
  {
    MapMerge(d.annotations, r.annotations, RESERVED_ANNOTATIONS);
    d.annotations.Add(VERSION, d.requestedVersion);
  }

  /** The labels are merged twice, the second time without a filter: by then the reserved keys are gone. */
  method MergeLabels(d: Instance, r: Request)
    requires d.Apart() && r.labels !in d.Repr()
    modifies d.labels, r.labels
    ensures d.labels.entries == WithLabels(old(d.Value()), old(r.labels.entries)).maps.labels
    ensures r.labels.entries == old(r.labels.entries) - Keys(RESERVED_LABELS)
  {
    MapMerge(d.labels, r.labels, RESERVED_LABELS);
    MapMerge(d.labels, r.labels, []);
    DraftBaseIsNotReserved();
    assert r.labels.entries == old(r.labels.entries) - Keys(RESERVED_LABELS);
    assert d.labels.entries == old(d.labels.entries + (r.labels.entries - Keys(RESERVED_LABELS)));
    if HasValue(r.labels.entries, DRAFT_BASENAME) {
      d.labels.Add("draft", d.name);
    }
    d.labels.Add(MON_BASENAME, Get(d.annotations.entries, BASENAME));
  }

  method MergeMaps(d: Instance, r: Request)
    requires d.Apart()
    modifies d.configs, d.env, d.secrets
    requires {d.configs, d.env, d.secrets} !! r.Repr()
    ensures d.Value() == WithMaps(old(d.Value()), MapsOf(r))
  {
    AddEntries(d.configs, r.configs.entries);
    AddEntries(d.env, r.env.entries);
    AddEntries(d.secrets, r.secrets.entries);
  }

  /** Every map of the request. */
  method MergeRequest(d: Instance, r: Request)
    requires d.Apart() && r.Apart() && d.Repr() !! r.Repr()
    modifies d.Repr(), r.annotations, r.labels
    ensures d.Value() == WithMaps(WithLabels(WithAnnotations(old(d.Value()), old(MapsOf(r)).annotations),
                                             old(MapsOf(r)).labels), old(MapsOf(r)))
    ensures MapsOf(r) == Stripped(old(MapsOf(r)))
  {
    MergeAnnotations(d, r);
    MergeLabels(d, r);
    MergeMaps(d, r);
  }

  method SetSchedule(d: Instance, i: Info)
    requires d.Apart()
    modifies d, d.annotations
    ensures d.Value() == WithSchedule(old(d.Value()), i)
  {
    if Get(d.annotations.entries, CYCLE) == TYPE_PERIODIC {
      if i.schedule.Some? {
        d.schedule := i.schedule.value;
      }
      d.annotations.Add(SCHEDULE, d.schedule);
    }
  }

  method SetDescription(d: Instance, i: Info)
    modifies d
    ensures d.Value() == WithDescription(old(d.Value()), i)
  {
    if i.description != "" { d.description := i.description; }
  }

  method SetImage(d: Instance, i: Info)
    requires d.Apart()
    modifies d, d.annotations
    ensures d.Value() == WithTag(WithRepo(old(d.Value()), i), i)
  {
    if i.imageRepo != "" {
      d.image := d.image.(repository := i.imageRepo);
      d.annotations.Add(IMAGE_REPO, i.imageRepo);
    }
    if i.imageTag != "" {
      d.image := d.image.(tag := i.imageTag);
      d.annotations.Add(IMAGE_TAG, i.imageTag);
    }
  }

  method SetPorts(d: Instance, i: Info)
    modifies d
    ensures d.Value() == WithPorts(old(d.Value()), i)
  {
    if i.ports == [] { return; }
    var ports := [];
    for k := 0 to |i.ports|
      invariant ports == seq(k, j requires 0 <= j < k => NamedPort(i.ports[j], i.name))
    {
      ports := ports + [NamedPort(i.ports[k], i.name)];
    }
    d.ports := ports;
  }

  method DecideStorage(d: Instance, newSize: int, reusing: bool)
    modifies d
    ensures var s := Decide(Storage(old(d.nextAction), old(d.deleteStorage), old(d.storageSize)), newSize, reusing);
            d.Value() == old(d.Value()).(plan := old(d.Value()).plan.(
                           nextAction := s.action, deleteStorage := s.delete, storageSize := s.size))
  {
    if d.storageSize != -1 && d.storageSize != newSize {
      d.nextAction := Cluster.Recreate;
      d.deleteStorage := true;
    }
    if reusing {
      d.deleteStorage := false;
      if newSize > 0 {
        if d.storageSize != newSize { d.deleteStorage := true; }
        d.storageSize := newSize;
      }
    } else {
      d.storageSize := newSize;
    }
  }

  method SetStorage(d: Instance, i: Info, reusing: bool)
    requires d.Apart()
    modifies d, d.annotations
    ensures d.Value() == WithStorage(old(d.Value()), i, reusing)
  {
    DecideStorage(d, i.persistentStorage, reusing);
    if i.sharedStorage > 0 { d.shared := true; }
    d.annotations.Add(VOLUME_SIZE, Itoa(d.storageSize));
  }

  lemma UnionIsAssociative(a: Strings, b: Strings, c: Strings)
    ensures a + b + c == a + (b + c)
  {
  }

  method SetManaged(d: Instance, c: Config)
    requires d.Apart()
    modifies d.env
    ensures d.Value() == WithManaged(old(d.Value()), c)
  {
    ghost var root := ManagedRoot(Get(d.annotations.entries, ROOT_GROUP_ID));
    var always := ManagedAlways(d.name, d.requestedVersion, d.annotations.entries, d.secrets.entries, c);
    UnionIsAssociative(d.env.entries, root, always);
    SetRoot(d, Get(d.annotations.entries, ROOT_GROUP_ID));
    AddEntries(d.env, always);
  }

  method SetRoot(d: Instance, root: string)
    modifies d.env
    ensures d.env.entries == old(d.env.entries) + ManagedRoot(root)
  {
    if root != "" {
      d.env.Add("APP_INSTANCE_ROOT_GROUP_ID", root);
    }
  }

  method SetRequested(d: Instance, r: Request)
    requires d.Apart() && r.Apart() && d.Repr() !! r.Repr()
    modifies d, d.Repr(), r.annotations, r.labels
    ensures d.Value() == Requested(old(d.Value()), r.info, old(MapsOf(r)))
    ensures MapsOf(r) == Stripped(old(MapsOf(r)))
  {
    MergeRequest(d, r);
    SetSchedule(d, r.info);
    SetDescription(d, r.info);
    SetImage(d, r.info);
    SetPorts(d, r.info);
  }

  /** The defaults, and the values of the last good chart when there is one. */
  method SetReused(d: Instance, v: Option<Values>) returns (ok: bool)
    requires d.Apart()
    modifies d, d.Repr()
    ensures ok == Prepared(old(d.Value()), v).Some?
    ensures ok ==> d.Value() == Prepared(old(d.Value()), v).value
  {
    SetDefaults(d);
    ok := true;
    if v.Some? {
      ok := ReuseValues(d, v.value);
    }
  }

  method SetFinished(d: Instance, r: Request, reusing: bool, c: Config)
    requires d.Apart() && r.Apart() && d.Repr() !! r.Repr()
    modifies d, d.Repr(), r.annotations, r.labels
    ensures d.Value() == Finished(old(d.Value()), r.info, old(MapsOf(r)), reusing, c)
    ensures MapsOf(r) == Stripped(old(MapsOf(r)))
  {
    SetRequested(d, r);
    SetStorage(d, r.info, reusing);
    SetManaged(d, c);
  }

  /** The whole procedure: the record becomes its charted value, and the request loses its reserved keys. */
  method SetChartData(d: Instance, r: Request, v: Option<Values>, c: Config) returns (ok: bool)
    requires d.Apart() && r.Apart() && d.Repr() !! r.Repr()
    modifies d, d.Repr(), r.annotations, r.labels
    ensures ok == Charted(old(d.Value()), r.info, old(MapsOf(r)), v, c).Some?
    ensures ok ==> d.Value() == Charted(old(d.Value()), r.info, old(MapsOf(r)), v, c).value
    ensures ok ==> MapsOf(r) == Stripped(old(MapsOf(r)))
  {
    ok := SetReused(d, v);
    if ok {
      SetFinished(d, r, v.Some?, c);
    }
  }
}
