/** What ends up in a charted record, field by field: which of the request, the reused chart and the record itself
    each value comes from. */
module ChartMeaning {
  import opened Text
  import opened AppMap
  import opened AppData
  import opened ChartData
  import opened Charting

  // ----- Configuration files and secrets -----

  function ReusedConfigs(v: Option<Values>): Strings { if v.Some? then v.value.configs else map[] }

  function ReusedSecrets(v: Option<Values>): Strings { if v.Some? then v.value.secrets else map[] }

  lemma PreparedFiles(d: Data, v: Option<Values>)
    requires Prepared(d, v).Some?
    ensures Prepared(d, v).value.maps.configs == d.maps.configs + ReusedConfigs(v)
    ensures Prepared(d, v).value.maps.secrets == d.maps.secrets + ReusedSecrets(v)
  {
  }

  lemma RequestedFiles(d: Data, i: Info, m: Maps)
    ensures Requested(d, i, m).maps.configs == d.maps.configs + m.configs
    ensures Requested(d, i, m).maps.secrets == d.maps.secrets + m.secrets
  {
    var e := WithMaps(WithLabels(WithAnnotations(d, m.annotations), m.labels), m);
    assert e.maps.configs == d.maps.configs + m.configs && e.maps.secrets == d.maps.secrets + m.secrets;
  }

  /** Configuration files and secrets of the request replace those of the reused chart, which replace those of the
      record; none is lost. */
  lemma FilesAfter(d: Data, i: Info, m: Maps, v: Option<Values>, c: Config)
    requires Charted(d, i, m, v, c).Some?
    ensures Charted(d, i, m, v, c).value.maps.configs == d.maps.configs + ReusedConfigs(v) + m.configs
    ensures Charted(d, i, m, v, c).value.maps.secrets == d.maps.secrets + ReusedSecrets(v) + m.secrets
  {
    PreparedFiles(d, v);
    RequestedFiles(Prepared(d, v).value, i, m);
  }

  lemma LayersLookup(a: Strings, b: Strings, c: Strings, k: string)
    ensures Lookup(a + b + c, k) == Override(Lookup(c, k), Override(Lookup(b, k), Lookup(a, k)))
  {
  }

  /** The same for every single file and secret. */
  lemma FilePrecedence(d: Data, i: Info, m: Maps, v: Option<Values>, c: Config, k: string)
    requires Charted(d, i, m, v, c).Some?
    ensures var r := Charted(d, i, m, v, c).value;
            && Lookup(r.maps.configs, k)
               == Override(Lookup(m.configs, k), Override(Lookup(ReusedConfigs(v), k), Lookup(d.maps.configs, k)))
            && Lookup(r.maps.secrets, k)
               == Override(Lookup(m.secrets, k), Override(Lookup(ReusedSecrets(v), k), Lookup(d.maps.secrets, k)))
  {
    FilesAfter(d, i, m, v, c);
    LayersLookup(d.maps.configs, ReusedConfigs(v), m.configs, k);
    LayersLookup(d.maps.secrets, ReusedSecrets(v), m.secrets, k);
  }

  // ----- Labels -----

  /** The labels of a record where they have a value, otherwise those of the earlier chart. */
  function OwnLabels(d: Data, v: Option<Values>): Strings {
    if v.None? then d.maps.labels else Reused(d.maps.labels, v.value.labels)
  }

  lemma PreparedLabels(d: Data, v: Option<Values>)
    requires Prepared(d, v).Some?
    ensures Prepared(d, v).value.maps.labels == OwnLabels(d, v)
    ensures Prepared(d, v).value.name == d.name
  {
  }

  lemma FinishedLabels(d: Data, i: Info, m: Maps, reusing: bool, c: Config)
    ensures Finished(d, i, m, reusing, c).maps.labels
            == WithLabels(WithAnnotations(d, m.annotations), m.labels).maps.labels
  {
    var e := WithLabels(WithAnnotations(d, m.annotations), m.labels);
    assert WithMaps(e, m).maps.labels == e.maps.labels;
  }

  lemma MergedLabel(d: Data, m: Strings, k: string)
    requires k != "draft" && k != MON_BASENAME
    ensures Lookup(WithLabels(d, m).maps.labels, k)
            == if k in RESERVED_LABELS then Lookup(d.maps.labels, k)
               else Override(Lookup(m, k), Lookup(d.maps.labels, k))
  {
  }

  /** A label the controller does not set itself has the request's value, unless it is reserved, or else the record's
      own. */
  lemma LabelPrecedence(d: Data, i: Info, m: Maps, v: Option<Values>, c: Config, k: string)
    requires Charted(d, i, m, v, c).Some? && k != "draft" && k != MON_BASENAME
    ensures Lookup(Charted(d, i, m, v, c).value.maps.labels, k)
            == if k in RESERVED_LABELS then Lookup(OwnLabels(d, v), k)
               else Override(Lookup(m.labels, k), Lookup(OwnLabels(d, v), k))
  {
    PreparedLabels(d, v);
    var e := Prepared(d, v).value;
    FinishedLabels(e, i, m, v.Some?, c);
    MergedLabel(WithAnnotations(e, m.annotations), m.labels, k);
  }

  lemma SetLabels(d: Data, m: Strings)
    ensures var l := WithLabels(d, m).maps.labels;
            && Lookup(l, MON_BASENAME) == Some(Get(d.maps.annotations, BASENAME))
            && (HasValue(m, DRAFT_BASENAME) ==> Lookup(l, "draft") == Some(d.name))
  {
    assert |MON_BASENAME| != |"draft"|;
  }

  /** The label of the monitoring system is the application's name, and a draft is labelled with its instance. */
  lemma ControllerLabels(d: Data, i: Info, m: Maps, v: Option<Values>, c: Config)
    requires Charted(d, i, m, v, c).Some? && Get(d.maps.annotations, BASENAME) != ""
    ensures var l := Charted(d, i, m, v, c).value.maps.labels;
            && Lookup(l, MON_BASENAME) == Some(Get(d.maps.annotations, BASENAME))
            && (HasValue(m.labels, DRAFT_BASENAME) ==> Lookup(l, "draft") == Some(d.name))
  {
    var e := Prepared(d, v).value;
    PreparedLabels(d, v);
    PreparedBasename(d, v);
    FinishedLabels(e, i, m, v.Some?, c);
    BasenameIsKept(e, m.annotations);
    SetLabels(WithAnnotations(e, m.annotations), m.labels);
  }

  lemma PreparedBasename(d: Data, v: Option<Values>)
    requires Prepared(d, v).Some? && Get(d.maps.annotations, BASENAME) != ""
    ensures Get(Prepared(d, v).value.maps.annotations, BASENAME) == Get(d.maps.annotations, BASENAME)
  {
    PreparedAnnotations(d, v);
  }

  lemma BasenameIsKept(d: Data, m: Strings)
    ensures Get(WithAnnotations(d, m).maps.annotations, BASENAME) == Get(d.maps.annotations, BASENAME)
  {
    var l := RESERVED_ANNOTATIONS;
    assert l[0] in l;
    assert |BASENAME| == 18 && |VERSION| == 26;
  }

  // ----- Description, image, ports, schedule -----

  lemma PreparedSpec(d: Data, v: Option<Values>)
    requires Prepared(d, v).Some?
    ensures var e := Prepared(d, v).value;
            && e.spec.description == d.spec.description && e.name == d.name && e.namespace == d.namespace
            && e.spec.image == (if v.Some? then v.value.image else d.spec.image)
            && e.spec.ports == d.spec.ports + (if v.Some? then v.value.ports else [])
            && e.spec.schedule == (if v.Some? && v.value.schedule.Some? then v.value.schedule.value
                                   else d.spec.schedule)
            && e.spec.shared == (d.spec.shared || (v.Some? && v.value.shared))
            && Some(e.state) == (if v.Some? then Atoi(Get(v.value.annotations, STATE)) else Some(d.state))
            && e.plan.currentVersion == d.plan.currentVersion
            && e.plan.requestedVersion == (if v.Some? && VERSION in v.value.annotations
                                           then v.value.annotations[VERSION] else d.plan.requestedVersion)
  {
  }

  lemma ScheduledSpec(d: Data, i: Info)
    ensures var r := WithSchedule(d, i);
            && r.name == d.name && r.namespace == d.namespace && r.state == d.state
            && r.spec == d.spec.(schedule := r.spec.schedule)
            && (Get(d.maps.annotations, CYCLE) == "periodic" ==>
                  && r.spec.schedule == (if i.schedule.Some? then i.schedule.value else d.spec.schedule)
                  && Get(r.maps.annotations, SCHEDULE) == r.spec.schedule)
            && (Get(d.maps.annotations, CYCLE) != "periodic" ==> r == d)
  {
  }

  /** The ports of a request, under names that are normalized, and that are the application's where none is given. */
  predicate PortsOf(ports: seq<Port>, i: Info) {
    && |ports| == |i.ports|
    && forall k :: 0 <= k < |ports| ==>
         && ports[k].number == i.ports[k].number && ports[k].proto == i.ports[k].proto
         && (i.ports[k].name != "" ==> ports[k].name == KubeName(i.ports[k].name))
         && (i.ports[k].name == "" ==> ports[k].name == KubeName(i.name))
  }

  lemma ScalarSpec(d: Data, i: Info)
    ensures var r := WithScalars(d, i);
            && r.name == d.name && r.namespace == d.namespace && r.state == d.state
            && r.spec.schedule == d.spec.schedule && r.spec.shared == d.spec.shared
            && r.spec.description == (if i.description != "" then i.description else d.spec.description)
            && r.spec.image == Image(if i.imageRepo != "" then i.imageRepo else d.spec.image.repository,
                                     d.spec.image.name, if i.imageTag != "" then i.imageTag else d.spec.image.tag)
            && (if i.ports == [] then r.spec.ports == d.spec.ports else PortsOf(r.spec.ports, i))
  {
  }

  lemma MergedSpec(d: Data, m: Maps)
    ensures var r := WithMaps(WithLabels(WithAnnotations(d, m.annotations), m.labels), m);
            r.spec == d.spec && r.name == d.name && r.namespace == d.namespace && r.state == d.state
            && r.plan == d.plan
  {
  }

  lemma CycleIsKept(d: Data, m: Maps)
    ensures Get(WithMaps(WithLabels(WithAnnotations(d, m.annotations), m.labels), m).maps.annotations, CYCLE)
            == Get(d.maps.annotations, CYCLE)
  {
    var l := RESERVED_ANNOTATIONS;
    assert l[1] in l;
    assert |CYCLE| == 15 && |VERSION| == 26;
  }

  lemma RequestedSpec(d: Data, i: Info, m: Maps)
    ensures var r := Requested(d, i, m);
            && r.name == d.name && r.namespace == d.namespace && r.state == d.state && r.plan == d.plan
            && r.spec.shared == d.spec.shared
            && r.spec.description == (if i.description != "" then i.description else d.spec.description)
            && r.spec.image == Image(if i.imageRepo != "" then i.imageRepo else d.spec.image.repository,
                                     d.spec.image.name, if i.imageTag != "" then i.imageTag else d.spec.image.tag)
            && (if i.ports == [] then r.spec.ports == d.spec.ports else PortsOf(r.spec.ports, i))
            && r.spec.schedule == (if Get(d.maps.annotations, CYCLE) == "periodic" && i.schedule.Some?
                                   then i.schedule.value else d.spec.schedule)
  {
    var e := WithMaps(WithLabels(WithAnnotations(d, m.annotations), m.labels), m);
    MergedSpec(d, m);
    CycleIsKept(d, m);
    ScheduledSpec(e, i);
    ScalarSpec(WithSchedule(e, i), i);
  }

  lemma FinishedSpec(d: Data, i: Info, m: Maps, reusing: bool, c: Config)
    ensures var r, e := Finished(d, i, m, reusing, c), Requested(d, i, m);
            && r.name == e.name && r.namespace == e.namespace && r.state == e.state
            && r.spec == e.spec.(shared := e.spec.shared || i.sharedStorage > 0)
            && r.plan.currentVersion == e.plan.currentVersion && r.plan.requestedVersion == e.plan.requestedVersion
  {
  }

  /** The image a record ends with before the request: that of the reused chart, if any. */
  function OwnImage(d: Data, v: Option<Values>): Image { if v.Some? then v.value.image else d.spec.image }

  function OwnSchedule(d: Data, v: Option<Values>): string {
    if v.Some? && v.value.schedule.Some? then v.value.schedule.value else d.spec.schedule
  }

  /** Description, image, ports, schedule and shared storage: what the request gives, else what the reused chart has,
      else what the record had. Ports of a request replace all others; without any the reused ones are added. The
      state and the requested version of a reused chart win over the record's. */
  lemma SpecAfter(d: Data, i: Info, m: Maps, v: Option<Values>, c: Config)
    requires Charted(d, i, m, v, c).Some?
    ensures var r := Charted(d, i, m, v, c).value;
            && r.name == d.name && r.namespace == d.namespace && r.plan.currentVersion == d.plan.currentVersion
            && Some(r.state) == (if v.Some? then Atoi(Get(v.value.annotations, STATE)) else Some(d.state))
            && r.plan.requestedVersion == (if v.Some? && VERSION in v.value.annotations
                                           then v.value.annotations[VERSION] else d.plan.requestedVersion)
            && r.spec.description == (if i.description != "" then i.description else d.spec.description)
            && r.spec.image == Image(if i.imageRepo != "" then i.imageRepo else OwnImage(d, v).repository,
                                     OwnImage(d, v).name,
                                     if i.imageTag != "" then i.imageTag else OwnImage(d, v).tag)
            && (r.spec.shared <==> d.spec.shared || (v.Some? && v.value.shared) || i.sharedStorage > 0)
            && (if i.ports == [] then r.spec.ports == d.spec.ports + (if v.Some? then v.value.ports else [])
                else PortsOf(r.spec.ports, i))
            && r.spec.schedule == (if Get(OwnAnnotations(d, v), CYCLE) == "periodic" && i.schedule.Some?
                                   then i.schedule.value else OwnSchedule(d, v))
  {
    var e := Prepared(d, v).value;
    PreparedSpec(d, v);
    PreparedAnnotations(d, v);
    RequestedSpec(e, i, m);
    FinishedSpec(e, i, m, v.Some?, c);
  }

  // ----- What annotations and environment tell of the record -----

  lemma NoteKeys()
    ensures SCHEDULE != VOLUME_SIZE && SCHEDULE != IMAGE_REPO && SCHEDULE != IMAGE_TAG && IMAGE_REPO != VOLUME_SIZE
    ensures IMAGE_TAG != VOLUME_SIZE && IMAGE_REPO != IMAGE_TAG
  {
    assert |SCHEDULE| == 18 && |IMAGE_REPO| == 34 && |IMAGE_TAG| == 28 && |VOLUME_SIZE| == 30;
  }

  lemma ScalarNotes(d: Data, i: Info)
    ensures var r := WithScalars(d, i).maps.annotations;
            && Get(r, SCHEDULE) == Get(d.maps.annotations, SCHEDULE)
            && (i.imageRepo != "" ==> Get(r, IMAGE_REPO) == i.imageRepo)
            && (i.imageTag != "" ==> Get(r, IMAGE_TAG) == i.imageTag)
  {
    NoteKeys();
  }

  lemma ScalarSchedule(d: Data, i: Info)
    ensures WithScalars(d, i).spec.schedule == d.spec.schedule
  {
    ScalarSpec(d, i);
  }

  lemma RequestedNotes(d: Data, i: Info, m: Maps)
    ensures var r := Requested(d, i, m);
            && (Get(d.maps.annotations, CYCLE) == "periodic" ==> Get(r.maps.annotations, SCHEDULE) == r.spec.schedule)
            && (i.imageRepo != "" ==> Get(r.maps.annotations, IMAGE_REPO) == i.imageRepo)
            && (i.imageTag != "" ==> Get(r.maps.annotations, IMAGE_TAG) == i.imageTag)
  {
    var e := WithMaps(WithLabels(WithAnnotations(d, m.annotations), m.labels), m);
    CycleIsKept(d, m);
    ScheduledSpec(e, i);
    ScalarNotes(WithSchedule(e, i), i);
    ScalarSchedule(WithSchedule(e, i), i);
  }

  /** The annotations of a charted record name its schedule, when it is periodic, and the image parts that came with
      the request. */
  lemma NotesAfter(d: Data, i: Info, m: Maps, v: Option<Values>, c: Config)
    requires Charted(d, i, m, v, c).Some?
    ensures var r := Charted(d, i, m, v, c).value;
            && (Get(OwnAnnotations(d, v), CYCLE) == "periodic" ==>
                  Get(r.maps.annotations, SCHEDULE) == r.spec.schedule)
            && (i.imageRepo != "" ==> Get(r.maps.annotations, IMAGE_REPO) == i.imageRepo)
            && (i.imageTag != "" ==> Get(r.maps.annotations, IMAGE_TAG) == i.imageTag)
  {
    var e := Prepared(d, v).value;
    PreparedAnnotations(d, v);
    RequestedNotes(e, i, m);
    FinishedSpec(e, i, m, v.Some?, c);
    FinishedNotes(e, i, m, v.Some?, c);
  }

  lemma FinishedNotes(d: Data, i: Info, m: Maps, reusing: bool, c: Config)
    ensures forall k :: k != VOLUME_SIZE ==>
              Get(Finished(d, i, m, reusing, c).maps.annotations, k) == Get(Requested(d, i, m).maps.annotations, k)
  {
  }

  predicate Tells(env: Strings, variable: string, value: string) { variable in env && env[variable] == value }

  lemma ManagedTells(r: Data, c: Config)
    ensures var env := Managed(r, c);
            && Tells(env, "APP_NAME", Get(r.maps.annotations, BASENAME))
            && Tells(env, "APP_INSTANCE_NAME", r.name)
            && Tells(env, "APP_INSTANCE_ID", Get(r.maps.annotations, ID))
            && Tells(env, "APP_INSTANCE_GROUP_ID", Get(r.maps.annotations, GROUP_ID))
            && Tells(env, "APP_INSTANCE_VERSION", r.plan.requestedVersion)
            && Tells(env, "APP_INSTANCE_FLEX_API_HOST", c.flexHost)
            && Tells(env, "APP_INSTANCE_FLEX_API_PORT", c.flexPort)
            && Tells(env, "APP_INSTANCE_APP_ID", Get(r.maps.secrets, "app_id"))
            && Tells(env, "APP_INSTANCE_SECRET_KEY", Get(r.maps.secrets, "secret_key"))
            && (Get(r.maps.annotations, ROOT_GROUP_ID) != "" ==>
                  Tells(env, "APP_INSTANCE_ROOT_GROUP_ID", Get(r.maps.annotations, ROOT_GROUP_ID)))
  {
    var names := ["APP_NAME", "APP_INSTANCE_NAME", "APP_INSTANCE_ID", "APP_INSTANCE_GROUP_ID", "APP_INSTANCE_VERSION",
                  "APP_INSTANCE_FLEX_API_HOST", "APP_INSTANCE_FLEX_API_PORT", "APP_INSTANCE_APP_ID",
                  "APP_INSTANCE_SECRET_KEY", "APP_INSTANCE_ROOT_GROUP_ID"];
    assert |names[0]| == 8 && |names[1]| == 17 && |names[2]| == 15 && |names[3]| == 21 && |names[4]| == 20;
    assert |names[5]| == 26 && |names[6]| == 26 && |names[7]| == 19 && |names[8]| == 23 && |names[9]| == 26;
    assert names[5][22] == 'H' && names[6][22] == 'P';
    assert names[9][13] == 'R' && names[5][13] == 'F' && names[6][13] == 'F';
  }

  /** Every instance is told its names, its version, the two endpoints and its two secrets, whatever the request or a
      reused chart says about these variables. */
  lemma InstanceIsTold(d: Data, i: Info, m: Maps, v: Option<Values>, c: Config)
    requires Charted(d, i, m, v, c).Some?
    ensures var r := Charted(d, i, m, v, c).value;
            && Tells(r.maps.env, "APP_NAME", Get(r.maps.annotations, BASENAME))
            && Tells(r.maps.env, "APP_INSTANCE_NAME", r.name)
            && Tells(r.maps.env, "APP_INSTANCE_ID", Get(r.maps.annotations, ID))
            && Tells(r.maps.env, "APP_INSTANCE_GROUP_ID", Get(r.maps.annotations, GROUP_ID))
            && Tells(r.maps.env, "APP_INSTANCE_VERSION", r.plan.requestedVersion)
            && Tells(r.maps.env, "APP_INSTANCE_FLEX_API_HOST", c.flexHost)
            && Tells(r.maps.env, "APP_INSTANCE_FLEX_API_PORT", c.flexPort)
            && Tells(r.maps.env, "APP_INSTANCE_APP_ID", Get(r.maps.secrets, "app_id"))
            && Tells(r.maps.env, "APP_INSTANCE_SECRET_KEY", Get(r.maps.secrets, "secret_key"))
            && (Get(r.maps.annotations, ROOT_GROUP_ID) != "" ==>
                  Tells(r.maps.env, "APP_INSTANCE_ROOT_GROUP_ID", Get(r.maps.annotations, ROOT_GROUP_ID)))
  {
    EnvAfter(d, i, m, v, c);
    ManagedTells(Charted(d, i, m, v, c).value, c);
  }

  // ----- Keys and values as they are spelled -----

  /** The annotations a request cannot set, and the labels: all of these but the schedule. */
  lemma ReservedKeysSpelled()
    ensures RESERVED_ANNOTATIONS
            == ["apphc.app.basename", "apphc.app.cycle", "apphc.app.schedule", "apphc.app.instance.root_group_id",
                "apphc.app.instance.group_id", "apphc.app.instance.id", "apphc.app.instance.version",
                "apphc.app.instance.template_name", "apphc.app.instance.volume.size"]
    ensures RESERVED_LABELS == RESERVED_ANNOTATIONS[..2] + RESERVED_ANNOTATIONS[3..]
  {
  }

  /** Annotations that Helm put on an earlier chart are not carried over. */
  lemma HelmIsNotReused(d: Data, i: Info, m: Maps, v: Option<Values>, c: Config, k: string)
    requires Charted(d, i, m, v, c).Some? && Free(k) && Contains(k, "create.helm-controller")
    requires k !in m.annotations
    ensures Lookup(Charted(d, i, m, v, c).value.maps.annotations, k) == Lookup(d.maps.annotations, k)
  {
    AnnotationPrecedence(d, i, m, v, c, k);
  }

  lemma ReusedWhereMissing(d: Data, v: Values, k: string)
    requires k in v.annotations && !Contains(k, "create.helm-controller")
    ensures Lookup(OwnAnnotations(d, Some(v)), k)
            == Some(if k in d.maps.annotations && d.maps.annotations[k] != "" then d.maps.annotations[k]
                    else v.annotations[k])
  {
    assert Reusable(k);
  }

  /** Any other is, where the record has no value and the request does not set it. */
  lemma OthersAreReused(d: Data, i: Info, m: Maps, v: Values, c: Config, k: string)
    requires Charted(d, i, m, Some(v), c).Some? && Free(k) && !Contains(k, "create.helm-controller")
    requires k !in m.annotations && k in v.annotations
    ensures Lookup(Charted(d, i, m, Some(v), c).value.maps.annotations, k)
            == Some(if k in d.maps.annotations && d.maps.annotations[k] != "" then d.maps.annotations[k]
                    else v.annotations[k])
  {
    AnnotationPrecedence(d, i, m, Some(v), c, k);
    ReusedWhereMissing(d, v, k);
  }

  /** The job of a charted record: enabled in state 1, deployed from the template its annotations name, and with the
      storage decided for it; storage that was to be deleted without reused values still is. */
  lemma JobAfter(d: Data, i: Info, m: Maps, v: Option<Values>, c: Config)
    requires Charted(d, i, m, v, c).Some?
    ensures var r := Charted(d, i, m, v, c).value;
            var job := JobOf(r);
            && (job.enabled <==> r.state == 1) && job.name == d.name
            && job.template == Get(r.maps.annotations, TEMPLATE_NAME) && job.annotations == r.maps.annotations
            && job.requestedVersion == r.plan.requestedVersion && job.currentVersion == d.plan.currentVersion
            && (v.None? && d.plan.deleteStorage ==> job.deleteStorage)
  {
    SpecAfter(d, i, m, v, c);
    ChartedAnnotations(d, i, m, v, c);
  }

  /** A size as a chart holds it reads back; a bare unit reads as no storage. */
  lemma ReusedSizeReads(n: int)
    requires -MAX_INT - 1 <= n <= MAX_INT
    ensures ReusedSize(Itoa(n) + "Gi") == Some(n) && ReusedSize("Gi") == Some(0)
    ensures ReusedSize("").None? && ReusedSize("5").None?
  {
    AtoiItoa(n);
    var s := Itoa(n) + "Gi";
    assert s[..|s| - 2] == Itoa(n);
  }

  predicate Directory(k: string) {
    k in {"APP_INSTANCE_SECRETS_DIR", "APP_INSTANCE_CONFIG_DIR", "APP_INSTANCE_STORAGE_DIR", "APP_STORAGE_DIR"}
  }

  lemma DefaultDirectories()
    ensures Tells(DEFAULT_ENV, "APP_INSTANCE_SECRETS_DIR", "/opt/app/secret/")
    ensures Tells(DEFAULT_ENV, "APP_INSTANCE_CONFIG_DIR", "/opt/app/config/")
    ensures Tells(DEFAULT_ENV, "APP_INSTANCE_STORAGE_DIR", "/opt/app/storage/instance")
    ensures Tells(DEFAULT_ENV, "APP_STORAGE_DIR", "/opt/app/storage/shared")
  {
    assert |SECRETS_DIR| == 24 && |CONFIG_DIR| == 23 && |INSTANCE_STORAGE_DIR| == 24 && |STORAGE_DIR| == 15;
    assert SECRETS_DIR[14] == 'E' && INSTANCE_STORAGE_DIR[14] == 'T';
  }

  lemma DirectoriesAreNotManaged(r: Data, c: Config, k: string)
    requires Directory(k)
    ensures k !in Managed(r, c)
  {
    assert k[|k| - 1] == 'R' && k[|k| - 2] == 'I';
  }

  /** The four directories an instance is told of are the default ones unless the reused chart or the request says
      otherwise. */
  lemma DirectoriesByDefault(d: Data, i: Info, m: Maps, v: Option<Values>, c: Config, k: string)
    requires Charted(d, i, m, v, c).Some? && Directory(k) && k !in m.env && k !in ReusedEnv(v)
    ensures k in DEFAULT_ENV && Tells(Charted(d, i, m, v, c).value.maps.env, k, DEFAULT_ENV[k])
  {
    var r := Charted(d, i, m, v, c).value;
    EnvPrecedence(d, i, m, v, c, k);
    DirectoriesAreNotManaged(r, c, k);
    DefaultDirectories();
  }
}
