/** The record the controller keeps per application instance while it serves a request, and the maps and scalars
    of the request itself. */
module AppData {
  import opened Text
  import opened AppMap
  import Cluster

  const BASENAME := "apphc.app.basename"
  const CYCLE := "apphc.app.cycle"
  const SCHEDULE := "apphc.app.schedule"
  const ROOT_GROUP_ID := "apphc.app.instance.root_group_id"
  const GROUP_ID := "apphc.app.instance.group_id"
  const VERSION := "apphc.app.instance.version"
  const ID := "apphc.app.instance.id"
  const TEMPLATE_NAME := "apphc.app.instance.template_name"
  const VOLUME_SIZE := "apphc.app.instance.volume.size"
  const IMAGE_REPO := "apphc.app.instance.image_repo.name"
  const IMAGE_TAG := "apphc.app.instance.image.tag"
  const STATE := Cluster.STATE_ANNOTATION

  const TYPE_PERIODIC := "periodic"

  type Action = Cluster.Action

  datatype Image = Image(repository: string, name: string, tag: string)

  datatype Port = Port(name: string, number: nat, proto: string)

  /** What is to be done with an instance. */
  datatype Standing = Standing(currentVersion: string, requestedVersion: string, nextAction: Action, storageSize: int,
                               deleteStorage: bool)

  datatype Maps = Maps(annotations: Strings, labels: Strings, configs: Strings, env: Strings, secrets: Strings)

  datatype Spec = Spec(description: string, image: Image, ports: seq<Port>, schedule: string, shared: bool)

  /** The contents of an instance record. */
  datatype Data = Data(name: string, state: int, namespace: string, templateAvailable: bool, plan: Standing,
                       maps: Maps, spec: Spec)

  const NO_SPEC := Spec("", Image("", "", ""), [], "", false)

  /** A record that has been given nothing but its name, annotations and labels. */
  function Blank(name: string, annotations: Strings, labels: Strings): Data {
    Data(name, 0, "", false, Standing("", "", Cluster.NoAction, 0, false),
         Maps(annotations, labels, map[], map[], map[]), NO_SPEC)
  }

  /** What createUpgradeApps needs of a record. */
  function JobOf(d: Data): Cluster.Job {
    Cluster.Job(d.name, d.plan.nextAction, d.plan.currentVersion, d.plan.requestedVersion, d.state == 1,
                d.plan.storageSize, d.plan.deleteStorage, Get(d.maps.annotations, TEMPLATE_NAME), d.maps.annotations)
  }

  class Instance {
    const annotations: StrMap
    const labels: StrMap
    const configs: StrMap
    const env: StrMap
    const secrets: StrMap
    var name: string
    var state: int
    var namespace: string
    var description: string
    var currentVersion: string
    var requestedVersion: string
    var nextAction: Action
    var templateAvailable: bool
    var schedule: string
    var image: Image
    var ports: seq<Port>
    var storageSize: int
    var shared: bool
    var deleteStorage: bool

    ghost function Repr(): set<object> { {annotations, labels, configs, env, secrets} }

    /** No two maps of the record are one object. */
    ghost predicate Apart() {
      && annotations != labels && annotations != configs && annotations != env && annotations != secrets
      && labels != configs && labels != env && labels != secrets
      && configs != env && configs != secrets && env != secrets
    }

    function Plan(): Standing
      reads this
    {
      Standing(currentVersion, requestedVersion, nextAction, storageSize, deleteStorage)
    }

    ghost function Value(): Data
      reads this, Repr()
    {
      Data(name, state, namespace, templateAvailable, Plan(),
           Maps(annotations.entries, labels.entries, configs.entries, env.entries, secrets.entries),
           Spec(description, image, ports, schedule, shared))
    }

    /** A record over the given annotations and labels; its other maps start empty. */
    constructor (name: string, annotations: StrMap, labels: StrMap)
      ensures this.annotations == annotations && this.labels == labels
      ensures fresh(configs) && fresh(env) && fresh(secrets) && (annotations != labels ==> Apart())
      ensures Value() == Blank(name, annotations.entries, labels.entries)
    {
      this.name := name;
      this.annotations := annotations;
      this.labels := labels;
      state, namespace, description, currentVersion, requestedVersion := 0, "", "", "", "";
      nextAction, templateAvailable, schedule, image := Cluster.NoAction, false, "", Image("", "", "");
      ports, storageSize, shared, deleteStorage := [], 0, false, false;
      configs := new StrMap();
      env := new StrMap();
      secrets := new StrMap();
    }
  }

  /** The request fields the chart data is made from; absent messages read as their zero values. The schedule is
      the line Cron.PeriodicToCronString prints for the periodic attributes, when the request has any. */
  datatype Info = Info(name: string, description: string, schedule: Option<string>, imageRepo: string,
                       imageTag: string, ports: seq<Port>, persistentStorage: nat, sharedStorage: nat)

  class Request {
    const info: Info
    const annotations: StrMap
    const labels: StrMap
    const configs: StrMap
    const env: StrMap
    const secrets: StrMap

    constructor (info: Info, annotations: StrMap, labels: StrMap, configs: StrMap, env: StrMap, secrets: StrMap)
      ensures this.info == info && this.annotations == annotations && this.labels == labels
      ensures this.configs == configs && this.env == env && this.secrets == secrets
    {
      this.info, this.annotations, this.labels := info, annotations, labels;
      this.configs, this.env, this.secrets := configs, env, secrets;
    }

    ghost function Repr(): set<object> { {annotations, labels, configs, env, secrets} }

    ghost predicate Apart() {
      && annotations != labels && annotations != configs && annotations != env && annotations != secrets
      && labels != configs && labels != env && labels != secrets
      && configs != env && configs != secrets && env != secrets
    }
  }
}
