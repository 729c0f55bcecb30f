/** The parts of Docker Swarm's service and network records that the
    translation engine reads. A Go pointer that may be nil is an Option; a
    Go map is a Dafny map; a time.Duration is carried as the text its
    String() method gives. */
module Swarm {
  import opened Wrappers

  /** The label that names the stack a service or network belongs to. */
  const NamespaceLabel := "com.docker.stack.namespace"
  /** The access-control label a managed network may carry. */
  const AccessLabel := "com.docker.ucp.access.label"

  /** The text time.Duration's String() method gives: never empty, since a
      zero duration prints as "0s". */
  type DurationText = s: string | s != "" witness "0s"

  /** swarm.RestartPolicy: Delay, MaxAttempts and Window are pointers. */
  datatype RestartPolicy = RestartPolicy(
    condition: string,
    delay: Option<DurationText>,
    maxAttempts: Option<nat>,
    window: Option<DurationText>)

  /** A float32: its value and the text Go's %v verb gives for it. */
  datatype Ratio = Ratio(value: real, text: string)

  /** swarm.UpdateConfig, the type of both UpdateConfig and RollbackConfig. */
  datatype UpdateConfig = UpdateConfig(
    parallelism: nat,
    delay: DurationText,
    failureAction: string,
    monitor: DurationText,
    maxFailureRatio: Ratio)

  /** swarm.Resources: CPU in units of 1e-9 cores, memory in bytes. */
  datatype ResourceValues = ResourceValues(nanoCPUs: int, memoryBytes: int)

  /** swarm.ResourceRequirements. */
  datatype Resources = Resources(limits: Option<ResourceValues>, reservations: Option<ResourceValues>)

  /** swarm.PortConfig. */
  datatype Port = Port(published: nat, target: nat)

  /** swarm.NetworkAttachmentConfig. */
  datatype Attachment = Attachment(target: string, aliases: seq<string>)

  /** mount.Mount. */
  datatype Mount = Mount(source: string, target: string)

  /** swarm.Driver, as used for the log driver. */
  datatype LogDriver = LogDriver(name: string, options: map<string, string>)

  /** swarm.Service, flattened to the fields read here:
      labels          Spec.Annotations.Labels (also read as Spec.Labels)
      replicas        Spec.Mode.Replicated.Replicas (None when either pointer is nil)
      restart         Spec.TaskTemplate.RestartPolicy
      update          Spec.UpdateConfig
      rollback        Spec.RollbackConfig
      placement       Spec.TaskTemplate.Placement (its Constraints)
      resources       Spec.TaskTemplate.Resources
      ports           Endpoint.Spec.Ports
      taskNetworks    Spec.TaskTemplate.Networks
      specNetworks    Spec.Networks
      containerLabels Spec.TaskTemplate.ContainerSpec.Labels
      mounts, env     Spec.TaskTemplate.ContainerSpec.Mounts and .Env
      logDriver       Spec.TaskTemplate.LogDriver */
  datatype Service = Service(
    id: string,
    name: string,
    labels: map<string, string>,
    image: string,
    replicas: Option<nat>,
    restart: Option<RestartPolicy>,
    update: Option<UpdateConfig>,
    rollback: Option<UpdateConfig>,
    placement: Option<seq<string>>,
    resources: Option<Resources>,
    ports: seq<Port>,
    taskNetworks: seq<Attachment>,
    specNetworks: seq<Attachment>,
    containerLabels: map<string, string>,
    mounts: seq<Mount>,
    env: seq<string>,
    logDriver: Option<LogDriver>)

  /** types.NetworkResource, reduced to the fields read here. */
  datatype Network = Network(
    name: string,
    driver: string,
    options: map<string, string>,
    labels: map<string, string>)

  /** Go's zero value of swarm.Service, which a lookup of a missing ID yields. */
  const ZeroService := Service("", "", map[], "", None, None, None, None, None, None,
                               [], [], [], map[], [], [], None)

  /** Go's zero value of types.NetworkResource. */
  const ZeroNetwork := Network("", "", map[], map[])

  /** A Go map lookup: the empty string when the key is missing. */
  function Label(labels: map<string, string>, key: string): (r: string) {
    if key in labels then labels[key] else ""
  }

  /** networkList[id]: the zero network when id is missing. */
  function NetworkAt(networks: map<string, Network>, id: string): (r: Network) {
    if id in networks then networks[id] else ZeroNetwork
  }

  /** serviceList[id]: the zero service when id is missing. */
  function ServiceAt(services: map<string, Service>, id: string): (r: Service) {
    if id in services then services[id] else ZeroService
  }

  /** The stack a service belongs to, when it carries the namespace label. */
  function Namespace(svc: Service): (r: Option<string>) {
    if NamespaceLabel in svc.labels then Some(svc.labels[NamespaceLabel]) else None
  }

  /** The two process-wide switches: strip "<stack>_" from managed network
      names (defaultName), and force encrypted managed networks (encryptNet). */
  datatype Flags = Flags(stripPrefix: bool, encrypt: bool)
}
