/**
 The values the operator works with: the WordPress custom resource, its status, and the objects it manages.

 Conventions. A Go pointer, or a map or slice whose nil-ness matters, is an `Option`.  Pod settings the operator only
 carries around (resources, tolerations, affinity, ...) are `Opaque` texts compared for equality.  String enumerations
 that the code switches on are datatypes with one constructor left over for every other text.
 */
module Types {

  datatype Option<+T> = None | Some(value: T)

  type StringMap = Option<map<string, string>>
  type Opaque = string

  // ---------------------------------------------------------------- the custom resource

  datatype Mode = NoMode | Internal | External | OtherMode(text: string)

  datatype SecretRef = SecretRef(name: string, key: string)

  datatype InternalDb = InternalDb(
    image: string, imagePullPolicy: string, storageSize: string, storageClassName: Option<string>,
    resources: Opaque, rootPasswordSecret: Option<SecretRef>,
    nodeSelector: StringMap, tolerations: Opaque, affinity: Opaque)

  datatype ExternalDb = ExternalDb(host: string, port: int, passwordSecret: SecretRef)

  datatype DatabaseSpec = DatabaseSpec(
    mode: Mode, name: string, user: string, tablePrefix: string,
    internal: Option<InternalDb>, external: Option<ExternalDb>)

  datatype IngressSpec = IngressSpec(
    enabled: bool, className: Option<string>, host: string, tlsSecretName: string, annotations: StringMap)

  datatype ServiceType = NoServiceType | ClusterIP | NodePort | LoadBalancer | OtherServiceType(text: string)

  datatype ExposureSpec = ExposureSpec(serviceType: ServiceType, port: int, nodePort: int, annotations: StringMap)

  datatype PersistenceSpec = PersistenceSpec(
    enabled: bool, size: string, storageClassName: Option<string>, accessModes: seq<string>)

  datatype AutoscalingSpec = AutoscalingSpec(enabled: bool, minReplicas: int, maxReplicas: int, targetCpu: int)

  datatype EnvSource = Literal(text: string) | FromSecret(ref: SecretRef) | OtherSource(text: Opaque)

  datatype EnvVar = EnvVar(name: string, source: EnvSource)

  datatype WordPressSpec = WordPressSpec(
    image: string, imagePullPolicy: string, imagePullSecrets: Opaque, replicas: Option<int>, resources: Opaque,
    siteUrl: string, env: seq<EnvVar>, database: DatabaseSpec, service: ExposureSpec, ingress: IngressSpec,
    persistence: PersistenceSpec, autoscaling: AutoscalingSpec,
    podAnnotations: StringMap, podLabels: StringMap, nodeSelector: StringMap,
    tolerations: Opaque, affinity: Opaque, maxUnavailable: Option<string>, maxSurge: Option<string>)

  datatype Phase = NoPhase | Pending | Provisioning | Ready | Failed

  datatype ConditionType = ReadyCondition | DatabaseReady | DeploymentReady | IngressConfigured
                         | OtherCondition(text: string)

  datatype Reason = AllReady | Progressing | InvalidSpec | ExternalSecretMissing | ExternalDatabase | MySQLReady
                  | MySQLNotReady | AllReplicasReady | Created | Reconciled | OtherReason(text: string)

  // The variable part of a condition's message; the fixed text around it is determined by the reason.
  datatype Detail = Plain | SecretName(name: string) | ReplicaCount(ready: int, total: int) | Rejected(why: SpecError)

  datatype SpecError = ExternalUnset | HostUnset | PasswordSecretUnset | UnsupportedMode(mode: Mode)
                     | ReplicaBoundsCrossed | IngressHostUnset

  // `holds` is the status True; the operator writes no status other than True and False.
  datatype Condition = Condition(ctype: ConditionType, holds: bool, reason: Reason, detail: Detail)

  datatype WordPressStatus = WordPressStatus(
    observedGeneration: int, phase: Phase, url: string, replicas: int, readyReplicas: int,
    databaseHost: string, conditions: seq<Condition>)

  // ---------------------------------------------------------------- managed objects

  datatype ServicePort = ServicePort(name: string, port: int, targetPort: int, nodePort: int)

  datatype ServiceSpec = ServiceSpec(
    serviceType: ServiceType, clusterIp: string, sessionAffinity: string, selector: map<string, string>,
    ports: seq<ServicePort>, rest: Opaque)

  datatype Probe = NoProbe
                 | Probe(action: ProbeAction, initialDelay: int, period: int, timeout: int, failureThreshold: int)
  datatype ProbeAction = HttpGet(path: string, port: int) | TcpSocket(port: int) | RunCommand(command: seq<string>)

  datatype ContainerPort = ContainerPort(name: string, number: int)
  datatype Mount = Mount(volume: string, path: string)

  datatype Container = Container(
    name: string, image: string, imagePullPolicy: string, command: seq<string>, ports: seq<ContainerPort>,
    env: seq<EnvVar>, resources: Opaque, mounts: seq<Mount>, readiness: Probe, liveness: Probe)

  datatype Volume = ClaimVolume(name: string, claim: string) | EmptyDir(name: string)

  datatype PodTemplate = PodTemplate(
    labels: map<string, string>, annotations: StringMap, initContainers: seq<Container>, containers: seq<Container>,
    imagePullSecrets: Opaque, nodeSelector: StringMap, tolerations: Opaque, affinity: Opaque, volumes: seq<Volume>)

  datatype Strategy = RollingUpdate(maxUnavailable: Option<string>, maxSurge: Option<string>) | Recreate

  datatype DeploymentSpec = DeploymentSpec(
    replicas: Option<int>, selector: map<string, string>, strategy: Strategy, template: PodTemplate, rest: Opaque)

  datatype ClaimSpec = ClaimSpec(accessModes: seq<string>, storageClassName: Option<string>, storage: Opaque)

  datatype ClaimTemplate = ClaimTemplate(name: string, claim: ClaimSpec)

  datatype StatefulSetSpec = StatefulSetSpec(
    serviceName: string, replicas: Option<int>, selector: map<string, string>, template: PodTemplate,
    claimTemplates: seq<ClaimTemplate>, rest: Opaque)

  datatype IngressRoute = IngressRoute(
    className: Option<string>, host: string, path: string, backendService: string, backendPort: int,
    tls: Option<IngressTls>)
  datatype IngressTls = IngressTls(hosts: seq<string>, secretName: string)

  datatype AutoscalerSpec = AutoscalerSpec(
    targetDeployment: string, minReplicas: int, maxReplicas: int, cpuUtilization: int)

  datatype Kind = SecretKind | ServiceKind | StatefulSetKind | ClaimKind | DeploymentKind | IngressKind
                | AutoscalerKind | WordPressKind

  datatype Key = Key(kind: Kind, ns: string, name: string)

  // An identity is never reused: it records the key and the write to that key which created the object.
  datatype Uid = NoUid | Uid(key: Key, birth: nat)

  datatype Meta = Meta(
    uid: Uid, version: nat, labels: StringMap, annotations: StringMap, controller: Option<Uid>,
    deleting: bool, finalizers: seq<string>)

  datatype Body =
    | SecretBody(data: map<string, string>)
    | ServiceBody(service: ServiceSpec)
    | StatefulSetBody(statefulSet: StatefulSetSpec, readyPods: int)
    | ClaimBody(claim: ClaimSpec)
    | DeploymentBody(deployment: DeploymentSpec, replicas: int, readyReplicas: int)
    | IngressBody(ingress: IngressRoute)
    | AutoscalerBody(autoscaler: AutoscalerSpec)
    | WordPressBody(generation: nat, spec: WordPressSpec, status: WordPressStatus)

  datatype Object = Object(meta: Meta, body: Body)

  // A WordPress resource as read from the API server, together with the key it was read from.
  datatype WordPress = WordPress(key: Key, meta: Meta, generation: nat, spec: WordPressSpec, status: WordPressStatus)

  function KindOf(body: Body): Kind {
    match body
    case SecretBody(_) => SecretKind
    case ServiceBody(_) => ServiceKind
    case StatefulSetBody(_, _) => StatefulSetKind
    case ClaimBody(_) => ClaimKind
    case DeploymentBody(_, _, _) => DeploymentKind
    case IngressBody(_) => IngressKind
    case AutoscalerBody(_) => AutoscalerKind
    case WordPressBody(_, _, _) => WordPressKind
  }
}
