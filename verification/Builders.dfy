/** The builders: what each child of a resource should look like. */
module Builders {
  import opened Types
  import opened Names
  import opened Defaults
  import opened Labels
  import opened Machine

  const KEY_ROOT := "mysql-root-password"
  const KEY_PASSWORD := "wordpress-password"
  const KEY_USER := "wordpress-user"
  const KEY_DATABASE := "wordpress-database"

  /** The random source's answers in one pass; None if it failed. */
  datatype Draw = Draw(root: Option<string>, password: Option<string>)

  /** The quantity parser, as the finite part of it that is used: texts outside the map do not parse. */
  type Quantities = map<string, Opaque>

  function Parse(q: Quantities, text: string): Option<Opaque> {
    if text in q then Some(q[text]) else None
  }

  function Digits(n: nat): string {
    if n < 10 then ['0' + n as char] else Digits(n / 10) + ['0' + (n % 10) as char]
  }

  function Decimal(n: int): string {
    if n < 0 then "-" + Digits(-n) else Digits(n)
  }

  /** The number a sequence of decimal digits denotes. */
  function ReadNumber(text: string): int {
    if text == "" then 0 else 10 * ReadNumber(text[..|text| - 1]) + (text[|text| - 1] as int - '0' as int)
  }

  /** A port is written so that it reads as the same number again. */
  lemma {:induction false} DecimalReads(n: nat)
    ensures ReadNumber(Decimal(n)) == n && |Decimal(n)| > 0
    ensures forall c :: c in Decimal(n) ==> '0' <= c <= '9'
  {
    if n >= 10 {
      DecimalReads(n / 10);
      assert Digits(n)[..|Digits(n)| - 1] == Digits(n / 10);
    }
  }

  function OwnedMeta(wp: WordPress, component: string, annotations: StringMap): Meta {
    Meta(NoUid, 0, Some(CommonLabels(wp.key.name, component)), annotations, Some(wp.meta.uid), false, [])
  }

  function FromSecretVar(name: string, secret: string, key: string): EnvVar {
    EnvVar(name, FromSecret(SecretRef(secret, key)))
  }

  function SecretObject(wp: WordPress, d: Draw): Option<Object> {
    if d.root.None? || d.password.None? then None
    else
      Some(Object(OwnedMeta(wp, MYSQL, None), SecretBody(
        map[KEY_ROOT := d.root.value, KEY_PASSWORD := d.password.value,
            KEY_USER := wp.spec.database.user, KEY_DATABASE := wp.spec.database.name])))
  }

  function HeadlessService(wp: WordPress): Object {
    Object(OwnedMeta(wp, MYSQL, None), ServiceBody(ServiceSpec(
      ClusterIP, "None", "None", SelectorLabels(wp.key.name, MYSQL), [ServicePort("mysql", 3306, 3306, 0)], "")))
  }

  function RootPasswordVar(wp: WordPress, internal: InternalDb): EnvVar {
    match internal.rootPasswordSecret
    case Some(ref) => EnvVar("MYSQL_ROOT_PASSWORD", FromSecret(ref))
    case None => FromSecretVar("MYSQL_ROOT_PASSWORD", SecretNameOf(wp.key.name), KEY_ROOT)
  }

  function DatabaseEnv(wp: WordPress, internal: InternalDb): seq<EnvVar> {
    [RootPasswordVar(wp, internal),
     EnvVar("MYSQL_DATABASE", Literal(wp.spec.database.name)),
     EnvVar("MYSQL_USER", Literal(wp.spec.database.user)),
     FromSecretVar("MYSQL_PASSWORD", SecretNameOf(wp.key.name), KEY_PASSWORD)]
  }

  const PING := RunCommand(["sh", "-c", "mysqladmin ping -h 127.0.0.1 -uroot -p\"$MYSQL_ROOT_PASSWORD\""])

  function DatabaseTemplate(wp: WordPress, internal: InternalDb): PodTemplate {
    PodTemplate(
      CommonLabels(wp.key.name, MYSQL), None, [],
      [Container("mysql", internal.image, internal.imagePullPolicy, [], [ContainerPort("mysql", 3306)],
                 DatabaseEnv(wp, internal), internal.resources, [Mount("data", "/var/lib/mysql")],
                 Probe(PING, 30, 10, 5, 3), Probe(PING, 60, 20, 10, 6))],
      "", internal.nodeSelector, internal.tolerations, internal.affinity, [])
  }

  function StatefulSetObject(wp: WordPress, q: Quantities): Option<Object> {
    // Defaulting has filled the internal section; the zero value stands in for a nil pointer.
    var internal := if wp.spec.database.internal.Some? then wp.spec.database.internal.value else EMPTY_INTERNAL;
    match Parse(q, internal.storageSize)
    case None => None
    case Some(storage) =>
      Some(Object(OwnedMeta(wp, MYSQL, None), StatefulSetBody(StatefulSetSpec(
        DatabaseName(wp.key.name), Some(1), SelectorLabels(wp.key.name, MYSQL), DatabaseTemplate(wp, internal),
        [ClaimTemplate("data", ClaimSpec(["ReadWriteOnce"], internal.storageClassName, storage))], ""), 0)))
  }

  function ClaimObject(wp: WordPress, q: Quantities): Option<Object> {
    match Parse(q, wp.spec.persistence.size)
    case None => None
    case Some(storage) =>
      Some(Object(OwnedMeta(wp, WORDPRESS, None),
                  ClaimBody(ClaimSpec(wp.spec.persistence.accessModes, wp.spec.persistence.storageClassName, storage))))
  }

  function ResolvedPort(wp: WordPress): int {
    if wp.spec.database.mode.External? && wp.spec.database.external.Some? then wp.spec.database.external.value.port
    else 3306
  }

  function PasswordSource(wp: WordPress): SecretRef {
    if wp.spec.database.mode.External? && wp.spec.database.external.Some? then
      wp.spec.database.external.value.passwordSecret
    else if wp.spec.database.mode.External? then SecretRef("", "")
    else SecretRef(SecretNameOf(wp.key.name), KEY_PASSWORD)
  }

  /** The operator's variables first, then the site URL's, then the user's. */
  function OperatorEnv(wp: WordPress): seq<EnvVar> {
    [EnvVar("WORDPRESS_DB_HOST", Literal(ResolvedHost(wp) + ":" + Decimal(ResolvedPort(wp)))),
     EnvVar("WORDPRESS_DB_NAME", Literal(wp.spec.database.name)),
     EnvVar("WORDPRESS_DB_USER", Literal(wp.spec.database.user)),
     EnvVar("WORDPRESS_TABLE_PREFIX", Literal(wp.spec.database.tablePrefix)),
     EnvVar("WORDPRESS_DB_PASSWORD", FromSecret(PasswordSource(wp)))]
    + (if wp.spec.siteUrl != "" then
         [EnvVar("WORDPRESS_HOME", Literal(wp.spec.siteUrl)), EnvVar("WORDPRESS_SITEURL", Literal(wp.spec.siteUrl))]
       else [])
  }

  function SiteEnv(wp: WordPress): seq<EnvVar> { OperatorEnv(wp) + wp.spec.env }

  function WaitHost(wp: WordPress): string { wp.key.name + "-mysql." + wp.key.ns + ".svc" }

  function WaitContainer(wp: WordPress): Container {
    Container("wait-for-db", "busybox:1.36", "IfNotPresent",
              ["sh", "-c",
               "until nc -z -w2 " + WaitHost(wp) + " 3306" + "; do echo 'waiting for mysql'; sleep 3; done"],
              [], [], "", [], NoProbe, NoProbe)
  }

  function SiteTemplate(wp: WordPress): PodTemplate {
    PodTemplate(
      Merged(Some(CommonLabels(wp.key.name, WORDPRESS)), [wp.spec.podLabels]), wp.spec.podAnnotations,
      if wp.spec.database.mode.Internal? then [WaitContainer(wp)] else [],
      [Container("wordpress", wp.spec.image, wp.spec.imagePullPolicy, [], [ContainerPort("http", 80)],
                 SiteEnv(wp), wp.spec.resources, [Mount("wp-content", "/var/www/html")],
                 Probe(HttpGet("/wp-login.php", 80), 20, 10, 5, 6), Probe(TcpSocket(80), 60, 20, 5, 6))],
      wp.spec.imagePullSecrets, wp.spec.nodeSelector, wp.spec.tolerations, wp.spec.affinity,
      [if wp.spec.persistence.enabled then ClaimVolume("wp-content", ContentName(wp.key.name))
       else EmptyDir("wp-content")])
  }

  function DeploymentObject(wp: WordPress): Object {
    Object(OwnedMeta(wp, WORDPRESS, None), DeploymentBody(DeploymentSpec(
      if wp.spec.autoscaling.enabled then None else wp.spec.replicas,
      SelectorLabels(wp.key.name, WORDPRESS), RollingUpdate(wp.spec.maxUnavailable, wp.spec.maxSurge),
      SiteTemplate(wp), ""), 0, 0))
  }

  function SiteServiceObject(wp: WordPress): Object {
    var nodePort :=
      if wp.spec.service.serviceType.NodePort? && wp.spec.service.nodePort > 0 then wp.spec.service.nodePort else 0;
    Object(OwnedMeta(wp, WORDPRESS, wp.spec.service.annotations), ServiceBody(ServiceSpec(
      wp.spec.service.serviceType, "", "", SelectorLabels(wp.key.name, WORDPRESS),
      [ServicePort("http", wp.spec.service.port, 80, nodePort)], "")))
  }

  function IngressObject(wp: WordPress): Object {
    var i := wp.spec.ingress;
    Object(OwnedMeta(wp, WORDPRESS, i.annotations), IngressBody(IngressRoute(
      i.className, i.host, "/", wp.key.name, wp.spec.service.port,
      if i.tlsSecretName != "" && i.host != "" then Some(IngressTls([i.host], i.tlsSecretName)) else None)))
  }

  function AutoscalerObject(wp: WordPress): Object {
    Object(OwnedMeta(wp, WORDPRESS, None), AutoscalerBody(AutoscalerSpec(
      wp.key.name, wp.spec.autoscaling.minReplicas, wp.spec.autoscaling.maxReplicas, wp.spec.autoscaling.targetCpu)))
  }

  function Build(wp: WordPress, c: Child, q: Quantities, d: Draw): Option<Object> {
    match c
    case DbSecret => SecretObject(wp, d)
    case DbService => Some(HeadlessService(wp))
    case DbStatefulSet => StatefulSetObject(wp, q)
    case ContentClaim => ClaimObject(wp, q)
    case Deployment => Some(DeploymentObject(wp))
    case SiteService => Some(SiteServiceObject(wp))
    case SiteIngress => Some(IngressObject(wp))
    case Autoscaler => Some(AutoscalerObject(wp))
  }

  function Builder(q: Quantities, d: Draw): Render {
    (wp: WordPress, c: Child) => Build(wp, c, q, d)
  }

  // ---------------------------------------------------------------- what the builders look at

  /** The same resource, as far as the builders are concerned: key, identity and spec. */
  predicate Alike(wp: WordPress, wp': WordPress) {
    wp.key == wp'.key && wp.meta.uid == wp'.meta.uid && wp.spec == wp'.spec
  }

  lemma TemplatesLookAt(wp: WordPress, wp': WordPress, internal: InternalDb)
    requires Alike(wp, wp')
    ensures SiteTemplate(wp) == SiteTemplate(wp') && DatabaseTemplate(wp, internal) == DatabaseTemplate(wp', internal)
  {
    hide CommonLabels, Merged, Decimal, SecretNameOf, DatabaseName, ContentName;
  }

  /** The builders look at nothing else. */
  lemma BuildLooksAt(wp: WordPress, wp': WordPress, c: Child, q: Quantities, d: Draw)
    requires Alike(wp, wp')
    ensures Build(wp, c, q, d) == Build(wp', c, q, d)
  {
    hide CommonLabels, SelectorLabels, SiteTemplate, DatabaseTemplate, SecretNameOf, DatabaseName, Parse;
    var internal := if wp.spec.database.internal.Some? then wp.spec.database.internal.value else EMPTY_INTERNAL;
    TemplatesLookAt(wp, wp', internal);
  }
}
