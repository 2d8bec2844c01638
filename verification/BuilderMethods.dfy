/** The builders that assemble their object step by step, against the functions of Builders.dfy. */
module BuilderMethods {
  import opened Types
  import opened Names
  import opened Labels
  import opened Machine
  import opened Builders

  /** `buildWordPressDeployment`: lists grow by appending, and the replica count is dropped last. */
  method BuildDeployment(wp: WordPress, dbHost: string, dbPort: int, dbEnv: seq<EnvVar>) returns (o: Object)
    requires dbHost == ResolvedHost(wp) && dbPort == ResolvedPort(wp)
    requires dbEnv == [EnvVar("WORDPRESS_DB_PASSWORD", FromSecret(PasswordSource(wp)))]
    ensures o == DeploymentObject(wp)
  {
    hide CommonLabels, SelectorLabels, Decimal, ResolvedHost, ResolvedPort, PasswordSource, Merged;
    var envs := [EnvVar("WORDPRESS_DB_HOST", Literal(dbHost + ":" + Decimal(dbPort))),
                 EnvVar("WORDPRESS_DB_NAME", Literal(wp.spec.database.name)),
                 EnvVar("WORDPRESS_DB_USER", Literal(wp.spec.database.user)),
                 EnvVar("WORDPRESS_TABLE_PREFIX", Literal(wp.spec.database.tablePrefix))];
    envs := envs + dbEnv;
    if wp.spec.siteUrl != "" {
      envs := envs + [EnvVar("WORDPRESS_HOME", Literal(wp.spec.siteUrl)),
                      EnvVar("WORDPRESS_SITEURL", Literal(wp.spec.siteUrl))];
    }
    envs := envs + wp.spec.env;
    assert envs == SiteEnv(wp);

    var volumes := [];
    if wp.spec.persistence.enabled {
      volumes := volumes + [ClaimVolume("wp-content", ContentName(wp.key.name))];
    } else {
      volumes := volumes + [EmptyDir("wp-content")];
    }
    o := AssembleDeployment(wp, envs, volumes);
    if wp.spec.autoscaling.enabled {
      o := o.(body := o.body.(deployment := o.body.deployment.(replicas := None)));
    }
  }

  method AssembleDeployment(wp: WordPress, envs: seq<EnvVar>, volumes: seq<Volume>) returns (o: Object)
    requires envs == SiteEnv(wp)
    requires volumes == [if wp.spec.persistence.enabled then ClaimVolume("wp-content", ContentName(wp.key.name))
                         else EmptyDir("wp-content")]
    ensures o.body.DeploymentBody?
    ensures o == DeploymentObject(wp).(body := DeploymentObject(wp).body.(
                   deployment := DeploymentObject(wp).body.deployment.(replicas := wp.spec.replicas)))
  {
    hide CommonLabels, SelectorLabels, SiteEnv, ContentName, WaitContainer;
    var labels := CommonLabels(wp.key.name, WORDPRESS);
    var podLabels := MergeStringMaps(Some(labels), [wp.spec.podLabels]);
    var initContainers := [];
    if wp.spec.database.mode == Internal { initContainers := [WaitContainer(wp)]; }
    var site := Container("wordpress", wp.spec.image, wp.spec.imagePullPolicy, [], [ContainerPort("http", 80)],
                          envs, wp.spec.resources, [Mount("wp-content", "/var/www/html")],
                          Probe(HttpGet("/wp-login.php", 80), 20, 10, 5, 6), Probe(TcpSocket(80), 60, 20, 5, 6));
    var template := PodTemplate(podLabels, wp.spec.podAnnotations, initContainers, [site], wp.spec.imagePullSecrets,
                                wp.spec.nodeSelector, wp.spec.tolerations, wp.spec.affinity, volumes);
    assert template == SiteTemplate(wp);
    o := Object(OwnedMeta(wp, WORDPRESS, None), DeploymentBody(DeploymentSpec(
           wp.spec.replicas, SelectorLabels(wp.key.name, WORDPRESS),
           RollingUpdate(wp.spec.maxUnavailable, wp.spec.maxSurge), template, ""), 0, 0));
  }

  /** `buildWordPressService`: the node port is set on the port that is already in the list. */
  method BuildService(wp: WordPress) returns (o: Object)
    ensures o == SiteServiceObject(wp)
  {
    hide CommonLabels, SelectorLabels;
    var ports := [ServicePort("http", wp.spec.service.port, 80, 0)];
    if wp.spec.service.serviceType == NodePort && wp.spec.service.nodePort > 0 {
      ports := ports[0 := ports[0].(nodePort := wp.spec.service.nodePort)];
    }
    assert ports == SiteServiceObject(wp).body.service.ports;
    o := Object(OwnedMeta(wp, WORDPRESS, wp.spec.service.annotations), ServiceBody(ServiceSpec(
           wp.spec.service.serviceType, "", "", SelectorLabels(wp.key.name, WORDPRESS), ports, "")));
  }

  /** `buildWordPressIngress`: TLS is added after the object was put together. */
  method BuildIngress(wp: WordPress) returns (o: Object)
    ensures o == IngressObject(wp)
  {
    hide CommonLabels;
    var route := IngressRoute(wp.spec.ingress.className, wp.spec.ingress.host, "/", wp.key.name, wp.spec.service.port,
                              None);
    if wp.spec.ingress.tlsSecretName != "" && wp.spec.ingress.host != "" {
      route := route.(tls := Some(IngressTls([wp.spec.ingress.host], wp.spec.ingress.tlsSecretName)));
    }
    o := Object(OwnedMeta(wp, WORDPRESS, wp.spec.ingress.annotations), IngressBody(route));
  }

  /** `buildMySQLStatefulSet`: the root password comes from the generated Secret until the spec names another. */
  method BuildStatefulSet(wp: WordPress, q: Quantities) returns (o: Option<Object>)
    requires wp.spec.database.internal.Some?
    ensures o == StatefulSetObject(wp, q)
  {
    hide CommonLabels, SelectorLabels, SecretNameOf, DatabaseName;
    var internal := wp.spec.database.internal.value;
    if internal.storageSize !in q { return None; }
    var rootPassword := EnvVar("MYSQL_ROOT_PASSWORD", FromSecret(SecretRef(SecretNameOf(wp.key.name), KEY_ROOT)));
    if internal.rootPasswordSecret.Some? {
      rootPassword := rootPassword.(source := FromSecret(internal.rootPasswordSecret.value));
    }
    var envs := [rootPassword,
                 EnvVar("MYSQL_DATABASE", Literal(wp.spec.database.name)),
                 EnvVar("MYSQL_USER", Literal(wp.spec.database.user)),
                 EnvVar("MYSQL_PASSWORD", FromSecret(SecretRef(SecretNameOf(wp.key.name), KEY_PASSWORD)))];
    assert envs == DatabaseEnv(wp, internal);
    var template := DatabaseTemplate(wp, internal);
    o := Some(Object(OwnedMeta(wp, MYSQL, None), StatefulSetBody(StatefulSetSpec(
           DatabaseName(wp.key.name), Some(1), SelectorLabels(wp.key.name, MYSQL),
           template.(containers := [template.containers[0].(env := envs)]),
           [ClaimTemplate("data", ClaimSpec(["ReadWriteOnce"], internal.storageClassName, q[internal.storageSize]))],
           ""), 0)));
  }
}
