/** Names, keys and labels of everything that belongs to one WordPress resource. */
module Names {
  import opened Types

  const FINALIZER := "wordpresses.apps.kubesphere.ai/finalizer"
  const RETAIN_DATA := "wordpresses.apps.kubesphere.ai/retain-data"

  /** The objects one resource may own, in the order in which a pass visits them. */
  datatype Child = DbSecret | DbService | DbStatefulSet | ContentClaim | Deployment | SiteService | SiteIngress
                 | Autoscaler

  function Nth(n: nat): Child
    requires n < 8
  {
    [DbSecret, DbService, DbStatefulSet, ContentClaim, Deployment, SiteService, SiteIngress, Autoscaler][n]
  }

  function Order(c: Child): (n: nat)
    ensures n < 8 && Nth(n) == c
  {
    match c
    case DbSecret => 0
    case DbService => 1
    case DbStatefulSet => 2
    case ContentClaim => 3
    case Deployment => 4
    case SiteService => 5
    case SiteIngress => 6
    case Autoscaler => 7
  }

  /** The next child in a pass, if there is one. */
  function Following(c: Child): Child {
    match c
    case DbSecret => DbService
    case DbService => DbStatefulSet
    case DbStatefulSet => ContentClaim
    case ContentClaim => Deployment
    case Deployment => SiteService
    case SiteService => SiteIngress
    case SiteIngress => Autoscaler
    case Autoscaler => Autoscaler
  }

  function DatabaseName(name: string): string { name + "-mysql" }
  function SecretNameOf(name: string): string { name + "-mysql-credentials" }
  function ContentName(name: string): string { name + "-content" }
  function AutoscalerName(name: string): string { name + "-hpa" }
  /** The claim Kubernetes creates from the StatefulSet's claim template `data` for its only pod. */
  function DataName(name: string): string { "data-" + DatabaseName(name) + "-0" }

  function ChildKey(c: Child, cr: Key): Key {
    match c
    case DbSecret => Key(SecretKind, cr.ns, SecretNameOf(cr.name))
    case DbService => Key(ServiceKind, cr.ns, DatabaseName(cr.name))
    case DbStatefulSet => Key(StatefulSetKind, cr.ns, DatabaseName(cr.name))
    case ContentClaim => Key(ClaimKind, cr.ns, ContentName(cr.name))
    case Deployment => Key(DeploymentKind, cr.ns, cr.name)
    case SiteService => Key(ServiceKind, cr.ns, cr.name)
    case SiteIngress => Key(IngressKind, cr.ns, cr.name)
    case Autoscaler => Key(AutoscalerKind, cr.ns, AutoscalerName(cr.name))
  }

  function DataKey(cr: Key): Key { Key(ClaimKind, cr.ns, DataName(cr.name)) }

  /** Every key a pass for `cr` may write. */
  ghost predicate MayWrite(cr: Key, k: Key) {
    k == cr || k == DataKey(cr) || exists c :: k == ChildKey(c, cr)
  }
}
