/**
 What an update of an existing object replaces, and when an update is sent at all.

 The reconcile helpers copy the object they read, overwrite the fields the operator manages, and send the copy only if
 it differs from what was read.  Each helper compares just the fields it is about to overwrite.
 */
module Drift {
  import opened Types

  /** The copy to send: what was read, with the managed fields replaced. Secrets and claims are never updated. */
  function Merge(found: Object, desired: Object): Object {
    match (found.body, desired.body)
    case (ServiceBody(f), ServiceBody(d)) =>
      Object(found.meta.(labels := desired.meta.labels, annotations := desired.meta.annotations),
             ServiceBody(f.(serviceType := d.serviceType, selector := d.selector,
                            sessionAffinity := d.sessionAffinity, ports := d.ports)))
    case (StatefulSetBody(f, ready), StatefulSetBody(d, _)) =>
      found.(body := StatefulSetBody(f.(replicas := d.replicas, template := d.template), ready))
    case (DeploymentBody(f, n, ready), DeploymentBody(d, _, _)) =>
      Object(found.meta.(labels := desired.meta.labels),
             DeploymentBody(f.(replicas := d.replicas, strategy := d.strategy, template := d.template), n, ready))
    case (IngressBody(_), IngressBody(d)) =>
      Object(found.meta.(labels := desired.meta.labels, annotations := desired.meta.annotations), IngressBody(d))
    case (AutoscalerBody(_), AutoscalerBody(d)) =>
      Object(found.meta.(labels := desired.meta.labels), AutoscalerBody(d))
    case _ => found
  }

  predicate DeploymentEqual(found: Object, patch: Object)
    requires found.body.DeploymentBody? && patch.body.DeploymentBody?
  {
    && found.meta.labels == patch.meta.labels
    && found.body.deployment.replicas == patch.body.deployment.replicas
    && found.body.deployment.strategy == patch.body.deployment.strategy
    && found.body.deployment.template == patch.body.deployment.template
  }

  /** The comparison each helper makes before it sends the patch. */
  predicate NeedsUpdate(found: Object, patch: Object) {
    match (found.body, patch.body)
    case (ServiceBody(f), ServiceBody(p)) =>
      f != p || found.meta.labels != patch.meta.labels || found.meta.annotations != patch.meta.annotations
    case (StatefulSetBody(f, _), StatefulSetBody(p, _)) => f.template != p.template || f.replicas != p.replicas
    case (DeploymentBody(_, _, _), DeploymentBody(_, _, _)) => !DeploymentEqual(found, patch)
    case (IngressBody(f), IngressBody(p)) =>
      f != p || found.meta.labels != patch.meta.labels || found.meta.annotations != patch.meta.annotations
    case (AutoscalerBody(f), AutoscalerBody(p)) => f != p || found.meta.labels != patch.meta.labels
    case _ => false
  }

  /** The managed fields of `o`, one by one, have the values the builder asks for. */
  ghost predicate Agrees(o: Object, desired: Object) {
    match (o.body, desired.body)
    case (ServiceBody(f), ServiceBody(d)) =>
      && o.meta.labels == desired.meta.labels && o.meta.annotations == desired.meta.annotations
      && f.serviceType == d.serviceType && f.selector == d.selector && f.sessionAffinity == d.sessionAffinity
      && f.ports == d.ports
    case (StatefulSetBody(f, _), StatefulSetBody(d, _)) => f.replicas == d.replicas && f.template == d.template
    case (DeploymentBody(f, _, _), DeploymentBody(d, _, _)) =>
      && o.meta.labels == desired.meta.labels
      && f.replicas == d.replicas && f.strategy == d.strategy && f.template == d.template
    case (IngressBody(f), IngressBody(d)) =>
      o.meta.labels == desired.meta.labels && o.meta.annotations == desired.meta.annotations && f == d
    case (AutoscalerBody(f), AutoscalerBody(d)) => o.meta.labels == desired.meta.labels && f == d
    case _ => KindOf(o.body) == KindOf(desired.body)
  }

  /** Everything the operator must leave alone is the same in both: identity, ownership, finalizers, status, and the
      fields of the spec it does not manage. */
  ghost predicate SameUnmanaged(o: Object, o': Object) {
    && o'.meta == o.meta.(labels := o'.meta.labels, annotations := o'.meta.annotations)
    && match (o.body, o'.body)
       case (ServiceBody(f), ServiceBody(f')) => f'.clusterIp == f.clusterIp && f'.rest == f.rest
       case (StatefulSetBody(f, ready), StatefulSetBody(f', ready')) =>
         && o'.meta == o.meta && ready' == ready && f'.serviceName == f.serviceName && f'.selector == f.selector
         && f'.claimTemplates == f.claimTemplates && f'.rest == f.rest
       case (DeploymentBody(f, n, ready), DeploymentBody(f', n', ready')) =>
         && o'.meta.annotations == o.meta.annotations && n' == n && ready' == ready
         && f'.selector == f.selector && f'.rest == f.rest
       case (IngressBody(_), IngressBody(_)) => true
       case (AutoscalerBody(_), AutoscalerBody(_)) => o'.meta.annotations == o.meta.annotations
       case _ => o' == o
  }

  /** The patch agrees with the builder on every managed field, keeps everything else, and is sent exactly when the
      object read does not agree already. */
  lemma MergeMeetsDesired(found: Object, desired: Object)
    requires KindOf(found.body) == KindOf(desired.body)
    ensures Agrees(Merge(found, desired), desired)
    ensures SameUnmanaged(found, Merge(found, desired))
    ensures NeedsUpdate(found, Merge(found, desired)) <==> !Agrees(found, desired)
    ensures Agrees(found, desired) <==> Merge(found, desired) == found
  {
  }

  /** The patch is the only object that agrees with the builder and keeps the rest. */
  lemma MergeIsUnique(found: Object, desired: Object, o: Object)
    requires KindOf(found.body) == KindOf(desired.body) && SameUnmanaged(found, o) && Agrees(o, desired)
    ensures o == Merge(found, desired)
  {
  }
}
