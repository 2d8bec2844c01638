/** Defaulting and validation of a spec: `applyDefaults`, `validateSpec` and `computeURL`. */
module Defaults {
  import opened Types

  function Or(text: string, default: string): string { if text == "" then default else text }
  function OrNumber(n: int, default: int): int { if n == 0 then default else n }

  function DefaultInternal(db: InternalDb): InternalDb {
    db.(image := Or(db.image, "mysql:8.0"),
        imagePullPolicy := Or(db.imagePullPolicy, "IfNotPresent"),
        storageSize := Or(db.storageSize, "5Gi"))
  }

  const EMPTY_INTERNAL := InternalDb("", "", "", None, "", None, None, "", "")

  function DefaultDatabase(db: DatabaseSpec): DatabaseSpec {
    var mode := if db.mode.NoMode? then Internal else db.mode;
    DatabaseSpec(
      mode, Or(db.name, "wordpress"), Or(db.user, "wordpress"), Or(db.tablePrefix, "wp_"),
      if mode.Internal? then
        Some(DefaultInternal(if db.internal.Some? then db.internal.value else EMPTY_INTERNAL))
      else db.internal,
      if mode.External? && db.external.Some? then
        Some(db.external.value.(port := OrNumber(db.external.value.port, 3306)))
      else db.external)
  }

  function DefaultAutoscaling(a: AutoscalingSpec): AutoscalingSpec {
    if a.enabled then
      AutoscalingSpec(true, OrNumber(a.minReplicas, 1), OrNumber(a.maxReplicas, 5), OrNumber(a.targetCpu, 80))
    else a
  }

  function Defaulted(s: WordPressSpec): WordPressSpec {
    s.(image := Or(s.image, "wordpress:6.5-apache"),
       imagePullPolicy := Or(s.imagePullPolicy, "IfNotPresent"),
       replicas := if s.replicas.None? then Some(1) else s.replicas,
       service := s.service.(
         serviceType := if s.service.serviceType.NoServiceType? then ClusterIP else s.service.serviceType,
         port := OrNumber(s.service.port, 80)),
       persistence := s.persistence.(
         size := Or(s.persistence.size, "5Gi"),
         accessModes := if s.persistence.accessModes == [] then ["ReadWriteOnce"] else s.persistence.accessModes),
       database := DefaultDatabase(s.database),
       autoscaling := DefaultAutoscaling(s.autoscaling))
  }

  function Validate(s: WordPressSpec): Option<SpecError> {
    var db := s.database;
    if db.mode.External? && db.external.None? then Some(ExternalUnset)
    else if db.mode.External? && db.external.value.host == "" then Some(HostUnset)
    else if db.mode.External?
            && (db.external.value.passwordSecret.name == "" || db.external.value.passwordSecret.key == "") then
      Some(PasswordSecretUnset)
    else if !db.mode.External? && !db.mode.Internal? then Some(UnsupportedMode(db.mode))
    else if s.autoscaling.enabled && s.autoscaling.maxReplicas < s.autoscaling.minReplicas then
      Some(ReplicaBoundsCrossed)
    else if s.ingress.enabled && s.ingress.host == "" then Some(IngressHostUnset)
    else None
  }

  function ComputeUrl(s: WordPressSpec): string {
    if s.siteUrl != "" then s.siteUrl
    else if s.ingress.enabled && s.ingress.host != "" then
      (if s.ingress.tlsSecretName != "" then "https" else "http") + "://" + s.ingress.host
    else ""
  }
}
