/** What defaulting and validation promise to the builders, and how code defaults and schema defaults fit together. */
module Defaulting {
  import opened Types
  import opened Names
  import opened Defaults
  import opened Machine
  import opened Builders

  /** Defaulting a defaulted spec changes nothing. */
  lemma DefaultedTwice(s: WordPressSpec)
    ensures Defaulted(Defaulted(s)) == Defaulted(s)
  {
  }

  // ---------------------------------------------------------------- defaulting only fills

  /** What was given stays; what was left empty becomes the default. */
  ghost predicate TextKept(t: string, t': string, default: string) {
    (t != "" ==> t' == t) && (t == "" ==> t' == default)
  }

  ghost predicate NumberKept(n: int, n': int, default: int) {
    (n != 0 ==> n' == n) && (n == 0 ==> n' == default)
  }

  ghost predicate InternalKept(db: Option<InternalDb>, db': Option<InternalDb>) {
    // An absent section counts as one with every field empty.
    var given := if db.Some? then db.value else InternalDb("", "", "", None, "", None, None, "", "");
    && db'.Some?
    && TextKept(given.image, db'.value.image, "mysql:8.0")
    && TextKept(given.imagePullPolicy, db'.value.imagePullPolicy, "IfNotPresent")
    && TextKept(given.storageSize, db'.value.storageSize, "5Gi")
    && db'.value.storageClassName == given.storageClassName && db'.value.resources == given.resources
    && db'.value.rootPasswordSecret == given.rootPasswordSecret && db'.value.nodeSelector == given.nodeSelector
    && db'.value.tolerations == given.tolerations && db'.value.affinity == given.affinity
  }

  ghost predicate ExternalKept(db: Option<ExternalDb>, db': Option<ExternalDb>) {
    && (db.None? <==> db'.None?)
    && (db.Some? ==>
          && db'.value.host == db.value.host && db'.value.passwordSecret == db.value.passwordSecret
          && NumberKept(db.value.port, db'.value.port, 3306))
  }

  ghost predicate DatabaseKept(db: DatabaseSpec, db': DatabaseSpec) {
    && db'.mode == (if db.mode == NoMode then Internal else db.mode)
    && TextKept(db.name, db'.name, "wordpress") && TextKept(db.user, db'.user, "wordpress")
    && TextKept(db.tablePrefix, db'.tablePrefix, "wp_")
    && (if db'.mode == Internal then InternalKept(db.internal, db'.internal) else db'.internal == db.internal)
    && (if db'.mode == External then ExternalKept(db.external, db'.external) else db'.external == db.external)
  }

  /** Defaulting never overrides a choice of the user: field by field, what was given is kept, and only what was left
      empty becomes the documented default -- and only in the sections that are in use. */
  lemma DefaultingOnlyFills(s: WordPressSpec)
    ensures
      var s' := Defaulted(s);
      && TextKept(s.image, s'.image, "wordpress:6.5-apache")
      && TextKept(s.imagePullPolicy, s'.imagePullPolicy, "IfNotPresent")
      && (s.replicas.Some? ==> s'.replicas == s.replicas) && (s.replicas.None? ==> s'.replicas == Some(1))
      && s'.service.serviceType ==
         (if s.service.serviceType == NoServiceType then ClusterIP else s.service.serviceType)
      && NumberKept(s.service.port, s'.service.port, 80)
      && s'.service.nodePort == s.service.nodePort && s'.service.annotations == s.service.annotations
      && s'.persistence.enabled == s.persistence.enabled
      && s'.persistence.storageClassName == s.persistence.storageClassName
      && TextKept(s.persistence.size, s'.persistence.size, "5Gi")
      && s'.persistence.accessModes ==
         (if |s.persistence.accessModes| == 0 then ["ReadWriteOnce"] else s.persistence.accessModes)
      && DatabaseKept(s.database, s'.database)
      && s'.autoscaling.enabled == s.autoscaling.enabled
      && (s.autoscaling.enabled ==>
            && NumberKept(s.autoscaling.minReplicas, s'.autoscaling.minReplicas, 1)
            && NumberKept(s.autoscaling.maxReplicas, s'.autoscaling.maxReplicas, 5)
            && NumberKept(s.autoscaling.targetCpu, s'.autoscaling.targetCpu, 80))
      && (!s.autoscaling.enabled ==> s'.autoscaling == s.autoscaling)
    ensures
      var s' := Defaulted(s);
      && s'.imagePullSecrets == s.imagePullSecrets && s'.resources == s.resources && s'.siteUrl == s.siteUrl
      && s'.env == s.env && s'.ingress == s.ingress && s'.podAnnotations == s.podAnnotations
      && s'.podLabels == s.podLabels && s'.nodeSelector == s.nodeSelector && s'.tolerations == s.tolerations
      && s'.affinity == s.affinity && s'.maxUnavailable == s.maxUnavailable && s'.maxSurge == s.maxSurge
  {
  }

  // ---------------------------------------------------------------- validation

  /** What the two modes need from the user. */
  predicate Usable(db: DatabaseSpec) {
    || db.mode in {NoMode, Internal}
    || (db.mode == External && db.external.Some? && db.external.value.host != ""
        && db.external.value.passwordSecret.name != "" && db.external.value.passwordSecret.key != "")
  }

  predicate BoundsCross(a: AutoscalingSpec) {
    a.enabled && (if a.maxReplicas == 0 then 5 else a.maxReplicas) < (if a.minReplicas == 0 then 1 else a.minReplicas)
  }

  /** A spec as the user wrote it survives validation exactly if its database section is usable, its replica bounds do
      not cross once they are filled in, and an enabled Ingress has a host. */
  lemma ValidExactlyIf(s: WordPressSpec)
    ensures Validate(Defaulted(s)).None? <==>
            Usable(s.database) && !BoundsCross(s.autoscaling) && (s.ingress.enabled ==> s.ingress.host != "")
  {
  }

  /** The complaint names the first thing that is wrong with the spec as the user wrote it. */
  lemma RejectedExactlyFor(s: WordPressSpec, why: SpecError)
    ensures
      var db := s.database;
      Validate(Defaulted(s)) == Some(why) <==>
      match why
      case ExternalUnset => db.mode == External && db.external == None
      case HostUnset => db.mode == External && db.external.Some? && db.external.value.host == ""
      case PasswordSecretUnset =>
        && db.mode == External && db.external.Some? && db.external.value.host != ""
        && (db.external.value.passwordSecret.name == "" || db.external.value.passwordSecret.key == "")
      case UnsupportedMode(mode) => db.mode == mode && mode !in {NoMode, Internal, External}
      case ReplicaBoundsCrossed => Usable(db) && BoundsCross(s.autoscaling)
      case IngressHostUnset =>
        Usable(db) && !BoundsCross(s.autoscaling) && s.ingress.enabled && s.ingress.host == ""
  {
  }

  /** A spec that passed gives every builder what it dereferences and the autoscaler sensible bounds. No builder fails
      for want of anything but random bytes or a quantity that does not parse. */
  lemma ValidSpecsBuild(wp: WordPress, spec: WordPressSpec, q: Quantities, d: Draw, c: Child)
    requires wp.spec == Defaulted(spec) && Validate(wp.spec).None? && Wanted(wp.spec, c)
    ensures wp.spec.database.mode.Internal? ==> wp.spec.database.internal.Some?
    ensures wp.spec.database.mode.External? ==> wp.spec.database.external.Some?
    ensures wp.spec.database.mode.Internal? || wp.spec.database.mode.External?
    ensures wp.spec.replicas.Some? && wp.spec.persistence.accessModes != []
    ensures wp.spec.autoscaling.enabled ==>
              wp.spec.autoscaling.minReplicas != 0 &&
              wp.spec.autoscaling.minReplicas <= wp.spec.autoscaling.maxReplicas
    ensures Build(wp, c, q, d).Some? <==>
            && (c.DbSecret? ==> d.root.Some? && d.password.Some?)
            && (c.DbStatefulSet? ==> wp.spec.database.internal.value.storageSize in q)
            && (c.ContentClaim? ==> wp.spec.persistence.size in q)
  {
  }

  // ---------------------------------------------------------------- schema defaults

  ghost predicate TextFilled(t: string, t': string, d: string) { t' == t || (t == "" && t' == d) }

  ghost predicate NumberFilled(n: int, n': int, d: int) { n' == n || (n == 0 && n' == d) }

  ghost predicate InternalFilled(db: InternalDb, db': InternalDb) {
    && db' == db.(image := db'.image, imagePullPolicy := db'.imagePullPolicy, storageSize := db'.storageSize)
    && TextFilled(db.image, db'.image, "mysql:8.0")
    && TextFilled(db.imagePullPolicy, db'.imagePullPolicy, "IfNotPresent")
    && TextFilled(db.storageSize, db'.storageSize, "5Gi")
  }

  ghost predicate DatabaseFilled(db: DatabaseSpec, db': DatabaseSpec) {
    && (db'.mode == db.mode || (db.mode.NoMode? && db'.mode.Internal?))
    && TextFilled(db.name, db'.name, "wordpress") && TextFilled(db.user, db'.user, "wordpress")
    && TextFilled(db.tablePrefix, db'.tablePrefix, "wp_")
    && (match (db.internal, db'.internal)
        case (None, None) => true
        case (Some(i), Some(i')) => InternalFilled(i, i')
        case _ => false)
    && (match (db.external, db'.external)
        case (None, None) => true
        case (Some(e), Some(e')) => e' == e.(port := e'.port) && NumberFilled(e.port, e'.port, 3306)
        case _ => false)
  }

  ghost predicate AutoscalingFilled(a: AutoscalingSpec, a': AutoscalingSpec) {
    && a'.enabled == a.enabled && NumberFilled(a.minReplicas, a'.minReplicas, 1)
    && NumberFilled(a.maxReplicas, a'.maxReplicas, 5) && NumberFilled(a.targetCpu, a'.targetCpu, 80)
  }

  /** `s'` is `s` after the API server filled in any selection of the schema's defaults, other than the one that turns
      persistence on. */
  ghost predicate Filled(s: WordPressSpec, s': WordPressSpec) {
    && s' == s.(image := s'.image, imagePullPolicy := s'.imagePullPolicy, replicas := s'.replicas,
                service := s.service.(serviceType := s'.service.serviceType, port := s'.service.port),
                persistence := s.persistence.(size := s'.persistence.size),
                database := s'.database, autoscaling := s'.autoscaling)
    && TextFilled(s.image, s'.image, "wordpress:6.5-apache")
    && TextFilled(s.imagePullPolicy, s'.imagePullPolicy, "IfNotPresent")
    && (s'.replicas == s.replicas || (s.replicas.None? && s'.replicas == Some(1)))
    && (s'.service.serviceType == s.service.serviceType ||
        (s.service.serviceType.NoServiceType? && s'.service.serviceType.ClusterIP?))
    && NumberFilled(s.service.port, s'.service.port, 80)
    && TextFilled(s.persistence.size, s'.persistence.size, "5Gi")
    && DatabaseFilled(s.database, s'.database) && AutoscalingFilled(s.autoscaling, s'.autoscaling)
  }

  /** The two specs differ at most in sections that nobody reads: the internal section in External mode, the external
      port in Internal mode, the bounds of an autoscaler that is switched off. */
  ghost predicate SameWhereItMatters(s: WordPressSpec, s': WordPressSpec) {
    && s' == s.(database := s'.database, autoscaling := s'.autoscaling)
    && s'.autoscaling.enabled == s.autoscaling.enabled && (s.autoscaling.enabled ==> s'.autoscaling == s.autoscaling)
    && s'.database == s.database.(internal := s'.database.internal, external := s'.database.external)
    && (!s.database.mode.External? ==> s'.database.internal == s.database.internal)
    && (s.database.mode.External? ==> s'.database.external == s.database.external)
  }

  lemma FilledSame(s: WordPressSpec, s': WordPressSpec)
    requires Filled(s, s') && s.database.mode in {NoMode, Internal, External}
    ensures SameWhereItMatters(Defaulted(s), Defaulted(s'))
  {
  }

  lemma SameBuilds(wp: WordPress, spec': WordPressSpec, q: Quantities, d: Draw, c: Child)
    requires SameWhereItMatters(wp.spec, spec')
    ensures Wanted(spec', c) <==> Wanted(wp.spec, c)
    ensures Wanted(wp.spec, c) && (wp.spec.database.mode.Internal? || wp.spec.database.mode.External?) ==>
              Build(wp.(spec := spec'), c, q, d) == Build(wp, c, q, d)
  {
  }

  lemma SameVerdict(s: WordPressSpec, s': WordPressSpec)
    requires SameWhereItMatters(s, s')
    ensures Validate(s') == Validate(s) && ComputeUrl(s') == ComputeUrl(s)
  {
  }

  /** Code defaulting alone gives the same verdict and the same children as schema defaulting followed by code
      defaulting, whichever of the schema's defaults were applied -- as long as the mode is one the schema admits and
      persistence is not switched on by the schema. */
  lemma SchemaDefaultsChangeNothing(wp: WordPress, s: WordPressSpec, s': WordPressSpec, q: Quantities, d: Draw,
                                    c: Child)
    requires Filled(s, s') && s.database.mode in {NoMode, Internal, External}
    ensures Validate(Defaulted(s')) == Validate(Defaulted(s))
    ensures ComputeUrl(Defaulted(s')) == ComputeUrl(Defaulted(s))
    ensures Wanted(Defaulted(s'), c) <==> Wanted(Defaulted(s), c)
    ensures Wanted(Defaulted(s), c) ==>
              Build(wp.(spec := Defaulted(s')), c, q, d) == Build(wp.(spec := Defaulted(s)), c, q, d)
  {
    hide Defaulted, Validate, ComputeUrl, Filled, Build, Wanted, SameWhereItMatters;
    FilledSame(s, s');
    SameVerdict(Defaulted(s), Defaulted(s'));
    DefaultedMode(s);
    SameBuilds(wp.(spec := Defaulted(s)), Defaulted(s'), q, d, c);
    assert wp.(spec := Defaulted(s)).(spec := Defaulted(s')) == wp.(spec := Defaulted(s'));
  }

  lemma DefaultedMode(s: WordPressSpec)
    ensures Defaulted(s).database.mode == if s.database.mode.NoMode? then Internal else s.database.mode
  {
  }

  /** The exception is real: if the schema switches persistence on, one more child is wanted. */
  lemma SchemaPersistenceMatters(s: WordPressSpec)
    requires !s.persistence.enabled
    ensures !Wanted(Defaulted(s), ContentClaim)
    ensures Wanted(Defaulted(s.(persistence := s.persistence.(enabled := true))), ContentClaim)
  {
  }
}
