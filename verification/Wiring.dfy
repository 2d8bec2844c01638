/** The objects a pass builds fit together: names, secret keys, hosts, ports and selectors agree across builders. */
module Wiring {
  import opened Types
  import opened Names
  import opened Labels
  import opened Defaults
  import opened Machine
  import opened System
  import opened Closure
  import opened Builders

  // ---------------------------------------------------------------- the builders meet the machine's assumptions

  lemma BuilderIsSound(q: Quantities, d: Draw)
    ensures Sound(Builder(q, d))
  {
    hide CommonLabels, SelectorLabels, DatabaseTemplate, SiteTemplate;
    forall wp, c
      ensures
        match Builder(q, d)(wp, c)
        case None => c.DbSecret? || c.DbStatefulSet? || c.ContentClaim?
        case Some(o) =>
          && KindOf(o.body) == ChildKey(c, wp.key).kind && o.meta.controller == Some(wp.meta.uid)
          && !o.meta.deleting && o.meta.finalizers == []
    {
    }
  }

  lemma {:induction false} FirstPasswordVariable(env: seq<EnvVar>, ns: string, i: nat)
    requires i < |env| && env[i].name in PASSWORD_VARIABLES && env[i].source.FromSecret?
    requires forall j :: 0 <= j < i ==> env[j].name !in PASSWORD_VARIABLES
    ensures PasswordRefs(env, ns) == {Key(SecretKind, ns, env[i].source.ref.name)}
  {
    if i > 0 { FirstPasswordVariable(env[1..], ns, i - 1); }
  }

  lemma DatabasePasswordRefs(wp: WordPress, internal: InternalDb)
    ensures PasswordRefs(DatabaseEnv(wp, internal), wp.key.ns) == {ChildKey(DbSecret, wp.key)}
  {
    hide SecretNameOf;
    var env := DatabaseEnv(wp, internal);
    assert |env[0].name| == 19 && |env[1].name| == 14 && |env[2].name| == 10 && env[1].name[6] == 'D';
    FirstPasswordVariable(env, wp.key.ns, 3);
  }

  lemma SitePasswordRefs(wp: WordPress)
    ensures PasswordRefs(SiteEnv(wp), wp.key.ns) == {Key(SecretKind, wp.key.ns, PasswordSource(wp).name)}
  {
    hide SecretNameOf, ResolvedHost, Decimal;
    var env := SiteEnv(wp);
    assert |env[0].name| == 17 && |env[1].name| == 17 && |env[2].name| == 17 && |env[3].name| == 22;
    assert env[4].name == PASSWORD_VARIABLES[0];
    FirstPasswordVariable(env, wp.key.ns, 4);
  }

  lemma BuilderIsLinked(q: Quantities, d: Draw)
    ensures Linked(Builder(q, d))
  {
    forall wp, c | Builder(q, d)(wp, c).Some?
      ensures References(Builder(q, d)(wp, c).value.body, wp.key) <= MayReferTo(wp, c)
    {
      BuildRefersExactly(wp, c, q, d);
    }
  }

  /** A built object refers to all it should and to nothing else: the StatefulSet to the headless Service and the
      generated Secret, the Deployment to the password Secret of its mode and, if there is one, to the content claim,
      the Ingress to the Service, the autoscaler to the Deployment. */
  lemma BuildRefersExactly(wp: WordPress, c: Child, q: Quantities, d: Draw)
    ensures Build(wp, c, q, d).Some? ==> References(Build(wp, c, q, d).value.body, wp.key) == MayReferTo(wp, c)
  {
    hide CommonLabels, SelectorLabels, DatabaseTemplate, SiteTemplate, SecretNameOf, DatabaseName, ContentName,
      TemplateRefs, GeneratedRefs, PasswordKey;
    var internal := if wp.spec.database.internal.Some? then wp.spec.database.internal.value else EMPTY_INTERNAL;
    match c
    case DbStatefulSet => DatabaseTemplateRefs(wp, internal);
    case Deployment => SiteTemplateRefs(wp);
    case _ =>
  }

  lemma DatabaseTemplateRefs(wp: WordPress, internal: InternalDb)
    ensures TemplateRefs(DatabaseTemplate(wp, internal), wp.key.ns) == {ChildKey(DbSecret, wp.key)}
    ensures GeneratedRefs(DatabaseTemplate(wp, internal), wp.key) == {ChildKey(DbSecret, wp.key)}
  {
    hide CommonLabels, SecretNameOf, PasswordRefs;
    DatabasePasswordRefs(wp, internal);
    var t := DatabaseTemplate(wp, internal);
    assert t.containers[0] in t.containers && t.containers[0].env[3] in t.containers[0].env;
  }

  lemma SiteTemplateRefs(wp: WordPress)
    ensures TemplateRefs(SiteTemplate(wp), wp.key.ns) ==
            (if wp.spec.persistence.enabled then {ChildKey(ContentClaim, wp.key)} else {}) + {PasswordKey(wp)}
  {
    hide CommonLabels, SiteEnv, SecretNameOf, ContentName, Merged, PasswordRefs;
    SitePasswordRefs(wp);
  }

  // ---------------------------------------------------------------- client and server agree

  /** The value a container sees for a variable: the last one given wins. */
  function Lookup(env: seq<EnvVar>, name: string): Option<EnvSource> {
    if env == [] then None
    else if env[|env| - 1].name == name then Some(env[|env| - 1].source)
    else Lookup(env[..|env| - 1], name)
  }

  lemma {:induction false} LookupAppend(a: seq<EnvVar>, b: seq<EnvVar>, name: string)
    ensures Lookup(a + b, name) == if Lookup(b, name).Some? then Lookup(b, name) else Lookup(a, name)
  {
    if b == [] {
      assert a + b == a;
    } else {
      assert (a + b)[..|a + b| - 1] == a + b[..|b| - 1];
      LookupAppend(a, b[..|b| - 1], name);
    }
  }

  lemma {:induction false} LookupOnly(env: seq<EnvVar>, i: nat)
    requires i < |env| && forall j :: i < j < |env| ==> env[j].name != env[i].name
    ensures Lookup(env, env[i].name) == Some(env[i].source)
  {
    if i < |env| - 1 { LookupOnly(env[..|env| - 1], i); }
  }

  lemma OperatorNamesDiffer(wp: WordPress, i: nat, j: nat)
    requires i < j < |OperatorEnv(wp)|
    ensures OperatorEnv(wp)[i].name != OperatorEnv(wp)[j].name
  {
  }

  /** A variable the operator sets takes effect in the WordPress container exactly when the user's variables do not
      define the same name differently. */
  lemma OperatorVariablesTakeEffect(wp: WordPress, i: nat)
    requires i < |OperatorEnv(wp)|
    ensures
      var v := OperatorEnv(wp)[i];
      Lookup(SiteEnv(wp), v.name) == Some(v.source) <==>
      (Lookup(wp.spec.env, v.name).None? || Lookup(wp.spec.env, v.name) == Some(v.source))
  {
    hide OperatorEnv;
    var env := OperatorEnv(wp);
    forall j | i < j < |env| ensures env[j].name != env[i].name { OperatorNamesDiffer(wp, i, j); }
    LookupOnly(env, i);
    LookupAppend(env, wp.spec.env, env[i].name);
  }

  /** In Internal mode both sides of the database connection read one password: WordPress and MySQL name the same key of
      the same Secret, the Secret the pass creates holds that key, and the Secret, the Service and the host WordPress
      waits for and connects to are the ones the pass creates -- unless the user's variables say otherwise. */
  lemma InternalDatabaseIsWired(wp: WordPress, q: Quantities, d: Draw)
    requires wp.spec.database.mode.Internal? && wp.spec.database.internal.Some?
    requires Build(wp, DbSecret, q, d).Some? && Build(wp, DbStatefulSet, q, d).Some?
    ensures
      var site := Build(wp, Deployment, q, d).value.body.deployment.template;
      var db := Build(wp, DbStatefulSet, q, d).value.body.statefulSet;
      var secret := Build(wp, DbSecret, q, d).value.body.data;
      && Lookup(db.template.containers[0].env, "MYSQL_PASSWORD") == Some(FromSecret(PasswordSource(wp)))
      && (Lookup(wp.spec.env, "WORDPRESS_DB_PASSWORD").None? ==>
            Lookup(site.containers[0].env, "WORDPRESS_DB_PASSWORD") == Some(FromSecret(PasswordSource(wp))))
      && Key(SecretKind, wp.key.ns, PasswordSource(wp).name) == ChildKey(DbSecret, wp.key)
      && PasswordSource(wp).key in secret && secret[PasswordSource(wp).key] == d.password.value
      && (wp.spec.database.internal.value.rootPasswordSecret.None? ==>
            Lookup(db.template.containers[0].env, "MYSQL_ROOT_PASSWORD") ==
            Some(FromSecret(SecretRef(ChildKey(DbSecret, wp.key).name, KEY_ROOT))) && KEY_ROOT in secret)
      && db.serviceName == ChildKey(DbService, wp.key).name
      && ResolvedPort(wp) == Build(wp, DbService, q, d).value.body.service.ports[0].port
      && ResolvedHost(wp) == db.serviceName + "." + wp.key.ns + ".svc"
      && WaitHost(wp) == ResolvedHost(wp)
      && site.initContainers == [WaitContainer(wp)]
      && DataName(wp.key.name) == db.claimTemplates[0].name + "-" + ChildKey(DbStatefulSet, wp.key).name + "-0"
  {
    hide CommonLabels, SelectorLabels, SecretNameOf, Merged, Digits, DatabaseEnv, SiteEnv, Lookup;
    ServerPasswords(wp, wp.spec.database.internal.value);
    ClientPassword(wp);
    SecretHolds(wp, d);
  }

  lemma ServerPasswords(wp: WordPress, internal: InternalDb)
    ensures Lookup(DatabaseEnv(wp, internal), "MYSQL_PASSWORD") ==
            Some(FromSecret(SecretRef(SecretNameOf(wp.key.name), KEY_PASSWORD)))
    ensures internal.rootPasswordSecret.None? ==>
              Lookup(DatabaseEnv(wp, internal), "MYSQL_ROOT_PASSWORD") ==
              Some(FromSecret(SecretRef(SecretNameOf(wp.key.name), KEY_ROOT)))
  {
    hide SecretNameOf, Lookup;
    var env := DatabaseEnv(wp, internal);
    assert |env[0].name| == 19 && |env[1].name| == 14 && |env[2].name| == 10 && |env[3].name| == 14;
    LookupOnly(env, 3);
    LookupOnly(env, 0);
  }

  lemma ClientPassword(wp: WordPress)
    ensures Lookup(wp.spec.env, "WORDPRESS_DB_PASSWORD").None? ==>
              Lookup(SiteEnv(wp), "WORDPRESS_DB_PASSWORD") == Some(FromSecret(PasswordSource(wp)))
  {
    hide Lookup, Decimal, ResolvedHost, PasswordSource;
    assert OperatorEnv(wp)[4].name == "WORDPRESS_DB_PASSWORD";
    OperatorVariablesTakeEffect(wp, 4);
  }

  lemma DecimalOfMySQL()
    ensures Decimal(3306) == "3306"
  {
    assert Digits(3) == "3" && Digits(33) == "33" && Digits(330) == "330";
  }

  /** In Internal mode both containers speak of the same database at the same place: unless the user's variables say
      otherwise, WordPress connects to the headless Service the StatefulSet is governed by, at the port that Service
      and the MySQL container open, with the database and user that MySQL is told to create; and before it starts it
      waits for just that host and port. */
  lemma ConnectionIsWired(wp: WordPress, q: Quantities, d: Draw)
    requires wp.spec.database.mode.Internal? && wp.spec.database.internal.Some? && Build(wp, DbStatefulSet, q, d).Some?
    requires forall v :: v in wp.spec.env ==> v.name !in CONNECTION_VARIABLES
    ensures
      var site := Build(wp, Deployment, q, d).value.body.deployment.template;
      var db := Build(wp, DbStatefulSet, q, d).value.body.statefulSet;
      var headless := Build(wp, DbService, q, d).value.body.service;
      var client, server := site.containers[0].env, db.template.containers[0].env;
      var host, port := db.serviceName + "." + wp.key.ns + ".svc", Decimal(headless.ports[0].port);
      && db.serviceName == ChildKey(DbService, wp.key).name
      && headless.ports[0].targetPort == db.template.containers[0].ports[0].number
      && Lookup(client, "WORDPRESS_DB_HOST") == Some(Literal(host + ":" + port))
      && Lookup(client, "WORDPRESS_DB_NAME") == Lookup(server, "MYSQL_DATABASE") == Some(Literal(wp.spec.database.name))
      && Lookup(client, "WORDPRESS_DB_USER") == Lookup(server, "MYSQL_USER") == Some(Literal(wp.spec.database.user))
      && |site.initContainers| == 1
      && site.initContainers[0].command ==
         ["sh", "-c", "until nc -z -w2 " + host + " " + port + "; do echo 'waiting for mysql'; sleep 3; done"]
  {
    hide CommonLabels, SelectorLabels, SecretNameOf, Merged, Decimal, SiteEnv, Lookup;
    DecimalOfMySQL();
    ClientSees(wp);
    ServerSees(wp, wp.spec.database.internal.value);
    var host := DatabaseName(wp.key.name) + "." + wp.key.ns + ".svc";
    assert WaitHost(wp) == host;
    assert " 3306" == " " + "3306";
    assert "until nc -z -w2 " + host + (" " + "3306") == "until nc -z -w2 " + host + " " + "3306";
  }

  const CONNECTION_VARIABLES := ["WORDPRESS_DB_HOST", "WORDPRESS_DB_NAME", "WORDPRESS_DB_USER"]

  lemma {:induction false} NotLookedUp(env: seq<EnvVar>, name: string)
    requires forall v :: v in env ==> v.name != name
    ensures Lookup(env, name) == None
  {
    if env != [] { NotLookedUp(env[..|env| - 1], name); }
  }

  lemma ClientSees(wp: WordPress)
    requires wp.spec.database.mode.Internal? && forall v :: v in wp.spec.env ==> v.name !in CONNECTION_VARIABLES
    ensures
      var host := DatabaseName(wp.key.name) + "." + wp.key.ns + ".svc";
      Lookup(SiteEnv(wp), "WORDPRESS_DB_HOST") == Some(Literal(host + ":" + Decimal(3306)))
    ensures Lookup(SiteEnv(wp), "WORDPRESS_DB_NAME") == Some(Literal(wp.spec.database.name))
    ensures Lookup(SiteEnv(wp), "WORDPRESS_DB_USER") == Some(Literal(wp.spec.database.user))
  {
    hide Decimal, Lookup, DatabaseName, SecretNameOf;
    forall i | 0 <= i < 3 { NotLookedUp(wp.spec.env, CONNECTION_VARIABLES[i]); }
    assert OperatorEnv(wp)[0].name == CONNECTION_VARIABLES[0];
    assert OperatorEnv(wp)[1].name == CONNECTION_VARIABLES[1];
    assert OperatorEnv(wp)[2].name == CONNECTION_VARIABLES[2];
    OperatorVariablesTakeEffect(wp, 0);
    OperatorVariablesTakeEffect(wp, 1);
    OperatorVariablesTakeEffect(wp, 2);
  }

  lemma ServerSees(wp: WordPress, internal: InternalDb)
    ensures Lookup(DatabaseEnv(wp, internal), "MYSQL_DATABASE") == Some(Literal(wp.spec.database.name))
    ensures Lookup(DatabaseEnv(wp, internal), "MYSQL_USER") == Some(Literal(wp.spec.database.user))
  {
    hide SecretNameOf, Lookup;
    var env := DatabaseEnv(wp, internal);
    assert |env[0].name| == 19 && |env[1].name| == 14 && |env[2].name| == 10 && |env[3].name| == 14;
    assert env[1].name[6] == 'D' && env[3].name[6] == 'P';
    LookupOnly(env, 1);
    LookupOnly(env, 2);
  }

  lemma SecretHolds(wp: WordPress, d: Draw)
    requires SecretObject(wp, d).Some?
    ensures KEY_PASSWORD in SecretObject(wp, d).value.body.data
    ensures SecretObject(wp, d).value.body.data[KEY_PASSWORD] == d.password.value
    ensures KEY_ROOT in SecretObject(wp, d).value.body.data
    ensures SecretObject(wp, d).value.body.data[KEY_ROOT] == d.root.value
  {
  }

  /** What one child names, another child is: the Ingress sends traffic to the site's Service at the port that Service
      has, the autoscaler scales the site's Deployment, and each Service selects the pods of its own template -- the
      site's if and only if the user's pod labels leave the selector labels alone. */
  lemma TrafficIsWired(wp: WordPress, q: Quantities, d: Draw)
    requires Build(wp, DbStatefulSet, q, d).Some?
    ensures
      var ingress := Build(wp, SiteIngress, q, d).value.body.ingress;
      var service := Build(wp, SiteService, q, d).value.body.service;
      var site := Build(wp, Deployment, q, d).value.body.deployment;
      var scaler := Build(wp, Autoscaler, q, d).value.body.autoscaler;
      var headless := Build(wp, DbService, q, d).value.body.service;
      var db := Build(wp, DbStatefulSet, q, d).value.body.statefulSet;
      && ingress.backendService == ChildKey(SiteService, wp.key).name && ingress.backendPort == service.ports[0].port
      && service.ports[0].targetPort == site.template.containers[0].ports[0].number
      && scaler.targetDeployment == ChildKey(Deployment, wp.key).name
      && headless.ports[0].targetPort == db.template.containers[0].ports[0].number == 3306
      && Matches(headless.selector, db.template.labels) && Matches(db.selector, db.template.labels)
      && service.selector == site.selector
      && (Matches(site.selector, site.template.labels) <==>
            forall k :: k in SelectorLabels(wp.key.name, WORDPRESS) && k in Entries(wp.spec.podLabels) ==>
              Entries(wp.spec.podLabels)[k] == SelectorLabels(wp.key.name, WORDPRESS)[k])
  {
    hide CommonLabels, SelectorLabels, Merged, Matches, SiteEnv, DatabaseEnv, DatabaseName, ContentName, WaitContainer;
    SelectorIsCommon(wp.key.name, MYSQL);
    SelectorMatchesUnlessOverridden(wp.key.name, WORDPRESS, wp.spec.podLabels);
  }
}
