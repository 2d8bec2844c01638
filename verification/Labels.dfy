/** Label sets, and the map merge they are combined with. */
module Labels {
  import opened Types

  const NAME := "app.kubernetes.io/name"
  const INSTANCE := "app.kubernetes.io/instance"
  const COMPONENT := "app.kubernetes.io/component"
  const MANAGED_BY := "app.kubernetes.io/managed-by"
  const PART_OF := "app.kubernetes.io/part-of"

  const WORDPRESS := "wordpress"
  const MYSQL := "mysql"
  const MANAGER := "wordpress-operator"

  function SelectorLabels(instance: string, component: string): map<string, string> {
    map[NAME := "wordpress", INSTANCE := instance, COMPONENT := component]
  }

  function CommonLabels(instance: string, component: string): map<string, string> {
    map[NAME := "wordpress", INSTANCE := instance, COMPONENT := component, MANAGED_BY := MANAGER, PART_OF := MANAGER]
  }

  function Entries(m: StringMap): map<string, string> {
    if m.Some? then m.value else map[]
  }

  /** The last map that has the key decides. */
  function Merged(src: StringMap, overrides: seq<StringMap>): map<string, string> {
    if overrides == [] then Entries(src)
    else Merged(src, overrides[..|overrides| - 1]) + Entries(overrides[|overrides| - 1])
  }

  /** `mergeStringMaps`. Go leaves the order in which a map is traversed open: each `:|` may pick any remaining key. */
  method MergeStringMaps(src: StringMap, overrides: seq<StringMap>) returns (out: map<string, string>)
    ensures out == Merged(src, overrides)
  {
    out := CopyInto(map[], Entries(src));
    for n := 0 to |overrides|
      invariant out == Merged(src, overrides[..n])
    {
      assert overrides[..n + 1][..n] == overrides[..n];
      out := CopyInto(out, Entries(overrides[n]));
    }
    assert overrides[..|overrides|] == overrides;
  }

  method CopyInto(into: map<string, string>, from: map<string, string>) returns (out: map<string, string>)
    ensures out == into + from
  {
    out := into;
    var left := from.Keys;
    while left != {}
      invariant left <= from.Keys
      invariant out == into + map k | k in from && k !in left :: from[k]
      decreases left
    {
      var k :| k in left;
      out := out[k := from[k]];
      left := left - {k};
    }
    assert out == into + from;
  }

  ghost predicate Matches(selector: map<string, string>, labels: map<string, string>) {
    forall k :: k in selector ==> k in labels && labels[k] == selector[k]
  }

  lemma SelectorIsCommon(instance: string, component: string)
    ensures Matches(SelectorLabels(instance, component), CommonLabels(instance, component))
  {
  }

  /** Pod labels given by the user are merged over the common ones, so they can break the Deployment: its selector
      matches its own pod template exactly when they set no selector label to a different value. */
  lemma SelectorMatchesUnlessOverridden(instance: string, component: string, user: StringMap)
    ensures Matches(SelectorLabels(instance, component), Merged(Some(CommonLabels(instance, component)), [user])) <==>
            forall k :: k in SelectorLabels(instance, component) && k in Entries(user) ==>
              Entries(user)[k] == SelectorLabels(instance, component)[k]
  {
  }

  /** It happens: a pod label that names another instance. */
  lemma OverriddenInstanceBreaksTheSelector(instance: string, component: string, other: string)
    requires other != instance
    ensures
      var user := Some(map[INSTANCE := other]);
      !Matches(SelectorLabels(instance, component), Merged(Some(CommonLabels(instance, component)), [user]))
  {
    SelectorMatchesUnlessOverridden(instance, component, Some(map[INSTANCE := other]));
    assert |INSTANCE| != |COMPONENT| && |INSTANCE| != |NAME|;
    assert INSTANCE in SelectorLabels(instance, component) && SelectorLabels(instance, component)[INSTANCE] == instance;
  }
}
