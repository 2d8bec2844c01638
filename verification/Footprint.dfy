/** Which keys belong to which resource: the naming functions do not collide, with one exception. */
module Footprint {
  import opened Types
  import opened Names

  lemma SuffixUnique(a: string, b: string, x: string, y: string)
    requires a + x == b + y && |x| == |y|
    ensures a == b && x == y
  {
    assert |a| == |b|;
    assert a == (a + x)[..|a|] == (b + y)[..|b|] == b;
    assert x == (a + x)[|a|..] == (b + y)[|b|..] == y;
  }

  lemma DataNameInjective(a: string, b: string)
    ensures DataName(a) == DataName(b) ==> a == b
  {
    var n := |"data-"|;
    assert DataName(a)[n..] == a + "-mysql" + "-0";
    assert DataName(b)[n..] == b + "-mysql" + "-0";
    if DataName(a) == DataName(b) {
      SuffixUnique(a + "-mysql", b + "-mysql", "-0", "-0");
      SuffixUnique(a, b, "-mysql", "-mysql");
    }
  }

  /** The last characters differ. */
  lemma DataIsNotContent(a: string, b: string)
    ensures DataName(a) != ContentName(b)
  {
    var d, c := DataName(a), ContentName(b);
    assert d[|d| - 1] == '0' && c[|c| - 1] == 't';
  }

  /** The claim deleted for `cr` is the data claim of no other resource and the content claim of none. */
  lemma DataKeyIsPrivate(cr: Key, other: Key)
    ensures DataKey(cr) != ChildKey(ContentClaim, other)
    ensures cr.kind == other.kind && DataKey(cr) == DataKey(other) ==> cr == other
  {
    DataIsNotContent(cr.name, other.name);
    DataNameInjective(cr.name, other.name);
  }

  lemma ChildKeyInjective(c: Child, a: Key, b: Key)
    requires ChildKey(c, a) == ChildKey(c, b) && a.kind == b.kind
    ensures a == b
  {
    match c
    case DbSecret => SuffixUnique(a.name, b.name, "-mysql-credentials", "-mysql-credentials");
    case DbService => SuffixUnique(a.name, b.name, "-mysql", "-mysql");
    case DbStatefulSet => SuffixUnique(a.name, b.name, "-mysql", "-mysql");
    case ContentClaim => SuffixUnique(a.name, b.name, "-content", "-content");
    case Autoscaler => SuffixUnique(a.name, b.name, "-hpa", "-hpa");
    case _ =>
  }

  /** Two different children share a key only if one is the site's Service and the other a database Service. */
  lemma OnlyServicesCollide(c: Child, d: Child, a: Key, b: Key)
    requires c != d && ChildKey(c, a) == ChildKey(d, b)
    ensures (c.SiteService? && d.DbService? && a.name == DatabaseName(b.name)) ||
            (c.DbService? && d.SiteService? && b.name == DatabaseName(a.name))
  {
  }

  /** For two resources of one namespace, the sets of keys their passes may write are disjoint exactly when neither
      name is the other's name followed by "-mysql". */
  lemma DisjointExactlyUnless(a: Key, b: Key)
    requires a.kind.WordPressKind? && b.kind.WordPressKind? && a.ns == b.ns && a.name != b.name
    ensures (forall k :: !(MayWrite(a, k) && MayWrite(b, k))) <==>
            a.name != b.name + "-mysql" && b.name != a.name + "-mysql"
  {
    if a.name == b.name + "-mysql" {
      SharedService(a, b);
    } else if b.name == a.name + "-mysql" {
      SharedService(b, a);
    } else {
      forall k { ApartUnless(a, b, k); }
    }
  }

  lemma SharedService(a: Key, b: Key)
    requires a.ns == b.ns && a.name == DatabaseName(b.name)
    ensures MayWrite(a, ChildKey(SiteService, a)) && MayWrite(b, ChildKey(SiteService, a))
  {
    assert ChildKey(SiteService, a) == ChildKey(DbService, b);
  }

  lemma ApartUnless(a: Key, b: Key, k: Key)
    requires a.kind.WordPressKind? && b.kind.WordPressKind? && a != b
    requires a.name != DatabaseName(b.name) && b.name != DatabaseName(a.name)
    ensures !(MayWrite(a, k) && MayWrite(b, k))
  {
    DataKeyIsPrivate(a, b);
    DataKeyIsPrivate(b, a);
    if MayWrite(a, k) && MayWrite(b, k) {
      if c, d :| k == ChildKey(c, a) && k == ChildKey(d, b) {
        if c == d { ChildKeyInjective(c, a, b); } else { OnlyServicesCollide(c, d, a, b); }
      }
    }
  }
}
