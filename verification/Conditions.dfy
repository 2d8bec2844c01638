/** The status conditions list: one entry per condition type. */
module Conditions {
  import opened Types

  /** Replace the entry of the condition's type, or append it. */
  function SetCondition(cs: seq<Condition>, c: Condition): (r: seq<Condition>)
    ensures |r| == if Has(cs, c.ctype) then |cs| else |cs| + 1
  {
    if cs == [] then [c]
    else if cs[0].ctype == c.ctype then [c] + cs[1..]
    else [cs[0]] + SetCondition(cs[1..], c)
  }

  /** Drop every entry of the type. */
  function RemoveCondition(cs: seq<Condition>, t: ConditionType): seq<Condition> {
    if cs == [] then []
    else if cs[0].ctype == t then RemoveCondition(cs[1..], t)
    else [cs[0]] + RemoveCondition(cs[1..], t)
  }

  /** The entry of the type, if there is one. */
  function Find(cs: seq<Condition>, t: ConditionType): Option<Condition> {
    if cs == [] then None
    else if cs[0].ctype == t then Some(cs[0])
    else Find(cs[1..], t)
  }

  predicate Has(cs: seq<Condition>, t: ConditionType) {
    Find(cs, t).Some?
  }

  predicate Holds(cs: seq<Condition>, t: ConditionType) {
    Find(cs, t).Some? && Find(cs, t).value.holds
  }

  ghost predicate Unique(cs: seq<Condition>) {
    forall i, j :: 0 <= i < j < |cs| ==> cs[i].ctype != cs[j].ctype
  }

  lemma {:induction false} FindSpec(cs: seq<Condition>, t: ConditionType)
    ensures Find(cs, t).Some? ==> Find(cs, t).value in cs && Find(cs, t).value.ctype == t
    ensures Find(cs, t).None? <==> forall c :: c in cs ==> c.ctype != t
  {
    if cs != [] && cs[0].ctype != t {
      FindSpec(cs[1..], t);
      assert forall c :: c in cs <==> c == cs[0] || c in cs[1..];
    } else if cs != [] {
      assert cs[0] in cs;
    }
  }

  lemma {:induction false} FindAfterSet(cs: seq<Condition>, c: Condition, t: ConditionType)
    ensures Find(SetCondition(cs, c), t) == if t == c.ctype then Some(c) else Find(cs, t)
  {
    if cs != [] && cs[0].ctype != c.ctype {
      FindAfterSet(cs[1..], c, t);
    }
  }

  lemma {:induction false} FindAfterRemove(cs: seq<Condition>, t: ConditionType, t': ConditionType)
    ensures Find(RemoveCondition(cs, t), t') == if t == t' then None else Find(cs, t')
  {
    if cs != [] {
      FindAfterRemove(cs[1..], t, t');
    }
  }

  /** Setting a condition twice in a row keeps the second value only, in the same place. */
  lemma {:induction false} SetTwice(cs: seq<Condition>, c: Condition, c': Condition)
    requires c.ctype == c'.ctype
    ensures SetCondition(SetCondition(cs, c), c') == SetCondition(cs, c')
  {
    if cs != [] && cs[0].ctype != c.ctype {
      SetTwice(cs[1..], c, c');
    }
  }

  /** Setting a condition to the value it already has changes nothing. */
  lemma {:induction false} SetSame(cs: seq<Condition>, c: Condition)
    requires Find(cs, c.ctype) == Some(c)
    ensures SetCondition(cs, c) == cs
  {
    if cs[0].ctype != c.ctype {
      SetSame(cs[1..], c);
    }
  }

  /** Removing a type that is not there changes nothing. */
  lemma {:induction false} RemoveAbsent(cs: seq<Condition>, t: ConditionType)
    requires Find(cs, t).None?
    ensures RemoveCondition(cs, t) == cs
  {
    if cs != [] {
      RemoveAbsent(cs[1..], t);
    }
  }

  lemma {:induction false} TypesAfterSet(cs: seq<Condition>, c: Condition)
    ensures forall x :: x in SetCondition(cs, c) ==> x == c || x in cs
  {
    if cs != [] && cs[0].ctype != c.ctype {
      TypesAfterSet(cs[1..], c);
    }
  }

  lemma {:induction false} SetKeepsUnique(cs: seq<Condition>, c: Condition)
    requires Unique(cs)
    ensures Unique(SetCondition(cs, c))
  {
    if cs != [] && cs[0].ctype != c.ctype {
      var rest := SetCondition(cs[1..], c);
      SetKeepsUnique(cs[1..], c);
      TypesAfterSet(cs[1..], c);
      forall x | x in rest ensures x.ctype != cs[0].ctype {
      }
    }
  }

  lemma {:induction false} RemoveIsSubset(cs: seq<Condition>, t: ConditionType)
    ensures forall x :: x in RemoveCondition(cs, t) ==> x in cs && x.ctype != t
  {
    if cs != [] {
      RemoveIsSubset(cs[1..], t);
    }
  }

  lemma {:induction false} RemoveKeepsUnique(cs: seq<Condition>, t: ConditionType)
    requires Unique(cs)
    ensures Unique(RemoveCondition(cs, t))
  {
    if cs != [] {
      RemoveKeepsUnique(cs[1..], t);
      RemoveIsSubset(cs[1..], t);
    }
  }
}
