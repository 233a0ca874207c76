/** Properties of the attribute extraction: declaration order, prefix
    accumulation through `@Embedded` fields, and where each attribute comes
    from. */
module Extraction {
  import opened Types
  import opened AutoDaoParams

  /** `attrs` with `pre` put in front of every column name; the attribute
      names and types are untouched. */
  function Prefixed(pre: string, attrs: seq<Attr>): (r: seq<Attr>)
    ensures |r| == |attrs|
    ensures forall i | 0 <= i < |attrs| :: r[i] == Attr(pre + attrs[i].collumnName, attrs[i].name, attrs[i].typ)
  {
    if attrs == [] then []
    else [Attr(pre + attrs[0].collumnName, attrs[0].name, attrs[0].typ)] + Prefixed(pre, attrs[1..])
  }

  /** The members are processed in declaration order: the attributes of a
      concatenation are the concatenation of the attributes. */
  lemma {:induction false} KeptElementsAppend(xs: seq<Element>, ys: seq<Element>, prefix: string)
    ensures KeptElements(xs + ys, prefix) == KeptElements(xs, prefix) + KeptElements(ys, prefix)
  {
    if xs == [] {
      assert xs + ys == ys;
    } else {
      assert (xs + ys)[1..] == xs[1..] + ys;
      KeptElementsAppend(xs[1..], ys, prefix);
    }
  }

  /** A member that is not a kept field contributes nothing at its position:
      methods, constructors, static, `@Ignore` and `@Relation` fields. */
  lemma DroppedMember(xs: seq<Element>, e: Element, ys: seq<Element>, prefix: string)
    requires !KeepNonStaticField(e)
    ensures KeptElements(xs + [e] + ys, prefix) == KeptElements(xs, prefix) + KeptElements(ys, prefix)
  {
    var kx, ky := KeptElements(xs, prefix), KeptElements(ys, prefix);
    KeptElementsAppend(xs + [e], ys, prefix);
    KeptElementsAppend(xs, [e], prefix);
    assert KeptElements([e], prefix) == [] by {
      assert [e][1..] == [];
    }
    assert KeptElements(xs + [e], prefix) == kx by {
      assert kx + [] == kx;
    }
  }

  /** A kept field sits at its own position in the output, with the
      attributes of its embedded type inlined there when it is `@Embedded`. */
  lemma KeptMember(xs: seq<Element>, e: Element, ys: seq<Element>, prefix: string)
    requires KeepNonStaticField(e)
    ensures KeptElements(xs + [e] + ys, prefix) == KeptElements(xs, prefix) + GetElements(e, prefix) + KeptElements(ys, prefix)
  {
    KeptElementsAppend(xs + [e], ys, prefix);
    KeptElementsAppend(xs, [e], prefix);
    assert KeptElements([e], prefix) == GetElements(e, prefix) by {
      assert [e][1..] == [];
    }
  }

  lemma PrefixedAppend(pre: string, xs: seq<Attr>, ys: seq<Attr>)
    ensures Prefixed(pre, xs + ys) == Prefixed(pre, xs) + Prefixed(pre, ys)
  {
  }

  /** Prefixes accumulate outer-first: walking a field under `pre + pre2`
      is walking it under `pre2` and then prefixing every column with `pre`. */
  lemma {:induction false} GetElementsPrefix(e: Element, pre: string, pre2: string)
    ensures GetElements(e, pre + pre2) == Prefixed(pre, GetElements(e, pre2))
    decreases e, 1
  {
    match e.embedded
    case None =>
      assert ToAttr(e, pre + pre2).collumnName == pre + ToAttr(e, pre2).collumnName;
    case Some(emb) =>
      assert pre + pre2 + emb.prefix == pre + (pre2 + emb.prefix);
      KeptElementsPrefix(emb.enclosed, pre, pre2 + emb.prefix);
  }

  lemma {:induction false} KeptElementsPrefix(ms: seq<Element>, pre: string, pre2: string)
    ensures KeptElements(ms, pre + pre2) == Prefixed(pre, KeptElements(ms, pre2))
    decreases ms, 0
  {
    if ms != [] {
      KeptElementsPrefix(ms[1..], pre, pre2);
      var rest := KeptElements(ms[1..], pre2);
      if KeepNonStaticField(ms[0]) {
        GetElementsPrefix(ms[0], pre, pre2);
        PrefixedAppend(pre, GetElements(ms[0], pre2), rest);
      } else {
        assert [] + rest == rest;
        assert [] + Prefixed(pre, rest) == Prefixed(pre, rest);
      }
    }
  }

  /** The attributes under a prefix are the unprefixed attributes with the
      prefix put in front of every column name. */
  lemma PrefixAccumulates(ms: seq<Element>, pre: string)
    ensures KeptElements(ms, pre) == Prefixed(pre, KeptElements(ms, ""))
  {
    assert pre + "" == pre;
    KeptElementsPrefix(ms, pre, "");
  }

  /** A leaf column: a kept field that is not `@Embedded`. */
  predicate Leaf(e: Element) {
    KeepNonStaticField(e) && e.embedded.None?
  }

  /** `l` is a leaf reached from the member list `ms` under the accumulated
      prefix `pre`, and `col` is the prefix its column gets there: either `l`
      is itself a kept member of `ms` (and `col == pre`), or some kept member
      of `ms` is `@Embedded(prefix)` and `l` is reached from its type's
      members under `pre + prefix`. */
  predicate ReachesIn(ms: seq<Element>, pre: string, l: Element, col: string)
    decreases ms, 1
  {
    exists i | 0 <= i < |ms| :: KeepNonStaticField(ms[i]) && ReachesFrom(ms[i], pre, l, col)
  }

  predicate ReachesFrom(e: Element, pre: string, l: Element, col: string)
    decreases e, 0
  {
    match e.embedded
    case None => l == e && col == pre
    case Some(emb) => ReachesIn(emb.enclosed, pre + emb.prefix, l, col)
  }

  /** What is reached is a leaf, and its column prefix extends `pre`. */
  lemma {:induction false} ReachedLeaf(ms: seq<Element>, pre: string, l: Element, col: string)
    requires ReachesIn(ms, pre, l, col)
    ensures Leaf(l) && pre <= col
    decreases ms, 1
  {
    var i :| 0 <= i < |ms| && KeepNonStaticField(ms[i]) && ReachesFrom(ms[i], pre, l, col);
    ReachedLeafFrom(ms[i], pre, l, col);
  }

  lemma {:induction false} ReachedLeafFrom(e: Element, pre: string, l: Element, col: string)
    requires KeepNonStaticField(e) && ReachesFrom(e, pre, l, col)
    ensures Leaf(l) && pre <= col
    decreases e, 0
  {
    match e.embedded
    case None =>
    case Some(emb) =>
      ReachedLeaf(emb.enclosed, pre + emb.prefix, l, col);
      assert pre <= pre + emb.prefix;
  }

  /** Every attribute of a kept field is `toAttr` of a leaf reached from it. */
  lemma {:induction false} GetElementsOrigin(e: Element, pre: string, a: Attr)
    requires a in GetElements(e, pre)
    ensures exists l: Element, col: string :: ReachesFrom(e, pre, l, col) && a == ToAttr(l, col)
    decreases e, 0
  {
    match e.embedded
    case None =>
      assert ReachesFrom(e, pre, e, pre);
    case Some(emb) =>
      KeptElementsOrigin(emb.enclosed, pre + emb.prefix, a);
  }

  /** Every attribute comes from a leaf reached through kept fields, so
      static, `@Ignore` and `@Relation` fields, and methods, never become
      attributes, at any depth. */
  lemma {:induction false} KeptElementsOrigin(ms: seq<Element>, pre: string, a: Attr)
    requires a in KeptElements(ms, pre)
    ensures exists l: Element, col: string :: ReachesIn(ms, pre, l, col) && a == ToAttr(l, col)
    decreases ms, 1
  {
    if KeepNonStaticField(ms[0]) && a in GetElements(ms[0], pre) {
      GetElementsOrigin(ms[0], pre, a);
      var l: Element, col: string :| ReachesFrom(ms[0], pre, l, col) && a == ToAttr(l, col);
      assert ReachesIn(ms, pre, l, col);
    } else {
      KeptElementsOrigin(ms[1..], pre, a);
      var l: Element, col: string :| ReachesIn(ms[1..], pre, l, col) && a == ToAttr(l, col);
      var i :| 0 <= i < |ms[1..]| && KeepNonStaticField(ms[1..][i]) && ReachesFrom(ms[1..][i], pre, l, col);
      assert ms[1..][i] == ms[i + 1];
      assert ReachesIn(ms, pre, l, col);
    }
  }

  /** Conversely, every leaf reached through kept fields yields its attribute. */
  lemma {:induction false} GetElementsComplete(e: Element, pre: string, l: Element, col: string)
    requires ReachesFrom(e, pre, l, col)
    ensures ToAttr(l, col) in GetElements(e, pre)
    decreases e, 0
  {
    match e.embedded
    case None =>
    case Some(emb) =>
      KeptElementsComplete(emb.enclosed, pre + emb.prefix, l, col);
  }

  lemma {:induction false} KeptElementsComplete(ms: seq<Element>, pre: string, l: Element, col: string)
    requires ReachesIn(ms, pre, l, col)
    ensures ToAttr(l, col) in KeptElements(ms, pre)
    decreases ms, 1
  {
    var i :| 0 <= i < |ms| && KeepNonStaticField(ms[i]) && ReachesFrom(ms[i], pre, l, col);
    if i == 0 {
      GetElementsComplete(ms[0], pre, l, col);
    } else {
      assert ms[1..][i - 1] == ms[i];
      assert ReachesIn(ms[1..], pre, l, col);
      KeptElementsComplete(ms[1..], pre, l, col);
    }
  }

  /** The attributes of the extracted record are exactly `toAttr` of the
      leaves reached from the entity's members, each under the prefixes of
      the `@Embedded` fields on the way. */
  lemma AttributeOrigin(a: AutoDao, c: EntityClass, x: Attr)
    requires From(a, c).Ok?
    ensures x in From(a, c).value.attributes <==>
      exists l: Element, col: string :: ReachesIn(c.enclosed, "", l, col) && x == ToAttr(l, col)
  {
    if x in From(a, c).value.attributes {
      KeptElementsOrigin(c.enclosed, "", x);
    }
    if exists l: Element, col: string :: ReachesIn(c.enclosed, "", l, col) && x == ToAttr(l, col) {
      var l: Element, col: string :| ReachesIn(c.enclosed, "", l, col) && x == ToAttr(l, col);
      KeptElementsComplete(c.enclosed, "", l, col);
    }
  }

  // ---------------------------------------------------------------------------
  // Entities without `@Embedded` fields
  // ---------------------------------------------------------------------------

  predicate NoEmbedded(ms: seq<Element>) {
    forall i | 0 <= i < |ms| :: ms[i].embedded.None?
  }

  /** The kept fields, in declaration order. */
  function KeptFields(ms: seq<Element>): (r: seq<Element>)
    ensures forall e | e in r :: e in ms && KeepNonStaticField(e)
    ensures forall e | e in ms && KeepNonStaticField(e) :: e in r
  {
    if ms == [] then []
    else (if KeepNonStaticField(ms[0]) then [ms[0]] else []) + KeptFields(ms[1..])
  }

  /** A single member is kept or dropped on its own. */
  lemma KeptFieldsSingle(e: Element)
    ensures KeptFields([e]) == if KeepNonStaticField(e) then [e] else []
  {
    assert [e][1..] == [];
  }

  /** Filtering keeps declaration order: the kept fields of a concatenation
      are the kept fields of each part, in order. */
  lemma {:induction false} KeptFieldsAppend(xs: seq<Element>, ys: seq<Element>)
    ensures KeptFields(xs + ys) == KeptFields(xs) + KeptFields(ys)
  {
    if xs == [] {
      assert xs + ys == ys;
    } else {
      assert (xs + ys)[1..] == xs[1..] + ys;
      KeptFieldsAppend(xs[1..], ys);
    }
  }

  function ToAttrs(fields: seq<Element>, prefix: string): (r: seq<Attr>)
    ensures |r| == |fields| && forall i | 0 <= i < |fields| :: r[i] == ToAttr(fields[i], prefix)
  {
    if fields == [] then [] else [ToAttr(fields[0], prefix)] + ToAttrs(fields[1..], prefix)
  }

  /** Without `@Embedded` fields, extraction is a filter followed by a map:
      one attribute per kept field, in declaration order. */
  lemma {:induction false} FlatEntity(ms: seq<Element>, prefix: string)
    requires NoEmbedded(ms)
    ensures KeptElements(ms, prefix) == ToAttrs(KeptFields(ms), prefix)
  {
    if ms != [] {
      assert NoEmbedded(ms[1..]) by {
        forall i | 0 <= i < |ms[1..]| ensures ms[1..][i].embedded.None? {
          assert ms[1..][i] == ms[i + 1];
        }
      }
      FlatEntity(ms[1..], prefix);
      var rest := KeptFields(ms[1..]);
      if KeepNonStaticField(ms[0]) {
        assert ToAttrs([ms[0]] + rest, prefix) == [ToAttr(ms[0], prefix)] + ToAttrs(rest, prefix) by {
          assert ([ms[0]] + rest)[1..] == rest;
        }
      } else {
        assert [] + rest == rest;
        assert [] + KeptElements(ms[1..], prefix) == KeptElements(ms[1..], prefix);
      }
    }
  }
}
