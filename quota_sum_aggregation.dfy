/** A concrete summing aggregator for handle_aggregated_quotas
    (nodeconductor/quotas/handlers.py:102-118), as the quota tests use it: a
    customer's nc_resource_count is the sum of the nc_resource_count quotas of
    its projects. The aggregator adds a created child's usage, adds the change
    of an updated child's usage, and subtracts a child's usage just before the
    child is deleted. With it, the aggregator quota always equals the sum of
    its live children. */
module QuotaSumAggregation {
  import opened Wrappers
  import opened Structure
  import opened QuotaHandlers

  /** The quota `aggregatorName` of a scope of `aggregatorModel` sums the
      `childName` quotas of the scopes of `childModel` whose parent is that
      scope. */
  datatype SumRelation = SumRelation(
    childName: string,
    childModel: ModelClass,
    aggregatorName: string,
    aggregatorModel: ModelClass,
    parentOf: ScopeRef -> Option<ScopeRef>)

  predicate IsChildKey(rel: SumRelation, k: QuotaKey) {
    k.name == rel.childName && k.scope.Some? && k.scope.value.model == rel.childModel
  }

  predicate IsAggregatorKey(rel: SumRelation, k: QuotaKey) {
    k.name == rel.aggregatorName && k.scope.Some? && k.scope.value.model == rel.aggregatorModel
  }

  /** A child quota is never its own kind of aggregator. */
  predicate WellFormed(rel: SumRelation) {
    rel.childName != rel.aggregatorName || rel.childModel != rel.aggregatorModel
  }

  /** The aggregator quota a child quota feeds, if its scope has a parent of
      the aggregator's model. */
  function AggregatorOf(rel: SumRelation, child: QuotaKey): Option<QuotaKey>
    requires child.scope.Some?
  {
    match rel.parentOf(child.scope.value)
    case None => None
    case Some(parent) => if parent.model == rel.aggregatorModel then Some(ScopeKey(rel.aggregatorName, parent)) else None
  }

  /** The live children of an aggregator quota. */
  function ChildKeys(u: Usages, rel: SumRelation, aggregator: QuotaKey): (r: set<QuotaKey>)
    ensures r <= u.Keys
  {
    set k | k in u && IsChildKey(rel, k) && AggregatorOf(rel, k) == Some(aggregator)
  }

  /** The sum of the usages of a set of quotas. */
  ghost function SumOf(u: Usages, keys: set<QuotaKey>): int
    requires keys <= u.Keys
    decreases keys
  {
    if keys == {} then 0
    else
      var k :| k in keys;
      u[k] + SumOf(u, keys - {k})
  }

  /** Every aggregator quota holds the sum of its live children. */
  ghost predicate SumInvariant(u: Usages, rel: SumRelation) {
    forall a :: a in u && IsAggregatorKey(rel, a) ==> u[a] == SumOf(u, ChildKeys(u, rel, a))
  }

  /** The summing aggregator's field lookup, aggregator lookup and callbacks. */
  function SumHooks(rel: SumRelation): AggregationHooks {
    AggregationHooks(
      k => if IsChildKey(rel, k) then Some(QuotaField(rel.childName, false))
           else if IsAggregatorKey(rel, k) then Some(QuotaField(rel.aggregatorName, true))
           else None,
      (u: Usages, f: QuotaField, c: QuotaSnapshot) =>
        if IsChildKey(rel, c.key) && AggregatorOf(rel, c.key).Some? && AggregatorOf(rel, c.key).value in u
        then [AggregatorOf(rel, c.key).value] else [],
      (u: Usages, a: QuotaKey, c: QuotaSnapshot, created: bool) =>
        if a in u then u[a := u[a] + (if created then c.usage else c.usage - c.previousUsage)] else u,
      (u: Usages, a: QuotaKey, c: QuotaSnapshot) =>
        if a in u then u[a := u[a] - c.usage] else u)
  }

  /** The sum hooks, applied to a child quota, notify exactly its aggregator
      (when that aggregator quota exists). */
  lemma {:induction false} SumHooksNotify(u: Usages, rel: SumRelation, snapshot: QuotaSnapshot, signal: Signal)
    requires WellFormed(rel) && IsChildKey(rel, snapshot.key)
    ensures var r := AggregatedQuotas(u, snapshot, signal, SumHooks(rel));
            var agg := AggregatorOf(rel, snapshot.key);
            if agg.Some? && agg.value in u
            then r == NotifyAggregator(u, agg.value, snapshot, signal, SumHooks(rel))
            else r == u
  {
    var hooks := SumHooks(rel);
    assert Aggregates(snapshot, hooks);
    var agg := AggregatorOf(rel, snapshot.key);
    if agg.Some? && agg.value in u {
      assert hooks.aggregatorQuotas(u, hooks.fieldOf(snapshot.key).value, snapshot) == [agg.value];
      assert [agg.value][..0] == [];
    }
  }

  /** The table after the child quota `c` was saved with usage `x` (created if
      it did not exist) and its post_save was handled: the child holds `x`, its
      aggregator moved by the child's change, and nothing else changed. */
  function ChildSaved(u: Usages, rel: SumRelation, c: QuotaKey, x: int): (r: Usages)
    requires WellFormed(rel) && IsChildKey(rel, c)
    ensures r.Keys == u.Keys + {c}
    ensures r[c] == x
    ensures var agg := AggregatorOf(rel, c);
            agg.Some? && agg.value in u ==>
              r[agg.value] == u[agg.value] + x - (if c in u then u[c] else 0)
    ensures forall k :: k in u && k != c && AggregatorOf(rel, c) != Some(k) ==> r[k] == u[k]
  {
    var snapshot := QuotaSnapshot(c, x, if c in u then u[c] else 0);
    SumHooksNotify(u[c := x], rel, snapshot, PostSave(c !in u));
    AggregatedQuotas(u[c := x], snapshot, PostSave(c !in u), SumHooks(rel))
  }

  /** The table after the pre_delete of the child quota `c` was handled and
      the quota was deleted: its usage is gone from its aggregator, and nothing
      else changed. */
  function ChildDeleted(u: Usages, rel: SumRelation, c: QuotaKey): (r: Usages)
    requires WellFormed(rel) && IsChildKey(rel, c) && c in u
    ensures r.Keys == u.Keys - {c}
    ensures var agg := AggregatorOf(rel, c);
            agg.Some? && agg.value in u ==> r[agg.value] == u[agg.value] - u[c]
    ensures forall k :: k in r && AggregatorOf(rel, c) != Some(k) ==> r[k] == u[k]
  {
    var snapshot := QuotaSnapshot(c, u[c], u[c]);
    SumHooksNotify(u, rel, snapshot, PreDelete);
    AggregatedQuotas(u, snapshot, PreDelete, SumHooks(rel)) - {c}
  }

  // ---------------------------------------------------------------------------
  // Sums

  /** A sum can be taken apart at any of its elements. */
  lemma {:induction false} SumOfRemove(u: Usages, keys: set<QuotaKey>, k: QuotaKey)
    requires keys <= u.Keys && k in keys
    ensures SumOf(u, keys) == u[k] + SumOf(u, keys - {k})
    decreases keys
  {
    var j :| j in keys && SumOf(u, keys) == u[j] + SumOf(u, keys - {j});
    if j != k {
      SumOfRemove(u, keys - {j}, k);
      SumOfRemove(u, keys - {k}, j);
      assert keys - {j} - {k} == keys - {k} - {j};
    }
  }

  /** A sum depends only on the usages of the quotas summed. */
  lemma {:induction false} SumOfFrame(u: Usages, v: Usages, keys: set<QuotaKey>)
    requires keys <= u.Keys && keys <= v.Keys
    requires forall k :: k in keys ==> u[k] == v[k]
    ensures SumOf(u, keys) == SumOf(v, keys)
    decreases keys
  {
    if keys != {} {
      var k :| k in keys && SumOf(u, keys) == u[k] + SumOf(u, keys - {k});
      SumOfRemove(v, keys, k);
      SumOfFrame(u, v, keys - {k});
    }
  }

  // ---------------------------------------------------------------------------
  // The invariant is kept by every child event

  /** Saving a child quota adds it to its aggregator's children and leaves
      every other aggregator's children as they were. */
  lemma ChildKeysSaved(u: Usages, rel: SumRelation, c: QuotaKey, x: int, a: QuotaKey)
    requires WellFormed(rel) && IsChildKey(rel, c)
    ensures var r := ChildSaved(u, rel, c, x);
            ChildKeys(r, rel, a) ==
              if AggregatorOf(rel, c) == Some(a) then ChildKeys(u, rel, a) + {c} else ChildKeys(u, rel, a)
  {
    var r := ChildSaved(u, rel, c, x);
    assert r.Keys == u.Keys + {c};
  }

  /** Saving a child quota keeps one aggregator equal to the sum of its children. */
  lemma {:induction false} ChildSavedKeepsSumAt(u: Usages, rel: SumRelation, c: QuotaKey, x: int, a: QuotaKey)
    requires WellFormed(rel) && IsChildKey(rel, c)
    requires a in u && IsAggregatorKey(rel, a) && u[a] == SumOf(u, ChildKeys(u, rel, a))
    ensures var r := ChildSaved(u, rel, c, x);
            r[a] == SumOf(r, ChildKeys(r, rel, a))
  {
    var r := ChildSaved(u, rel, c, x);
    var before := ChildKeys(u, rel, a);
    var after := ChildKeys(r, rel, a);
    ChildKeysSaved(u, rel, c, x, a);
    if AggregatorOf(rel, c) == Some(a) {
      var rest := before - {c};
      assert after - {c} == rest;
      SumOfFrame(u, r, rest);
      SumOfRemove(r, after, c);
      if c in u {
        SumOfRemove(u, before, c);
      } else {
        assert rest == before;
      }
    } else {
      SumOfFrame(u, r, before);
    }
  }

  /** Saving a child quota (creating it, or changing its usage) keeps every
      aggregator equal to the sum of its children. */
  lemma {:induction false} ChildSavedKeepsSum(u: Usages, rel: SumRelation, c: QuotaKey, x: int)
    requires WellFormed(rel) && SumInvariant(u, rel) && IsChildKey(rel, c)
    ensures SumInvariant(ChildSaved(u, rel, c, x), rel)
  {
    var r := ChildSaved(u, rel, c, x);
    forall a | a in r && IsAggregatorKey(rel, a)
      ensures r[a] == SumOf(r, ChildKeys(r, rel, a))
    {
      assert a != c;
      ChildSavedKeepsSumAt(u, rel, c, x, a);
    }
  }

  /** Deleting a child quota (its usage subtracted in pre_delete, then the row
      removed) keeps every aggregator equal to the sum of its remaining children. */
  lemma {:induction false} ChildDeletedKeepsSum(u: Usages, rel: SumRelation, c: QuotaKey)
    requires WellFormed(rel) && SumInvariant(u, rel) && IsChildKey(rel, c) && c in u
    ensures SumInvariant(ChildDeleted(u, rel, c), rel)
  {
    var snapshot := QuotaSnapshot(c, u[c], u[c]);
    var u1 := AggregatedQuotas(u, snapshot, PreDelete, SumHooks(rel));
    var r := ChildDeleted(u, rel, c);
    SumHooksNotify(u, rel, snapshot, PreDelete);
    var agg := AggregatorOf(rel, c);
    assert u1.Keys == u.Keys;
    assert r.Keys == u.Keys - {c};
    forall a | a in r && IsAggregatorKey(rel, a)
      ensures r[a] == SumOf(r, ChildKeys(r, rel, a))
    {
      var before := ChildKeys(u, rel, a);
      var after := ChildKeys(r, rel, a);
      assert after == before - {c};
      SumOfFrame(u, r, after);
      if agg == Some(a) {
        assert r[a] == u[a] - u[c];
        SumOfRemove(u, before, c);
      } else {
        assert r[a] == u[a];
        assert after == before;
      }
    }
  }

  /** Two distinct child scopes under one aggregator scope. */
  predicate TwoChildren(rel: SumRelation, parent: ScopeRef, p1: ScopeRef, p2: ScopeRef) {
    WellFormed(rel) && p1 != p2 &&
    p1.model == rel.childModel && p2.model == rel.childModel && parent.model == rel.aggregatorModel &&
    rel.parentOf(p1) == Some(parent) && rel.parentOf(p2) == Some(parent)
  }

  lemma ExampleFirstSave(rel: SumRelation, parent: ScopeRef, p1: ScopeRef, p2: ScopeRef)
    requires TwoChildren(rel, parent, p1, p2)
    ensures var agg := ScopeKey(rel.aggregatorName, parent);
            var c1 := ScopeKey(rel.childName, p1);
            var c2 := ScopeKey(rel.childName, p2);
            ChildSaved(map[agg := 0, c1 := 0, c2 := 0], rel, c1, 50) == map[agg := 50, c1 := 50, c2 := 0]
  {
    var c1 := ScopeKey(rel.childName, p1);
    assert AggregatorOf(rel, c1) == Some(ScopeKey(rel.aggregatorName, parent));
  }

  lemma ExampleSecondSave(rel: SumRelation, parent: ScopeRef, p1: ScopeRef, p2: ScopeRef)
    requires TwoChildren(rel, parent, p1, p2)
    ensures var agg := ScopeKey(rel.aggregatorName, parent);
            var c1 := ScopeKey(rel.childName, p1);
            var c2 := ScopeKey(rel.childName, p2);
            ChildSaved(map[agg := 50, c1 := 50, c2 := 0], rel, c2, 20) == map[agg := 70, c1 := 50, c2 := 20]
  {
    var c2 := ScopeKey(rel.childName, p2);
    assert AggregatorOf(rel, c2) == Some(ScopeKey(rel.aggregatorName, parent));
  }

  lemma ExampleDelete(rel: SumRelation, parent: ScopeRef, p1: ScopeRef, p2: ScopeRef)
    requires TwoChildren(rel, parent, p1, p2)
    ensures var agg := ScopeKey(rel.aggregatorName, parent);
            var c1 := ScopeKey(rel.childName, p1);
            var c2 := ScopeKey(rel.childName, p2);
            ChildDeleted(map[agg := 70, c1 := 50, c2 := 20], rel, c1) == map[agg := 20, c2 := 20]
  {
    var c1 := ScopeKey(rel.childName, p1);
    assert AggregatorOf(rel, c1) == Some(ScopeKey(rel.aggregatorName, parent));
  }

  /** The starting table, all three quotas at 0, meets the invariant. */
  lemma ExampleStart(rel: SumRelation, parent: ScopeRef, p1: ScopeRef, p2: ScopeRef)
    requires TwoChildren(rel, parent, p1, p2)
    ensures var agg := ScopeKey(rel.aggregatorName, parent);
            var c1 := ScopeKey(rel.childName, p1);
            var c2 := ScopeKey(rel.childName, p2);
            SumInvariant(map[agg := 0, c1 := 0, c2 := 0], rel)
  {
    var agg := ScopeKey(rel.aggregatorName, parent);
    var c1 := ScopeKey(rel.childName, p1);
    var c2 := ScopeKey(rel.childName, p2);
    assert AggregatorOf(rel, c1) == Some(agg) && AggregatorOf(rel, c2) == Some(agg);
    var u0 := map[agg := 0, c1 := 0, c2 := 0];
    assert ChildKeys(u0, rel, agg) == {c1, c2};
    SumOfRemove(u0, {c1, c2}, c1);
    assert {c1, c2} - {c1} == {c2};
    SumOfRemove(u0, {c2}, c2);
    assert {c2} - {c2} == {};
  }

  /** After the delete, the second child is the aggregator's only child. */
  lemma ExampleEnd(rel: SumRelation, parent: ScopeRef, p1: ScopeRef, p2: ScopeRef)
    requires TwoChildren(rel, parent, p1, p2)
    ensures var agg := ScopeKey(rel.aggregatorName, parent);
            var c2 := ScopeKey(rel.childName, p2);
            ChildKeys(map[agg := 20, c2 := 20], rel, agg) == {c2}
  {
    var agg := ScopeKey(rel.aggregatorName, parent);
    var c2 := ScopeKey(rel.childName, p2);
    assert AggregatorOf(rel, c2) == Some(agg);
  }

  /** A customer with two projects whose resource counts are raised to 50 and
      20: after the first project is deleted, the customer's resource count is
      the second project's 20, the sum over the projects that remain. */
  lemma ProjectDeletionExample(rel: SumRelation, customer: ScopeRef, p1: ScopeRef, p2: ScopeRef)
    requires TwoChildren(rel, customer, p1, p2)
    ensures var agg := ScopeKey(rel.aggregatorName, customer);
            var c1 := ScopeKey(rel.childName, p1);
            var c2 := ScopeKey(rel.childName, p2);
            var u0 := map[agg := 0, c1 := 0, c2 := 0];
            var u1 := ChildSaved(u0, rel, c1, 50);
            var u2 := ChildSaved(u1, rel, c2, 20);
            c1 in u2 &&
            var u3 := ChildDeleted(u2, rel, c1);
            u3 == map[agg := 20, c2 := 20] && ChildKeys(u3, rel, agg) == {c2} && SumInvariant(u3, rel)
  {
    var agg := ScopeKey(rel.aggregatorName, customer);
    var c1 := ScopeKey(rel.childName, p1);
    var c2 := ScopeKey(rel.childName, p2);
    var u0 := map[agg := 0, c1 := 0, c2 := 0];
    ExampleStart(rel, customer, p1, p2);
    ExampleFirstSave(rel, customer, p1, p2);
    ChildSavedKeepsSum(u0, rel, c1, 50);
    var u1 := map[agg := 50, c1 := 50, c2 := 0];
    ExampleSecondSave(rel, customer, p1, p2);
    ChildSavedKeepsSum(u1, rel, c2, 20);
    var u2 := map[agg := 70, c1 := 50, c2 := 20];
    ExampleDelete(rel, customer, p1, p2);
    ChildDeletedKeepsSum(u2, rel, c1);
    ExampleEnd(rel, customer, p1, p2);
  }
}
