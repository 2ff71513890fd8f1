/** DeltaMetricSupplier: the registry flattened into a map keyed by identity, which seeds the
    delta tracker. */
module Supplier {
  import opened Wrappers
  import opened Client
  import opened Metrics
  import opened Identity

  /** The identity of a registry name. */
  function KeyOf(san: Sanitizers): MetricName -> NameAndTags
  {
    n => FromMetricName(n, san)
  }

  /** The map `getMetrics` returns. */
  function Supplied(registry: Registry, san: Sanitizers): map<NameAndTags, Option<Metric>>
  {
    FlattenBy(registry, KeyOf(san))
  }

  /** `getMetrics`: a fresh map filled by the nested loop over groups and their entries; the
      registry is only read. */
  method GetMetrics(registry: Registry, san: Sanitizers) returns (m: map<NameAndTags, Option<Metric>>)
    ensures m == Supplied(registry, san)
  {
    var key := KeyOf(san);
    m := map[];
    var g := 0;
    while g < |registry|
      invariant 0 <= g <= |registry|
      invariant m == PutAll(map[], Entries(registry[..g]), key)
    {
      var group := registry[g];
      ghost var done := Entries(registry[..g]);
      var j := 0;
      assert done + group[..0] == done;
      while j < |group|
        invariant 0 <= j <= |group|
        invariant m == PutAll(map[], done + group[..j], key)
      {
        var entry := group[j];
        var nameAndTags := FromMetricName(entry.name, san);
        PutAllSnoc(map[], done + group[..j], entry, key);
        assert done + group[..j + 1] == done + group[..j] + [entry];
        m := m[nameAndTags := entry.metric];
        j := j + 1;
      }
      assert group[..j] == group;
      EntriesSnoc(registry, g);
      g := g + 1;
    }
    assert registry[..g] == registry;
  }

  /** The keys are exactly the identities of the registry's names. */
  lemma SuppliedKeys(registry: Registry, san: Sanitizers, id: NameAndTags)
    ensures id in Supplied(registry, san) <==>
      exists i :: 0 <= i < |Entries(registry)| && FromMetricName(Entries(registry)[i].name, san) == id
  {
    var es := Entries(registry);
    PutAllKeys(map[], es, KeyOf(san), id);
    assert forall i :: 0 <= i < |es| ==> KeyOf(san)(es[i].name) == FromMetricName(es[i].name, san);
  }

  /** The value under an identity is the registry's own metric object for the last visited
      entry with that identity: a later entry overwrites an earlier one. */
  lemma SuppliedValue(registry: Registry, san: Sanitizers, i: nat)
    requires i < |Entries(registry)|
    requires forall j :: i < j < |Entries(registry)| ==>
      FromMetricName(Entries(registry)[j].name, san) != FromMetricName(Entries(registry)[i].name, san)
    ensures var es := Entries(registry);
      FromMetricName(es[i].name, san) in Supplied(registry, san) &&
      Supplied(registry, san)[FromMetricName(es[i].name, san)] == es[i].metric
  {
    PutAllLast(map[], Entries(registry), KeyOf(san), i);
  }
}
