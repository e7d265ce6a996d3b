/** Helpers shared by the loaders: the scaffold of a column-oriented table. */
module BaseUtils {

  /** A table with the given column names whose columns are all still empty. */
  ghost predicate IsEmptyTable<K, T>(table: map<K, seq<T>>, keys: set<K>) {
    table.Keys == keys && forall k :: k in table ==> table[k] == []
  }

  /** An empty table is fixed by its key set alone. */
  lemma EmptyTableUnique<K, T>(a: map<K, seq<T>>, b: map<K, seq<T>>, keys: set<K>)
    requires IsEmptyTable(a, keys) && IsEmptyTable(b, keys)
    ensures a == b
  {
    assert forall k :: k in a ==> a[k] == b[k];
  }

  /**
   * `build_table_structure_based_on_dict`: one empty column per key of the
   * dictionary, whatever its values are. The dictionary itself is a value here
   * and is left as it was.
   */
  method BuildTableStructureBasedOnDict<K, V, T>(dictionary: map<K, V>) returns (tableSchema: map<K, seq<T>>)
    ensures tableSchema.Keys == dictionary.Keys
    ensures |tableSchema| == |dictionary|
    ensures forall k :: k in tableSchema ==> tableSchema[k] == []
  {
    tableSchema := map[];
    var remaining := dictionary.Keys;
    while remaining != {}
      invariant remaining <= dictionary.Keys
      invariant tableSchema.Keys == dictionary.Keys - remaining
      invariant forall k :: k in tableSchema ==> tableSchema[k] == []
      decreases remaining
    {
      var key :| key in remaining;
      tableSchema := tableSchema[key := []];
      remaining := remaining - {key};
    }
    assert tableSchema.Keys == dictionary.Keys;
    assert |tableSchema| == |tableSchema.Keys| && |dictionary| == |dictionary.Keys|;
  }

  /** Two dictionaries with the same keys give the same scaffold, which says the values are never looked at. */
  lemma SameKeysSameScaffold<K, V, T>(d1: map<K, V>, d2: map<K, V>,
                                       t1: map<K, seq<T>>, t2: map<K, seq<T>>)
    requires d1.Keys == d2.Keys
    requires t1.Keys == d1.Keys && forall k :: k in t1 ==> t1[k] == []
    requires t2.Keys == d2.Keys && forall k :: k in t2 ==> t2[k] == []
    ensures t1 == t2
  {
    EmptyTableUnique(t1, t2, d1.Keys);
  }
}
