/**
 * Merging the statistics of the two generation runs: a dictionary
 * comprehension over the first run's keys that adds the two runs' values.
 */
module Stats {
  import opened Wrappers

  /** Statistic name to value. Values are integers in this model. */
  type StatsMap = map<string, int>

  /** The exception the comprehension raises when the second map lacks a key of the first. */
  datatype MergeError = KeyError

  /**
   * `{k: first[k] + second[k] for k in first}`: fails when a key of `first`
   * is missing from `second`; keys only `second` has are dropped.
   */
  function MergeStats(first: StatsMap, second: StatsMap): (r: Result<StatsMap, MergeError>)
    ensures r.Failure? <==> exists k :: k in first && k !in second
    ensures r.Success? ==> r.value.Keys == first.Keys
    ensures r.Success? ==> forall k :: k in first ==> r.value[k] == first[k] + second[k]
  {
    if first.Keys <= second.Keys then Success(map k | k in first :: first[k] + second[k])
    else Failure(KeyError)
  }

  /** What `second` holds for the keys of `first`. */
  function Restrict(second: StatsMap, keys: set<string>): (r: StatsMap)
    ensures r.Keys == second.Keys * keys
  {
    map k | k in second && k in keys :: second[k]
  }

  /** Keys only the second run reports never affect the merge. */
  lemma MergeStatsIgnoresExtraKeys(first: StatsMap, second: StatsMap)
    ensures MergeStats(first, second) == MergeStats(first, Restrict(second, first.Keys))
  {
    var trimmed := Restrict(second, first.Keys);
    if first.Keys <= second.Keys {
      assert first.Keys <= trimmed.Keys;
      var m1 := MergeStats(first, second).value;
      var m2 := MergeStats(first, trimmed).value;
      assert forall k :: k in m1 ==> m1[k] == m2[k];
      assert m1 == m2;
    } else {
      var k :| k in first && k !in second;
      assert k !in trimmed;
    }
  }

  /** With the same key set on both sides, the order of the two runs does not matter. */
  lemma MergeStatsCommutes(first: StatsMap, second: StatsMap)
    requires first.Keys == second.Keys
    ensures MergeStats(first, second) == MergeStats(second, first)
  {
    var ab := MergeStats(first, second).value;
    var ba := MergeStats(second, first).value;
    assert forall k :: k in ab ==> ab[k] == ba[k];
    assert ab == ba;
  }
}
