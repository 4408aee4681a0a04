/** The crawler's stats sink, as far as the filters use it: a map from
    counter names to values, bumped by `inc_value`. */
module Stats {

  class StatsCollector {
    var values: map<string, int>

    constructor ()
      ensures values == map[]
    {
      values := map[];
    }

    /** The value of a counter; one never bumped reads as its start, 0. */
    function Value(key: string): int
      reads this
    {
      if key in values then values[key] else 0
    }

    /** `inc_value(key)`: add one to the counter, starting it at 0. */
    method IncValue(key: string)
      modifies this
      ensures values == old(values)[key := old(Value(key)) + 1]
      ensures Value(key) == old(Value(key)) + 1
    {
      values := values[key := Value(key) + 1];
    }
  }
}
