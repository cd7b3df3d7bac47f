/**
 The find step of find-or-create: `Table.query.filter_by(...).first()`
 (app.py:219, 225-228). Tables are maps from row id to record. Without an
 ORDER BY, SQL does not fix which match `.first()` yields; in practice SQLite
 scans by id and yields the lowest, which is what FirstWhere returns. Under
 `Shop.NoDuplicateTaxonomy` at most one row ever matches, so the choice does
 not affect any contract.
 */
module Tables {
  import opened Records

  /** The lowest id in [lo, hi) whose row satisfies `matches`, if any. */
  function FirstWhere<T>(table: map<int, T>, matches: T -> bool, lo: int, hi: int): (r: Option<int>)
    ensures r.Some? ==>
              && lo <= r.value < hi
              && r.value in table
              && matches(table[r.value])
              && forall id :: lo <= id < r.value && id in table ==> !matches(table[id])
    ensures r.None? ==> forall id :: lo <= id < hi && id in table ==> !matches(table[id])
    decreases hi - lo
  {
    if hi <= lo then None
    else if lo in table && matches(table[lo]) then Some(lo)
    else FirstWhere(table, matches, lo + 1, hi)
  }
}
