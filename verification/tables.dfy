/**
 * Database tables as maps from auto-increment ids to records. A table's
 * counter is the next id to hand out, so every id in use is below it.
 */
module Tables {

  /**
   * The rows `(id, record)` with `id < bound`, by ascending id: the order
   * this model gives a query that has no `ORDER BY`.
   */
  function Rows<T(!new)>(m: map<nat, T>, bound: nat): (r: seq<(nat, T)>)
    ensures forall row :: row in r <==> row.0 < bound && row.0 in m && m[row.0] == row.1
    ensures forall i, j :: 0 <= i < j < |r| ==> r[i].0 < r[j].0
  {
    if bound == 0 then []
    else Rows(m, bound - 1) + (if bound - 1 in m then [(bound - 1, m[bound - 1])] else [])
  }

  /** Two tables that agree below `bound` have the same rows below `bound`. */
  lemma {:induction false} RowsFrame<T(!new)>(m: map<nat, T>, m': map<nat, T>, bound: nat)
    requires forall k :: k < bound ==> (k in m <==> k in m')
    requires forall k :: k < bound && k in m ==> m[k] == m'[k]
    ensures Rows(m, bound) == Rows(m', bound)
  {
    if bound > 0 {
      RowsFrame(m, m', bound - 1);
    }
  }

  /** Inserting under the counter adds exactly one row, at the end. */
  lemma RowsInsert<T(!new)>(m: map<nat, T>, next: nat, v: T)
    requires forall k :: k in m ==> k < next
    ensures Rows(m[next := v], next + 1) == Rows(m, next) + [(next, v)]
  {
    RowsFrame(m, m[next := v], next);
  }

  /** `m` after a run of inserts: `xs[j]` is stored under id `next + j`. */
  function Append<T>(m: map<nat, T>, next: nat, xs: seq<T>): map<nat, T>
  {
    if xs == [] then m
    else Append(m, next, xs[..|xs| - 1])[next + |xs| - 1 := xs[|xs| - 1]]
  }

  /** The inserted run lands at `next ..`, and every other id keeps its row. */
  lemma {:induction false} AppendShape<T>(m: map<nat, T>, next: nat, xs: seq<T>)
    ensures forall k :: k in Append(m, next, xs) <==> k in m || next <= k < next + |xs|
    ensures forall k :: k in m && !(next <= k < next + |xs|) ==> Append(m, next, xs)[k] == m[k]
    ensures forall j :: 0 <= j < |xs| ==> Append(m, next, xs)[next + j] == xs[j]
  {
    if xs != [] {
      AppendShape(m, next, xs[..|xs| - 1]);
    }
  }

  /** One more insert after a run of inserts extends the run. */
  lemma AppendSnoc<T>(m: map<nat, T>, next: nat, xs: seq<T>, x: T)
    ensures Append(m, next, xs + [x]) == Append(m, next, xs)[next + |xs| := x]
  {
    assert (xs + [x])[..|xs|] == xs;
  }
}
