/**
 The layer-skip plan: through a table with one column per layer, a path starts in row 0 and in each
 column stays in its row or jumps to the diagonal, at most `maxChanges` times. The dynamic
 program maximises the path's least entry, and the sum only to break ties.
 */
module LayerSkip {
  import opened Wrappers

  type Table = seq<seq<real>>

  // ---------------------------------------------------------------- entries

  ghost predicate Square(a: Table, n: nat) {
    |a| == n && forall i :: 0 <= i < n ==> |a[i]| == n
  }

  /** One square table per measurement, all of the same size. */
  ghost predicate ValidTables(as_: seq<Table>, n: nat) {
    n > 0 && |as_| > 0 && forall t :: 0 <= t < |as_| ==> Square(as_[t], n)
  }

  function MinR(a: real, b: real): real {
    if b < a then b else a
  }

  /** The least of the entries at (i, j) in the first t tables. */
  function LeastAt(as_: seq<Table>, n: nat, t: nat, i: nat, j: nat): real
    requires ValidTables(as_, n) && 0 < t <= |as_| && i < n && j < n
  {
    assert Square(as_[t - 1], n);
    if t == 1 then as_[0][i][j] else MinR(LeastAt(as_, n, t - 1, i, j), as_[t - 1][i][j])
  }

  function TotalAt(as_: seq<Table>, n: nat, t: nat, i: nat, j: nat): real
    requires ValidTables(as_, n) && t <= |as_| && i < n && j < n
  {
    if t == 0 then 0.0
    else
      assert Square(as_[t - 1], n);
      TotalAt(as_, n, t - 1, i, j) + as_[t - 1][i][j]
  }

  function CellMin(as_: seq<Table>, n: nat, i: nat, j: nat): real
    requires ValidTables(as_, n) && i < n && j < n
  {
    LeastAt(as_, n, |as_|, i, j)
  }

  function CellSum(as_: seq<Table>, n: nat, i: nat, j: nat): real
    requires ValidTables(as_, n) && i < n && j < n
  {
    TotalAt(as_, n, |as_|, i, j)
  }

  // ---------------------------------------------------------------- paths

  predicate StepOk(p: seq<nat>, j: nat)
    requires 0 < j < |p|
  {
    p[j] == p[j - 1] || p[j] == j
  }

  /** `p[j]` is the row in column j. */
  predicate IsPath(p: seq<nat>) {
    p != [] && p[0] == 0 && forall j: nat :: 0 < j < |p| ==> StepOk(p, j)
  }

  function Changes(p: seq<nat>): (c: nat)
  {
    if |p| <= 1 then 0 else Changes(p[..|p| - 1]) + (if p[|p| - 1] != p[|p| - 2] then 1 else 0)
  }

  ghost predicate Fits(p: seq<nat>, n: nat) {
    |p| <= n && forall j :: 0 <= j < |p| ==> p[j] < n
  }

  ghost predicate Legal(p: seq<nat>, n: nat, maxChanges: nat) {
    |p| == n && IsPath(p) && Fits(p, n) && Changes(p) <= maxChanges
  }

  function PathMin(as_: seq<Table>, n: nat, p: seq<nat>): real
    requires ValidTables(as_, n) && p != [] && Fits(p, n)
  {
    var j := |p| - 1;
    if j == 0 then CellMin(as_, n, p[0], 0) else MinR(PathMin(as_, n, p[..j]), CellMin(as_, n, p[j], j))
  }

  function PathSum(as_: seq<Table>, n: nat, p: seq<nat>): real
    requires ValidTables(as_, n) && p != [] && Fits(p, n)
  {
    var j := |p| - 1;
    if j == 0 then CellSum(as_, n, p[0], 0) else PathSum(as_, n, p[..j]) + CellSum(as_, n, p[j], j)
  }

  // ---------------------------------------------------------------- what these values are, entry by entry

  function EntryAt(as_: seq<Table>, n: nat, t: nat, i: nat, j: nat): real
    requires ValidTables(as_, n) && t < |as_| && i < n && j < n
  {
    assert Square(as_[t], n);
    as_[t][i][j]
  }

  /** No entry of any table on the path is below `least`. */
  ghost predicate AllAtLeast(as_: seq<Table>, n: nat, p: seq<nat>, least: real)
    requires ValidTables(as_, n) && Fits(p, n)
  {
    forall t: nat, j: nat :: t < |as_| && j < |p| ==> least <= EntryAt(as_, n, t, p[j], j)
  }

  /** Some entry of some table on the path is no greater than `least`. */
  ghost predicate SomeAtMost(as_: seq<Table>, n: nat, p: seq<nat>, least: real)
    requires ValidTables(as_, n) && Fits(p, n)
  {
    exists t: nat, j: nat :: t < |as_| && j < |p| && EntryAt(as_, n, t, p[j], j) <= least
  }

  lemma {:induction false} LeastAtIs(as_: seq<Table>, n: nat, t: nat, i: nat, j: nat)
    requires ValidTables(as_, n) && 0 < t <= |as_| && i < n && j < n
    ensures forall u: nat :: u < t ==> LeastAt(as_, n, t, i, j) <= EntryAt(as_, n, u, i, j)
    ensures exists u: nat :: u < t && EntryAt(as_, n, u, i, j) == LeastAt(as_, n, t, i, j)
    decreases t
  {
    if t == 1 {
      assert EntryAt(as_, n, 0, i, j) == LeastAt(as_, n, 1, i, j);
    } else {
      LeastAtIs(as_, n, t - 1, i, j);
      assert LeastAt(as_, n, t, i, j) == MinR(LeastAt(as_, n, t - 1, i, j), EntryAt(as_, n, t - 1, i, j));
    }
  }

  /** The least value of a path is the least entry that any table has on it. */
  lemma {:induction false} PathMinIs(as_: seq<Table>, n: nat, p: seq<nat>)
    requires ValidTables(as_, n) && p != [] && Fits(p, n)
    ensures AllAtLeast(as_, n, p, PathMin(as_, n, p)) && SomeAtMost(as_, n, p, PathMin(as_, n, p))
    decreases |p|
  {
    var j: nat := |p| - 1;
    var least := CellMin(as_, n, p[j], j);
    LeastAtIs(as_, n, |as_|, p[j], j);
    var u: nat :| u < |as_| && EntryAt(as_, n, u, p[j], j) == least;
    hide LeastAt;
    if j > 0 {
      var q := p[..j];
      PathMinIs(as_, n, q);
      var t: nat, k: nat :| t < |as_| && k < |q| && EntryAt(as_, n, t, q[k], k) <= PathMin(as_, n, q);
      assert EntryAt(as_, n, t, p[k], k) <= PathMin(as_, n, q);
      forall t: nat, k: nat | t < |as_| && k < |p| ensures PathMin(as_, n, p) <= EntryAt(as_, n, t, p[k], k) {
        assert k < j ==> p[k] == q[k];
      }
    }
  }

  /** The sum of one table along a path. */
  function TableSum(a: Table, n: nat, p: seq<nat>): real
    requires Square(a, n) && Fits(p, n)
  {
    if p == [] then 0.0 else TableSum(a, n, p[..|p| - 1]) + a[p[|p| - 1]][|p| - 1]
  }

  /** The sum of the first t tables' own sums along a path. */
  function TablesSum(as_: seq<Table>, n: nat, t: nat, p: seq<nat>): real
    requires ValidTables(as_, n) && t <= |as_| && Fits(p, n)
  {
    if t == 0 then 0.0
    else
      assert Square(as_[t - 1], n);
      TablesSum(as_, n, t - 1, p) + TableSum(as_[t - 1], n, p)
  }

  lemma {:induction false} TablesSumStep(as_: seq<Table>, n: nat, t: nat, p: seq<nat>)
    requires ValidTables(as_, n) && t <= |as_| && Fits(p, n) && p != []
    ensures TablesSum(as_, n, t, p) == TablesSum(as_, n, t, p[..|p| - 1]) + TotalAt(as_, n, t, p[|p| - 1], |p| - 1)
    decreases t
  {
    if t > 0 {
      TablesSumStep(as_, n, t - 1, p);
      assert Square(as_[t - 1], n);
    }
  }

  lemma {:induction false} TablesSumEmpty(as_: seq<Table>, n: nat, t: nat)
    requires ValidTables(as_, n) && t <= |as_|
    ensures TablesSum(as_, n, t, []) == 0.0
    decreases t
  {
    if t > 0 {
      TablesSumEmpty(as_, n, t - 1);
      assert Square(as_[t - 1], n);
    }
  }

  /** Summed cell by cell or table by table, a path has one sum. */
  lemma {:induction false} PathSumIs(as_: seq<Table>, n: nat, p: seq<nat>)
    requires ValidTables(as_, n) && p != [] && Fits(p, n)
    ensures PathSum(as_, n, p) == TablesSum(as_, n, |as_|, p)
    decreases |p|
  {
    TablesSumStep(as_, n, |as_|, p);
    if |p| == 1 {
      assert p[..0] == [];
      TablesSumEmpty(as_, n, |as_|);
    } else {
      PathSumIs(as_, n, p[..|p| - 1]);
    }
  }

  /** A path never leaves the triangle. */
  lemma {:induction false} PathInTriangle(p: seq<nat>, j: nat)
    requires IsPath(p) && j < |p|
    ensures p[j] <= j
  {
    if j > 0 {
      PathInTriangle(p, j - 1);
      assert StepOk(p, j);
    }
  }

  lemma PrefixIsPath(p: seq<nat>)
    requires IsPath(p) && |p| > 1
    ensures IsPath(p[..|p| - 1])
  {
    var q := p[..|p| - 1];
    forall m: nat | 0 < m < |q| ensures StepOk(q, m) {
      assert StepOk(p, m);
    }
  }

  // ---------------------------------------------------------------- the recurrence

  /** An entry of the table: least value, sum, and the row before; -1 for none. */
  datatype Cell = Cell(least: real, sum: real, prev: int)

  predicate Lex(a: Cell, b: Cell) {
    a.least > b.least || (a.least == b.least && a.sum > b.sum)
  }

  function Pick(best: Option<Cell>, cand: Cell): Option<Cell> {
    if best.None? || Lex(cand, best.value) then Some(cand) else best
  }

  function Extend(as_: seq<Table>, n: nat, p: Cell, i: nat, j: nat, row: int): Cell
    requires ValidTables(as_, n) && i < n && j < n
  {
    Cell(MinR(p.least, CellMin(as_, n, i, j)), p.sum + CellSum(as_, n, i, j), row)
  }

  /** The best cell of row i in column j after exactly c changes. */
  function Best(as_: seq<Table>, n: nat, j: nat, i: nat, c: nat): Option<Cell>
    requires ValidTables(as_, n) && j < n && i < n
    decreases j, n
  {
    if j == 0 then
      if i == 0 && c == 0 then Some(Cell(CellMin(as_, n, 0, 0), CellSum(as_, n, 0, 0), -1)) else None
    else if i > j then None
    else
      var stay := Stay(as_, n, j, i, c);
      if i == j && c > 0 then Jump(as_, n, j, c, j, stay) else stay
  }

  function Stay(as_: seq<Table>, n: nat, j: nat, i: nat, c: nat): Option<Cell>
    requires ValidTables(as_, n) && 0 < j < n && i < n
    decreases j, 0
  {
    var before := Best(as_, n, j - 1, i, c);
    if before.Some? then Some(Extend(as_, n, before.value, i, j, i)) else None
  }

  /** The best jump to (j, j) from the rows below k, or `best`. */
  function Jump(as_: seq<Table>, n: nat, j: nat, c: nat, k: nat, best: Option<Cell>): Option<Cell>
    requires ValidTables(as_, n) && 0 < j < n && k <= j && c > 0
    decreases j, k
  {
    if k == 0 then best
    else
      var rest := Jump(as_, n, j, c, k - 1, best);
      var before := Best(as_, n, j - 1, k - 1, c - 1);
      if before.Some? then Pick(rest, Extend(as_, n, before.value, j, j, k - 1)) else rest
  }

  // ---------------------------------------------------------------- optimality

  /** A jump is as good as from any row it could have come from, ties included. */
  lemma {:induction false} JumpBeats(as_: seq<Table>, n: nat, j: nat, c: nat, k: nat, best: Option<Cell>, r: nat)
    requires ValidTables(as_, n) && 0 < j < n && r < k <= j && c > 0 && Best(as_, n, j - 1, r, c - 1).Some?
    ensures Jump(as_, n, j, c, k, best).Some?
    ensures !Lex(Extend(as_, n, Best(as_, n, j - 1, r, c - 1).value, j, j, r), Jump(as_, n, j, c, k, best).value)
    decreases k
  {
    if r < k - 1 {
      JumpBeats(as_, n, j, c, k - 1, best, r);
    }
  }

  /** No path to a cell has a greater least entry than the table says. */
  lemma {:induction false} BestBeats(as_: seq<Table>, n: nat, p: seq<nat>)
    requires ValidTables(as_, n) && IsPath(p) && Fits(p, n)
    ensures Best(as_, n, |p| - 1, p[|p| - 1], Changes(p)).Some?
    ensures Best(as_, n, |p| - 1, p[|p| - 1], Changes(p)).value.least >= PathMin(as_, n, p)
    decreases |p|
  {
    var j: nat := |p| - 1;
    if j > 0 {
      var q := p[..j];
      PrefixIsPath(p);
      BestBeats(as_, n, q);
      PathInTriangle(p, j - 1);
      assert StepOk(p, j);
      if p[j] == j {
        JumpBeats(as_, n, j, Changes(p), j, Stay(as_, n, j, j, Changes(p)), p[j - 1]);
      }
    }
  }

  /** A cell comes from its row before, by a stay below the diagonal and by a jump on it. */
  lemma BestFrom(as_: seq<Table>, n: nat, j: nat, i: nat, c: nat)
    requires ValidTables(as_, n) && 0 < j < n && i < n && Best(as_, n, j, i, c).Some?
    ensures i <= j && (i == j ==> c > 0)
    ensures var cell := Best(as_, n, j, i, c).value;
      && 0 <= cell.prev < j && (i < j ==> cell.prev == i)
      && var before := Best(as_, n, j - 1, cell.prev, if i == j then c - 1 else c);
      before.Some? && cell == Extend(as_, n, before.value, i, j, cell.prev)
  {
    if i == j {
      NothingBelow(as_, n, j - 1, i, c);
      if c > 0 {
        JumpFrom(as_, n, j, c, j);
      }
    } else {
      assert i <= j - 1;
    }
  }

  lemma NothingBelow(as_: seq<Table>, n: nat, j: nat, i: nat, c: nat)
    requires ValidTables(as_, n) && j < i < n
    ensures Best(as_, n, j, i, c).None?
  {
  }

  lemma {:induction false} JumpFrom(as_: seq<Table>, n: nat, j: nat, c: nat, k: nat)
    requires ValidTables(as_, n) && 0 < j < n && k <= j && c > 0 && Jump(as_, n, j, c, k, None).Some?
    ensures var cell := Jump(as_, n, j, c, k, None).value;
      && 0 <= cell.prev < k
      && var before := Best(as_, n, j - 1, cell.prev, c - 1);
      before.Some? && cell == Extend(as_, n, before.value, j, j, cell.prev)
    decreases k
  {
    if Jump(as_, n, j, c, k - 1, None).Some? {
      JumpFrom(as_, n, j, c, k - 1);
    }
  }

  /** The path the back pointers give. */
  function Trace(as_: seq<Table>, n: nat, j: nat, i: nat, c: nat): seq<nat>
    requires ValidTables(as_, n) && j < n && i < n && Best(as_, n, j, i, c).Some?
    decreases j
  {
    if j == 0 then [i]
    else
      BestFrom(as_, n, j, i, c);
      Trace(as_, n, j - 1, Best(as_, n, j, i, c).value.prev, if i == j then c - 1 else c) + [i]
  }

  ghost predicate TraceFits(as_: seq<Table>, n: nat, p: seq<nat>, j: nat, i: nat, c: nat, cell: Cell)
    requires ValidTables(as_, n)
  {
    && |p| == j + 1 && IsPath(p) && Fits(p, n) && p[j] == i && Changes(p) == c
    && PathMin(as_, n, p) == cell.least && PathSum(as_, n, p) == cell.sum
  }

  /** It is a path to the cell, with the cell's changes, least entry and sum. */
  lemma {:induction false} TraceOk(as_: seq<Table>, n: nat, j: nat, i: nat, c: nat)
    requires ValidTables(as_, n) && j < n && i < n && Best(as_, n, j, i, c).Some?
    ensures TraceFits(as_, n, Trace(as_, n, j, i, c), j, i, c, Best(as_, n, j, i, c).value)
    decreases j
  {
    if j > 0 {
      BestFrom(as_, n, j, i, c);
      var cell := Best(as_, n, j, i, c).value;
      var c' := if i == j then c - 1 else c;
      hide Best, TraceFits, Changes, PathMin, PathSum;
      TraceOk(as_, n, j - 1, cell.prev, c');
      TraceStep(as_, n, Trace(as_, n, j - 1, cell.prev, c'), j, i, c', Best(as_, n, j - 1, cell.prev, c').value, cell);
    } else {
      assert Trace(as_, n, 0, i, c) == [0];
    }
  }

  lemma TraceStep(as_: seq<Table>, n: nat, q: seq<nat>, j: nat, i: nat, c': nat, before: Cell, cell: Cell)
    requires ValidTables(as_, n) && 0 < j < n && i <= j && 0 <= cell.prev < j && (i < j ==> cell.prev == i)
    requires TraceFits(as_, n, q, j - 1, cell.prev, c', before) && cell == Extend(as_, n, before, i, j, cell.prev)
    ensures TraceFits(as_, n, q + [i], j, i, if i == j then c' + 1 else c', cell)
  {
    PathExtends(as_, n, q, i);
  }

  lemma PathExtends(as_: seq<Table>, n: nat, q: seq<nat>, i: nat)
    requires ValidTables(as_, n) && IsPath(q) && Fits(q, n) && |q| < n && i < n
    requires i == q[|q| - 1] || i == |q|
    ensures IsPath(q + [i]) && Fits(q + [i], n)
    ensures Changes(q + [i]) == Changes(q) + (if i != q[|q| - 1] then 1 else 0)
    ensures PathMin(as_, n, q + [i]) == MinR(PathMin(as_, n, q), CellMin(as_, n, i, |q|))
    ensures PathSum(as_, n, q + [i]) == PathSum(as_, n, q) + CellSum(as_, n, i, |q|)
  {
    var p := q + [i];
    assert p[..|q|] == q;
    forall m: nat | 0 < m < |p| ensures StepOk(p, m) {
      assert m < |q| ==> StepOk(q, m);
    }
  }

  // ---------------------------------------------------------------- when the reported sum is the greatest

  /** The cell of the last column that is picked: none is better, by least value and then by sum. */
  ghost predicate Reported(as_: seq<Table>, n: nat, maxChanges: nat, least: real, sum: real)
    requires ValidTables(as_, n)
  {
    exists i: nat, c: nat :: i < n && c <= maxChanges && IsReported(as_, n, maxChanges, i, c)
      && Best(as_, n, n - 1, i, c).value.least == least && Best(as_, n, n - 1, i, c).value.sum == sum
  }

  ghost predicate IsReported(as_: seq<Table>, n: nat, maxChanges: nat, i: nat, c: nat)
    requires ValidTables(as_, n) && i < n
    ensures IsReported(as_, n, maxChanges, i, c) ==> Best(as_, n, n - 1, i, c).Some?
  {
    Best(as_, n, n - 1, i, c).Some? && NoneBetter(as_, n, n - 1, maxChanges, Best(as_, n, n - 1, i, c))
  }

  ghost predicate NoneBetter(as_: seq<Table>, n: nat, j: nat, maxChanges: nat, best: Option<Cell>)
    requires ValidTables(as_, n) && j < n
  {
    forall i: nat, c: nat :: i < n && c <= maxChanges ==> NoBetter(Best(as_, n, j, i, c), best)
  }

  /** Among the legal paths with the reported least entry, none has a greater sum than reported. */
  ghost predicate SumOptimal(as_: seq<Table>, n: nat, maxChanges: nat)
    requires ValidTables(as_, n)
  {
    forall least: real, sum: real, p: seq<nat> ::
      Reported(as_, n, maxChanges, least, sum) && Legal(p, n, maxChanges) && PathMin(as_, n, p) == least ==>
        PathSum(as_, n, p) <= sum
  }

  function Value(as_: seq<Table>, n: nat, p: seq<nat>): Cell
    requires ValidTables(as_, n) && p != [] && Fits(p, n)
  {
    Cell(PathMin(as_, n, p), PathSum(as_, n, p), -1)
  }

  /** The cell a path ends in is no worse than the path, ties included. */
  ghost predicate Covered(as_: seq<Table>, n: nat, p: seq<nat>)
    requires ValidTables(as_, n) && p != [] && Fits(p, n)
  {
    var best := Best(as_, n, |p| - 1, p[|p| - 1], Changes(p));
    best.Some? && !Lex(Value(as_, n, p), best.value)
  }

  /** The cell a path ends in has the path's own values. */
  ghost predicate Met(as_: seq<Table>, n: nat, p: seq<nat>)
    requires ValidTables(as_, n) && p != [] && Fits(p, n)
  {
    var best := Best(as_, n, |p| - 1, p[|p| - 1], Changes(p));
    best.Some? && best.value.least == PathMin(as_, n, p) && best.value.sum == PathSum(as_, n, p)
  }

  lemma CoveredIsOptimal(as_: seq<Table>, n: nat, maxChanges: nat)
    requires ValidTables(as_, n) && forall p: seq<nat> :: Legal(p, n, maxChanges) ==> Covered(as_, n, p)
    ensures SumOptimal(as_, n, maxChanges)
  {
    forall least: real, sum: real, p: seq<nat> |
      Reported(as_, n, maxChanges, least, sum) && Legal(p, n, maxChanges) && PathMin(as_, n, p) == least
      ensures PathSum(as_, n, p) <= sum
    {
      var i: nat, c: nat :| i < n && c <= maxChanges && IsReported(as_, n, maxChanges, i, c)
        && Best(as_, n, n - 1, i, c).value.least == least && Best(as_, n, n - 1, i, c).value.sum == sum;
      assert Covered(as_, n, p) && NoneBetter(as_, n, n - 1, maxChanges, Best(as_, n, n - 1, i, c));
      assert NoBetter(Best(as_, n, n - 1, p[n - 1], Changes(p)), Best(as_, n, n - 1, i, c));
    }
  }

  /** What a path is worth one column later. */
  lemma PathSteps(as_: seq<Table>, n: nat, p: seq<nat>)
    requires ValidTables(as_, n) && IsPath(p) && Fits(p, n) && |p| > 1
    ensures var j, q := |p| - 1, p[..|p| - 1];
      && IsPath(q) && Fits(q, n) && q[j - 1] <= j - 1 && p[j] <= j && (p[j] < j ==> p[j] == q[j - 1])
      && Changes(p) == Changes(q) + (if p[j] == j then 1 else 0)
      && PathMin(as_, n, p) == MinR(PathMin(as_, n, q), CellMin(as_, n, p[j], j))
      && PathSum(as_, n, p) == PathSum(as_, n, q) + CellSum(as_, n, p[j], j)
  {
    var j: nat, q := |p| - 1, p[..|p| - 1];
    PrefixIsPath(p);
    PathInTriangle(p, j - 1);
    assert StepOk(p, j);
  }

  /** If the cell before is exact, the cell of a path is no worse than the path. */
  lemma MetCovers(as_: seq<Table>, n: nat, p: seq<nat>)
    requires ValidTables(as_, n) && IsPath(p) && Fits(p, n) && |p| > 1
    requires Fits(p[..|p| - 1], n) && Met(as_, n, p[..|p| - 1])
    ensures Covered(as_, n, p)
  {
    var j: nat := |p| - 1;
    PathSteps(as_, n, p);
    if p[j] == j {
      JumpBeats(as_, n, j, Changes(p), j, Stay(as_, n, j, j, Changes(p)), p[j - 1]);
    }
  }

  /** Row r is the only one of the column with a cell after c changes. */
  ghost predicate OnlySource(as_: seq<Table>, n: nat, j: nat, c: nat, r: nat)
    requires ValidTables(as_, n) && j < n
  {
    forall m: nat :: m <= j && Best(as_, n, j, m, c).Some? ==> m == r
  }

  /** With one source only, a jump is from there. */
  lemma {:induction false} JumpOnly(as_: seq<Table>, n: nat, j: nat, c: nat, k: nat, r: nat)
    requires ValidTables(as_, n) && 0 < j < n && k <= j && c > 0 && OnlySource(as_, n, j - 1, c - 1, r)
    ensures Jump(as_, n, j, c, k, None) ==
      if r < k && Best(as_, n, j - 1, r, c - 1).Some?
      then Some(Extend(as_, n, Best(as_, n, j - 1, r, c - 1).value, j, j, r)) else None
    decreases k
  {
    if k > 0 {
      JumpOnly(as_, n, j, c, k - 1, r);
    }
  }

  /** Paths without a change, and paths of two columns, are told apart by their changes. */
  lemma {:induction false} SameEnd(p: seq<nat>, q: seq<nat>)
    requires IsPath(p) && IsPath(q) && |p| == |q| && Changes(p) == Changes(q) && (Changes(p) == 0 || |p| <= 2)
    ensures p[|p| - 1] == q[|q| - 1]
  {
    if |p| > 1 {
      var j: nat := |p| - 1;
      assert StepOk(p, j) && StepOk(q, j);
      var p', q' := p[..j], q[..j];
      PrefixIsPath(p);
      PrefixIsPath(q);
      if Changes(p) == 0 {
        SameEnd(p', q');
      } else {
        assert Changes(p') == 0 == Changes(q');
      }
    }
  }

  lemma OnlyRow(as_: seq<Table>, n: nat, q: seq<nat>)
    requires ValidTables(as_, n) && IsPath(q) && Fits(q, n) && (Changes(q) == 0 || |q| <= 2)
    ensures OnlySource(as_, n, |q| - 1, Changes(q), q[|q| - 1])
  {
    var j: nat, c := |q| - 1, Changes(q);
    forall m: nat | m <= j && Best(as_, n, j, m, c).Some? ensures m == q[j] {
      TraceOk(as_, n, j, m, c);
      SameEnd(q, Trace(as_, n, j, m, c));
    }
  }

  /** A cell reached with one change at most, or in the first three columns, has one path. */
  lemma {:induction false} OnePath(as_: seq<Table>, n: nat, p: seq<nat>)
    requires ValidTables(as_, n) && IsPath(p) && Fits(p, n) && (Changes(p) <= 1 || |p| <= 3)
    ensures Met(as_, n, p)
    decreases |p|
  {
    var j: nat := |p| - 1;
    if j > 0 {
      var q, c := p[..j], Changes(p);
      PathSteps(as_, n, p);
      OnePath(as_, n, q);
      if p[j] == j {
        OnlyRow(as_, n, q);
        NothingBelow(as_, n, j - 1, j, c);
        JumpOnly(as_, n, j, c, j, p[j - 1]);
      }
    }
  }

  /** With one change at most, or four columns, the sum that is reported is the greatest. */
  lemma SmallIsOptimal(as_: seq<Table>, n: nat, maxChanges: nat)
    requires ValidTables(as_, n) && (maxChanges <= 1 || n <= 4)
    ensures SumOptimal(as_, n, maxChanges)
  {
    forall p: seq<nat> | Legal(p, n, maxChanges) ensures Covered(as_, n, p) {
      if Changes(p) <= 1 || n <= 3 {
        OnePath(as_, n, p);
      } else {
        PathSteps(as_, n, p);
        OnePath(as_, n, p[..n - 1]);
        MetCovers(as_, n, p);
      }
    }
    CoveredIsOptimal(as_, n, maxChanges);
  }

  /** No entry that a path can reach is below the first. */
  ghost predicate Flat(as_: seq<Table>, n: nat)
    requires ValidTables(as_, n)
  {
    forall i: nat, j: nat :: i <= j < n ==> CellMin(as_, n, i, j) >= CellMin(as_, n, 0, 0)
  }

  lemma {:induction false} FlatMin(as_: seq<Table>, n: nat, p: seq<nat>)
    requires ValidTables(as_, n) && Flat(as_, n) && IsPath(p) && Fits(p, n)
    ensures PathMin(as_, n, p) == CellMin(as_, n, 0, 0)
    decreases |p|
  {
    if |p| > 1 {
      PathSteps(as_, n, p);
      FlatMin(as_, n, p[..|p| - 1]);
    }
  }

  lemma {:induction false} FlatCovers(as_: seq<Table>, n: nat, p: seq<nat>)
    requires ValidTables(as_, n) && Flat(as_, n) && IsPath(p) && Fits(p, n)
    ensures Covered(as_, n, p) && Best(as_, n, |p| - 1, p[|p| - 1], Changes(p)).value.least == CellMin(as_, n, 0, 0)
    decreases |p|
  {
    var j: nat := |p| - 1;
    if j > 0 {
      var c := Changes(p);
      PathSteps(as_, n, p);
      FlatCovers(as_, n, p[..j]);
      FlatMin(as_, n, p);
      FlatMin(as_, n, p[..j]);
      if p[j] == j {
        JumpBeats(as_, n, j, c, j, Stay(as_, n, j, j, c), p[j - 1]);
      }
      TraceOk(as_, n, j, p[j], c);
      FlatMin(as_, n, Trace(as_, n, j, p[j], c));
    }
  }

  /** If no reachable entry is below the first, all paths tie, and the reported sum is the greatest. */
  lemma FlatIsOptimal(as_: seq<Table>, n: nat, maxChanges: nat)
    requires ValidTables(as_, n) && Flat(as_, n)
    ensures SumOptimal(as_, n, maxChanges)
  {
    forall p: seq<nat> | Legal(p, n, maxChanges) ensures Covered(as_, n, p) {
      FlatCovers(as_, n, p);
    }
    CoveredIsOptimal(as_, n, maxChanges);
  }

  // ---------------------------------------------------------------- and when it is not

  /** Row 3 is best reached through rows 0 and 2 for its least entry, and through row 1 for its sum. */
  function Entry(i: nat, j: nat): real {
    if i == 0 then (if j <= 2 then 5.0 else 0.0)
    else if i == 1 then (if j == 1 then 4.0 else if j == 2 then 100.0 else 0.0)
    else if i == 2 then (if j == 2 then 5.0 else 0.0)
    else if i == 3 then (if j == 3 then 5.0 else if j > 3 then 1.0 else 0.0)
    else 0.0
  }

  function Example(n: nat): seq<Table> {
    [seq(n, i => seq(n, j => if i < 0 || j < 0 then 0.0 else Entry(i, j)))]
  }

  lemma ExampleIsValid(n: nat)
    requires n > 0
    ensures ValidTables(Example(n), n)
  {
    assert Square(Example(n)[0], n);
  }

  lemma ExampleCell(n: nat, i: nat, j: nat)
    requires i < n && j < n
    ensures ValidTables(Example(n), n)
    ensures CellMin(Example(n), n, i, j) == CellSum(Example(n), n, i, j) == Entry(i, j)
  {
    ExampleIsValid(n);
    assert TotalAt(Example(n), n, 0, i, j) == 0.0;
    assert Example(n)[0][i][j] == Entry(i, j);
  }

  /** The step of a cell in the example. */
  lemma ExampleFrom(n: nat, j: nat, i: nat, c: nat)
    requires 0 < j < n && i < n && ValidTables(Example(n), n) && Best(Example(n), n, j, i, c).Some?
    ensures i <= j && (i == j ==> c > 0)
    ensures var cell := Best(Example(n), n, j, i, c).value;
      && 0 <= cell.prev < j && (i < j ==> cell.prev == i)
      && var before := Best(Example(n), n, j - 1, cell.prev, if i == j then c - 1 else c);
      before.Some? && cell.sum == before.value.sum + Entry(i, j) && cell.least == MinR(before.value.least, Entry(i, j))
  {
    BestFrom(Example(n), n, j, i, c);
    ExampleCell(n, i, j);
  }

  lemma ExampleStart(n: nat, i: nat, c: nat)
    requires i < n && ValidTables(Example(n), n)
    ensures Best(Example(n), n, 0, i, c) == if i == 0 && c == 0 then Some(Cell(5.0, 5.0, -1)) else None
  {
    ExampleCell(n, 0, 0);
  }

  /** The second column: row 0 without a change, row 1 with one. */
  lemma ColumnOne(n: nat, i: nat, c: nat)
    requires n >= 5 && i < n && ValidTables(Example(n), n)
    ensures Best(Example(n), n, 1, i, c) ==
      if i == 0 && c == 0 then Some(Cell(5.0, 10.0, 0)) else if i == 1 && c == 1 then Some(Cell(4.0, 9.0, 0)) else None
  {
    var a := Example(n);
    ExampleCell(n, 0, 1);
    ExampleCell(n, 1, 1);
    ExampleStart(n, 0, c);
    ExampleStart(n, i, c);
    if i == 1 && c > 0 {
      ExampleStart(n, 0, c - 1);
      assert Jump(a, n, 1, c, 0, None) == None;
    }
  }

  /** The third column. */
  lemma ColumnTwo(n: nat, i: nat, c: nat)
    requires n >= 5 && i < n && ValidTables(Example(n), n) && Best(Example(n), n, 2, i, c).Some?
    ensures Best(Example(n), n, 2, i, c).value.sum <= 15.0 || (i == 1 && c == 1)
  {
    ExampleFrom(n, 2, i, c);
    var prev: nat := Best(Example(n), n, 2, i, c).value.prev;
    ColumnOne(n, prev, if i == 2 then c - 1 else c);
  }

  lemma ColumnTwoOnce(n: nat)
    requires n >= 5 && ValidTables(Example(n), n)
    ensures Best(Example(n), n, 2, 0, 1) == None && Best(Example(n), n, 2, 1, 1) == Some(Cell(4.0, 109.0, 1))
    ensures Best(Example(n), n, 2, 2, 1) == Some(Cell(5.0, 15.0, 0))
  {
    var a := Example(n);
    ExampleCell(n, 1, 2);
    ExampleCell(n, 2, 2);
    ColumnOne(n, 0, 1);
    ColumnOne(n, 1, 1);
    ColumnOne(n, 2, 1);
    ColumnOne(n, 0, 0);
    ColumnOne(n, 1, 0);
    assert Stay(a, n, 2, 2, 1) == None;
    assert Jump(a, n, 2, 1, 0, None) == None;
    assert Jump(a, n, 2, 1, 1, None) == Some(Cell(5.0, 15.0, 0));
  }

  /** With two changes row 3 is reached through row 2, whose least entry is greater. */
  lemma ColumnThreeTwice(n: nat)
    requires n >= 5 && ValidTables(Example(n), n)
    ensures Best(Example(n), n, 3, 3, 2) == Some(Cell(5.0, 20.0, 2))
  {
    var a := Example(n);
    ColumnTwoOnce(n);
    ExampleCell(n, 3, 3);
    NothingBelow(a, n, 2, 3, 2);
    assert Stay(a, n, 3, 3, 2) == None;
    assert Jump(a, n, 3, 2, 0, None) == None;
    assert Jump(a, n, 3, 2, 1, None) == None;
    assert Jump(a, n, 3, 2, 2, None) == Some(Cell(4.0, 114.0, 1));
  }

  /** No cell of row 3 has more than its column's share beyond 20. */
  lemma {:induction false} RowThree(n: nat, j: nat, c: nat)
    requires n >= 5 && 3 <= j < n && ValidTables(Example(n), n) && Best(Example(n), n, j, 3, c).Some?
    ensures Best(Example(n), n, j, 3, c).value.sum <= 17.0 + j as real
    ensures j > 3 ==> Best(Example(n), n, j, 3, c).value.least <= 1.0
    decreases j
  {
    ExampleFrom(n, j, 3, c);
    if j > 3 {
      RowThree(n, j - 1, c);
    } else if c == 2 {
      ColumnThreeTwice(n);
    } else {
      ColumnTwo(n, Best(Example(n), n, 3, 3, c).value.prev, c - 1);
    }
  }

  lemma {:induction false} RowThreeTwice(n: nat, j: nat)
    requires n >= 5 && 3 <= j < n && ValidTables(Example(n), n)
    ensures Best(Example(n), n, j, 3, 2) ==
      if j == 3 then Some(Cell(5.0, 20.0, 2)) else Some(Cell(1.0, 17.0 + j as real, 3))
    decreases j
  {
    if j == 3 {
      ColumnThreeTwice(n);
    } else {
      RowThreeTwice(n, j - 1);
      ExampleCell(n, 3, j);
    }
  }

  /** So the last column reports least entry 1 and a sum without the entry 100. */
  lemma ExampleReports(n: nat, maxChanges: nat)
    requires n >= 5 && maxChanges >= 2
    ensures ValidTables(Example(n), n) && Reported(Example(n), n, maxChanges, 1.0, 16.0 + n as real)
  {
    ExampleIsValid(n);
    var a, j: nat := Example(n), n - 1;
    RowThreeTwice(n, j);
    forall i: nat, c: nat | i < n && c <= maxChanges ensures NoBetter(Best(a, n, j, i, c), Best(a, n, j, 3, 2)) {
      if Best(a, n, j, i, c).Some? {
        ExampleFrom(n, j, i, c);
        if i == 3 {
          RowThree(n, j, c);
        }
      }
    }
    assert IsReported(a, n, maxChanges, 3, 2);
  }

  /** The path over the entry 100. */
  function Detour(n: nat): seq<nat>
    requires n >= 4
  {
    if n == 4 then [0, 1, 1, 3] else Detour(n - 1) + [3]
  }

  lemma DetourStarts(n: nat)
    requires n >= 5 && ValidTables(Example(n), n)
    ensures var p := Detour(4);
      IsPath(p) && Fits(p, n) && Changes(p) == 2 && PathMin(Example(n), n, p) == 4.0 && PathSum(Example(n), n, p) == 114.0
  {
    var a, p1, p2, p3 := Example(n), [0], [0, 1], [0, 1, 1];
    ExampleCell(n, 0, 0);
    ExampleCell(n, 1, 1);
    ExampleCell(n, 1, 2);
    ExampleCell(n, 3, 3);
    assert p1 + [1] == p2 && p2 + [1] == p3 && p3 + [3] == Detour(4);
    PathExtends(a, n, p1, 1);
    PathExtends(a, n, p2, 1);
    PathExtends(a, n, p3, 3);
  }

  ghost predicate Worth(as_: seq<Table>, n: nat, p: seq<nat>, m: nat)
    requires ValidTables(as_, n)
  {
    && |p| == m && m > 0 && p[m - 1] == 3 && IsPath(p) && Fits(p, n) && Changes(p) == 2
    && PathMin(as_, n, p) == (if m == 4 then 4.0 else 1.0) && PathSum(as_, n, p) == 110.0 + m as real
  }

  lemma WorthStep(n: nat, p: seq<nat>, m: nat)
    requires n >= 5 && 4 <= m < n && ValidTables(Example(n), n) && Worth(Example(n), n, p, m)
    ensures Worth(Example(n), n, p + [3], m + 1)
  {
    ExampleCell(n, 3, m);
    PathExtends(Example(n), n, p, 3);
    hide IsPath, Fits, Changes, PathMin, PathSum, CellMin, CellSum, Example;
  }

  lemma {:induction false} DetourWorth(n: nat, m: nat)
    requires n >= 5 && 4 <= m <= n && ValidTables(Example(n), n)
    ensures Worth(Example(n), n, Detour(m), m)
    decreases m
  {
    if m == 4 {
      DetourStarts(n);
    } else {
      DetourWorth(n, m - 1);
      WorthStep(n, Detour(m - 1), m - 1);
    }
  }

  /**
   From five columns and two changes on there are tables on which the reported sum is not the
   greatest: ties are broken column by column, where a lower bottleneck still loses.
   */
  lemma SumIsNotOptimal(n: nat, maxChanges: nat)
    requires n >= 5 && maxChanges >= 2
    ensures ValidTables(Example(n), n) && !SumOptimal(Example(n), n, maxChanges)
  {
    ExampleReports(n, maxChanges);
    DetourWorth(n, n);
    assert Legal(Detour(n), n, maxChanges);
  }

  /** The reported sum is always the greatest exactly if one change is allowed at most or there are four columns at most. */
  lemma SumOptimalExact(n: nat, maxChanges: nat)
    requires n > 0
    ensures (forall as_: seq<Table> :: ValidTables(as_, n) ==> SumOptimal(as_, n, maxChanges))
      <==> maxChanges <= 1 || n <= 4
  {
    if maxChanges <= 1 || n <= 4 {
      forall as_: seq<Table> | ValidTables(as_, n) ensures SumOptimal(as_, n, maxChanges) {
        SmallIsOptimal(as_, n, maxChanges);
      }
    } else {
      SumIsNotOptimal(n, maxChanges);
    }
  }

  // ---------------------------------------------------------------- the program

  /** Column j of `dp` is filled in. */
  ghost predicate ColumnOk(dp: array3<Option<Cell>>, as_: seq<Table>, n: nat, j: nat)
    reads dp
    requires ValidTables(as_, n) && j < n == dp.Length0 == dp.Length1
  {
    forall i: nat, c: nat :: i < n && c < dp.Length2 ==> dp[j, i, c] == Best(as_, n, j, i, c)
  }

  /** The body of the three inner loops: a stay, or the best jump. */
  method Candidate(dp: array3<Option<Cell>>, as_: seq<Table>, n: nat, j: nat, i: nat, c: nat)
    returns (best: Option<Cell>)
    requires ValidTables(as_, n) && 0 < j < n == dp.Length0 == dp.Length1 && i <= j && c < dp.Length2
    requires ColumnOk(dp, as_, n, j - 1)
    ensures best == Best(as_, n, j, i, c)
  {
    best := None;
    if dp[j - 1, i, c].Some? {
      best := Pick(best, Extend(as_, n, dp[j - 1, i, c].value, i, j, i));
    }
    assert best == Stay(as_, n, j, i, c);
    if i == j && c > 0 {
      for k := 0 to j
        invariant best == Jump(as_, n, j, c, k, Stay(as_, n, j, j, c))
      {
        if dp[j - 1, k, c - 1].Some? {
          best := Pick(best, Extend(as_, n, dp[j - 1, k, c - 1].value, j, j, k));
        }
      }
    }
  }

  /** Cells of column j before (i, c) are filled in; the rest of the column is empty. */
  ghost predicate Filled(dp: array3<Option<Cell>>, as_: seq<Table>, n: nat, j: nat, i: nat, c: nat)
    reads dp
    requires ValidTables(as_, n) && j < n == dp.Length0 == dp.Length1
  {
    forall i': nat, c': nat :: i' < n && c' < dp.Length2 ==>
      dp[j, i', c'] == if i' < i || (i' == i && c' < c) then Best(as_, n, j, i', c') else None
  }

  method FillColumn(dp: array3<Option<Cell>>, as_: seq<Table>, n: nat, j: nat)
    requires ValidTables(as_, n) && 0 < j < n == dp.Length0 == dp.Length1
    requires ColumnOk(dp, as_, n, j - 1) && Filled(dp, as_, n, j, 0, 0)
    modifies dp
    ensures ColumnOk(dp, as_, n, j)
    ensures forall j', i', c' :: 0 <= j' < n && 0 <= i' < n && 0 <= c' < dp.Length2 && j' != j ==>
      dp[j', i', c'] == old(dp[j', i', c'])
  {
    hide Best;
    for i := 0 to j + 1
      invariant Filled(dp, as_, n, j, i, 0)
      invariant forall j', i', c' :: 0 <= j' < n && 0 <= i' < n && 0 <= c' < dp.Length2 && j' != j ==>
        dp[j', i', c'] == old(dp[j', i', c'])
    {
      for c := 0 to dp.Length2
        invariant Filled(dp, as_, n, j, i, c)
        invariant forall j', i', c' :: 0 <= j' < n && 0 <= i' < n && 0 <= c' < dp.Length2 && j' != j ==>
          dp[j', i', c'] == old(dp[j', i', c'])
      {
        var best := Candidate(dp, as_, n, j, i, c);
        if best.Some? {
          dp[j, i, c] := best;
        }
      }
    }
    forall i: nat, c: nat | i < n && c < dp.Length2 && i > j ensures Best(as_, n, j, i, c).None? {
      NothingBelow(as_, n, j, i, c);
    }
  }

  method FillTable(as_: seq<Table>, n: nat, maxChanges: nat) returns (dp: array3<Option<Cell>>)
    requires ValidTables(as_, n)
    ensures dp.Length0 == dp.Length1 == n && dp.Length2 == maxChanges + 1
    ensures forall j: nat :: j < n ==> ColumnOk(dp, as_, n, j)
  {
    dp := new Option<Cell>[n, n, maxChanges + 1]((_, _, _) => None);
    dp[0, 0, 0] := Some(Cell(CellMin(as_, n, 0, 0), CellSum(as_, n, 0, 0), -1));
    assert ColumnOk(dp, as_, n, 0);
    hide Best;
    for j := 1 to n
      invariant forall j': nat :: j' < j ==> ColumnOk(dp, as_, n, j')
      invariant forall j', i', c' :: j <= j' < n && 0 <= i' < n && 0 <= c' < dp.Length2 ==> dp[j', i', c'] == None
    {
      label before:
      assert forall j': nat :: j' < j ==> ColumnOk(dp, as_, n, j');
      FillColumn(dp, as_, n, j);
      forall j': nat | j' < j ensures ColumnOk(dp, as_, n, j') {
        assert old@before(ColumnOk(dp, as_, n, j'));
        assert forall i: nat, c: nat :: i < n && c < dp.Length2 ==> dp[j', i, c] == old@before(dp[j', i, c]);
      }
    }
  }

  /** No cell of column j before (i, c) is better than `best`. */
  ghost predicate Covers(dp: array3<Option<Cell>>, j: nat, i: nat, c: nat, best: Option<Cell>)
    reads dp
    requires j < dp.Length0
  {
    forall i': nat, c': nat :: i' < dp.Length1 && c' < dp.Length2 && (i' < i || (i' == i && c' < c)) ==>
      NoBetter(dp[j, i', c'], best)
  }

  predicate NoBetter(a: Option<Cell>, best: Option<Cell>) {
    a.Some? ==> best.Some? && !Lex(a.value, best.value)
  }

  /** The best cell of the last column. */
  method SelectBest(dp: array3<Option<Cell>>, n: nat) returns (best: Option<Cell>, bestI: nat, bestC: nat)
    requires 0 < n == dp.Length0 == dp.Length1
    ensures best.Some? ==> bestI < n && bestC < dp.Length2 && dp[n - 1, bestI, bestC] == best
    ensures Covers(dp, n - 1, n, 0, best)
  {
    best, bestI, bestC := None, 0, 0;
    var j := n - 1;
    for i := 0 to n
      invariant best.Some? ==> bestI < n && bestC < dp.Length2 && dp[j, bestI, bestC] == best
      invariant Covers(dp, j, i, 0, best)
    {
      for c := 0 to dp.Length2
        invariant best.Some? ==> bestI < n && bestC < dp.Length2 && dp[j, bestI, bestC] == best
        invariant Covers(dp, j, i, c, best)
      {
        var cell := dp[j, i, c];
        if cell.Some? && (best.None? || Lex(cell.value, best.value)) {
          best, bestI, bestC := cell, i, c;
        }
      }
    }
  }

  /** The walk along the back pointers, last column first. */
  method Backtrack(dp: array3<Option<Cell>>, as_: seq<Table>, n: nat, bestI: nat, bestC: nat) returns (path: seq<nat>)
    requires ValidTables(as_, n) && n == dp.Length0 == dp.Length1 && bestI < n && bestC < dp.Length2
    requires (forall j: nat :: j < n ==> ColumnOk(dp, as_, n, j)) && Best(as_, n, n - 1, bestI, bestC).Some?
    ensures path == Trace(as_, n, n - 1, bestI, bestC)
  {
    path := [];
    var i, c, j: int := bestI, bestC, n - 1;
    while j >= 0
      invariant -1 <= j < n
      invariant j >= 0 ==> 0 <= i < n && 0 <= c < dp.Length2 && Best(as_, n, j, i, c).Some?
      invariant j >= 0 ==> Trace(as_, n, n - 1, bestI, bestC) == Trace(as_, n, j, i, c) + path
      invariant j < 0 ==> path == Trace(as_, n, n - 1, bestI, bestC)
    {
      assert ColumnOk(dp, as_, n, j);
      path := [i] + path;
      var prev := dp[j, i, c].value.prev;
      if j > 0 {
        BestFrom(as_, n, j, i, c);
      }
      hide Best;
      if i == j && c > 0 {
        c := c - 1;
      }
      i := prev;
      j := j - 1;
    }
  }

  /**
   The plan: its path is legal, uses `changes` changes, has the reported least entry and sum, and
   no legal path has a greater least entry. There always is one.
   */
  method BestPathMinSum(as_: seq<Table>, n: nat, maxChanges: nat)
    returns (changes: nat, least: real, sum: real, path: seq<nat>)
    requires ValidTables(as_, n)
    ensures |path| == n && IsPath(path) && Fits(path, n) && Changes(path) == changes <= maxChanges
    ensures PathMin(as_, n, path) == least && PathSum(as_, n, path) == sum
    ensures AllAtLeast(as_, n, path, least) && SomeAtMost(as_, n, path, least)
    ensures forall p: seq<nat> :: Legal(p, n, maxChanges) ==> SomeAtMost(as_, n, p, least)
    ensures sum == TablesSum(as_, n, |as_|, path)
    ensures Reported(as_, n, maxChanges, least, sum)
  {
    var dp := FillTable(as_, n, maxChanges);
    var best, i, c := SelectBest(dp, n);
    assert ColumnOk(dp, as_, n, n - 1);
    forall p: seq<nat> | Legal(p, n, maxChanges) ensures best.Some? && SomeAtMost(as_, n, p, best.value.least) {
      BestBeats(as_, n, p);
      assert NoBetter(dp[n - 1, p[n - 1], Changes(p)], best);
      PathMinIs(as_, n, p);
      LessWillDo(as_, n, p, PathMin(as_, n, p), best.value.least);
    }
    assert Legal(StayPut(n), n, maxChanges) by {
      StayPutIsLegal(n);
    }
    var j: nat := n - 1;
    forall i': nat, c': nat | i' < n && c' <= maxChanges ensures NoBetter(Best(as_, n, j, i', c'), best) {
      assert NoBetter(dp[j, i', c'], best);
    }
    assert IsReported(as_, n, maxChanges, i, c);
    TraceOk(as_, n, n - 1, i, c);
    path := Backtrack(dp, as_, n, i, c);
    changes, least, sum := c, best.value.least, best.value.sum;
    PathMinIs(as_, n, path);
    PathSumIs(as_, n, path);
  }

  lemma LessWillDo(as_: seq<Table>, n: nat, p: seq<nat>, a: real, b: real)
    requires ValidTables(as_, n) && Fits(p, n) && SomeAtMost(as_, n, p, a) && a <= b
    ensures SomeAtMost(as_, n, p, b)
  {
  }

  function StayPut(n: nat): seq<nat> {
    seq(n, _ => 0)
  }

  lemma {:induction false} StayPutIsLegal(n: nat)
    requires n > 0
    ensures IsPath(StayPut(n)) && Fits(StayPut(n), n) && Changes(StayPut(n)) == 0
  {
    if n > 1 {
      StayPutIsLegal(n - 1);
      assert StayPut(n)[..n - 1] == StayPut(n - 1);
    }
  }
}
