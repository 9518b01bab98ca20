/** The error injector of the testing mode: `inject_errors` corrupts a
    number of randomly chosen cells of a table in place. */
module Testers {
  import opened Values
  import opened Oracle

  /** A table's cells, row by row. */
  type Grid = seq<seq<Value>>

  /** Every row has `cols` cells. */
  predicate Rect(g: Grid, cols: nat)
  {
    forall i :: 0 <= i < |g| ==> |g[i]| == cols
  }

  /** Column `c` of a grid, top to bottom. */
  function Column(g: Grid, c: nat): (col: seq<Value>)
    requires forall i :: 0 <= i < |g| ==> c < |g[i]|
    ensures |col| == |g|
    ensures forall i :: 0 <= i < |g| ==> col[i] == g[i][c]
  {
    seq(|g|, i requires 0 <= i < |g| => g[i][c])
  }

  /** Whether pandas treats the column as numeric: every non-null cell is
      an int. */
  predicate Numeric(col: seq<Value>)
  {
    forall i :: 0 <= i < |col| ==> col[i].VNull? || col[i].VInt?
  }

  /** `col.dropna().max()`, or nothing when no int is left. */
  function ColumnMax(col: seq<Value>): (m: Option<int>)
    ensures m.None? <==> forall i :: 0 <= i < |col| ==> !col[i].VInt?
    ensures m.Some? ==> exists i :: 0 <= i < |col| && col[i] == VInt(m.value)
    ensures m.Some? ==> forall i :: 0 <= i < |col| && col[i].VInt? ==> col[i].i <= m.value
  {
    if col == [] then None
    else
      var rest, last := ColumnMax(col[..|col| - 1]), col[|col| - 1];
      assert forall i :: 0 <= i < |col| - 1 ==> col[..|col| - 1][i] == col[i];
      if !last.VInt? then rest
      else if rest.Some? && rest.value >= last.i then rest
      else Some(last.i)
  }

  const WrongTypeMarker := "WRONG_TYPE_INJECTED"
  const OutlierMarker := "OUTLIER_VALUE"
  /** The outlier stored in a numeric column with no value left. */
  const NoMaxOutlier := 999999

  datatype ErrorKind = Empty | WrongType | Outlier

  /** The list the kind is chosen from, in the source's order. */
  const Kinds: seq<ErrorKind> := [Empty, WrongType, Outlier]

  /** `random.choice(["empty", "wrong_type", "outlier"])` for the raw draw
      `pick`; each kind is drawn by its own position. */
  function KindOf(pick: nat): (k: ErrorKind)
    ensures k in Kinds
    ensures pick < |Kinds| ==> k == Kinds[pick]
  {
    Kinds[Choose(pick, |Kinds|)]
  }

  /** The random draws of one attempt: the row, the column and the kind
      (each reduced modulo the number of choices), and whether the outlier
      computation raises. */
  datatype Attempt = Attempt(rowPick: nat, colPick: nat, kindPick: nat, raises: bool)

  /** The value an attempt of kind `kind` stores in a cell of column `col`.
      An outlier is 1000 times the column's largest value; 999999 when a
      numeric column holds no value; a marker string when the column is
      not numeric; and `None` when the computation raises. */
  function Corruption(col: seq<Value>, kind: ErrorKind, raises: bool): (v: Value)
    ensures kind == Empty ==> v == VNull
    ensures kind == WrongType ==> v == VStr(WrongTypeMarker)
    ensures kind == Outlier && raises ==> v == VNull
    ensures kind == Outlier && !raises && !Numeric(col) ==> v == VStr(OutlierMarker)
    ensures kind == Outlier && !raises && Numeric(col) && (forall i :: 0 <= i < |col| ==> col[i].VNull?) ==>
              v == VInt(NoMaxOutlier)
    ensures kind == Outlier && !raises && Numeric(col) && (exists i :: 0 <= i < |col| && col[i].VInt?) ==>
              exists i :: && 0 <= i < |col| && col[i].VInt? && v == VInt(1000 * col[i].i)
                          && forall j :: 0 <= j < |col| && col[j].VInt? ==> col[j].i <= col[i].i
  {
    match kind
    case Empty => VNull
    case WrongType => VStr(WrongTypeMarker)
    case Outlier =>
      if raises then VNull
      else if !Numeric(col) then VStr(OutlierMarker)
      else
        var m := ColumnMax(col);
        if m.Some? then VInt(m.value * 1000) else VInt(NoMaxOutlier)
  }

  /** The cell an attempt chooses in a grid of `rows` by `cols`. */
  function Target(a: Attempt, rows: nat, cols: nat): (t: (nat, nat))
    requires rows > 0 && cols > 0
    ensures t.0 < rows && t.1 < cols
  {
    (Choose(a.rowPick, rows), Choose(a.colPick, cols))
  }

  /** Grid `g` with cell `(r, c)` set to `v`. */
  function Overwrite(g: Grid, cols: nat, r: nat, c: nat, v: Value): (g': Grid)
    requires Rect(g, cols) && r < |g| && c < cols
    ensures |g'| == |g| && Rect(g', cols)
    ensures g'[r][c] == v
    ensures forall i, j :: 0 <= i < |g| && 0 <= j < cols && (i != r || j != c) ==> g'[i][j] == g[i][j]
  {
    g[r := g[r][c := v]]
  }

  /** One attempt: it overwrites its target cell and nothing else. */
  function Step(g: Grid, cols: nat, a: Attempt): (g': Grid)
    requires Rect(g, cols) && |g| > 0 && cols > 0
    ensures |g'| == |g| && Rect(g', cols)
    ensures var t := Target(a, |g|, cols);
            g'[t.0][t.1] == Corruption(Column(g, t.1), KindOf(a.kindPick), a.raises)
  {
    var t := Target(a, |g|, cols);
    Overwrite(g, cols, t.0, t.1, Corruption(Column(g, t.1), KindOf(a.kindPick), a.raises))
  }

  /** The cells an attempt does not target keep their values. */
  lemma StepOther(g: Grid, cols: nat, a: Attempt, i: nat, j: nat)
    requires Rect(g, cols) && |g| > 0 && cols > 0 && i < |g| && j < cols
    requires Target(a, |g|, cols) != (i, j)
    ensures Step(g, cols, a)[i][j] == g[i][j]
  {
  }

  /** The first `k` attempts, in order. */
  function InjectN(g: Grid, cols: nat, draws: nat -> Attempt, k: nat): (g': Grid)
    requires Rect(g, cols) && |g| > 0 && cols > 0
    ensures |g'| == |g| && Rect(g', cols)
  {
    if k == 0 then g else Step(InjectN(g, cols, draws, k - 1), cols, draws(k - 1))
  }

  /** `int(x)` on a float: truncation toward zero. */
  function Trunc(x: real): (r: int)
    ensures x >= 0.0 ==> r as real <= x < r as real + 1.0
    ensures x < 0.0 ==> r as real - 1.0 < x <= r as real
  {
    if x >= 0.0 then x.Floor else -((-x).Floor)
  }

  /** `n_errors = max(1, int(total_cells * error_rate))`. */
  function ErrorCount(rows: nat, cols: nat, rate: real): (n: int)
    ensures n >= 1
  {
    Max(1, Trunc((rows * cols) as real * rate))
  }

  /** At least one attempt, and otherwise the product of the number of
      cells and the rate, rounded down. */
  lemma ErrorCountMeaning(rows: nat, cols: nat, rate: real)
    ensures var x, n := (rows * cols) as real * rate, ErrorCount(rows, cols, rate);
            && (x >= 1.0 ==> n as real <= x < n as real + 1.0)
            && (x < 1.0 ==> n == 1)
  {
  }

  /** A table with at least one row and one column has at least one cell. */
  lemma CellsPositive(rows: nat, cols: nat)
    requires rows > 0 && cols > 0
    ensures rows * cols >= 1
  {
  }

  /** Truncating a fraction in [0, 1] of `n` gives at most `n`. */
  lemma TruncAtMost(n: int, r: real)
    requires n >= 1 && 0.0 <= r <= 1.0
    ensures Trunc(n as real * r) <= n
  {
    var c := n as real;
    assert 0.0 <= c * r <= c by {
      assert c * r <= c * 1.0;
    }
    assert Trunc(c * r) as real <= c;
  }

  /** With a rate in [0, 1] there are at most as many attempts as cells. */
  lemma ErrorCountAtMostCells(rows: nat, cols: nat, rate: real)
    requires rows > 0 && cols > 0 && 0.0 <= rate <= 1.0
    ensures ErrorCount(rows, cols, rate) <= rows * cols
  {
    CellsPositive(rows, cols);
    TruncAtMost(rows * cols, rate);
  }

  /** The test's table of 10 rows and 2 columns at rate 0.5 gets 10 attempts;
      a tiny rate still gets one. */
  lemma ErrorCountExamples()
    ensures ErrorCount(10, 2, 0.5) == 10
    ensures ErrorCount(10, 2, 0.01) == 1
  {
    assert (10 * 2) as real * 0.5 == 10.0;
  }

  /** `inject_errors(df, error_rate)` on the table's cells: an empty table
      is left as it is; otherwise `n_errors` attempts run in order. */
  function Inject(g: Grid, cols: nat, rate: real, draws: nat -> Attempt): (g': Grid)
    requires Rect(g, cols)
    ensures |g'| == |g| && Rect(g', cols)
    ensures |g| == 0 || cols == 0 ==> g' == g
  {
    if |g| == 0 || cols == 0 then g else InjectN(g, cols, draws, ErrorCount(|g|, cols, rate))
  }

  /** None of the first `k` attempts targets cell `(i, j)`. */
  predicate Untargeted(draws: nat -> Attempt, k: nat, rows: nat, cols: nat, i: nat, j: nat)
    requires rows > 0 && cols > 0
  {
    k == 0 || (Untargeted(draws, k - 1, rows, cols, i, j) && Target(draws(k - 1), rows, cols) != (i, j))
  }

  lemma {:induction false} UntargetedAll(draws: nat -> Attempt, k: nat, rows: nat, cols: nat, i: nat, j: nat)
    requires rows > 0 && cols > 0
    requires forall t :: 0 <= t < k ==> Target(draws(t), rows, cols) != (i, j)
    ensures Untargeted(draws, k, rows, cols, i, j)
  {
    if k > 0 {
      UntargetedAll(draws, k - 1, rows, cols, i, j);
    }
  }

  /** A cell no attempt targets keeps its value. */
  lemma {:induction false} InjectNUntouched(g: Grid, cols: nat, draws: nat -> Attempt, k: nat, i: nat, j: nat)
    requires Rect(g, cols) && |g| > 0 && cols > 0 && i < |g| && j < cols
    requires Untargeted(draws, k, |g|, cols, i, j)
    ensures InjectN(g, cols, draws, k)[i][j] == g[i][j]
  {
    if k > 0 {
      InjectNUntouched(g, cols, draws, k - 1, i, j);
      StepOther(InjectN(g, cols, draws, k - 1), cols, draws(k - 1), i, j);
    }
  }

  /** Only the cells the `n_errors` attempts target can change. */
  lemma InjectUntouched(g: Grid, cols: nat, rate: real, draws: nat -> Attempt, i: nat, j: nat)
    requires Rect(g, cols) && i < |g| && j < cols
    requires forall t :: 0 <= t < ErrorCount(|g|, cols, rate) ==> Target(draws(t), |g|, cols) != (i, j)
    ensures Inject(g, cols, rate, draws)[i][j] == g[i][j]
  {
    if |g| > 0 {
      UntargetedAll(draws, ErrorCount(|g|, cols, rate), |g|, cols, i, j);
      InjectNUntouched(g, cols, draws, ErrorCount(|g|, cols, rate), i, j);
    }
  }

  /** The cell the last attempt targets holds what that attempt stored, so
      a non-empty table always ends with at least one injected value. */
  lemma InjectLastAttempt(g: Grid, cols: nat, rate: real, draws: nat -> Attempt)
    requires Rect(g, cols) && |g| > 0 && cols > 0
    ensures var n := ErrorCount(|g|, cols, rate);
            var a := draws(n - 1);
            var t := Target(a, |g|, cols);
            Inject(g, cols, rate, draws)[t.0][t.1]
              == Corruption(Column(InjectN(g, cols, draws, n - 1), t.1), KindOf(a.kindPick), a.raises)
  {
    var n := ErrorCount(|g|, cols, rate);
    assert Inject(g, cols, rate, draws) == InjectN(g, cols, draws, n);
    assert InjectN(g, cols, draws, n) == Step(InjectN(g, cols, draws, n - 1), cols, draws(n - 1));
  }

  /** A table held in place: a two-dimensional array of cells that the
      injector overwrites. */
  class Frame {
    const cells: array2<Value>

    constructor (rows: nat, cols: nat, fill: Value)
      ensures cells.Length0 == rows && cells.Length1 == cols
      ensures forall i, j :: 0 <= i < rows && 0 <= j < cols ==> cells[i, j] == fill
      ensures fresh(cells)
    {
      cells := new Value[rows, cols]((i, j) => fill);
    }

    /** The cells as a grid of values. */
    ghost function Grid(): (g: Grid)
      reads cells
      ensures |g| == cells.Length0 && Rect(g, cells.Length1)
      ensures forall i, j :: 0 <= i < cells.Length0 && 0 <= j < cells.Length1 ==> g[i][j] == cells[i, j]
    {
      seq(cells.Length0, i requires 0 <= i < cells.Length0 reads cells =>
        seq(cells.Length1, j reads cells requires 0 <= i < cells.Length0 && 0 <= j < cells.Length1 => cells[i, j]))
    }
  }

  /** `df[col]`: column `col` of the frame, read from the array. */
  method ColumnOf(df: Frame, col: nat) returns (current: seq<Value>)
    requires col < df.cells.Length1
    ensures current == Column(df.Grid(), col)
  {
    current := [];
    for i := 0 to df.cells.Length0
      invariant |current| == i
      invariant forall t :: 0 <= t < i ==> current[t] == df.cells[t, col]
    {
      current := current + [df.cells[i, col]];
    }
  }

  /** The value one attempt of kind `kind` stores in column `col`, read
      from the frame as it is before the attempt. */
  method CorruptionOf(df: Frame, col: nat, kind: ErrorKind, raises: bool) returns (v: Value)
    requires col < df.cells.Length1
    ensures v == Corruption(Column(df.Grid(), col), kind, raises)
  {
    match kind {
      case Empty =>
        v := VNull;
      case WrongType =>
        v := VStr(WrongTypeMarker);
      case Outlier =>
        if raises {
          v := VNull;
        } else {
          var current := ColumnOf(df, col);
          if Numeric(current) {
            var m := ColumnMax(current);
            v := if m.Some? then VInt(m.value * 1000) else VInt(NoMaxOutlier);
          } else {
            v := VStr(OutlierMarker);
          }
        }
    }
  }

  /** One attempt of the injection loop, done in place. */
  method InjectOne(df: Frame, a: Attempt)
    requires df.cells.Length0 > 0 && df.cells.Length1 > 0
    modifies df.cells
    ensures df.Grid() == Step(old(df.Grid()), df.cells.Length1, a)
  {
    var rows, cols := df.cells.Length0, df.cells.Length1;
    ghost var before := df.Grid();
    var idx, col := Choose(a.rowPick, rows), Choose(a.colPick, cols);
    var v := CorruptionOf(df, col, KindOf(a.kindPick), a.raises);
    df.cells[idx, col] := v;
    ghost var after := Overwrite(before, cols, idx, col, v);
    assert Step(before, cols, a) == after;
    forall i | 0 <= i < rows
      ensures df.Grid()[i] == after[i]
    {
    }
  }

  /** `inject_errors(df, error_rate)`: the frame's cells end as `Inject`
      says, changed in place, and the same frame is returned. */
  method InjectErrors(df: Frame, errorRate: real, draws: nat -> Attempt) returns (r: Frame)
    modifies df.cells
    ensures r == df
    ensures df.Grid() == Inject(old(df.Grid()), df.cells.Length1, errorRate, draws)
  {
    var rows, cols := df.cells.Length0, df.cells.Length1;
    if rows == 0 || cols == 0 {
      return df;
    }
    ghost var g0 := df.Grid();
    var n := ErrorCount(rows, cols, errorRate);
    var k := 0;
    while k < n
      invariant 0 <= k <= n
      invariant df.Grid() == InjectN(g0, cols, draws, k)
      decreases n - k
    {
      ghost var before := df.Grid();
      InjectOne(df, draws(k));
      assert df.Grid() == Step(before, cols, draws(k));
      assert InjectN(g0, cols, draws, k + 1) == Step(before, cols, draws(k));
      k := k + 1;
    }
    return df;
  }
}
