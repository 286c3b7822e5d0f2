/** The header scans the month-column detectors share. A detector walks a
    window of the sheet row by row and column by column, normalises each
    cell to a month name or nothing, and records the month's column in a
    map: either only when the month is not recorded yet (first occurrence
    wins) or always (last occurrence wins). The scans are written as folds
    in the order the loops visit the cells; the detectors' loops are proved
    equal to them. */
module Scan {
  import opened Sheet
  import opened Months

  /** A header normaliser: the month a cell names, or None. */
  type Norm = Cell -> Option<string>

  /** Record column col for the month unless there is no month or it was recorded already (the first occurrence wins). */
  function KeepFirst(acc: map<string, nat>, m: Option<string>, col: nat): map<string, nat>
  {
    if m.Some? && m.value !in acc then acc[m.value := col] else acc
  }

  /** Record column col for the month when there is one, overwriting an earlier column (the last occurrence wins). */
  function KeepLast(acc: map<string, nat>, m: Option<string>, col: nat): map<string, nat>
  {
    if m.Some? then acc[m.value := col] else acc
  }

  /** Columns 0 .. c-1 of row r visited left to right, first occurrence winning. */
  function FirstInRow(norm: Norm, g: Grid, r: nat, c: nat, acc: map<string, nat>): map<string, nat>
  {
    if c == 0 then acc else KeepFirst(FirstInRow(norm, g, r, c - 1, acc), norm(At(g, r, c - 1)), c - 1)
  }

  /** Rows 0 .. rows-1 by columns 0 .. cols-1 in row-major order, first
      occurrence winning over everything already in seed. */
  function FirstInWindow(norm: Norm, g: Grid, rows: nat, cols: nat, seed: map<string, nat>): map<string, nat>
  {
    if rows == 0 then seed
    else FirstInRow(norm, g, rows - 1, cols, FirstInWindow(norm, g, rows - 1, cols, seed))
  }

  /** Columns 0 .. c-1 of row r visited left to right, last occurrence winning. */
  function LastInRow(norm: Norm, g: Grid, r: nat, c: nat): map<string, nat>
  {
    if c == 0 then map[] else KeepLast(LastInRow(norm, g, r, c - 1), norm(At(g, r, c - 1)), c - 1)
  }

  /** The cell (r', c') comes before the cell (r, c) in a row-major walk of
      a window `cols` wide. */
  predicate Before(r': int, c': int, r: int, c: int, cols: int)
  {
    0 <= r' && 0 <= c' && ((r' < r && c' < cols) || (r' == r && c' < c))
  }

  /** Some cell of columns 0 .. c-1 of row r names month m. */
  predicate InRow(norm: Norm, g: Grid, r: nat, c: nat, m: string)
  {
    exists k :: 0 <= k < c && norm(At(g, r, k)) == Some(m)
  }

  /** Some cell of the window names month m. */
  predicate InWindow(norm: Norm, g: Grid, rows: nat, cols: nat, m: string)
  {
    exists r, k :: 0 <= r < rows && 0 <= k < cols && norm(At(g, r, k)) == Some(m)
  }

  // ---------------------------------------------------------------------
  // First occurrence within a row

  /** A row scan records exactly the months already recorded and those the row names. */
  lemma {:induction false} RowKeys(norm: Norm, g: Grid, r: nat, c: nat, acc: map<string, nat>, m: string)
    ensures m in FirstInRow(norm, g, r, c, acc) <==> m in acc || InRow(norm, g, r, c, m)
  {
    if c > 0 {
      RowKeys(norm, g, r, c - 1, acc, m);
      if InRow(norm, g, r, c, m) && !InRow(norm, g, r, c - 1, m) {
        assert norm(At(g, r, c - 1)) == Some(m);
      }
    }
  }

  /** A row scan never changes a month already recorded. */
  lemma {:induction false} RowKeeps(norm: Norm, g: Grid, r: nat, c: nat, acc: map<string, nat>, m: string)
    requires m in acc
    ensures m in FirstInRow(norm, g, r, c, acc) && FirstInRow(norm, g, r, c, acc)[m] == acc[m]
  {
    if c > 0 {
      RowKeeps(norm, g, r, c - 1, acc, m);
    }
  }

  /** A month the row scan adds is recorded at the first column of the row
      that names it. */
  lemma {:induction false} RowFirst(norm: Norm, g: Grid, r: nat, c: nat, acc: map<string, nat>, m: string)
    requires m in FirstInRow(norm, g, r, c, acc) && m !in acc
    ensures var k := FirstInRow(norm, g, r, c, acc)[m];
            k < c && norm(At(g, r, k)) == Some(m) && forall j :: 0 <= j < k ==> norm(At(g, r, j)) != Some(m)
  {
    var prev := FirstInRow(norm, g, r, c - 1, acc);
    if m in prev {
      RowFirst(norm, g, r, c - 1, acc, m);
    } else {
      RowKeys(norm, g, r, c - 1, acc, m);
    }
  }

  // ---------------------------------------------------------------------
  // First occurrence within a window

  /** A window scan records exactly the seed's months and those the window names. */
  lemma {:induction false} WindowKeys(norm: Norm, g: Grid, rows: nat, cols: nat, seed: map<string, nat>, m: string)
    ensures m in FirstInWindow(norm, g, rows, cols, seed) <==> m in seed || InWindow(norm, g, rows, cols, m)
  {
    if rows > 0 {
      var prev := FirstInWindow(norm, g, rows - 1, cols, seed);
      WindowKeys(norm, g, rows - 1, cols, seed, m);
      RowKeys(norm, g, rows - 1, cols, prev, m);
      if InWindow(norm, g, rows, cols, m) {
        var r, k :| 0 <= r < rows && 0 <= k < cols && norm(At(g, r, k)) == Some(m);
        if r == rows - 1 { assert InRow(norm, g, rows - 1, cols, m); }
        else { assert InWindow(norm, g, rows - 1, cols, m); }
      }
      if InRow(norm, g, rows - 1, cols, m) {
        var k :| 0 <= k < cols && norm(At(g, rows - 1, k)) == Some(m);
        assert InWindow(norm, g, rows, cols, m);
      }
      if InWindow(norm, g, rows - 1, cols, m) {
        var r, k :| 0 <= r < rows - 1 && 0 <= k < cols && norm(At(g, r, k)) == Some(m);
        assert InWindow(norm, g, rows, cols, m);
      }
    }
  }

  /** A window scan never changes a seeded month: the seed wins. */
  lemma {:induction false} WindowKeeps(norm: Norm, g: Grid, rows: nat, cols: nat, seed: map<string, nat>, m: string)
    requires m in seed
    ensures m in FirstInWindow(norm, g, rows, cols, seed)
    ensures FirstInWindow(norm, g, rows, cols, seed)[m] == seed[m]
  {
    if rows > 0 {
      WindowKeeps(norm, g, rows - 1, cols, seed, m);
      RowKeeps(norm, g, rows - 1, cols, FirstInWindow(norm, g, rows - 1, cols, seed), m);
    }
  }

  /** A month the window scan adds is recorded at the column of its first
      row-major occurrence: some row names it there, and no earlier cell
      of the window names it. */
  lemma {:induction false} WindowFirst(norm: Norm, g: Grid, rows: nat, cols: nat, seed: map<string, nat>, m: string)
    requires m in FirstInWindow(norm, g, rows, cols, seed) && m !in seed
    ensures var k := FirstInWindow(norm, g, rows, cols, seed)[m];
            k < cols && exists r :: (0 <= r < rows && norm(At(g, r, k)) == Some(m)
              && forall r', c' :: Before(r', c', r, k, cols) ==> norm(At(g, r', c')) != Some(m))
  {
    var prev := FirstInWindow(norm, g, rows - 1, cols, seed);
    var k := FirstInWindow(norm, g, rows, cols, seed)[m];
    if m in prev {
      WindowFirst(norm, g, rows - 1, cols, seed, m);
      RowKeeps(norm, g, rows - 1, cols, prev, m);
      var r :| 0 <= r < rows - 1 && norm(At(g, r, k)) == Some(m)
               && forall r', c' :: Before(r', c', r, k, cols) ==> norm(At(g, r', c')) != Some(m);
      assert 0 <= r < rows && norm(At(g, r, k)) == Some(m);
    } else {
      WindowKeys(norm, g, rows - 1, cols, seed, m);
      RowFirst(norm, g, rows - 1, cols, prev, m);
      var r := rows - 1;
      forall r', c' | Before(r', c', r, k, cols) ensures norm(At(g, r', c')) != Some(m) {
        if r' < r {
          assert !InWindow(norm, g, rows - 1, cols, m);
        }
      }
    }
  }

  // ---------------------------------------------------------------------
  // Last occurrence within a row

  /** A last-wins row scan records exactly the months the row names. */
  lemma {:induction false} LastKeys(norm: Norm, g: Grid, r: nat, c: nat, m: string)
    ensures m in LastInRow(norm, g, r, c) <==> InRow(norm, g, r, c, m)
  {
    if c > 0 {
      LastKeys(norm, g, r, c - 1, m);
      if InRow(norm, g, r, c, m) && !InRow(norm, g, r, c - 1, m) {
        assert norm(At(g, r, c - 1)) == Some(m);
      }
    }
  }

  /** A month is recorded at the last column of the row that names it. */
  lemma {:induction false} LastWins(norm: Norm, g: Grid, r: nat, c: nat, m: string)
    requires m in LastInRow(norm, g, r, c)
    ensures var k := LastInRow(norm, g, r, c)[m];
            k < c && norm(At(g, r, k)) == Some(m) && forall j :: k < j < c ==> norm(At(g, r, j)) != Some(m)
  {
    if norm(At(g, r, c - 1)) != Some(m) {
      LastWins(norm, g, r, c - 1, m);
    }
  }

  // ---------------------------------------------------------------------
  // The positional D..O mapping

  /** The first k fiscal months mapped to columns D, E, ... (3 + index),
      for the columns that exist in a sheet w columns wide. */
  function Positional(w: nat, k: nat): map<string, nat>
    requires k <= 12
  {
    map m | m in FiscalMonths[..k] && 3 + FiscalIndex(m).value < w :: 3 + FiscalIndex(m).value
  }

  /** One turn of the loop over the fiscal months. */
  lemma PositionalStep(w: nat, k: nat)
    requires k < 12
    ensures Positional(w, k + 1) == if 3 + k < w then Positional(w, k)[FiscalMonths[k] := 3 + k] else Positional(w, k)
  {
    FiscalIndexOf(k);
    assert FiscalMonths[..k + 1] == FiscalMonths[..k] + [FiscalMonths[k]];
    forall j | 0 <= j < k ensures FiscalMonths[j] != FiscalMonths[k] {
      FiscalIndexOf(j);
    }
  }

  /** Fiscal month i is mapped to column 3 + i exactly when that column exists. */
  lemma PositionalKeys(w: nat, i: nat)
    requires i < 12
    ensures FiscalMonths[i] in Positional(w, 12) <==> 3 + i < w
    ensures 3 + i < w ==> Positional(w, 12)[FiscalMonths[i]] == 3 + i
  {
    FiscalIndexOf(i);
    assert FiscalMonths[..12] == FiscalMonths;
  }

  /** Only fiscal months are mapped, each to its own column. */
  lemma PositionalOnly(w: nat, m: string)
    requires m in Positional(w, 12)
    ensures exists i :: 0 <= i < 12 && m == FiscalMonths[i] && Positional(w, 12)[m] == 3 + i
  {
    var i := FiscalIndex(m).value;
    assert m == FiscalMonths[i];
  }

  // ---------------------------------------------------------------------
  // Product scans

  /** A detected product: its code, the row that announces it, the cell
      text it was found as, and the column. */
  datatype Product = Product(code: string, row: nat, name: string, col: nat)

  /** A product spotter: the (code, name) a cell announces, or None. */
  type Spot = Cell -> Option<(string, string)>

  predicate HasCode(ps: seq<Product>, code: string)
  {
    exists i :: 0 <= i < |ps| && ps[i].code == code
  }

  /** The codes of the products, in order. */
  function Codes(ps: seq<Product>): (cs: seq<string>)
    ensures |cs| == |ps| && forall i :: 0 <= i < |ps| ==> cs[i] == ps[i].code
  {
    seq(|ps|, i requires 0 <= i < |ps| => ps[i].code)
  }

  /** Append the cell's product unless its code was seen already. */
  function AddProduct(ps: seq<Product>, s: Option<(string, string)>, r: nat, c: nat): seq<Product>
  {
    if s.Some? && !HasCode(ps, s.value.0) then ps + [Product(s.value.0, r, s.value.1, c)] else ps
  }

  /** Columns 0 .. c-1 of row r. */
  function ProductsInRow(spot: Spot, g: Grid, r: nat, c: nat, ps: seq<Product>): seq<Product>
  {
    if c == 0 then ps else AddProduct(ProductsInRow(spot, g, r, c - 1, ps), spot(At(g, r, c - 1)), r, c - 1)
  }

  /** Rows lo .. hi-1 by columns 0 .. cols-1, row-major. */
  function ProductsFrom(spot: Spot, g: Grid, lo: nat, hi: nat, cols: nat): seq<Product>
    decreases hi
  {
    if hi <= lo then [] else ProductsInRow(spot, g, hi - 1, cols, ProductsFrom(spot, g, lo, hi - 1, cols))
  }

  /** The cell (r', c') is among those visited before the frontier (r, c)
      of a scan of rows lo.. by columns 0 .. cols-1. */
  predicate Seen(r': int, c': int, lo: nat, r: nat, c: nat, cols: nat)
  {
    lo <= r' && 0 <= c' < cols && (r' < r || (r' == r && c' < c))
  }

  /** The cell (r', c') comes before the cell (r, c) in row-major order. */
  predicate CellBefore(r': int, c': int, r: int, c: int)
  {
    r' < r || (r' == r && c' < c)
  }

  /** What a product scan up to the frontier (r, c) has built: pairwise
      distinct codes; each product announced by its own visited cell; every
      visited announcing cell's code present; no visited cell before a
      product's own announcing the same code (first occurrence wins); and
      the products in row-major order. */
  ghost predicate Scanned(spot: Spot, g: Grid, lo: nat, r: nat, c: nat, cols: nat, ps: seq<Product>)
  {
    (forall i, j :: 0 <= i < j < |ps| ==> ps[i].code != ps[j].code)
    && (forall i :: 0 <= i < |ps| ==>
          Seen(ps[i].row, ps[i].col, lo, r, c, cols) && spot(At(g, ps[i].row, ps[i].col)) == Some((ps[i].code, ps[i].name)))
    && (forall r', c' :: Seen(r', c', lo, r, c, cols) && spot(At(g, r', c')).Some?
                         ==> HasCode(ps, spot(At(g, r', c')).value.0))
    && (forall i, r', c' :: 0 <= i < |ps| && Seen(r', c', lo, r, c, cols)
                            && CellBefore(r', c', ps[i].row, ps[i].col) && spot(At(g, r', c')).Some?
                            ==> spot(At(g, r', c')).value.0 != ps[i].code)
    && (forall i, j :: 0 <= i < j < |ps| ==> CellBefore(ps[i].row, ps[i].col, ps[j].row, ps[j].col))
  }

  /** One visited cell keeps the scan's invariant. */
  lemma AddKeeps(spot: Spot, g: Grid, lo: nat, r: nat, c: nat, cols: nat, ps: seq<Product>)
    requires lo <= r && c < cols
    requires Scanned(spot, g, lo, r, c, cols, ps)
    ensures Scanned(spot, g, lo, r, c + 1, cols, AddProduct(ps, spot(At(g, r, c)), r, c))
  {
    var s := spot(At(g, r, c));
    var qs := AddProduct(ps, s, r, c);
    if s.Some? && !HasCode(ps, s.value.0) {
      assert qs[|ps|] == Product(s.value.0, r, s.value.1, c);
      forall r', c' | Seen(r', c', lo, r, c + 1, cols) && spot(At(g, r', c')).Some?
        ensures HasCode(qs, spot(At(g, r', c')).value.0)
      {
        if r' == r && c' == c {
          assert qs[|ps|].code == s.value.0;
        } else {
          var i :| 0 <= i < |ps| && ps[i].code == spot(At(g, r', c')).value.0;
          assert qs[i] == ps[i];
        }
      }
    } else {
      forall r', c' | Seen(r', c', lo, r, c + 1, cols) && spot(At(g, r', c')).Some?
        ensures HasCode(qs, spot(At(g, r', c')).value.0)
      {
        if r' == r && c' == c {
          assert HasCode(ps, s.value.0);
        }
      }
    }
  }

  /** A row scan keeps the invariant, from the row's start to column c. */
  lemma {:induction false} RowScanned(spot: Spot, g: Grid, lo: nat, r: nat, c: nat, cols: nat, ps: seq<Product>)
    requires lo <= r && c <= cols
    requires Scanned(spot, g, lo, r, 0, cols, ps)
    ensures Scanned(spot, g, lo, r, c, cols, ProductsInRow(spot, g, r, c, ps))
  {
    if c > 0 {
      var prev := ProductsInRow(spot, g, r, c - 1, ps);
      RowScanned(spot, g, lo, r, c - 1, cols, ps);
      AddKeepsAs(spot, g, lo, r, c - 1, cols, prev, ProductsInRow(spot, g, r, c, ps));
    }
  }

  /** AddKeeps, for a list known to be the one-cell extension. */
  lemma AddKeepsAs(spot: Spot, g: Grid, lo: nat, r: nat, c: nat, cols: nat, ps: seq<Product>, qs: seq<Product>)
    requires lo <= r && c < cols
    requires Scanned(spot, g, lo, r, c, cols, ps)
    requires qs == AddProduct(ps, spot(At(g, r, c)), r, c)
    ensures Scanned(spot, g, lo, r, c + 1, cols, qs)
  {
    AddKeeps(spot, g, lo, r, c, cols, ps);
  }

  /** Finishing a row is starting the next. */
  lemma RowDone(spot: Spot, g: Grid, lo: nat, r: nat, cols: nat, ps: seq<Product>)
    requires Scanned(spot, g, lo, r, cols, cols, ps)
    ensures Scanned(spot, g, lo, r + 1, 0, cols, ps)
  {
    assert forall r', c' :: Seen(r', c', lo, r, cols, cols) <==> Seen(r', c', lo, r + 1, 0, cols);
  }

  /** RowDone, for a list known to be the finished row's. */
  lemma RowDoneAs(spot: Spot, g: Grid, lo: nat, r: nat, cols: nat, ps: seq<Product>, qs: seq<Product>)
    requires Scanned(spot, g, lo, r, cols, cols, ps)
    requires qs == ps
    ensures Scanned(spot, g, lo, r + 1, 0, cols, qs)
  {
    RowDone(spot, g, lo, r, cols, ps);
  }

  /** The whole scan of rows lo .. hi-1 has the properties of Scanned. */
  lemma {:induction false} ProductsScanned(spot: Spot, g: Grid, lo: nat, hi: nat, cols: nat)
    requires lo <= hi
    ensures Scanned(spot, g, lo, hi, 0, cols, ProductsFrom(spot, g, lo, hi, cols))
  {
    if hi > lo {
      var prev := ProductsFrom(spot, g, lo, hi - 1, cols);
      ProductsScanned(spot, g, lo, hi - 1, cols);
      RowStepAs(spot, g, lo, hi - 1, cols, prev, ProductsFrom(spot, g, lo, hi, cols));
    }
  }

  /** A whole row scan takes the invariant from one row's start to the next's. */
  lemma RowStepAs(spot: Spot, g: Grid, lo: nat, r: nat, cols: nat, ps: seq<Product>, qs: seq<Product>)
    requires lo <= r
    requires Scanned(spot, g, lo, r, 0, cols, ps)
    requires qs == ProductsInRow(spot, g, r, cols, ps)
    ensures Scanned(spot, g, lo, r + 1, 0, cols, qs)
  {
    RowScanned(spot, g, lo, r, cols, cols, ps);
    RowDoneAs(spot, g, lo, r, cols, ProductsInRow(spot, g, r, cols, ps), qs);
  }

  // ---------------------------------------------------------------------
  // The detectors' loops

  /** The positional map: fiscal month i at column 3 + i, for the columns the sheet has. */
  method PositionalColumns(w: nat) returns (mc: map<string, nat>)
    ensures mc == Positional(w, 12)
  {
    mc := map[];
    var i := 0;
    assert FiscalMonths[..0] == [];
    while i < 12
      invariant i <= 12
      invariant mc == Positional(w, i)
    {
      PositionalStep(w, i);
      if 3 + i < w {
        mc := mc[FiscalMonths[i] := 3 + i];
      }
      i := i + 1;
    }
  }

  /** The nested header loops of a first-occurrence detector, starting from seed. */
  method ScanFirst(norm: Norm, g: Grid, rows: nat, cols: nat, seed: map<string, nat>) returns (mc: map<string, nat>)
    ensures mc == FirstInWindow(norm, g, rows, cols, seed)
  {
    mc := seed;
    var r := 0;
    while r < rows
      invariant r <= rows
      invariant mc == FirstInWindow(norm, g, r, cols, seed)
    {
      var c := 0;
      while c < cols
        invariant c <= cols
        invariant mc == FirstInRow(norm, g, r, c, FirstInWindow(norm, g, r, cols, seed))
      {
        var m := norm(At(g, r, c));
        if m.Some? && m.value !in mc {
          mc := mc[m.value := c];
        }
        c := c + 1;
      }
      r := r + 1;
    }
  }

  /** The header-row loop of a last-occurrence detector. */
  method ScanLast(norm: Norm, g: Grid, r: nat, cols: nat) returns (mc: map<string, nat>)
    ensures mc == LastInRow(norm, g, r, cols)
  {
    mc := map[];
    var c := 0;
    while c < cols
      invariant c <= cols
      invariant mc == LastInRow(norm, g, r, c)
    {
      var m := norm(At(g, r, c));
      if m.Some? {
        mc := mc[m.value := c];
      }
      c := c + 1;
    }
  }

  /** The row-major product loop over rows lo .. hi-1 and columns 0 .. cols-1. */
  method ScanProducts(spot: Spot, g: Grid, lo: nat, hi: nat, cols: nat) returns (ps: seq<Product>)
    ensures ps == ProductsFrom(spot, g, lo, hi, cols)
  {
    ps := [];
    if hi <= lo {
      return;
    }
    var r := lo;
    while r < hi
      invariant lo <= r <= hi
      invariant ps == ProductsFrom(spot, g, lo, r, cols)
    {
      var c := 0;
      while c < cols
        invariant c <= cols
        invariant ps == ProductsInRow(spot, g, r, c, ProductsFrom(spot, g, lo, r, cols))
      {
        var s := spot(At(g, r, c));
        if s.Some? && !HasCode(ps, s.value.0) {
          ps := ps + [Product(s.value.0, r, s.value.1, c)];
        }
        c := c + 1;
      }
      r := r + 1;
    }
  }
}
