/** Recurrences over tables of eight rows of eight. */
module Tables {

  ghost predicate IsTable<T>(rows: seq<seq<T>>) {
    |rows| == 8 && forall r :: 0 <= r < 8 ==> |rows[r]| == 8
  }

  function Flat<T>(rows: seq<seq<T>>): seq<T>
    requires |rows| == 8
  {
    rows[0] + rows[1] + rows[2] + rows[3] + rows[4] + rows[5] + rows[6] + rows[7]
  }

  lemma RowOf<T>(rows: seq<seq<T>>, r: nat, i: nat)
    requires IsTable(rows) && r < 8 && i < 8
    ensures |Flat(rows)| == 64 && Flat(rows)[8 * r + i] == rows[r][i]
  {
  }

  lemma Entry<T>(rows: seq<seq<T>>, t: nat)
    requires IsTable(rows) && t < 64
    ensures |Flat(rows)| == 64 && Flat(rows)[t] == rows[t / 8][t % 8]
  {
    RowOf(rows, t / 8, t % 8);
  }

  /** `n` rounds, each with the next entry of both sequences. */
  function Fold<V, W>(round: (V, W, W) -> V, v: V, ks: seq<W>, ws: seq<W>, n: nat): V
    requires n <= |ks| && n <= |ws|
  {
    if n == 0 then v else round(Fold(round, v, ks, ws, n - 1), ks[n - 1], ws[n - 1])
  }

  /** A trace of the rounds, row by row; every row begins where the one before has ended. */
  ghost predicate Traced<V, W>(round: (V, W, W) -> V, krows: seq<seq<W>>, wrows: seq<seq<W>>, traces: seq<seq<V>>) {
    && IsTable(krows) && IsTable(wrows) && |traces| == 8
    && (forall r :: 0 <= r < 8 ==> |traces[r]| == 9)
    && (forall r :: 0 < r < 8 ==> traces[r][0] == traces[r - 1][8])
    && forall r, i :: 0 <= r < 8 && 0 <= i < 8 ==> TracedAt(round, krows, wrows, traces, r, i)
  }

  ghost predicate TracedAt<V, W>(
    round: (V, W, W) -> V, krows: seq<seq<W>>, wrows: seq<seq<W>>, traces: seq<seq<V>>, r: int, i: int)
    requires IsTable(krows) && IsTable(wrows) && |traces| == 8 && 0 <= r < 8 && 0 <= i < 8 && |traces[r]| == 9
  {
    round(traces[r][i], krows[r][i], wrows[r][i]) == traces[r][i + 1]
  }

  lemma {:induction false} FoldTo<V, W>(
    round: (V, W, W) -> V, krows: seq<seq<W>>, wrows: seq<seq<W>>, traces: seq<seq<V>>, r: nat, i: nat)
    requires Traced(round, krows, wrows, traces) && r < 8 && i <= 8
    ensures |Flat(krows)| == |Flat(wrows)| == 64
    ensures Fold(round, traces[0][0], Flat(krows), Flat(wrows), 8 * r + i) == traces[r][i]
    decreases r, i
  {
    RowOf(krows, 0, 0);
    RowOf(wrows, 0, 0);
    if i > 0 {
      FoldTo(round, krows, wrows, traces, r, i - 1);
      RowOf(krows, r, i - 1);
      RowOf(wrows, r, i - 1);
      assert TracedAt(round, krows, wrows, traces, r, i - 1);
    } else if r > 0 {
      FoldTo(round, krows, wrows, traces, r - 1, 8);
    }
  }

  /** The first `n` terms of a recurrence that goes two, seven, fifteen and sixteen terms back. */
  function Grow<W>(base: seq<W>, expand: (W, W, W, W) -> W, n: nat): (ws: seq<W>)
    requires |base| == 16
    ensures |ws| == n
  {
    if n == 0 then []
    else
      var ws := Grow(base, expand, n - 1);
      var t := n - 1;
      ws + [if t < 16 then base[t] else expand(ws[t - 2], ws[t - 7], ws[t - 15], ws[t - 16])]
  }

  /** Row after row, such a recurrence. */
  ghost predicate Grown<W>(base: seq<W>, expand: (W, W, W, W) -> W, rows: seq<seq<W>>) {
    && IsTable(rows) && |base| == 16 && base == rows[0] + rows[1]
    && forall r, i :: 2 <= r < 8 && 0 <= i < 8 ==> GrownAt(expand, rows, r, i)
  }

  ghost predicate GrownAt<W>(expand: (W, W, W, W) -> W, rows: seq<seq<W>>, r: int, i: int)
    requires IsTable(rows) && 2 <= r < 8 && 0 <= i < 8
  {
    Continues(expand, rows[r - 2], rows[r - 1], rows[r], i)
  }

  ghost predicate Continues<W>(expand: (W, W, W, W) -> W, before: seq<W>, last: seq<W>, these: seq<W>, i: int)
    requires |before| == |last| == |these| == 8 && 0 <= i < 8
  {
    these[i] == expand(
      if i < 2 then last[i + 6] else these[i - 2],
      if i < 7 then last[i + 1] else these[i - 7],
      if i < 7 then before[i + 1] else last[i - 7],
      before[i])
  }

  ghost predicate Recurs<W>(base: seq<W>, expand: (W, W, W, W) -> W, ws: seq<W>, t: int)
    requires |base| == 16 && |ws| == 64 && 0 <= t < 64
  {
    ws[t] == if t < 16 then base[t] else expand(ws[t - 2], ws[t - 7], ws[t - 15], ws[t - 16])
  }

  lemma GrownEntry<W>(base: seq<W>, expand: (W, W, W, W) -> W, rows: seq<seq<W>>, t: nat)
    requires Grown(base, expand, rows) && t < 64
    ensures |Flat(rows)| == 64 && Recurs(base, expand, Flat(rows), t)
  {
    Entry(rows, t);
    if t >= 16 {
      assert GrownAt(expand, rows, t / 8, t % 8);
      Entry(rows, t - 2);
      Entry(rows, t - 7);
      Entry(rows, t - 15);
      Entry(rows, t - 16);
    }
  }

  lemma {:induction false} GrowIs<W>(base: seq<W>, expand: (W, W, W, W) -> W, ws: seq<W>, n: nat)
    requires |base| == 16 && |ws| == 64 && n <= 64
    requires forall t :: 0 <= t < 64 ==> Recurs(base, expand, ws, t)
    ensures Grow(base, expand, n) == ws[..n]
  {
    if n > 0 {
      GrowIs(base, expand, ws, n - 1);
      assert Recurs(base, expand, ws, n - 1);
    }
  }

  lemma GrowAll<W>(base: seq<W>, expand: (W, W, W, W) -> W, rows: seq<seq<W>>, ws: seq<W>)
    requires Grown(base, expand, rows) && ws == Flat(rows)
    ensures Grow(base, expand, 64) == ws
  {
    Entry(rows, 0);
    forall t | 0 <= t < 64 ensures Recurs(base, expand, ws, t) {
      GrownEntry(base, expand, rows, t);
    }
    GrowIs(base, expand, ws, 64);
    assert ws[..64] == ws;
  }
}
