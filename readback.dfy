/**
 * Read-back of the flat sample buffer of `LabjackReader`
 * (labjackcontroller/labtools.py; the copy under build/lib has the same
 * code, its `_reshape_data` falling off the end where this one returns None).
 *
 * The buffer is one flat array of doubles filled up to the cursor
 * `max_index`; every row is the `n` channel values followed by the device
 * time and the system time, so rows are `n + 2` wide. The functions here
 * recover rows from that array by index arithmetic; they see the reader's
 * state through a `Snapshot` value.
 */
module ReadBack {
  import opened Values

  /** The reader's state as the read-back methods see it: declared channels, the array (None before the first run) and the cursor. */
  datatype Snapshot = Snapshot(channels: seq<string>, data: Option<seq<real>>, maxIndex: nat)

  /** Width of one stored row: the channel values, then the device time and the system time. */
  function RowWidth(s: Snapshot): nat
  {
    |s.channels| + 2
  }

  /** What the reader keeps true of its state: the cursor stays inside the array and on a row boundary. */
  predicate WellFormed(s: Snapshot)
  {
    && (s.data.None? ==> s.maxIndex == 0)
    && (s.data.Some? ==> s.maxIndex <= |s.data.value|)
    && s.maxIndex % RowWidth(s) == 0
  }

  /** Number of complete rows below the cursor (`int(max_index / row_width)` in `to_list`). */
  function RowCount(s: Snapshot): nat
  {
    s.maxIndex / RowWidth(s)
  }

  datatype ReadError =
    | NoChannels          // get_max_row before any channel is declared
    | InvalidRange        // 'range' with start/end not 0 <= start < end
    | MissingRangeBounds  // 'range' without both start and end
    | NegativeRowCount    // 'relative' with num_rows < 0
    | MissingRowCount     // 'relative' without num_rows

  /** `get_max_data_index`: the cursor when it is nonzero, else -1. */
  function GetMaxDataIndex(s: Snapshot): (r: int)
    ensures r == -1 <==> s.maxIndex == 0
    ensures r != -1 ==> r == s.maxIndex && r > 0
  {
    if s.maxIndex != 0 then s.maxIndex else -1
  }

  /** `get_max_row` as written: raises without channels, -1 with no data, else the cursor divided by n + 1. */
  function GetMaxRow(s: Snapshot): (r: Result<int, ReadError>)
    ensures r.Err? <==> |s.channels| == 0
    ensures r.Err? ==> r.error == NoChannels
    ensures r.Ok? && s.maxIndex == 0 ==> r.value == -1
    ensures r.Ok? && s.maxIndex > 0 ==> r.value * (|s.channels| + 1) <= s.maxIndex < (r.value + 1) * (|s.channels| + 1)
  {
    if |s.channels| == 0 then Err(NoChannels)
    else
      var m := GetMaxDataIndex(s);
      if m < 1 then Ok(-1) else Ok(m / (|s.channels| + 1))
  }

  /**
   * The as-written `get_max_row` over-counts: with rows n + 2 wide, dividing
   * the cursor by n + 1 adds one extra row for every n + 1 stored rows.
   */
  lemma GetMaxRowOvercounts(s: Snapshot)
    requires WellFormed(s) && |s.channels| > 0 && s.maxIndex > 0
    ensures GetMaxRow(s) == Ok(RowCount(s) + RowCount(s) / (|s.channels| + 1))
  {
    var n := |s.channels|;
    var rows := RowCount(s);
    DivMod(s.maxIndex, n + 2);
    var q, t := rows / (n + 1), rows % (n + 1);
    DivMod(rows, n + 1);
    Distrib(rows, n + 1, 1);
    Distrib(rows, q, n + 1);
    assert s.maxIndex == (rows + q) * (n + 1) + t;
    DivUnique(s.maxIndex, n + 1, rows + q, t);
  }

  /** The recorded run of the test suite: one channel, ten rows; `get_max_row` reports 15. */
  lemma GetMaxRowTenRowRun(data: seq<real>)
    requires |data| == 30
    ensures GetMaxRow(Snapshot(["AIN0"], Some(data), 30)) == Ok(15)
    ensures RowCount(Snapshot(["AIN0"], Some(data), 30)) == 10
  {
  }

  /** `get_max_row` as evidently intended: the number of stored rows, with the same error and empty cases. */
  function GetMaxRowCorrected(s: Snapshot): (r: Result<int, ReadError>)
    requires WellFormed(s)
    ensures r.Err? <==> |s.channels| == 0
    ensures r.Ok? && s.maxIndex == 0 ==> r.value == -1
    ensures r.Ok? && s.maxIndex > 0 ==> r.value > 0 && r.value * RowWidth(s) == s.maxIndex
  {
    if |s.channels| == 0 then Err(NoChannels)
    else
      var m := GetMaxDataIndex(s);
      if m < 1 then Ok(-1) else Ok(m / RowWidth(s))
  }

  /** Concatenation of rows back into one flat sequence. */
  function Flatten(rows: seq<seq<real>>): seq<real>
  {
    if rows == [] then [] else rows[0] + Flatten(rows[1..])
  }

  /** Splits a flat sequence into consecutive rows of width `w` (NumPy's `reshape((len / w, w))`). */
  function Chunks(xs: seq<real>, w: nat): (rows: seq<seq<real>>)
    requires w > 0 && |xs| % w == 0
    ensures |rows| * w == |xs|
    ensures forall k :: 0 <= k < |rows| ==> |rows[k]| == w
    ensures Flatten(rows) == xs
    decreases |xs|
  {
    if |xs| == 0 then []
    else
      DivMod(|xs|, w);
      Distrib(|xs| / w, -1, w);
      DivUnique(|xs| - w, w, |xs| / w - 1, 0);
      var rest := Chunks(xs[w..], w);
      Distrib(|rest|, 1, w);
      assert ([xs[..w]] + rest)[1..] == rest;
      [xs[..w]] + rest
  }

  /**
   * `_reshape_data(from_row, to_row)`: None unless there is data and
   * `from_row >= 0`; otherwise the stored rows from `from_row` up to
   * `to_row` (exclusive), clipped at the cursor, each `n + 2` wide. A
   * `from_row` past the last stored row yields no rows.
   */
  function ReshapeData(s: Snapshot, fromRow: int, toRow: int): (r: Option<seq<seq<real>>>)
    requires WellFormed(s) && toRow >= 0
    ensures r.Some? <==> s.data.Some? && s.maxIndex > 0 && fromRow >= 0
    ensures r.Some? ==> |r.value| == if fromRow < Min(RowCount(s), toRow) then Min(RowCount(s), toRow) - fromRow else 0
    ensures r.Some? ==> forall k :: 0 <= k < |r.value| ==> |r.value[k]| == RowWidth(s)
    ensures r.Some? && |r.value| > 0 ==>
      && fromRow * RowWidth(s) + |r.value| * RowWidth(s) <= s.maxIndex
      && Flatten(r.value) == s.data.value[fromRow * RowWidth(s) .. fromRow * RowWidth(s) + |r.value| * RowWidth(s)]
  {
    if s.data.Some? && GetMaxDataIndex(s) != -1 && fromRow >= 0 then
      var w := RowWidth(s);
      var hi := Min(GetMaxDataIndex(s), w * toRow);
      var start := fromRow * w;
      RowBoundaries(s, fromRow, toRow);
      if start >= hi then Some([])
      else
        var cnt := Min(RowCount(s), toRow) - fromRow;
        assert hi - start == cnt * w;
        DivUnique(cnt * w, w, cnt, 0);
        var rows := Chunks(s.data.value[start..hi], w);
        MulMono(|rows|, cnt, w);
        MulMono(cnt, |rows|, w);
        Some(rows)
    else None
  }

  /** The clipped end of `_reshape_data` and its start both fall on row boundaries. */
  lemma RowBoundaries(s: Snapshot, fromRow: nat, toRow: nat)
    requires WellFormed(s) && s.maxIndex > 0
    ensures Min(s.maxIndex, RowWidth(s) * toRow) == Min(RowCount(s), toRow) * RowWidth(s)
    ensures fromRow * RowWidth(s) >= Min(s.maxIndex, RowWidth(s) * toRow) <==> fromRow >= Min(RowCount(s), toRow)
    ensures Min(RowCount(s), toRow) * RowWidth(s) <= s.maxIndex <= |s.data.value|
    ensures Min(RowCount(s), toRow) * RowWidth(s) - fromRow * RowWidth(s) == (Min(RowCount(s), toRow) - fromRow) * RowWidth(s)
  {
    var w := RowWidth(s);
    DivMod(s.maxIndex, w);
    MulMono(RowCount(s), toRow, w);
    MulMono(Min(RowCount(s), toRow), fromRow, w);
    MulMono(Min(RowCount(s), toRow), RowCount(s), w);
    Distrib(Min(RowCount(s), toRow), -(fromRow as int), w);
  }

  /** The keyword arguments `to_list` looks at. */
  datatype ListArgs = ListArgs(start: Option<int>, end: Option<int>, numRows: Option<int>)

  /** True when `to_list` raises for these arguments once data is recorded. */
  predicate BadListArgs(mode: string, args: ListArgs)
  {
    || (mode == "range" && !(args.start.Some? && args.end.Some? && 0 <= args.start.value < args.end.value))
    || (mode == "relative" && !(args.numRows.Some? && args.numRows.value >= 0))
  }

  /**
   * `to_list(mode, **kwargs)`: None while nothing is recorded, the table for
   * 'all', 'range' and 'relative', an exception for bad or missing
   * arguments, and None for any other mode.
   */
  function ToList(s: Snapshot, mode: string, args: ListArgs): (r: Result<Option<seq<seq<real>>>, ReadError>)
    requires WellFormed(s)
    ensures s.maxIndex == 0 ==> r == Ok(None)
    ensures r.Err? <==> (s.maxIndex > 0 && BadListArgs(mode, args))
    ensures r.Err? && mode == "range" ==> r.error == (if args.start.Some? && args.end.Some? then InvalidRange else MissingRangeBounds)
    ensures r.Err? && mode == "relative" ==> r.error == (if args.numRows.Some? then NegativeRowCount else MissingRowCount)
    ensures s.maxIndex > 0 && mode !in {"all", "range", "relative"} ==> r == Ok(None)
  {
    var m := GetMaxDataIndex(s);
    if m < 0 then Ok(None)
    else
      var maxRow := m / RowWidth(s);
      if mode == "all" then Ok(ReshapeData(s, 0, maxRow))
      else if mode == "range" then
        if args.start.Some? && args.end.Some? then
          if 0 <= args.start.value < args.end.value then Ok(ReshapeData(s, args.start.value, args.end.value))
          else Err(InvalidRange)
        else Err(MissingRangeBounds)
      else if mode == "relative" then
        if args.numRows.Some? then
          if args.numRows.value < 0 then Err(NegativeRowCount)
          else Ok(ReshapeData(s, maxRow - args.numRows.value, maxRow))
        else Err(MissingRowCount)
      else Ok(None)
  }

  /** Mode 'all' returns every stored row, each `n + 2` wide, and nothing past the cursor. */
  lemma ToListAll(s: Snapshot, args: ListArgs)
    requires WellFormed(s) && s.maxIndex > 0
    ensures ToList(s, "all", args).Ok? && ToList(s, "all", args).value.Some?
    ensures Chunks(s.data.value[..s.maxIndex], RowWidth(s)) == ToList(s, "all", args).value.value
  {
    var w := RowWidth(s);
    RowBoundaries(s, 0, RowCount(s));
    assert s.data.value[0 * w .. Min(s.maxIndex, w * RowCount(s))] == s.data.value[..s.maxIndex];
  }

  /** Mode 'relative' returns the last `num_rows` rows, or None when fewer rows are stored. */
  lemma ToListRelative(s: Snapshot, numRows: nat)
    requires WellFormed(s) && s.maxIndex > 0
    ensures var r := ToList(s, "relative", ListArgs(None, None, Some(numRows)));
      && r.Ok?
      && (r.value.None? <==> numRows > RowCount(s))
      && (r.value.Some? ==> |r.value.value| == numRows)
      && (r.value.Some? ==>
            && numRows * RowWidth(s) <= s.maxIndex
            && Flatten(r.value.value) == s.data.value[s.maxIndex - numRows * RowWidth(s) .. s.maxIndex])
  {
    var w := RowWidth(s);
    var rows := RowCount(s);
    var r := ReshapeData(s, rows - numRows, rows);
    assert ToList(s, "relative", ListArgs(None, None, Some(numRows))) == Ok(r);
    if numRows <= rows {
      DivMod(s.maxIndex, w);
      Distrib(rows - numRows, numRows, w);
      if numRows > 0 {
        assert Min(rows, rows) - (rows - numRows) == numRows;
        assert (rows - numRows) * w + numRows * w == s.maxIndex;
      }
    }
  }

  /**
   * Mode 'range' with `0 <= start < end` returns the stored rows from
   * `start` up to `end`, clipped at the last stored row: their
   * concatenation is exactly that stretch of the buffer.
   */
  lemma ToListRange(s: Snapshot, start: nat, end: nat)
    requires WellFormed(s) && s.maxIndex > 0 && start < end
    ensures var r := ToList(s, "range", ListArgs(Some(start), Some(end), None));
      && r.Ok? && r.value.Some?
      && |r.value.value| == (if start < Min(RowCount(s), end) then Min(RowCount(s), end) - start else 0)
      && (start < Min(RowCount(s), end) ==>
            && start * RowWidth(s) <= Min(RowCount(s), end) * RowWidth(s) <= s.maxIndex
            && Flatten(r.value.value) == s.data.value[start * RowWidth(s) .. Min(RowCount(s), end) * RowWidth(s)])
  {
    var r := ReshapeData(s, start, end);
    assert ToList(s, "range", ListArgs(Some(start), Some(end), None)) == Ok(r);
    if start < Min(RowCount(s), end) {
      var w := RowWidth(s);
      Distrib(start, Min(RowCount(s), end) - start, w);
    }
  }

  /** The corrected `get_max_row` and `to_list('all')` agree on the number of stored rows. */
  lemma CorrectedMaxRowMatchesToList(s: Snapshot, args: ListArgs)
    requires WellFormed(s) && |s.channels| > 0 && s.maxIndex > 0
    ensures GetMaxRowCorrected(s) == Ok(|ToList(s, "all", args).value.value|)
  {
  }

  /** Read-back depends only on the slots below the cursor: what lies beyond it is never read. */
  lemma ReshapeIgnoresUnfilledSlots(s: Snapshot, t: Snapshot, fromRow: int, toRow: int)
    requires WellFormed(s) && WellFormed(t) && toRow >= 0
    requires s.channels == t.channels && s.maxIndex == t.maxIndex && s.data.Some? == t.data.Some?
    requires s.data.Some? ==> s.data.value[..s.maxIndex] == t.data.value[..t.maxIndex]
    ensures ReshapeData(s, fromRow, toRow) == ReshapeData(t, fromRow, toRow)
  {
    if s.data.Some? && s.maxIndex > 0 && fromRow >= 0 {
      var w := RowWidth(s);
      var hi := Min(s.maxIndex, w * toRow);
      var start := fromRow * w;
      RowBoundaries(s, fromRow, toRow);
      RowBoundaries(t, fromRow, toRow);
      if start < hi {
        assert hi <= s.maxIndex;
        SliceOfPrefix(s.data.value, s.maxIndex, start, hi);
        SliceOfPrefix(t.data.value, t.maxIndex, start, hi);
      }
    }
  }

  /**
   * The test suite's expectations for a one-channel, ten-row run: 'all' gives
   * 10 rows and 'relative' 5 gives 5, each 3 wide; 'relative' 12 gives None.
   */
  lemma TestSuiteShapes(data: seq<real>, args: ListArgs)
    requires |data| >= 30
    ensures var s := Snapshot(["AIN0"], Some(data), 30);
      && |ToList(s, "all", args).value.value| == 10
      && |ToList(s, "relative", ListArgs(None, None, Some(5))).value.value| == 5
      && RowWidth(s) == 3
      && ToList(s, "relative", ListArgs(None, None, Some(12))) == Ok(None)
  {
  }

  /** 'range' 2..4 gives 2 rows; 'range' 2..40 is clipped to 8 rows rather than raising; a negative start raises. */
  lemma TestSuiteRanges(data: seq<real>)
    requires |data| >= 30
    ensures var s := Snapshot(["AIN0"], Some(data), 30);
      && |ToList(s, "range", ListArgs(Some(2), Some(4), None)).value.value| == 2
      && |ToList(s, "range", ListArgs(Some(2), Some(40), None)).value.value| == 8
      && ToList(s, "range", ListArgs(Some(-30), Some(40), None)) == Err(InvalidRange)
      && ToList(s, "range", ListArgs(Some(-30), Some(4), None)) == Err(InvalidRange)
  {
  }

  /** With nothing recorded every mode gives None, whatever channels are declared. */
  lemma TestSuiteNoData(channels: seq<string>, args: ListArgs)
    ensures forall mode :: ToList(Snapshot(channels, None, 0), mode, args) == Ok(None)
  {
  }

  /** A slice inside a prefix is the same slice of the whole sequence. */
  lemma SliceOfPrefix(d: seq<real>, m: nat, a: nat, b: nat)
    requires a <= b <= m <= |d|
    ensures d[..m][a..b] == d[a..b]
  {
  }

  /** Euclidean division by a positive divisor. */
  lemma DivMod(m: int, d: int)
    requires d > 0
    ensures m == (m / d) * d + m % d && 0 <= m % d < d
  {
  }

  /** A quotient and remainder are determined by the decomposition they give. */
  lemma DivUnique(m: int, d: int, q: int, t: int)
    requires d > 0 && 0 <= t < d && m == q * d + t
    ensures m / d == q && m % d == t
  {
    DivMod(m, d);
    var q', t' := m / d, m % d;
    assert (q - q') * d == t' - t by { Distrib(q, -q', d); }
    if q > q' {
      MulMono(1, q - q', d);
    } else if q < q' {
      MulMono(1, q' - q, d);
      Distrib(q', -q, d);
    }
  }

  lemma Distrib(a: int, b: int, c: int)
    ensures (a + b) * c == a * c + b * c
    ensures c * (a + b) == c * a + c * b
  {
  }

  /** Multiplying by a positive factor keeps the order. */
  lemma MulMono(a: int, b: int, w: int)
    requires w > 0
    ensures a <= b <==> a * w <= b * w
    ensures a < b <==> a * w < b * w
  {
    if a <= b {
      assert (b - a) * w >= 0;
      Distrib(b, -a, w);
    } else {
      assert (a - b) * w > 0;
      Distrib(a, -b, w);
    }
  }
}
