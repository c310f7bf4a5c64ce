/**
 * The older reader of labjacktools/labtools.py. Its `collect_data` reads
 * packets until a time budget runs out, stores rows of `n` values and one
 * device time (no system time), stops storing once a row would not fit,
 * and keeps reading and counting skipped samples. Its `write_data_to_file`
 * writes the whole buffer as text; its `get_data` fails whenever data
 * exists.
 *
 * The packets read before the time budget ran out are a parameter, as are
 * the outcomes of opening the device, of the read after the last packet and
 * of stopping the stream.
 */
module LegacyTools {
  import opened Values
  import ReadBack
  import StreamFill
  import Controller

  /** The exceptions the reader raises, or catches and reports. */
  datatype LegacyError =
    | TypeError          // `len(None)`, or a list handed to `np.frombuffer`
    | NoData             // an empty buffer to write
    | BadMode            // a file mode outside r+, w, w+, a
    | BadFilename        // a filename that is not a non-empty string
    | ReshapeError       // a buffer that does not split into rows of n + 1
    | AllocationFailed   // a negative buffer size
    | RangeStepZero      // `range` with a step of 0 channels
    | ZeroDivision       // a time or the summary divided by zero
    | StreamReadFailed   // the stream read raised
    | IndexError         // a packet shorter than the channel count, read as `aData[j]`

  /** How `collect_data` ends: the process exits, the run completes with the skipped scans it reports, or an exception is caught. */
  datatype Outcome = Exited | Completed(skippedScans: real) | Caught(error: LegacyError)

  /** The stream's `scans_per_read` and `scan_rate`, the two divisors of a row's time. */
  datatype Timing = Timing(scansPerRead: int, scanRate: int)
  {
    predicate NonZero()
    {
      scansPerRead != 0 && scanRate != 0
    }
  }

  /** The time of the row at offset `i` of packet `packetNum`. */
  function ScanTime(t: Timing, packetNum: nat, i: nat): real
    requires t.NonZero()
  {
    (t.scansPerRead as real / t.scanRate as real) * (packetNum as real + i as real / t.scansPerRead as real)
  }

  /**
   * The slots one packet adds for the row offsets `i`, `i + n`, ... below
   * `end`, with the cursor at `at` in a buffer of `size` slots: up to `n`
   * values and the row's time, until the cursor reaches `size - n`.
   */
  function ScanRows(p: seq<real>, n: nat, i: nat, end: int, at: nat, size: int, t: Timing, packetNum: nat): seq<real>
    requires n > 0 && end <= |p| && (t.NonZero() || end <= i)
    decreases |p| - i
  {
    if end <= i then []
    else if at >= size - n then []
    else
      var chunk := p[i..Min(i + n, |p|)];
      chunk + [ScanTime(t, packetNum, i)] + ScanRows(p, n, i + n, end, at + |chunk| + 1, size, t, packetNum)
  }

  /** The rows of one packet as written: offsets run over `range(0, len - 1, n)`. */
  function PacketRows(p: seq<real>, n: nat, at: nat, size: int, t: Timing, packetNum: nat): seq<real>
    requires n > 0 && (t.NonZero() || |p| <= 1)
  {
    ScanRows(p, n, 0, |p| - 1, at, size, t, packetNum)
  }

  /** The rows of one packet as evidently intended: offsets run over `range(0, len, n)`. */
  function PacketRowsIntended(p: seq<real>, n: nat, at: nat, size: int, t: Timing, packetNum: nat): seq<real>
    requires n > 0 && (t.NonZero() || |p| == 0)
  {
    ScanRows(p, n, 0, |p|, at, size, t, packetNum)
  }

  /** The stored values of rows of `n` values and a time, the times left out. */
  function StripTimes(xs: seq<real>, n: nat): seq<real>
    decreases |xs|
  {
    if |xs| < n + 1 then [] else xs[..n] + StripTimes(xs[n + 1..], n)
  }

  /** A packet never writes past the end of the buffer: a row is stored only when all its slots fit. */
  lemma {:induction false} ScanRowsFit(p: seq<real>, n: nat, i: nat, end: int, at: nat, size: int, t: Timing, packetNum: nat)
    requires n > 0 && end <= |p| && (t.NonZero() || end <= i) && at <= size
    ensures at + |ScanRows(p, n, i, end, at, size, t, packetNum)| <= size
    decreases |p| - i
  {
    if end > i && at < size - n {
      var chunk := p[i..Min(i + n, |p|)];
      ScanRowsFit(p, n, i + n, end, at + |chunk| + 1, size, t, packetNum);
    }
  }

  /** A packet of whole scans adds whole rows of `n + 1` slots. */
  lemma {:induction false} ScanRowsAligned(p: seq<real>, n: nat, i: nat, end: int, q: nat, at: nat, size: int, t: Timing, packetNum: nat)
    requires n > 0 && end <= |p| && (t.NonZero() || end <= i) && |p| - i == q * n
    ensures |ScanRows(p, n, i, end, at, size, t, packetNum)| % (n + 1) == 0
    decreases |p| - i
  {
    if end > i && at < size - n {
      ScanArith(|p|, i, q, n);
      assert Min(i + n, |p|) == i + n;
      ScanRowsAligned(p, n, i + n, end, q - 1, at + n + 1, size, t, packetNum);
      ReadBack.DivUnique(n + 1, n + 1, 1, 0);
      ModSum(n + 1, |ScanRows(p, n, i + n, end, at + n + 1, size, t, packetNum)|, n + 1);
    } else {
      ReadBack.DivUnique(0, n + 1, 0, 0);
    }
  }

  /** With room for all of them, the intended loop stores every sample of the rest of the packet, `q` rows in all. */
  lemma {:induction false} ScanRowsKeepSamples(p: seq<real>, n: nat, i: nat, q: nat, at: nat, size: int, t: Timing, packetNum: nat)
    requires n > 0 && t.NonZero() && i <= |p| && |p| - i == q * n && at + q * (n + 1) <= size
    ensures |ScanRows(p, n, i, |p|, at, size, t, packetNum)| == q * (n + 1)
    ensures StripTimes(ScanRows(p, n, i, |p|, at, size, t, packetNum), n) == p[i..]
    decreases |p| - i
  {
    ScanArith(|p|, i, q, n);
    if i < |p| {
      assert Min(i + n, |p|) == i + n;
      var rows := ScanRows(p, n, i, |p|, at, size, t, packetNum);
      var rest := ScanRows(p, n, i + n, |p|, at + n + 1, size, t, packetNum);
      ScanRowsKeepSamples(p, n, i + n, q - 1, at + n + 1, size, t, packetNum);
      assert rows == p[i..i + n] + [ScanTime(t, packetNum, i)] + rest;
      assert rows[..n] == p[i..i + n];
      assert rows[n + 1..] == rest;
      assert StripTimes(rows, n) == p[i..i + n] + StripTimes(rest, n);
      assert p[i..] == p[i..i + n] + p[i + n..];
    }
  }

  /** For two or more channels the written range bound changes nothing: no whole-scan offset lies at `len - 1`. */
  lemma {:induction false} AsWrittenMatchesIntended(p: seq<real>, n: nat, i: nat, q: nat, at: nat, size: int, t: Timing, packetNum: nat)
    requires n >= 2 && t.NonZero() && i <= |p| && |p| - i == q * n
    ensures ScanRows(p, n, i, |p| - 1, at, size, t, packetNum) == ScanRows(p, n, i, |p|, at, size, t, packetNum)
    decreases |p| - i
  {
    if i < |p| {
      ScanArith(|p|, i, q, n);
      if at < size - n {
        AsWrittenMatchesIntended(p, n, i + n, q - 1, at + n + 1, size, t, packetNum);
      }
    }
  }

  /** With one channel the rows below `end` depend only on the samples below `end`. */
  lemma {:induction false} UnitRowsOfPrefix(p: seq<real>, i: nat, end: int, at: nat, size: int, t: Timing, packetNum: nat)
    requires t.NonZero() && 0 <= end <= |p|
    ensures ScanRows(p, 1, i, end, at, size, t, packetNum) == ScanRows(p[..end], 1, i, end, at, size, t, packetNum)
    decreases |p| - i
  {
    if i < end && at < size - 1 {
      assert p[..end][i..Min(i + 1, end)] == p[i..Min(i + 1, |p|)];
      UnitRowsOfPrefix(p, i + 1, end, at + 2, size, t, packetNum);
    }
  }

  /** As written, a single-channel packet loses its last sample even when the buffer has room for all of it. */
  lemma SingleChannelDropsLastSample(p: seq<real>, at: nat, size: int, t: Timing, packetNum: nat)
    requires t.NonZero() && |p| >= 1 && at + (|p| - 1) * 2 <= size
    ensures StripTimes(PacketRows(p, 1, at, size, t, packetNum), 1) == p[..|p| - 1]
  {
    UnitRowsOfPrefix(p, 0, |p| - 1, at, size, t, packetNum);
    ScanRowsKeepSamples(p[..|p| - 1], 1, 0, |p| - 1, at, size, t, packetNum);
  }

  /** The intended loop stores every sample of a packet of whole scans that fits. */
  lemma IntendedKeepsEverySample(p: seq<real>, n: nat, at: nat, size: int, t: Timing, packetNum: nat)
    requires n > 0 && t.NonZero() && |p| % n == 0 && at + (|p| / n) * (n + 1) <= size
    ensures StripTimes(PacketRowsIntended(p, n, at, size, t, packetNum), n) == p
    ensures |PacketRowsIntended(p, n, at, size, t, packetNum)| == (|p| / n) * (n + 1)
  {
    ReadBack.DivMod(|p|, n);
    ScanRowsKeepSamples(p, n, 0, |p| / n, at, size, t, packetNum);
  }

  /** The concrete case: one channel, a packet of two samples, ample room; the second sample is lost, the intended loop keeps it. */
  lemma SingleChannelExample()
    ensures StripTimes(PacketRows([1.0, 2.0], 1, 0, 8, Timing(1, 1), 0), 1) == [1.0]
    ensures StripTimes(PacketRowsIntended([1.0, 2.0], 1, 0, 8, Timing(1, 1), 0), 1) == [1.0, 2.0]
  {
    SingleChannelDropsLastSample([1.0, 2.0], 0, 8, Timing(1, 1), 0);
    IntendedKeepsEverySample([1.0, 2.0], 1, 0, 8, Timing(1, 1), 0);
  }

  /** What the reading loop leaves: the stored slots, the skip markers counted, and the exception that ended it early, if any. */
  datatype RunState = RunState(contents: seq<real>, skips: nat, error: Option<LegacyError>)

  /**
   * The reading loop of `collect_data` from packet `k` on: every packet is
   * read; a zero scan rate raises at the first packet, in its expected
   * time; `range` with step 0 raises at the first packet; a zero
   * `scans_per_read` raises at the first packet whose range is not empty;
   * otherwise the packet's rows are stored and its skip markers counted,
   * and then a packet shorter than `n` raises IndexError when its first
   * `n` values are formatted, which ends the loop.
   */
  function RunFrom(packets: seq<seq<real>>, n: nat, size: int, t: Timing, k: nat, contents: seq<real>, skips: nat): (r: RunState)
    requires k <= |packets|
    ensures contents <= r.contents
    decreases |packets| - k
  {
    if k == |packets| then RunState(contents, skips, None)
    else if t.scanRate == 0 then RunState(contents, skips, Some(ZeroDivision))
    else if n == 0 then RunState(contents, skips, Some(RangeStepZero))
    else if |packets[k]| >= 2 && !t.NonZero() then RunState(contents, skips, Some(ZeroDivision))
    else
      var contents' := contents + PacketRows(packets[k], n, |contents|, size, t, k);
      var skips' := skips + CountOf(packets[k], SkipMarker);
      if |packets[k]| < n then RunState(contents', skips', Some(IndexError))
      else RunFrom(packets, n, size, t, k + 1, contents', skips')
  }

  /** A packet the reading loop gets through: long enough to format, and no zero divisor met in its rows. */
  predicate Passes(p: seq<real>, n: nat, t: Timing)
  {
    |p| >= n && !(|p| >= 2 && !t.NonZero())
  }

  /** The loop gets through every packet from `k` up to `j`. */
  predicate Reaches(packets: seq<seq<real>>, n: nat, t: Timing, k: nat, j: nat)
    requires j <= |packets|
  {
    forall i :: k <= i < j ==> Passes(packets[i], n, t)
  }

  function Run(packets: seq<seq<real>>, n: nat, size: int, t: Timing): RunState
  {
    RunFrom(packets, n, size, t, 0, [], 0)
  }

  /** The stored slots never exceed the buffer. */
  lemma {:induction false} RunWithinCapacity(packets: seq<seq<real>>, n: nat, size: int, t: Timing, k: nat, contents: seq<real>, skips: nat)
    requires k <= |packets| && |contents| <= size
    ensures |RunFrom(packets, n, size, t, k, contents, skips).contents| <= size
    decreases |packets| - k
  {
    if k < |packets| && t.scanRate != 0 && n > 0 && !(|packets[k]| >= 2 && !t.NonZero()) {
      ScanRowsFit(packets[k], n, 0, |packets[k]| - 1, |contents|, size, t, k);
      if |packets[k]| >= n {
        RunWithinCapacity(packets, n, size, t, k + 1, contents + PacketRows(packets[k], n, |contents|, size, t, k),
                          skips + CountOf(packets[k], SkipMarker));
      }
    }
  }

  /** With packets of whole scans the stored slots are whole rows of `n + 1`. */
  lemma {:induction false} RunRowAligned(packets: seq<seq<real>>, n: nat, size: int, t: Timing, k: nat, contents: seq<real>, skips: nat)
    requires k <= |packets| && StreamFill.WholeScans(packets, n) && |contents| % (n + 1) == 0
    ensures |RunFrom(packets, n, size, t, k, contents, skips).contents| % (n + 1) == 0
    decreases |packets| - k
  {
    if k < |packets| && t.scanRate != 0 && n > 0 && !(|packets[k]| >= 2 && !t.NonZero()) {
      var p := packets[k];
      ReadBack.DivMod(|p|, n);
      ScanRowsAligned(p, n, 0, |p| - 1, |p| / n, |contents|, size, t, k);
      var rows := PacketRows(p, n, |contents|, size, t, k);
      ModSum(|contents|, |rows|, n + 1);
      if |p| >= n {
        RunRowAligned(packets, n, size, t, k + 1, contents + rows, skips + CountOf(p, SkipMarker));
      }
    }
  }

  /**
   * Short packets end the run: with two channels, [1.0] stores nothing and
   * raises IndexError, so the next packet is never read; with four
   * channels, [1.0, 2.0, 3.0] first stores its one partial row and time.
   */
  lemma ShortPacketEndsRun()
    ensures Run([[1.0], [2.0, 3.0]], 2, 100, Timing(10, 10)) == RunState([], 0, Some(IndexError))
    ensures Run([[1.0, 2.0, 3.0], [4.0]], 4, 100, Timing(10, 10)) == RunState([1.0, 2.0, 3.0, 0.0], 0, Some(IndexError))
  {
    assert CountOf([1.0, 2.0, 3.0], SkipMarker) == 0;
  }

  /** A run that ends without an exception counts the skip markers of every packet read, stored or not. */
  lemma {:induction false} RunSkips(packets: seq<seq<real>>, n: nat, size: int, t: Timing, k: nat, contents: seq<real>, skips: nat)
    requires k <= |packets|
    ensures RunFrom(packets, n, size, t, k, contents, skips).error.None? ==>
      RunFrom(packets, n, size, t, k, contents, skips).skips == skips + CountOf(ReadBack.Flatten(packets[k..]), SkipMarker)
    decreases |packets| - k
  {
    if k == |packets| {
      assert packets[k..] == [];
    } else if t.scanRate != 0 && n > 0 && Passes(packets[k], n, t) {
      var p := packets[k];
      RunSkips(packets, n, size, t, k + 1, contents + PacketRows(p, n, |contents|, size, t, k), skips + CountOf(p, SkipMarker));
      assert packets[k..][1..] == packets[k + 1..];
      assert ReadBack.Flatten(packets[k..]) == p + ReadBack.Flatten(packets[k + 1..]);
      CountOfAppend(p, ReadBack.Flatten(packets[k + 1..]), SkipMarker);
    }
  }

  /**
   * When the loop raises: a zero scan rate at the first packet read, a step
   * of 0 at the first packet read; otherwise at the first packet that does
   * not pass, a zero `scans_per_read` if its range is not empty, else
   * IndexError for a packet shorter than `n`. Without an exception every
   * packet passes. A zero divisor raises before anything is stored.
   */
  lemma {:induction false} RunErrors(packets: seq<seq<real>>, n: nat, size: int, t: Timing, k: nat, contents: seq<real>, skips: nat)
    requires k <= |packets|
    ensures var r := RunFrom(packets, n, size, t, k, contents, skips);
      && (r.error == Some(RangeStepZero) <==> k < |packets| && t.scanRate != 0 && n == 0)
      && (r.error == Some(ZeroDivision) <==>
            k < |packets| && (t.scanRate == 0 ||
              (n > 0 && exists j :: k <= j < |packets| && Reaches(packets, n, t, k, j) && |packets[j]| >= 2 && !t.NonZero())))
      && (r.error == Some(IndexError) <==>
            t.scanRate != 0 && n > 0 &&
            exists j :: k <= j < |packets| && Reaches(packets, n, t, k, j) && |packets[j]| < n && !(|packets[j]| >= 2 && !t.NonZero()))
      && (r.error.None? <==> k == |packets| || (t.scanRate != 0 && n > 0 && Reaches(packets, n, t, k, |packets|)))
      && (r.error.None? || r.error == Some(RangeStepZero) || r.error == Some(ZeroDivision) || r.error == Some(IndexError))
      && (!t.NonZero() ==> r.contents == contents)
    decreases |packets| - k
  {
    if k < |packets| && t.scanRate != 0 && n > 0 {
      var p := packets[k];
      assert Reaches(packets, n, t, k, k);
      if |p| >= 2 && !t.NonZero() {
        ReachesFirst(packets, n, t, k);
      } else if |p| < n {
        ReachesFirst(packets, n, t, k);
        if !t.NonZero() {
          assert PacketRows(p, n, |contents|, size, t, k) == [];
        }
      } else {
        var rows := PacketRows(p, n, |contents|, size, t, k);
        RunErrors(packets, n, size, t, k + 1, contents + rows, skips + CountOf(p, SkipMarker));
        ReachesStep(packets, n, t, k);
        if !t.NonZero() {
          assert rows == [];
          assert contents + rows == contents;
        }
      }
    }
  }

  /** Past a packet that does not pass, the loop reaches nothing. */
  lemma ReachesFirst(packets: seq<seq<real>>, n: nat, t: Timing, k: nat)
    requires k < |packets| && !Passes(packets[k], n, t)
    ensures forall j :: k < j <= |packets| ==> !Reaches(packets, n, t, k, j)
  {
    forall j | k < j <= |packets|
      ensures !Reaches(packets, n, t, k, j)
    {
      assert !Passes(packets[k], n, t);
    }
  }

  /** Past a packet that passes, the loop reaches from `k` what it reaches from `k + 1`. */
  lemma ReachesStep(packets: seq<seq<real>>, n: nat, t: Timing, k: nat)
    requires k < |packets| && Passes(packets[k], n, t)
    ensures forall j :: k < j <= |packets| ==> (Reaches(packets, n, t, k, j) <==> Reaches(packets, n, t, k + 1, j))
  {
  }

  /** The stream configuration `collect_data` writes: trigger and clock reset to 0, then the frames. */
  function LegacySetupWrites(inputs: seq<string>, maxVoltages: seq<real>, streamSetting: real, resolution: real): seq<Write>
    requires |inputs| == |maxVoltages|
  {
    [Write("STREAM_TRIGGER_INDEX", 0.0), Write("STREAM_CLOCK_SOURCE", 0.0)]
      + Controller.Pair(Controller.StreamConfigNames(inputs), Controller.StreamConfigValues(maxVoltages, streamSetting, resolution))
  }

  /** Whatever the device type, the older reader configures the stream as the newer one configures a T7. */
  lemma LegacySetupIsT7Setup(deviceType: string, inputs: seq<string>, maxVoltages: seq<real>, streamSetting: real, resolution: real)
    requires |inputs| == |maxVoltages|
    ensures LegacySetupWrites(inputs, maxVoltages, streamSetting, resolution)
         == Controller.SetupWrites("T7", inputs, maxVoltages, streamSetting, resolution)
  {
  }

  // ---------------------------------------------------------------------
  // Text layout of write_data_to_file
  // ---------------------------------------------------------------------

  /** Python's `sep.join(words)`. */
  function Join(words: seq<string>, sep: char): string
  {
    if |words| == 0 then ""
    else if |words| == 1 then words[0]
    else words[0] + [sep] + Join(words[1..], sep)
  }

  /** Python's `s.split(sep)`: the pieces between separators, empty ones included. */
  function Split(s: string, sep: char): (parts: seq<string>)
    ensures |parts| >= 1
    decreases |s|
  {
    if s == [] then [""]
    else
      var rest := Split(s[1..], sep);
      if s[0] == sep then [""] + rest else [[s[0]] + rest[0]] + rest[1..]
  }

  lemma {:induction false} SplitNoSeparator(w: string, sep: char)
    requires sep !in w
    ensures Split(w, sep) == [w]
  {
    if w != [] {
      SplitNoSeparator(w[1..], sep);
      assert [w[0]] + w[1..] == w;
    }
  }

  lemma {:induction false} SplitAfterWord(w: string, rest: string, sep: char)
    requires sep !in w
    ensures Split(w + [sep] + rest, sep) == [w] + Split(rest, sep)
  {
    var s := w + [sep] + rest;
    if w == [] {
      assert s == [sep] + rest;
      assert s[1..] == rest;
    } else {
      SplitAfterWord(w[1..], rest, sep);
      assert s[1..] == w[1..] + [sep] + rest;
      assert [w[0]] + w[1..] == w;
    }
  }

  /** Splitting a join gives the words back when none of them holds the separator. */
  lemma {:induction false} SplitJoin(words: seq<string>, sep: char)
    requires |words| >= 1 && forall i :: 0 <= i < |words| ==> sep !in words[i]
    ensures Split(Join(words, sep), sep) == words
  {
    if |words| == 1 {
      SplitNoSeparator(words[0], sep);
    } else {
      SplitJoin(words[1..], sep);
      SplitAfterWord(words[0], Join(words[1..], sep), sep);
      assert words == [words[0]] + words[1..];
    }
  }

  lemma {:induction false} JoinSnoc(words: seq<string>, last: string, sep: char)
    requires |words| >= 1
    ensures Join(words + [last], sep) == Join(words, sep) + [sep] + last
  {
    if |words| == 1 {
      assert (words + [last])[1..] == [last];
    } else {
      JoinSnoc(words[1..], last, sep);
      assert (words + [last])[1..] == words[1..] + [last];
    }
  }

  /** The header line: the channel names and "time", separated by spaces. */
  function Header(channels: seq<string>): string
  {
    Join(channels, ' ') + " time\n"
  }

  /** The text of each value of a row. */
  function Shown(row: seq<real>, show: real -> string): seq<string>
  {
    seq(|row|, i requires 0 <= i < |row| => show(row[i]))
  }

  /** One line per row: its values' texts separated by spaces. */
  function RowLines(rows: seq<seq<real>>, show: real -> string): seq<string>
  {
    seq(|rows|, j requires 0 <= j < |rows| => Join(Shown(rows[j], show), ' ') + "\n")
  }

  /** What `write_data_to_file` writes: the header, then the whole buffer in rows of `n + 1`. */
  function FileLines(channels: seq<string>, data: seq<real>, show: real -> string): seq<string>
    requires |data| % (|channels| + 1) == 0
  {
    [Header(channels)] + RowLines(ReadBack.Chunks(data, |channels| + 1), show)
  }

  /** The checks of `write_data_to_file`, in its order: buffer, emptiness, mode, filename, channels, row shape. */
  function FileCheck(data: Option<seq<real>>, channels: Option<seq<string>>, filename: PyValue, mode: string): (e: Option<LegacyError>)
    ensures e.None? <==>
      && data.Some? && |data.value| > 0
      && mode in ["r+", "w", "w+", "a"]
      && filename.PyStr? && |filename.s| > 0
      && channels.Some? && |data.value| % (|channels.value| + 1) == 0
    ensures data.None? ==> e == Some(TypeError)
    ensures data.Some? && |data.value| == 0 ==> e == Some(NoData)
    ensures data.Some? && |data.value| > 0 && mode !in ["r+", "w", "w+", "a"] ==> e == Some(BadMode)
    ensures data.Some? && |data.value| > 0 && mode in ["r+", "w", "w+", "a"] && !(filename.PyStr? && |filename.s| > 0)
      ==> e == Some(BadFilename)
    ensures data.Some? && |data.value| > 0 && mode in ["r+", "w", "w+", "a"] && filename.PyStr? && |filename.s| > 0 && channels.None?
      ==> e == Some(TypeError)
    ensures data.Some? && |data.value| > 0 && mode in ["r+", "w", "w+", "a"] && filename.PyStr? && |filename.s| > 0 && channels.Some?
      && |data.value| % (|channels.value| + 1) != 0
      ==> e == Some(ReshapeError)
  {
    if data.None? then Some(TypeError)
    else if |data.value| == 0 then Some(NoData)
    else if mode !in ["r+", "w", "w+", "a"] then Some(BadMode)
    else if !(filename.PyStr? && |filename.s| > 0) then Some(BadFilename)
    else if channels.None? then Some(TypeError)
    else if |data.value| % (|channels.value| + 1) != 0 then Some(ReshapeError)
    else None
  }

  /** The file has one line per row of the buffer after the header. */
  lemma FileLineCount(channels: seq<string>, data: seq<real>, show: real -> string)
    requires |data| % (|channels| + 1) == 0
    ensures |FileLines(channels, data, show)| == 1 + |data| / (|channels| + 1)
    ensures FileLines(channels, data, show)[0] == Header(channels)
  {
    var rows := ReadBack.Chunks(data, |channels| + 1);
    ReadBack.DivUnique(|data|, |channels| + 1, |rows|, 0);
  }

  /** Splitting the header at spaces gives the channels and "time" back, when no channel name holds a space. */
  lemma HeaderReadsBack(channels: seq<string>)
    requires |channels| >= 1 && forall i :: 0 <= i < |channels| ==> ' ' !in channels[i]
    ensures var h := Header(channels); Split(h[..|h| - 1], ' ') == channels + ["time"]
  {
    var h := Header(channels);
    JoinSnoc(channels, "time", ' ');
    assert h[..|h| - 1] == Join(channels + ["time"], ' ');
    SplitJoin(channels + ["time"], ' ');
  }

  /** Splitting a row line at spaces gives that row's value texts back, when no value's text holds a space. */
  lemma RowLineReadsBack(channels: seq<string>, data: seq<real>, show: real -> string, j: nat)
    requires |data| % (|channels| + 1) == 0 && j < |data| / (|channels| + 1)
    requires forall x: real :: ' ' !in show(x)
    ensures var line := FileLines(channels, data, show)[j + 1];
      Split(line[..|line| - 1], ' ') == Shown(ReadBack.Chunks(data, |channels| + 1)[j], show)
  {
    FileLineCount(channels, data, show);
    var rows := ReadBack.Chunks(data, |channels| + 1);
    ReadBack.DivUnique(|data|, |channels| + 1, |rows|, 0);
    var words := Shown(rows[j], show);
    assert |words| == |channels| + 1;
    forall i | 0 <= i < |words|
      ensures ' ' !in words[i]
    {
      var x := rows[j][i];
      assert ' ' !in show(x);
      assert words[i] == show(x);
    }
    var line := FileLines(channels, data, show)[j + 1];
    assert line == Join(words, ' ') + "\n";
    assert line[..|line| - 1] == Join(words, ' ');
    SplitJoin(words, ' ');
  }

  class LabjackReader {
    const deviceType: string
    const connection: string
    const identifier: string
    var inputChannels: Option<seq<string>>
    var data: array?<real>
    var maxIndex: Option<nat>
    var connectionOpen: bool

    /** A cursor exists exactly alongside a buffer, and stays within it; a buffer comes with its channels. */
    predicate Valid()
      reads this
    {
      && (maxIndex.Some? <==> data != null)
      && (data != null ==> inputChannels.Some? && maxIndex.value <= data.Length)
    }

    /** `__init__`: no channels, buffer or cursor, the connection closed. */
    constructor(deviceType: string, connection: string, identifier: string)
      ensures Valid()
      ensures this.deviceType == deviceType && this.connection == connection && this.identifier == identifier
      ensures inputChannels == None && data == null && maxIndex == None && !connectionOpen
    {
      this.deviceType, this.connection, this.identifier := deviceType, connection, identifier;
      inputChannels := None;
      data := null;
      maxIndex := None;
      connectionOpen := false;
    }

    /** `get_max_data_index`: the cursor, or -1 when there is none or it is 0. */
    function GetMaxDataIndex(): (r: int)
      reads this
      ensures r == -1 <==> maxIndex.None? || maxIndex.value == 0
      ensures r != -1 ==> maxIndex == Some(r) && r > 0
    {
      if maxIndex.Some? && maxIndex.value != 0 then maxIndex.value else -1
    }

    /** `open_stream`: opens only when closed; a failure to open exits the process. */
    method OpenStream(openSucceeds: bool) returns (exited: bool)
      modifies this
      ensures exited <==> !old(connectionOpen) && !openSucceeds
      ensures connectionOpen == (old(connectionOpen) || openSucceeds)
      ensures inputChannels == old(inputChannels) && data == old(data) && maxIndex == old(maxIndex)
    {
      exited := false;
      if !connectionOpen {
        if !openSucceeds {
          exited := true;
          return;
        }
        connectionOpen := true;
      }
    }

    /** `close_stream`: clears the flag when stopping the stream succeeds; a failure is reported and swallowed. */
    method CloseStream(stopSucceeds: bool)
      modifies this
      ensures connectionOpen == (old(connectionOpen) && !stopSucceeds)
      ensures inputChannels == old(inputChannels) && data == old(data) && maxIndex == old(maxIndex)
    {
      if connectionOpen && stopSucceeds {
        connectionOpen := false;
      }
    }

    /** `get_data`: None before any buffer exists; with a buffer, its slice is a list, which `np.frombuffer` rejects. */
    function GetData(): (r: Result<Option<seq<seq<real>>>, LegacyError>)
      reads this
      ensures r == Ok(None) <==> data == null
      ensures r.Err? <==> data != null
      ensures r.Err? ==> r.error == TypeError
    {
      if data != null then Err(TypeError) else Ok(None)
    }

    /** Stores one row at `at`: its values, then its time. */
    method WriteRow(at: nat, values: seq<real>, currTime: real) returns (next: nat)
      requires data != null && at + |values| + 1 <= data.Length
      modifies data
      ensures next == at + |values| + 1
      ensures data[..next] == old(data[..at]) + values + [currTime]
      ensures forall j :: next <= j < data.Length ==> data[j] == old(data[j])
    {
      forall j | 0 <= j < |values| {
        data[at + j] := values[j];
      }
      data[at + |values|] := currTime;
      next := at + |values| + 1;
    }

    /** One pass of the row loop: the row at offset `i` fits and is stored, the packet's later rows are still to come. */
    method StoreScan(p: seq<real>, n: nat, packetNum: nat, t: Timing, i: nat, at: nat, currTime: real) returns (next: nat)
      requires data != null && n > 0 && t.NonZero() && i < |p| - 1 && at < data.Length - n
      requires currTime == ScanTime(t, packetNum, i)
      modifies data
      ensures at < next <= data.Length
      ensures data[..next] + ScanRows(p, n, i + n, |p| - 1, next, data.Length, t, packetNum)
           == old(data[..at]) + ScanRows(p, n, i, |p| - 1, at, data.Length, t, packetNum)
      ensures forall j :: next <= j < data.Length ==> data[j] == old(data[j])
    {
      var hi := Min(i + n, |p|);
      ghost var prefix := data[..at];
      ghost var rest := ScanRows(p, n, i + n, |p| - 1, at + (hi - i) + 1, data.Length, t, packetNum);
      next := WriteRow(at, p[i..hi], currTime);
      assert ScanRows(p, n, i, |p| - 1, at, data.Length, t, packetNum) == p[i..hi] + [currTime] + rest;
    }

    /** The row loop of `collect_data` for packet `packetNum`, from cursor `at`. */
    method StorePacket(p: seq<real>, n: nat, packetNum: nat, t: Timing, at: nat) returns (next: nat)
      requires data != null && n > 0 && at <= data.Length && (t.NonZero() || |p| <= 1)
      modifies data
      ensures next == at + |PacketRows(p, n, at, data.Length, t, packetNum)| <= data.Length
      ensures data[..next] == old(data[..at]) + PacketRows(p, n, at, data.Length, t, packetNum)
      ensures forall j :: next <= j < data.Length ==> data[j] == old(data[j])
    {
      var size := data.Length;
      ghost var target := data[..at] + PacketRows(p, n, at, size, t, packetNum);
      next := at;
      var i := 0;
      while i < |p| - 1
        invariant next <= size
        invariant data[..next] + ScanRows(p, n, i, |p| - 1, next, size, t, packetNum) == target
        invariant forall j :: next <= j < size ==> data[j] == old(data[j])
        decreases |p| - i
      {
        var currTime := ScanTime(t, packetNum, i);
        if next >= size - n {
          break;
        }
        next := StoreScan(p, n, packetNum, t, i, next, currTime);
        i := i + n;
      }
    }

    /**
     * One pass of the reading loop for a packet that raises no zero divisor:
     * its rows are stored and its skip markers counted, as `RunFrom` takes one
     * step; a packet shorter than `n` then ends the run with IndexError.
     */
    method ReadPacket(packets: seq<seq<real>>, n: nat, size: int, t: Timing, k: nat, at: nat, ghost contents: seq<real>, skips: nat)
      returns (next: nat, currSkip: nat, ghost contents': seq<real>)
      requires data != null && data.Length == size && n > 0 && t.scanRate != 0 && k < |packets| && (t.NonZero() || |packets[k]| <= 1)
      requires at <= size && data[..at] == contents
      modifies data
      ensures at <= next <= size && data[..next] == contents'
      ensures RunFrom(packets, n, size, t, k, contents, skips)
           == if |packets[k]| < n then RunState(contents', skips + currSkip, Some(IndexError))
              else RunFrom(packets, n, size, t, k + 1, contents', skips + currSkip)
      ensures forall j :: next <= j < size ==> data[j] == old(data[j])
    {
      var p := packets[k];
      next := StorePacket(p, n, k, t, at);
      currSkip := Controller.CountSkips(p);
      contents' := contents + PacketRows(p, n, at, size, t, k);
    }

    /**
     * The reading loop of `collect_data` over a zeroed buffer of `size`
     * slots: reads packets until they run out or one raises. Below the
     * returned cursor lie exactly the slots of `Run`, above it zeros; the
     * skips and the exception are those of `Run`.
     */
    method ReadPackets(packets: seq<seq<real>>, n: nat, size: int, t: Timing) returns (at: nat, skips: nat, error: Option<LegacyError>)
      requires data != null && data.Length == size
      requires forall j :: 0 <= j < size ==> data[j] == 0.0
      modifies data
      ensures var run := Run(packets, n, size, t);
        && at == |run.contents| <= size
        && data[..at] == run.contents
        && skips == run.skips && error == run.error
      ensures forall j :: at <= j < size ==> data[j] == 0.0
    {
      ghost var run := Run(packets, n, size, t);
      at, skips := 0, 0;
      error := None;
      var k: nat := 0;
      ghost var contents: seq<real> := [];
      assert data[..0] == contents;
      while k < |packets|
        invariant k <= |packets| && at <= size && error.None?
        invariant data[..at] == contents
        invariant RunFrom(packets, n, size, t, k, contents, skips) == run
        invariant forall j :: at <= j < size ==> data[j] == 0.0
        decreases |packets| - k
      {
        if t.scanRate == 0 {
          error := Some(ZeroDivision);
          return;
        }
        if n == 0 {
          error := Some(RangeStepZero);
          return;
        }
        var p := packets[k];
        if |p| >= 2 && !t.NonZero() {
          error := Some(ZeroDivision);
          return;
        }
        var currSkip;
        at, currSkip, contents := ReadPacket(packets, n, size, t, k, at, contents, skips);
        skips := skips + currSkip;
        if |p| < n {
          error := Some(IndexError);
          return;
        }
        k := k + 1;
      }
    }

    /**
     * `collect_data`: opens the stream (exiting when that fails), records
     * the channels, allocates `size` zeroed slots and a cursor at 0, reads
     * packets until they run out or one raises (as `RunFrom` says), then
     * reports the skipped scans per channel; whatever is
     * raised after opening is caught, and the stream is stopped in the end.
     * Below the cursor lie exactly the slots of `Run`; above it, zeros.
     */
    method CollectData(inputs: seq<string>, size: int, t: Timing, packets: seq<seq<real>>,
                       openSucceeds: bool, readFails: bool, stopSucceeds: bool) returns (outcome: Outcome)
      requires Valid()
      modifies this
      ensures Valid()
      ensures !old(connectionOpen) && !openSucceeds ==>
        && outcome == Exited && !connectionOpen
        && inputChannels == old(inputChannels) && data == old(data) && maxIndex == old(maxIndex)
      ensures old(connectionOpen) || openSucceeds ==>
        && inputChannels == Some(inputs)
        && connectionOpen == !stopSucceeds
        && (size < 0 ==> outcome == Caught(AllocationFailed) && data == old(data) && maxIndex == old(maxIndex))
        && (size >= 0 ==>
              var run := Run(packets, |inputs|, size, t);
              && fresh(data) && data.Length == size
              && maxIndex == Some(|run.contents|)
              && data[..|run.contents|] == run.contents
              && (forall j :: |run.contents| <= j < size ==> data[j] == 0.0)
              && outcome == (if run.error.Some? then Caught(run.error.value)
                             else if readFails then Caught(StreamReadFailed)
                             else if |inputs| == 0 then Caught(ZeroDivision)
                             else Completed(run.skips as real / |inputs| as real)))
    {
      var exited := OpenStream(openSucceeds);
      if exited {
        return Exited;
      }
      inputChannels := Some(inputs);
      var n := |inputs|;
      if size < 0 {
        outcome := Caught(AllocationFailed);
        CloseStream(stopSucceeds);
        return;
      }
      var buf := new real[size](_ => 0.0);
      data := buf;
      maxIndex := Some(0);
      var at, skips, error := ReadPackets(packets, n, size, t);
      maxIndex := Some(at);
      if error.Some? {
        outcome := Caught(error.value);
      } else if readFails {
        outcome := Caught(StreamReadFailed);
      } else if n == 0 {
        outcome := Caught(ZeroDivision);
      } else {
        outcome := Completed(skips as real / n as real);
      }
      CloseStream(stopSucceeds);
    }

    /**
     * `write_data_to_file`: after its checks, the header and then one line
     * per row of the whole buffer, unfilled slots included. `show` is the
     * text Python gives a value.
     */
    method WriteDataToFile(filename: PyValue, mode: string, show: real -> string) returns (r: Result<seq<string>, LegacyError>)
      ensures var e := FileCheck(if data == null then None else Some(data[..]), inputChannels, filename, mode);
        && (e.Some? ==> r == Err(e.value))
        && (e.None? ==> r == Ok(FileLines(inputChannels.value, data[..], show)))
    {
      var e := FileCheck(if data == null then None else Some(data[..]), inputChannels, filename, mode);
      if e.Some? {
        return Err(e.value);
      }
      var channels := inputChannels.value;
      var rows := ReadBack.Chunks(data[..], |channels| + 1);
      var lines := [Header(channels)];
      var j := 0;
      while j < |rows|
        invariant 0 <= j <= |rows|
        invariant lines == [Header(channels)] + RowLines(rows, show)[..j]
      {
        lines := lines + [Join(Shown(rows[j], show), ' ') + "\n"];
        j := j + 1;
      }
      assert RowLines(rows, show)[..j] == RowLines(rows, show);
      r := Ok(lines);
    }
  }

  /** Taking one scan of `n` values off `q` scans: none are left exactly when the offset is at the end. */
  lemma ScanArith(len: int, i: int, q: nat, n: nat)
    requires n > 0 && len - i == q * n
    ensures q == 0 <==> i == len
    ensures q > 0 ==> i + n <= len && len - (i + n) == (q - 1) * n
    ensures q > 0 ==> q * (n + 1) == (q - 1) * (n + 1) + (n + 1) && (q - 1) * (n + 1) >= 0
  {
    ReadBack.MulMono(0, q, n);
    if q > 0 {
      ReadBack.Distrib(q - 1, 1, n);
      ReadBack.MulMono(0, q - 1, n);
      ReadBack.Distrib(q - 1, 1, n + 1);
      ReadBack.MulMono(0, q - 1, n + 1);
    }
  }

  /** Two multiples of `w` add up to a multiple of `w`. */
  lemma ModSum(a: int, b: int, w: int)
    requires w > 0 && a % w == 0 && b % w == 0
    ensures (a + b) % w == 0
  {
    ReadBack.DivMod(a, w);
    ReadBack.DivMod(b, w);
    ReadBack.Distrib(a / w, b / w, w);
    ReadBack.DivUnique(a + b, w, a / w + b / w, 0);
  }
}
