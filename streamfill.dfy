/**
 * The buffer fill of `LabjackReader.collect_data`
 * (labjackcontroller/labtools.py and its build/lib copy), stated as
 * functions over values so the imperative method can be proved against it.
 *
 * The stream delivers packets of interleaved channel values, `n` values per
 * scan. Each accepted scan becomes one stored row: its `n` values, the
 * device time computed from the packet number and the scan's offset, and
 * the system time read when the row is written. A packet is accepted whole
 * or not at all: one whose rows would push the cursor past the capacity
 * stops the run. The system clock is an opaque function of the slot the
 * reading is stored in.
 */
module StreamFill {
  import opened Values
  import opened ReadBack

  /** Device time of the scan at `offset` in packet number `packetNum` of `len` values: `ratio * (packetNum + offset / len)`. */
  function DeviceTime(ratio: real, packetNum: nat, offset: nat, len: nat): real
    requires len > 0
  {
    ratio * (packetNum as real + (offset as real) / (len as real))
  }

  /** What the stream guarantees of its packets: each holds at least one scan and only whole scans of `n` values. */
  predicate WholeScans(packets: seq<seq<real>>, n: nat)
  {
    forall i :: 0 <= i < |packets| ==> 0 < |packets[i]| && (n > 0 ==> |packets[i]| % n == 0)
  }

  /** The guard's view of a packet: the number of slots its rows take. */
  function PacketSlots(p: seq<real>, n: nat): int
    requires n > 0
  {
    (|p| / n) * (n + 2)
  }

  /**
   * The slots written for the scans in `rest`, the part of a packet of
   * `len` values that starts at `offset`, when the cursor stands at `at`:
   * per scan its `n` values, the device time and the system time.
   */
  function PacketRows(rest: seq<real>, n: nat, offset: nat, len: nat, ratio: real, packetNum: nat,
                      clock: nat -> real, at: nat): (r: seq<real>)
    requires n > 0 && |rest| % n == 0 && len > 0
    decreases |rest|
  {
    if |rest| == 0 then []
    else
      ScanStep(|rest|, n);
      rest[..n] + [DeviceTime(ratio, packetNum, offset, len), clock(at + n + 1)]
        + PacketRows(rest[n..], n, offset + n, len, ratio, packetNum, clock, at + n + 2)
  }

  /** A packet of `len / n` scans takes `len / n` rows of `n + 2` slots. */
  lemma {:induction false} PacketRowsLength(rest: seq<real>, n: nat, offset: nat, len: nat, ratio: real, packetNum: nat,
                                            clock: nat -> real, at: nat)
    requires n > 0 && |rest| % n == 0 && len > 0
    ensures |PacketRows(rest, n, offset, len, ratio, packetNum, clock, at)| == PacketSlots(rest, n)
    ensures |PacketRows(rest, n, offset, len, ratio, packetNum, clock, at)| % (n + 2) == 0
    decreases |rest|
  {
    if |rest| > 0 {
      ScanStep(|rest|, n);
      PacketRowsLength(rest[n..], n, offset + n, len, ratio, packetNum, clock, at + n + 2);
      Distrib(|rest| / n - 1, 1, n + 2);
    }
    DivMod(|rest|, n);
    MulMono(0, |rest| / n, n + 2);
    DivUnique(|rest| / n * (n + 2), n + 2, |rest| / n, 0);
  }

  /** The slots for the scans from offset `i` of a packet: the scan at `i`, then the scans after it. */
  lemma PacketRowsUnfold(p: seq<real>, n: nat, i: nat, ratio: real, packetNum: nat, clock: nat -> real, at: nat)
    requires n > 0 && i < |p| && (|p| - i) % n == 0
    ensures i + n <= |p| && (|p| - (i + n)) % n == 0
    ensures PacketRows(p[i..], n, i, |p|, ratio, packetNum, clock, at)
         == p[i..i + n] + [DeviceTime(ratio, packetNum, i, |p|), clock(at + n + 1)]
            + PacketRows(p[i + n..], n, i + n, |p|, ratio, packetNum, clock, at + n + 2)
  {
    ScanStep(|p| - i, n);
    assert p[i..][n..] == p[i + n..];
    assert p[i..][..n] == p[i..i + n];
  }

  /** Why the run stopped: the buffer is full, the next packet would overflow it, or the stream read failed. */
  datatype Stop = Full | Overflow | StreamEnded

  /** The result of a run: the filled prefix of the buffer, the skip count, the number of packets accepted, and why it stopped. */
  datatype FillState = FillState(contents: seq<real>, skips: nat, accepted: nat, stop: Stop)

  /**
   * The `while max_index < size` loop from packet `k` on, with the cursor at
   * `|contents|` and `skips` counted so far. Packet `k` carries packet
   * number `k`, because every packet read before it was accepted.
   */
  function FillFrom(packets: seq<seq<real>>, n: nat, size: int, ratio: real, clock: nat -> real,
                    k: nat, contents: seq<real>, skips: nat): (f: FillState)
    requires n > 0 && WholeScans(packets, n) && k <= |packets|
    ensures k <= f.accepted <= |packets|
    ensures contents <= f.contents
    decreases |packets| - k
  {
    if |contents| >= size then FillState(contents, skips, k, Full)
    else if k == |packets| then FillState(contents, skips, k, StreamEnded)
    else
      var p := packets[k];
      if |contents| + PacketSlots(p, n) > size then FillState(contents, skips, k, Overflow)
      else
        var rows := PacketRows(p, n, 0, |p|, ratio, k, clock, |contents|);
        FillFrom(packets, n, size, ratio, clock, k + 1, contents + rows, skips + CountOf(p, SkipMarker))
  }

  /** A whole run: empty buffer, no skips, first packet. */
  function Fill(packets: seq<seq<real>>, n: nat, size: int, ratio: real, clock: nat -> real): FillState
    requires n > 0 && WholeScans(packets, n)
  {
    FillFrom(packets, n, size, ratio, clock, 0, [], 0)
  }

  /** One iteration of the loop: a packet that fits is stored and its markers counted. */
  lemma FillStep(packets: seq<seq<real>>, n: nat, size: int, ratio: real, clock: nat -> real,
                 k: nat, contents: seq<real>, skips: nat)
    requires n > 0 && WholeScans(packets, n) && k < |packets| && |contents| < size
    requires |contents| + PacketSlots(packets[k], n) <= size
    ensures FillFrom(packets, n, size, ratio, clock, k, contents, skips)
         == FillFrom(packets, n, size, ratio, clock, k + 1,
                     contents + PacketRows(packets[k], n, 0, |packets[k]|, ratio, k, clock, |contents|),
                     skips + CountOf(packets[k], SkipMarker))
  {
  }

  /** What a whole run guarantees: within capacity, on a row boundary, and stopped for one of the three reasons. */
  lemma FillFacts(packets: seq<seq<real>>, n: nat, size: int, ratio: real, clock: nat -> real)
    requires n > 0 && WholeScans(packets, n) && size > 0
    ensures var f := Fill(packets, n, size, ratio, clock);
      && |f.contents| <= size
      && |f.contents| % (n + 2) == 0
      && (f.stop == Full <==> |f.contents| >= size)
      && (f.stop == StreamEnded ==> f.accepted == |packets|)
  {
    FillWithinCapacity(packets, n, size, ratio, clock, 0, [], 0);
    DivUnique(0, n + 2, 0, 0);
    FillRowAligned(packets, n, size, ratio, clock, 0, [], 0);
    FillStops(packets, n, size, ratio, clock, 0, [], 0);
  }

  /** The cursor never passes the capacity: a packet that would overflow is rejected. */
  lemma {:induction false} FillWithinCapacity(packets: seq<seq<real>>, n: nat, size: int, ratio: real, clock: nat -> real,
                                              k: nat, contents: seq<real>, skips: nat)
    requires n > 0 && WholeScans(packets, n) && k <= |packets| && |contents| <= size
    ensures |FillFrom(packets, n, size, ratio, clock, k, contents, skips).contents| <= size
    decreases |packets| - k
  {
    if |contents| < size && k < |packets| {
      var p := packets[k];
      if |contents| + PacketSlots(p, n) <= size {
        var rows := PacketRows(p, n, 0, |p|, ratio, k, clock, |contents|);
        PacketRowsLength(p, n, 0, |p|, ratio, k, clock, |contents|);
        FillWithinCapacity(packets, n, size, ratio, clock, k + 1, contents + rows, skips + CountOf(p, SkipMarker));
      }
    }
  }

  /** The cursor stays on a row boundary: it advances by whole `n + 2`-wide rows. */
  lemma {:induction false} FillRowAligned(packets: seq<seq<real>>, n: nat, size: int, ratio: real, clock: nat -> real,
                                          k: nat, contents: seq<real>, skips: nat)
    requires n > 0 && WholeScans(packets, n) && k <= |packets| && |contents| % (n + 2) == 0
    ensures |FillFrom(packets, n, size, ratio, clock, k, contents, skips).contents| % (n + 2) == 0
    decreases |packets| - k
  {
    if |contents| < size && k < |packets| {
      var p := packets[k];
      if |contents| + PacketSlots(p, n) <= size {
        var rows := PacketRows(p, n, 0, |p|, ratio, k, clock, |contents|);
        PacketRowsLength(p, n, 0, |p|, ratio, k, clock, |contents|);
        DivMod(|contents|, n + 2);
        DivMod(|rows|, n + 2);
        Distrib(|contents| / (n + 2), |rows| / (n + 2), n + 2);
        DivUnique(|contents + rows|, n + 2, |contents| / (n + 2) + |rows| / (n + 2), 0);
        FillRowAligned(packets, n, size, ratio, clock, k + 1, contents + rows, skips + CountOf(p, SkipMarker));
      }
    }
  }

  /** The skip count is the number of -9999.0 markers in the accepted packets; a rejected packet is never counted. */
  lemma {:induction false} FillSkips(packets: seq<seq<real>>, n: nat, size: int, ratio: real, clock: nat -> real,
                                     k: nat, contents: seq<real>, skips: nat)
    requires n > 0 && WholeScans(packets, n) && k <= |packets|
    ensures var f := FillFrom(packets, n, size, ratio, clock, k, contents, skips);
      f.skips == skips + CountOf(Flatten(packets[k..f.accepted]), SkipMarker)
    decreases |packets| - k
  {
    var f := FillFrom(packets, n, size, ratio, clock, k, contents, skips);
    if |contents| < size && k < |packets| && |contents| + PacketSlots(packets[k], n) <= size {
      var p := packets[k];
      var rows := PacketRows(p, n, 0, |p|, ratio, k, clock, |contents|);
      FillSkips(packets, n, size, ratio, clock, k + 1, contents + rows, skips + CountOf(p, SkipMarker));
      assert packets[k..f.accepted][1..] == packets[k + 1..f.accepted];
      CountOfAppend(p, Flatten(packets[k + 1..f.accepted]), SkipMarker);
    } else {
      assert packets[k..f.accepted] == [];
    }
  }

  /**
   * Why a run stopped: a full buffer, a packet that would not fit (the first
   * one not accepted), or no packet left to read while there was room.
   */
  lemma {:induction false} FillStops(packets: seq<seq<real>>, n: nat, size: int, ratio: real, clock: nat -> real,
                                     k: nat, contents: seq<real>, skips: nat)
    requires n > 0 && WholeScans(packets, n) && k <= |packets|
    ensures var f := FillFrom(packets, n, size, ratio, clock, k, contents, skips);
      && (f.stop == Full <==> |f.contents| >= size)
      && (f.stop == Overflow ==> f.accepted < |packets| && |f.contents| + PacketSlots(packets[f.accepted], n) > size)
      && (f.stop == StreamEnded ==> f.accepted == |packets|)
    decreases |packets| - k
  {
    if |contents| < size && k < |packets| {
      var p := packets[k];
      if |contents| + PacketSlots(p, n) <= size {
        var rows := PacketRows(p, n, 0, |p|, ratio, k, clock, |contents|);
        FillStops(packets, n, size, ratio, clock, k + 1, contents + rows, skips + CountOf(p, SkipMarker));
      }
    }
  }

  /** Splitting off a first row of width `w`. */
  lemma ChunksCons(a: seq<real>, b: seq<real>, w: nat)
    requires w > 0 && |a| == w && |b| % w == 0
    ensures (|a + b|) % w == 0
    ensures Chunks(a + b, w) == [a] + Chunks(b, w)
  {
    DivMod(|b|, w);
    Distrib(|b| / w, 1, w);
    DivUnique(|a + b|, w, |b| / w + 1, 0);
    assert (a + b)[..w] == a;
    assert (a + b)[w..] == b;
  }

  /** The rows a packet's scans should become, one scan at a time: its values, the device time, the system time. */
  function TimedScans(rest: seq<real>, n: nat, offset: nat, len: nat, ratio: real, packetNum: nat,
                      clock: nat -> real, at: nat): seq<seq<real>>
    requires n > 0 && |rest| % n == 0 && len > 0
    decreases |rest|
  {
    if |rest| == 0 then []
    else
      ScanStep(|rest|, n);
      [rest[..n] + [DeviceTime(ratio, packetNum, offset, len), clock(at + n + 1)]]
        + TimedScans(rest[n..], n, offset + n, len, ratio, packetNum, clock, at + n + 2)
  }

  /** Read back by rows, the slots written for a packet are its scans, each with its two timestamps. */
  lemma {:induction false} PacketRowsAsScans(rest: seq<real>, n: nat, offset: nat, len: nat, ratio: real,
                                             packetNum: nat, clock: nat -> real, at: nat)
    requires n > 0 && |rest| % n == 0 && len > 0
    ensures |PacketRows(rest, n, offset, len, ratio, packetNum, clock, at)| % (n + 2) == 0
    ensures Chunks(PacketRows(rest, n, offset, len, ratio, packetNum, clock, at), n + 2)
         == TimedScans(rest, n, offset, len, ratio, packetNum, clock, at)
    decreases |rest|
  {
    PacketRowsLength(rest, n, offset, len, ratio, packetNum, clock, at);
    if |rest| > 0 {
      ScanStep(|rest|, n);
      var head := rest[..n] + [DeviceTime(ratio, packetNum, offset, len), clock(at + n + 1)];
      var tail := PacketRows(rest[n..], n, offset + n, len, ratio, packetNum, clock, at + n + 2);
      assert PacketRows(rest, n, offset, len, ratio, packetNum, clock, at) == head + tail;
      PacketRowsAsScans(rest[n..], n, offset + n, len, ratio, packetNum, clock, at + n + 2);
      ChunksCons(head, tail, n + 2);
    }
  }

  /** A packet of `|rest| / n` scans gives as many rows. */
  lemma {:induction false} TimedScansLength(rest: seq<real>, n: nat, offset: nat, len: nat, ratio: real,
                                            packetNum: nat, clock: nat -> real, at: nat)
    requires n > 0 && |rest| % n == 0 && len > 0
    ensures |TimedScans(rest, n, offset, len, ratio, packetNum, clock, at)| == |rest| / n == |Chunks(rest, n)|
    decreases |rest|
  {
    DivUnique(|rest|, n, |Chunks(rest, n)|, 0);
    if |rest| > 0 {
      ScanStep(|rest|, n);
      TimedScansLength(rest[n..], n, offset + n, len, ratio, packetNum, clock, at + n + 2);
    }
  }

  /** Row `j` of a packet holds scan `j`, the device time at offset `j * n` and the clock reading stored in its last slot. */
  lemma {:induction false} TimedScanOne(rest: seq<real>, n: nat, offset: nat, len: nat, ratio: real,
                                        packetNum: nat, clock: nat -> real, at: nat, j: nat)
    requires n > 0 && |rest| % n == 0 && len > 0 && j < |rest| / n
    ensures j < |TimedScans(rest, n, offset, len, ratio, packetNum, clock, at)| && j < |Chunks(rest, n)|
    ensures TimedScans(rest, n, offset, len, ratio, packetNum, clock, at)[j]
         == Chunks(rest, n)[j] + [DeviceTime(ratio, packetNum, offset + j * n, len), clock(at + j * (n + 2) + n + 1)]
    decreases |rest|
  {
    TimedScansLength(rest, n, offset, len, ratio, packetNum, clock, at);
    ScanStep(|rest|, n);
    assert Chunks(rest, n) == [rest[..n]] + Chunks(rest[n..], n);
    if j > 0 {
      TimedScanOne(rest[n..], n, offset + n, len, ratio, packetNum, clock, at + n + 2, j - 1);
      NextScanOffsets(j, n, offset, at);
    }
  }

  /** Every row of a packet holds its scan and that scan's two timestamps. */
  lemma TimedScanAt(rest: seq<real>, n: nat, offset: nat, len: nat, ratio: real,
                    packetNum: nat, clock: nat -> real, at: nat)
    requires n > 0 && |rest| % n == 0 && len > 0
    ensures var rows := TimedScans(rest, n, offset, len, ratio, packetNum, clock, at);
      && |rows| == |Chunks(rest, n)|
      && forall j :: 0 <= j < |rows| ==>
           rows[j] == Chunks(rest, n)[j] + [DeviceTime(ratio, packetNum, offset + j * n, len), clock(at + j * (n + 2) + n + 1)]
  {
    TimedScansLength(rest, n, offset, len, ratio, packetNum, clock, at);
    forall j | 0 <= j < |rest| / n
      ensures TimedScans(rest, n, offset, len, ratio, packetNum, clock, at)[j]
           == Chunks(rest, n)[j] + [DeviceTime(ratio, packetNum, offset + j * n, len), clock(at + j * (n + 2) + n + 1)]
    {
      TimedScanOne(rest, n, offset, len, ratio, packetNum, clock, at, j);
    }
  }

  /**
   * Read back by rows, the slots written for a packet are its scans in
   * order, each followed by its device time and the system time stored
   * beside it.
   */
  lemma PacketRowsReadBack(rest: seq<real>, n: nat, offset: nat, len: nat, ratio: real,
                           packetNum: nat, clock: nat -> real, at: nat)
    requires n > 0 && |rest| % n == 0 && len > 0
    ensures |PacketRows(rest, n, offset, len, ratio, packetNum, clock, at)| % (n + 2) == 0
    ensures var rows := Chunks(PacketRows(rest, n, offset, len, ratio, packetNum, clock, at), n + 2);
      && |rows| == |Chunks(rest, n)|
      && forall j :: 0 <= j < |rows| ==>
           rows[j] == Chunks(rest, n)[j] + [DeviceTime(ratio, packetNum, offset + j * n, len), clock(at + j * (n + 2) + n + 1)]
  {
    PacketRowsAsScans(rest, n, offset, len, ratio, packetNum, clock, at);
    TimedScanAt(rest, n, offset, len, ratio, packetNum, clock, at);
  }

  /** Scan `j - 1` after the first is scan `j` of the whole packet, in values and in stored slots. */
  lemma NextScanOffsets(j: nat, n: nat, offset: nat, at: nat)
    requires j > 0
    ensures offset + n + (j - 1) * n == offset + j * n
    ensures at + n + 2 + (j - 1) * (n + 2) + n + 1 == at + j * (n + 2) + n + 1
  {
    Distrib(j - 1, 1, n);
    Distrib(j - 1, 1, n + 2);
  }

  /** Taking one scan of `n` values off a whole number of scans leaves a whole number of scans, one fewer. */
  lemma ScanStep(x: nat, n: nat)
    requires n > 0 && x % n == 0 && x > 0
    ensures n <= x && (x - n) % n == 0 && (x - n) / n == x / n - 1
  {
    DivMod(x, n);
    var q := x / n;
    if q <= 0 {
      MulMono(q, 0, n);
    }
    MulMono(1, q, n);
    Distrib(q, -1, n);
    DivUnique(x - n, n, q - 1, 0);
  }
}
