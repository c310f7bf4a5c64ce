/**
 * `LabjackReader` of labjackcontroller/labtools.py (and its build/lib copy):
 * the stream configuration `_setup` computes, the connection flag, and the
 * in-place buffer fill of `collect_data`, proved against the fill
 * specification in StreamFill.
 *
 * Calls into the LabJack library are parameters: whether opening the device
 * and stopping the stream succeed, the packets the stream delivers, the
 * scan rate the device starts at and the system clock.
 */
module Controller {
  import opened Values
  import opened ReadBack
  import opened StreamFill

  /** LabJack's `GND` constant, the single-ended negative channel. */
  const GND: real := 199.0

  /**
   * `_setup`'s sample rate: `-1` and any rate above `scan_rate * len(inputs)`
   * become that maximum; any other value is kept.
   */
  function EffectiveSampleRate(scanRate: int, numAddresses: nat, sampleRate: int): (r: int)
    ensures r <= scanRate * numAddresses
    ensures r == sampleRate || r == scanRate * numAddresses
    ensures sampleRate == -1 ==> r == scanRate * numAddresses
    ensures sampleRate > scanRate * numAddresses ==> r == scanRate * numAddresses
    ensures sampleRate != -1 && sampleRate <= scanRate * numAddresses ==> r == sampleRate
  {
    var maxSampleRate := scanRate * numAddresses;
    if sampleRate == -1 then maxSampleRate
    else if sampleRate > maxSampleRate then maxSampleRate
    else sampleRate
  }

  /** Clamping an already clamped rate changes nothing. */
  lemma EffectiveSampleRateIdempotent(scanRate: int, numAddresses: nat, sampleRate: int)
    ensures var r := EffectiveSampleRate(scanRate, numAddresses, sampleRate);
      EffectiveSampleRate(scanRate, numAddresses, r) == r
  {
  }

  /** The range registers, one per input channel, in order. */
  function RangeNames(inputs: seq<string>): (names: seq<string>)
    ensures |names| == |inputs|
    ensures forall i :: 0 <= i < |inputs| ==> names[i] == inputs[i] + "_RANGE"
  {
    if inputs == [] then [] else [inputs[0] + "_RANGE"] + RangeNames(inputs[1..])
  }

  /** The registers `_setup` writes in one `eWriteNames`: the negative channel, each input's range, settling and resolution. */
  function StreamConfigNames(inputs: seq<string>): (names: seq<string>)
    ensures |names| == |inputs| + 3
    ensures names[0] == "AIN_ALL_NEGATIVE_CH"
    ensures forall i :: 0 <= i < |inputs| ==> names[i + 1] == inputs[i] + "_RANGE"
    ensures names[|inputs| + 1] == "STREAM_SETTLING_US" && names[|inputs| + 2] == "STREAM_RESOLUTION_INDEX"
  {
    ["AIN_ALL_NEGATIVE_CH"] + RangeNames(inputs) + ["STREAM_SETTLING_US", "STREAM_RESOLUTION_INDEX"]
  }

  /** The values written beside those names: GND, each input's maximum voltage, the settling time and the resolution index. */
  function StreamConfigValues(maxVoltages: seq<real>, streamSetting: real, resolution: real): (values: seq<real>)
    ensures |values| == |maxVoltages| + 3
    ensures values[0] == GND && values[1..|maxVoltages| + 1] == maxVoltages
    ensures values[|maxVoltages| + 1] == streamSetting && values[|maxVoltages| + 2] == resolution
  {
    [GND] + maxVoltages + [streamSetting, resolution]
  }

  /** `eWriteNames` gets as many values as names exactly when every input has a maximum voltage. */
  lemma StreamConfigFrames(inputs: seq<string>, maxVoltages: seq<real>, streamSetting: real, resolution: real)
    ensures |StreamConfigNames(inputs)| == |StreamConfigValues(maxVoltages, streamSetting, resolution)|
            <==> |inputs| == |maxVoltages|
  {
  }

  /** Pairs each register name with its value. */
  function Pair(names: seq<string>, values: seq<real>): (writes: seq<Write>)
    requires |names| == |values|
    ensures |writes| == |names|
    ensures forall i :: 0 <= i < |names| ==> writes[i] == Write(names[i], values[i])
  {
    if names == [] then [] else [Write(names[0], values[0])] + Pair(names[1..], values[1..])
  }

  /** The library setting `_setup` turns off before streaming. */
  const RetryOff: Write := Write("LJM_RETRY_ON_TRANSACTION_ID_MISMATCH", 0.0)

  /**
   * The device writes of `_setup`, in order: on a T7 the trigger index and
   * clock source are reset to 0, then the stream configuration frames.
   */
  function SetupWrites(deviceType: string, inputs: seq<string>, maxVoltages: seq<real>,
                       streamSetting: real, resolution: real): (writes: seq<Write>)
    requires |inputs| == |maxVoltages|
    ensures |writes| == (if deviceType == "T7" then 2 else 0) + |inputs| + 3
    ensures deviceType == "T7" ==> writes[..2] == [Write("STREAM_TRIGGER_INDEX", 0.0), Write("STREAM_CLOCK_SOURCE", 0.0)]
    ensures var off := if deviceType == "T7" then 2 else 0;
      && writes[off] == Write("AIN_ALL_NEGATIVE_CH", GND)
      && (forall i :: 0 <= i < |inputs| ==> writes[off + 1 + i] == Write(inputs[i] + "_RANGE", maxVoltages[i]))
      && writes[off + |inputs| + 1] == Write("STREAM_SETTLING_US", streamSetting)
      && writes[off + |inputs| + 2] == Write("STREAM_RESOLUTION_INDEX", resolution)
  {
    var frames := Pair(StreamConfigNames(inputs), StreamConfigValues(maxVoltages, streamSetting, resolution));
    if deviceType == "T7" then
      [Write("STREAM_TRIGGER_INDEX", 0.0), Write("STREAM_CLOCK_SOURCE", 0.0)] + frames
    else frames
  }

  /** `to_dataframe`'s column labels: the channels, then the two timestamps. */
  function ColumnLabels(channels: seq<string>): seq<string>
  {
    channels + ["Time", "System Time"]
  }

  /** Every row `to_list` returns has exactly one entry per column label of `to_dataframe`. */
  lemma DataFrameColumnsMatchRows(s: Snapshot, mode: string, args: ListArgs)
    requires WellFormed(s)
    ensures var r := ToList(s, mode, args);
      r.Ok? && r.value.Some? ==>
        forall k :: 0 <= k < |r.value.value| ==> |r.value.value[k]| == |ColumnLabels(s.channels)|
  {
  }

  /** The ways `collect_data` can end in an exception. */
  datatype CollectError =
    | OpenFailed        // ljm.openS raised
    | AllocationFailed  // a buffer of size <= 0
    | ZeroDivision      // no input channels
    | StreamReadFailed  // eStreamRead raised before the run ended

  /** The buffer as ctypes allocates it: `(c_double * size)(size)` puts `size` in slot 0 and zeros elsewhere. */
  function InitialSlot(size: int, j: int): real
  {
    if j == 0 then size as real else 0.0
  }

  /** Counts the skipped-sample markers of one packet. */
  method CountSkips(p: seq<real>) returns (c: nat)
    ensures c == CountOf(p, SkipMarker)
  {
    c := 0;
    var j := 0;
    while j < |p|
      invariant 0 <= j <= |p|
      invariant c == CountOf(p[..j], SkipMarker)
    {
      assert p[..j + 1] == p[..j] + [p[j]];
      CountOfAppend(p[..j], [p[j]], SkipMarker);
      if p[j] == SkipMarker {
        c := c + 1;
      }
      j := j + 1;
    }
    assert p[..|p|] == p;
  }

  /** The device time ratio `sample_rate / scan_rate` of `collect_data`, from `_setup`'s clamp and the started stream's rate. */
  function TimeRatio(scanRate: int, numAddresses: nat, sampleRate: int, actualScanRate: real): real
    requires actualScanRate > 0.0
  {
    EffectiveSampleRate(scanRate, numAddresses, sampleRate) as real / actualScanRate
  }

  class LabjackReader {
    const deviceType: string
    const connection: string
    const identifier: string
    var inputChannels: seq<string>
    var data: array?<real>
    var maxIndex: nat
    var connectionOpen: bool

    /** The state the read-back functions see. */
    function Snap(): Snapshot
      reads this, data
    {
      Snapshot(inputChannels, if data == null then None else Some(data[..]), maxIndex)
    }

    predicate Valid()
      reads this, data
    {
      WellFormed(Snap())
    }

    /** A reader with no channels, no buffer, cursor 0 and the connection closed. */
    constructor(deviceType: string, connection: string, identifier: string)
      ensures Valid()
      ensures this.deviceType == deviceType && this.connection == connection && this.identifier == identifier
      ensures inputChannels == [] && data == null && maxIndex == 0 && !connectionOpen
    {
      this.deviceType, this.connection, this.identifier := deviceType, connection, identifier;
      inputChannels := [];
      data := null;
      maxIndex := 0;
      connectionOpen := false;
    }

    /** `_open_connection`: opens the device only when closed; `failed` when opening raises, the flag then stays down. */
    method OpenConnection(openSucceeds: bool) returns (failed: bool)
      modifies this
      ensures failed <==> !old(connectionOpen) && !openSucceeds
      ensures connectionOpen == (old(connectionOpen) || openSucceeds)
      ensures inputChannels == old(inputChannels) && data == old(data) && maxIndex == old(maxIndex)
    {
      failed := false;
      if !connectionOpen {
        if !openSucceeds {
          failed := true;
          return;
        }
        connectionOpen := true;
      }
    }

    /** `_close_stream`: clears the flag when stopping the stream succeeds; a failure is swallowed. */
    method CloseStream(stopSucceeds: bool)
      modifies this
      ensures connectionOpen == (old(connectionOpen) && !stopSucceeds)
      ensures inputChannels == old(inputChannels) && data == old(data) && maxIndex == old(maxIndex)
    {
      if stopSucceeds {
        connectionOpen := false;
      }
    }

    /** Stores one row at the cursor: the scan's values, the device time and the clock reading for its last slot. */
    method WriteScan(values: seq<real>, currTime: real, clock: nat -> real)
      requires data != null && maxIndex + |values| + 2 <= data.Length
      modifies this, data
      ensures data == old(data) && inputChannels == old(inputChannels) && connectionOpen == old(connectionOpen)
      ensures maxIndex == old(maxIndex) + |values| + 2
      ensures data[..maxIndex] == old(data[..maxIndex]) + (values + [currTime, clock(maxIndex - 1)])
      ensures forall j :: maxIndex <= j < data.Length ==> data[j] == old(data[j])
    {
      forall j | 0 <= j < |values| {
        data[maxIndex + j] := values[j];
      }
      maxIndex := maxIndex + |values|;
      data[maxIndex] := currTime;
      maxIndex := maxIndex + 1;
      data[maxIndex] := clock(maxIndex);
      maxIndex := maxIndex + 1;
    }

    /** The per-row loop of `collect_data` for one accepted packet: its scans, each with device and system time. */
    method WriteRows(p: seq<real>, packetNum: nat, ratio: real, clock: nat -> real)
      requires data != null && |inputChannels| > 0 && 0 < |p| && |p| % |inputChannels| == 0
      requires maxIndex + PacketSlots(p, |inputChannels|) <= data.Length
      modifies this, data
      ensures data == old(data) && inputChannels == old(inputChannels) && connectionOpen == old(connectionOpen)
      ensures maxIndex == old(maxIndex) + PacketSlots(p, |inputChannels|) <= data.Length
      ensures data[..maxIndex] == old(data[..maxIndex]) + PacketRows(p, |inputChannels|, 0, |p|, ratio, packetNum, clock, old(maxIndex))
      ensures forall j :: maxIndex <= j < data.Length ==> data[j] == old(data[j])
    {
      var n := |inputChannels|;
      PacketRowsLength(p, n, 0, |p|, ratio, packetNum, clock, maxIndex);
      ghost var at0 := maxIndex;
      ghost var before := data[..maxIndex];
      ghost var target := before + PacketRows(p, n, 0, |p|, ratio, packetNum, clock, at0);
      var i := 0;
      assert p[i..] == p;
      while i < |p|
        invariant 0 <= i <= |p| && (|p| - i) % n == 0
        invariant data == old(data) && inputChannels == old(inputChannels) && connectionOpen == old(connectionOpen)
        invariant maxIndex <= data.Length && |target| <= data.Length
        invariant data[..maxIndex] + PacketRows(p[i..], n, i, |p|, ratio, packetNum, clock, maxIndex) == target
        invariant forall j :: maxIndex <= j < data.Length ==> data[j] == old(data[j])
        decreases |p| - i
      {
        WriteNextScan(p, i, packetNum, ratio, clock, target);
        i := i + n;
      }
      assert p[i..] == [];
    }

    /** One pass of the row loop: stores the scan at offset `i`; what is stored plus the rows still to write stays `target`. */
    method WriteNextScan(p: seq<real>, i: nat, packetNum: nat, ratio: real, clock: nat -> real, ghost target: seq<real>)
      requires data != null && |inputChannels| > 0 && i < |p| && (|p| - i) % |inputChannels| == 0
      requires maxIndex <= data.Length && |target| <= data.Length
      requires data[..maxIndex] + PacketRows(p[i..], |inputChannels|, i, |p|, ratio, packetNum, clock, maxIndex) == target
      modifies this, data
      ensures data == old(data) && inputChannels == old(inputChannels) && connectionOpen == old(connectionOpen)
      ensures i + |inputChannels| <= |p| && (|p| - (i + |inputChannels|)) % |inputChannels| == 0
      ensures old(maxIndex) < maxIndex <= data.Length
      ensures data[..maxIndex] + PacketRows(p[i + |inputChannels|..], |inputChannels|, i + |inputChannels|, |p|, ratio, packetNum, clock, maxIndex)
           == target
      ensures forall j :: maxIndex <= j < data.Length ==> data[j] == old(data[j])
    {
      var n := |inputChannels|;
      ghost var m := maxIndex;
      PacketRowsUnfold(p, n, i, ratio, packetNum, clock, m);
      ghost var prefix := data[..m];
      var currTime := DeviceTime(ratio, packetNum, i, |p|);
      ghost var row := p[i..i + n] + [currTime, clock(m + n + 1)];
      ghost var tail := PacketRows(p[i + n..], n, i + n, |p|, ratio, packetNum, clock, m + n + 2);
      assert target == prefix + (row + tail) == (prefix + row) + tail;
      WriteScan(p[i..i + n], currTime, clock);
      assert maxIndex == m + n + 2 && data[..maxIndex] == prefix + row;
    }

    /** One pass of the packet loop for a packet that fits: its rows are stored and its skip markers counted, as `FillFrom` takes one step. */
    method AcceptPacket(packets: seq<seq<real>>, k: nat, ratio: real, clock: nat -> real, ghost contents: seq<real>, skips: nat)
      returns (currSkip: nat, ghost contents': seq<real>)
      requires data != null && |inputChannels| > 0 && WholeScans(packets, |inputChannels|) && k < |packets|
      requires maxIndex < data.Length && data[..maxIndex] == contents
      requires maxIndex + PacketSlots(packets[k], |inputChannels|) <= data.Length
      modifies this, data
      ensures data == old(data) && inputChannels == old(inputChannels) && connectionOpen == old(connectionOpen)
      ensures old(maxIndex) <= maxIndex <= data.Length && data[..maxIndex] == contents'
      ensures FillFrom(packets, |inputChannels|, data.Length, ratio, clock, k + 1, contents', skips + currSkip)
           == FillFrom(packets, |inputChannels|, data.Length, ratio, clock, k, contents, skips)
      ensures forall j :: maxIndex <= j < data.Length ==> data[j] == old(data[j])
    {
      var p := packets[k];
      FillStep(packets, |inputChannels|, data.Length, ratio, clock, k, contents, skips);
      WriteRows(p, k, ratio, clock);
      currSkip := CountSkips(p);
      contents' := contents + PacketRows(p, |inputChannels|, 0, |p|, ratio, k, clock, |contents|);
    }

    /**
     * The `while max_index < size` loop of `collect_data` on a freshly
     * allocated buffer: reads packets, stops at a packet that would not fit,
     * stores the rest row by row and counts their skip markers.
     * `readFailed` when the stream ran out before the loop ended.
     */
    method StreamInto(packets: seq<seq<real>>, ratio: real, clock: nat -> real) returns (skips: nat, readFailed: bool)
      requires data != null && data.Length > 0 && maxIndex == 0
      requires |inputChannels| > 0 && WholeScans(packets, |inputChannels|)
      requires forall j :: 0 <= j < data.Length ==> data[j] == InitialSlot(data.Length, j)
      modifies this, data
      ensures data == old(data) && inputChannels == old(inputChannels) && connectionOpen == old(connectionOpen)
      ensures var f := Fill(packets, |inputChannels|, data.Length, ratio, clock);
        && maxIndex == |f.contents| <= data.Length
        && data[..maxIndex] == f.contents
        && skips == f.skips
        && readFailed == (f.stop == StreamEnded)
      ensures forall j :: maxIndex <= j < data.Length ==> data[j] == InitialSlot(data.Length, j)
      ensures Valid()
    {
      var n := |inputChannels|;
      var size := data.Length;
      ghost var f := Fill(packets, n, size, ratio, clock);
      FillFacts(packets, n, size, ratio, clock);
      skips := 0;
      var k: nat := 0;
      ghost var contents: seq<real> := [];
      assert data[..0] == contents;
      while maxIndex < size
        invariant data == old(data) && inputChannels == old(inputChannels) && connectionOpen == old(connectionOpen)
        invariant k <= |packets| && maxIndex <= size
        invariant data[..maxIndex] == contents
        invariant FillFrom(packets, n, size, ratio, clock, k, contents, skips) == f
        invariant forall j :: maxIndex <= j < size ==> data[j] == InitialSlot(size, j)
        decreases |packets| - k
      {
        if k == |packets| {
          readFailed := true;
          return;
        }
        var p := packets[k];
        if maxIndex + (|p| / n) * (n + 2) > size {
          break;
        }
        var currSkip;
        ghost var before := FillFrom(packets, n, size, ratio, clock, k, contents, skips);
        currSkip, contents := AcceptPacket(packets, k, ratio, clock, contents, skips);
        assert FillFrom(packets, n, size, ratio, clock, k + 1, contents, skips + currSkip) == before;
        skips := skips + currSkip;
        k := k + 1;
      }
      readFailed := false;
    }

    /**
     * `collect_data`: opens the connection, stops any running stream,
     * records the channels, resets the cursor, allocates `size` slots and
     * fills them from the stream until the buffer is full, a packet would
     * not fit or the stream fails; then stops the stream and reports the
     * skipped samples per channel. What ends up below the cursor is exactly
     * `Fill` of the packets; slots above it keep their allocation values.
     */
    method CollectData(inputs: seq<string>, size: int, packets: seq<seq<real>>,
                       scanRate: int, sampleRate: int, actualScanRate: real, clock: nat -> real,
                       openSucceeds: bool, stopBefore: bool, stopAfter: bool)
      returns (outcome: Result<real, CollectError>)
      requires Valid() && WholeScans(packets, |inputs|) && actualScanRate > 0.0
      modifies this
      ensures Valid()
      ensures !old(connectionOpen) && !openSucceeds ==>
        && outcome == Err(OpenFailed)
        && inputChannels == old(inputChannels) && data == old(data) && maxIndex == old(maxIndex) && !connectionOpen
      ensures old(connectionOpen) || openSucceeds ==>
        && inputChannels == inputs
        && (size <= 0 ==> outcome == Err(AllocationFailed) && data == old(data) && maxIndex == 0 && connectionOpen == !stopBefore)
        && (size > 0 ==> fresh(data) && data.Length == size)
        && (size > 0 && |inputs| == 0 ==>
              && outcome == Err(if |packets| == 0 then StreamReadFailed else ZeroDivision)
              && maxIndex == 0 && connectionOpen == !stopBefore
              && forall j :: 0 <= j < data.Length ==> data[j] == InitialSlot(size, j))
        && (size > 0 && |inputs| > 0 ==>
              var f := Fill(packets, |inputs|, size, TimeRatio(scanRate, |inputs|, sampleRate, actualScanRate), clock);
              && maxIndex == |f.contents|
              && data[..maxIndex] == f.contents
              && (forall j :: maxIndex <= j < data.Length ==> data[j] == InitialSlot(size, j))
              && outcome == (if f.stop == StreamEnded then Err(StreamReadFailed) else Ok(f.skips as real / |inputs| as real))
              && connectionOpen == (!stopBefore && (f.stop == StreamEnded || !stopAfter)))
    {
      var failed := OpenConnection(openSucceeds);
      if failed {
        outcome := Err(OpenFailed);
        return;
      }
      CloseStream(stopBefore);
      var n := |inputs|;
      var ratio := TimeRatio(scanRate, n, sampleRate, actualScanRate);
      inputChannels := inputs;
      maxIndex := 0;
      if size <= 0 {
        outcome := Err(AllocationFailed);
        return;
      }
      var buf := new real[size](j => InitialSlot(size, j));
      data := buf;
      if n == 0 {
        outcome := if |packets| == 0 then Err(StreamReadFailed) else Err(ZeroDivision);
        return;
      }
      var skips, readFailed := StreamInto(packets, ratio, clock);
      if readFailed {
        outcome := Err(StreamReadFailed);
        return;
      }
      CloseStream(stopAfter);
      outcome := Ok(skips as real / n as real);
    }
  }
}
