/**
 * The throughput sampler: the receive callback raises the counters
 * bytesTotal and packetsReceived, and CheckThroughput, armed every simulated
 * second, writes one row with their values and clears them.
 */
module Sampler {
  import opened FixedWidth
  import Decimal

  /** The counters bytesTotal and packetsReceived, shared by the receive callback and the sampler. */
  datatype Meter = Meter(bytes: U32, packets: U32)

  const Cleared := Meter(0, 0)

  /** Total size of the packets drained from the socket. */
  function SizeSum(sizes: seq<U32>): (n: nat) {
    if sizes == [] then 0 else SizeSum(sizes[..|sizes| - 1]) + sizes[|sizes| - 1]
  }

  /** The meter after the receive callback drained packets of the given sizes. */
  function Receive(m: Meter, sizes: seq<U32>): (r: Meter) {
    Meter(ToU32(m.bytes + SizeSum(sizes)), ToU32(m.packets + |sizes|))
  }

  /** The columns of a row that stay fixed during a run, and the file the row is appended to. */
  datatype RowConfig = RowConfig(file: string, sinks: int, sources: int, protocolName: string, txPower: real)

  /**
   * One row appended by CheckThroughput: simulated time, received bytes (printed
   * as kbps), packets, sinks, sources, protocol name and transmit power.
   */
  datatype Sample = Sample(file: string, time: real, bytes: U32, packets: U32, sinks: int, sources: int,
                           protocolName: string, txPower: real)
  {
    /** The ReceiveRate column, `bytesTotal * 8.0 / 1000`, as an exact rational. */
    function ReceiveRateKbps(): real {
      bytes as real * 8.0 / 1000.0
    }
  }

  function MakeSample(cfg: RowConfig, time: real, m: Meter): Sample {
    Sample(cfg.file, time, m.bytes, m.packets, cfg.sinks, cfg.sources, cfg.protocolName, cfg.txPower)
  }

  /** The header main writes before the first run. */
  const HeaderColumns: seq<string> :=
    ["SimulationSecond", "ReceiveRate", "PacketsReceived", "NumberOfSinks", "RoutingProtocol", "TransmissionPower"]

  /** main truncates and writes the header to the configured name itself. */
  function HeaderFileName(csvFileName: string): string {
    csvFileName
  }

  /** CheckThroughput appends to the decimal text of the global nRuns followed by the configured name. */
  function SampleFileName(nRuns: int, csvFileName: string): string {
    Decimal.IntToString(nRuns) + csvFileName
  }

  /** The rows never land in the file that holds the header. */
  lemma RowsMissHeaderFile(nRuns: int, csvFileName: string)
    ensures SampleFileName(nRuns, csvFileName) != HeaderFileName(csvFileName)
    ensures |SampleFileName(nRuns, csvFileName)| > |HeaderFileName(csvFileName)|
  {
  }

  /** What happens on the event loop during a run: packets reach the sink socket, or the armed sampler fires. */
  datatype Event = Packets(sizes: seq<U32>) | Tick

  datatype Trace = Trace(samples: seq<Sample>, meter: Meter, armedAt: real)

  /**
   * The rows written, the final meter and the time the sampler is armed for,
   * after the events, starting from meter `m` with the sampler armed for `armedAt`.
   */
  function Replay(m: Meter, armedAt: real, events: seq<Event>, cfg: RowConfig): (t: Trace)
    decreases |events|
  {
    if events == [] then Trace([], m, armedAt)
    else match events[0]
      case Packets(sizes) => Replay(Receive(m, sizes), armedAt, events[1..], cfg)
      case Tick =>
        var rest := Replay(Cleared, armedAt + 1.0, events[1..], cfg);
        Trace([MakeSample(cfg, armedAt, m)] + rest.samples, rest.meter, rest.armedAt)
  }

  function TickCount(events: seq<Event>): nat {
    if events == [] then 0 else (if events[0].Tick? then 1 else 0) + TickCount(events[1..])
  }

  /** The sizes of all packets delivered, in order. */
  function ReceivedSizes(events: seq<Event>): seq<U32> {
    if events == [] then []
    else match events[0]
      case Packets(sizes) => sizes + ReceivedSizes(events[1..])
      case Tick => ReceivedSizes(events[1..])
  }

  lemma {:induction false} SizeSumConcat(a: seq<U32>, b: seq<U32>)
    ensures SizeSum(a + b) == SizeSum(a) + SizeSum(b)
    decreases |b|
  {
    if b == [] {
      assert a + b == a;
    } else {
      assert (a + b)[..|a + b| - 1] == a + b[..|b| - 1];
      SizeSumConcat(a, b[..|b| - 1]);
    }
  }

  /** Draining the socket twice counts the same as draining all packets at once. */
  lemma ReceiveConcat(m: Meter, a: seq<U32>, b: seq<U32>)
    ensures Receive(Receive(m, a), b) == Receive(m, a + b)
  {
    SizeSumConcat(a, b);
    WrapAdd(m.bytes + SizeSum(a), SizeSum(b));
    WrapAdd(m.packets + |a|, |b|);
  }

  /** Draining a single packet adds its size to the bytes and 1 to the packets, modulo 2^32. */
  lemma ReceiveOne(m: Meter, size: U32)
    ensures Receive(m, [size]) == Meter(ToU32(m.bytes + size), ToU32(m.packets + 1))
  {
    assert [size][..0] == [];
    assert SizeSum([size]) == size;
  }

  /** Draining one more packet of the socket. */
  lemma ReceiveNext(m: Meter, sizes: seq<U32>, i: nat)
    requires i < |sizes|
    ensures var before := Receive(m, sizes[..i]);
            Receive(m, sizes[..i + 1]) == Meter(ToU32(before.bytes + sizes[i]), ToU32(before.packets + 1))
  {
    assert sizes[..i] + [sizes[i]] == sizes[..i + 1];
    ReceiveConcat(m, sizes[..i], [sizes[i]]);
    assert [sizes[i]][..0] == [];
  }

  /** One row per tick. */
  lemma {:induction false} ReplaySampleCount(m: Meter, armedAt: real, events: seq<Event>, cfg: RowConfig)
    ensures |Replay(m, armedAt, events, cfg).samples| == TickCount(events)
    decreases |events|
  {
    if events != [] {
      match events[0]
      case Packets(sizes) => ReplaySampleCount(Receive(m, sizes), armedAt, events[1..], cfg);
      case Tick => ReplaySampleCount(Cleared, armedAt + 1.0, events[1..], cfg);
    }
  }

  /**
   * The sampler re-arms itself one second later, so row k carries time
   * armedAt + k; every row carries the run's fixed columns and file.
   */
  lemma {:induction false} ReplayRows(m: Meter, armedAt: real, events: seq<Event>, cfg: RowConfig, k: nat)
    requires k < |Replay(m, armedAt, events, cfg).samples|
    ensures var row := Replay(m, armedAt, events, cfg).samples[k];
            row == MakeSample(cfg, armedAt + k as real, Meter(row.bytes, row.packets))
    decreases |events|
  {
    if events != [] {
      match events[0]
      case Packets(sizes) => ReplayRows(Receive(m, sizes), armedAt, events[1..], cfg, k);
      case Tick =>
        if k > 0 {
          ReplayRows(Cleared, armedAt + 1.0, events[1..], cfg, k - 1);
        }
    }
  }

  /** The rows of one run: row k is written at second k, into `file`. */
  predicate RunRows(rows: seq<Sample>, file: string) {
    forall k :: 0 <= k < |rows| ==> rows[k].time == k as real && rows[k].file == file
  }

  /**
   * A run's rows: CheckThroughput is scheduled at time 0 before the traffic,
   * so a run writes one row more than the ticks in its traffic, at seconds
   * 0, 1, 2, ..., all into the run's file.
   */
  lemma RunTrace(m: Meter, traffic: seq<Event>, cfg: RowConfig)
    ensures var rows := Replay(m, 0.0, [Tick] + traffic, cfg).samples;
            |rows| == 1 + TickCount(traffic) && RunRows(rows, cfg.file)
  {
    var rows := Replay(m, 0.0, [Tick] + traffic, cfg).samples;
    assert ([Tick] + traffic)[0] == Tick && ([Tick] + traffic)[1..] == traffic;
    ReplaySampleCount(Cleared, 1.0, traffic, cfg);
    forall k | 0 <= k < |rows|
      ensures rows[k].time == k as real && rows[k].file == cfg.file
    {
      ReplayRows(m, 0.0, [Tick] + traffic, cfg, k);
    }
  }

  /**
   * A row carries exactly what arrived since the previous tick (on top of the
   * meter it started from), and the next window starts from cleared counters.
   */
  lemma {:induction false} ReplayWindow(m: Meter, armedAt: real, window: seq<Event>, later: seq<Event>, cfg: RowConfig)
    requires TickCount(window) == 0
    ensures Replay(m, armedAt, window + [Tick] + later, cfg).samples
         == [MakeSample(cfg, armedAt, Receive(m, ReceivedSizes(window)))] + Replay(Cleared, armedAt + 1.0, later, cfg).samples
    decreases |window|
  {
    var events := window + [Tick] + later;
    if window == [] {
      assert events[0] == Tick && events[1..] == later;
      assert Receive(m, []) == m;
    } else {
      assert events[0] == window[0];
      assert events[1..] == window[1..] + [Tick] + later;
      match window[0]
      case Packets(sizes) =>
        ReplayWindow(Receive(m, sizes), armedAt, window[1..], later, cfg);
        ReceiveConcat(m, sizes, ReceivedSizes(window[1..]));
      case Tick =>
        assert false;
    }
  }
}
