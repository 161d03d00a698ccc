/**
 * The RoutingExperiment object of adhoc_routing.cc: its counters, the receive
 * callback, the throughput sampler, the end-of-run bookkeeping in Run, and
 * the iteration loop of main. The ns-3 scenario wiring between them (nodes,
 * Wi-Fi, mobility, applications, tracing) is not modelled; the traffic it
 * produces comes in as a sequence of events and the flow monitor's
 * statistics as a sequence of flow records.
 *
 * Every method is specified by a function from the object's members before
 * the call (a Snapshot) to its members after it; what a run does to the
 * rows, the counters and the statics is proved about those functions.
 */
module Experiment {
  import opened Wrappers
  import opened FixedWidth
  import opened FlowStats
  import opened Sampler
  import Protocol

  /** What Run prints for a set of averages: the five counters and, from them, the throughput. */
  datatype Averages = Averages(counts: Counters) {
    /** The printed throughput `rxBytes * 8.0 / 100 / 1000`, as an exact rational. */
    function ThroughputKbps(): real {
      counts.rxBytes as real * 8.0 / 100.0 / 1000.0
    }
  }

  /** The per-run summary, and the overall summary when this run is the one the checker picks. */
  datatype RunReport = RunReport(thisRun: Averages, overall: Option<Averages>)

  /** How far main advances the random-stream index between runs. */
  const StreamStride := 50

  /**
   * The members of a RoutingExperiment as one value, together with the two
   * statics of Run, the rows written so far and the pending sampler tick.
   */
  datatype Snapshot = Snapshot(
    meter: Meter,      // bytesTotal, packetsReceived
    lifetime: Meter,   // TotalDataRcd, TotalPacketsRcd: counted like the meter, never cleared
    csvFileName: string,
    nSinks: I32,
    nSources: I32,
    protocolName: string,
    txp: real,
    traceMobility: bool,
    protocol: U32,
    run: Counters,     // Run*
    total: Counters,   // Total*
    iteration: int,
    checker: int,
    samples: seq<Sample>,
    nextTick: Option<real>)
  {
    /** The columns and the file of the rows CheckThroughput writes with this configuration. */
    function Row(nRuns: int): RowConfig {
      RowConfig(SampleFileName(nRuns, csvFileName), nSinks, nSources, protocolName, txp)
    }

    /**
     * Between runs nothing is left in the Run* counters, no tick is pending,
     * and `checker` is one more than the number of runs completed so far.
     */
    predicate Between() {
      run == Zero && nextTick == None && checker >= 1 && iteration == checker - 1
    }
  }

  /** What the constructor's initialiser list sets; the members it leaves out are unconstrained. */
  predicate Constructed(s: Snapshot) {
    && s.meter == Cleared
    && s.csvFileName == "Adhoc-routing.output.csv" && !s.traceMobility && s.protocol == Protocol.DefaultSelector
    && s.run == Zero && s.total == Zero
    && s.iteration == 0 && s.checker == 1
    && s.samples == [] && s.nextTick == None
  }

  /** CommandSetup: each option given on the command line overrides its member. */
  function CommandLine(s: Snapshot, csvArg: Option<string>, traceArg: Option<bool>, protocolArg: Option<U32>): Snapshot {
    s.(csvFileName := if csvArg.Some? then csvArg.value else s.csvFileName,
       traceMobility := if traceArg.Some? then traceArg.value else s.traceMobility,
       protocol := if protocolArg.Some? then protocolArg.value else s.protocol)
  }

  /** The receive callback: the meter and the lifetime counters both count the drained packets. */
  function Received(s: Snapshot, socket: seq<U32>): (r: Snapshot) {
    s.(meter := Receive(s.meter, socket), lifetime := Receive(s.lifetime, socket))
  }

  /**
   * CheckThroughput at simulated time `now`: a row with the meter read before
   * it is cleared, the meter cleared, and the sampler re-armed one second later.
   */
  function Sampled(s: Snapshot, now: real, nRuns: int): (r: Snapshot) {
    s.(samples := s.samples + [MakeSample(s.Row(nRuns), now, s.meter)], meter := Cleared, nextTick := Some(now + 1.0))
  }

  /**
   * The simulator's event loop, one event at a time: packets reach the sink
   * socket, or the armed sampler fires at the time it was armed for. Nothing
   * but the meters, the rows and the pending tick changes.
   */
  function Simulated(s: Snapshot, events: seq<Event>, nRuns: int): (r: Snapshot)
    requires s.nextTick.Some?
    ensures r.nextTick.Some?
    ensures r.(meter := s.meter, lifetime := s.lifetime, samples := s.samples, nextTick := s.nextTick) == s
    decreases |events|
  {
    if events == [] then s
    else match events[0]
      case Packets(sizes) => Simulated(Received(s, sizes), events[1..], nRuns)
      case Tick => Simulated(Sampled(s, s.nextTick.value, nRuns), events[1..], nRuns)
  }

  /** The walk over the flow statistics: the selected flows are added into Run*. */
  function Collected(s: Snapshot, flows: seq<FlowRecord>, nSources: I32): (r: Snapshot) {
    s.(run := Reduce(s.run, flows, nSources))
  }

  /** `Total* += Run* / nSources`, every Run* cleared, and `checker++`. */
  function Folded(s: Snapshot, nSources: I32): (r: Snapshot)
    requires nSources != 0
  {
    s.(total := Fold(s.total, s.run, nSources), run := Zero, checker := s.checker + 1)
  }

  /** What Run prints from the counters: `Run* / nSources`, and `Total* / nRuns` when checker == nRuns. */
  function Summary(s: Snapshot, nSources: I32, nRuns: I32): RunReport
    requires nSources != 0 && s.checker >= 1
  {
    RunReport(Averages(PerSource(s.run, nSources)),
              if s.checker == nRuns then Some(Averages(Overall(Fold(s.total, s.run, nSources), nRuns))) else None)
  }

  /**
   * The members once the flow statistics have been walked: the sampler started
   * at time 0, `iteration++`, the traffic delivered, the pending tick dropped
   * by Simulator::Destroy, and the selected flows added into Run*.
   */
  function Simulation(s: Snapshot, nSources: I32, nRuns: I32, traffic: seq<Event>, flows: seq<FlowRecord>): Snapshot {
    var delivered := Simulated(Sampled(s, 0.0, nRuns).(iteration := s.iteration + 1), traffic, nRuns);
    Collected(delivered.(nextTick := None), flows, nSources)
  }

  /** The members Run assigns before it looks at the protocol. */
  function Configured(s: Snapshot, nSinks: I32, nSources: I32, txp: real, csvFileName: string): Snapshot {
    s.(nSinks := nSinks, nSources := nSources, txp := txp, csvFileName := csvFileName, protocolName := "protocol")
  }

  /** The members after Run: only the configuration when the protocol is unknown, else a whole measured run. */
  function AfterRun(s: Snapshot, nSinks: I32, nSources: I32, txp: real, csvFileName: string, nRuns: I32,
                    traffic: seq<Event>, flows: seq<FlowRecord>): Snapshot
    requires Protocol.Select(s.protocol).Success? ==> nSources != 0
  {
    var configured := Configured(s, nSinks, nSources, txp, csvFileName);
    match Protocol.Select(s.protocol)
    case Failure(_) => configured
    case Success(choice) =>
      Folded(Simulation(configured.(protocolName := choice.name), nSources, nRuns, traffic, flows), nSources)
  }

  /** What Run reports: the fatal error for an unknown protocol, else the summary of the run. */
  function RunOutcome(s: Snapshot, nSinks: I32, nSources: I32, txp: real, csvFileName: string, nRuns: I32,
                      traffic: seq<Event>, flows: seq<FlowRecord>): Result<RunReport, string>
    requires s.checker >= 1
    requires Protocol.Select(s.protocol).Success? ==> nSources != 0
  {
    var configured := Configured(s, nSinks, nSources, txp, csvFileName);
    match Protocol.Select(s.protocol)
    case Failure(e) => Failure(e)
    case Success(choice) =>
      Success(Summary(Simulation(configured.(protocolName := choice.name), nSources, nRuns, traffic, flows), nSources, nRuns))
  }

  /**
   * The members after the sampler's trace of `events`: the rows, the meter
   * and the armed time are those Replay computes, and the lifetime counters
   * have counted every packet delivered.
   */
  function Replayed(s: Snapshot, events: seq<Event>, nRuns: int): Snapshot
    requires s.nextTick.Some?
  {
    var trace := Replay(s.meter, s.nextTick.value, events, s.Row(nRuns));
    s.(meter := trace.meter, lifetime := Receive(s.lifetime, ReceivedSizes(events)),
       samples := s.samples + trace.samples, nextTick := Some(trace.armedAt))
  }

  /** A delivery first: the trace from the updated meters is the trace from before. */
  lemma ReplayedAfterPackets(s: Snapshot, sizes: seq<U32>, events: seq<Event>, nRuns: int)
    requires s.nextTick.Some? && events != [] && events[0] == Packets(sizes)
    ensures Replayed(Received(s, sizes), events[1..], nRuns) == Replayed(s, events, nRuns)
  {
    ReceiveConcat(s.lifetime, sizes, ReceivedSizes(events[1..]));
  }

  /** A tick first: the trace after the row is the trace from before, less that row. */
  lemma ReplayedAfterTick(s: Snapshot, events: seq<Event>, nRuns: int)
    requires s.nextTick.Some? && events != [] && events[0] == Tick
    ensures Replayed(Sampled(s, s.nextTick.value, nRuns), events[1..], nRuns) == Replayed(s, events, nRuns)
  {
    var row := MakeSample(s.Row(nRuns), s.nextTick.value, s.meter);
    var trace := Replay(Cleared, s.nextTick.value + 1.0, events[1..], s.Row(nRuns));
    assert (s.samples + [row]) + trace.samples == s.samples + ([row] + trace.samples);
  }

  /** The event loop is the sampler's trace. */
  lemma {:induction false} SimulatedIsReplay(s: Snapshot, events: seq<Event>, nRuns: int)
    requires s.nextTick.Some?
    ensures Simulated(s, events, nRuns) == Replayed(s, events, nRuns)
    decreases |events|
  {
    if events == [] {
      assert s.samples + [] == s.samples;
    } else {
      match events[0]
      case Packets(sizes) =>
        SimulatedIsReplay(Received(s, sizes), events[1..], nRuns);
        ReplayedAfterPackets(s, sizes, events, nRuns);
      case Tick =>
        SimulatedIsReplay(Sampled(s, s.nextTick.value, nRuns), events[1..], nRuns);
        ReplayedAfterTick(s, events, nRuns);
    }
  }

  /**
   * A run started between runs ends between runs, with the configuration it
   * was given; on an unknown protocol it reports the fatal error and writes
   * no row, folds nothing and does not advance the statics.
   */
  lemma RunKeepsBetween(s: Snapshot, nSinks: I32, nSources: I32, txp: real, csvFileName: string, nRuns: I32,
                        traffic: seq<Event>, flows: seq<FlowRecord>)
    requires s.Between()
    requires Protocol.Select(s.protocol).Success? ==> nSources != 0
    ensures var r := AfterRun(s, nSinks, nSources, txp, csvFileName, nRuns, traffic, flows);
            && r.Between() && r.protocol == s.protocol
            && r.nSinks == nSinks && r.nSources == nSources && r.txp == txp && r.csvFileName == csvFileName
    ensures var r := AfterRun(s, nSinks, nSources, txp, csvFileName, nRuns, traffic, flows);
            var outcome := RunOutcome(s, nSinks, nSources, txp, csvFileName, nRuns, traffic, flows);
            && (outcome.Failure? <==> Protocol.Select(s.protocol).Failure?)
            && (outcome.Failure? ==>
                  outcome.error == Protocol.Select(s.protocol).error
                  && r.samples == s.samples && r.total == s.total && r.checker == s.checker)
            && (outcome.Success? ==> r.protocolName == Protocol.Select(s.protocol).value.name && r.checker == s.checker + 1)
  {
  }

  /**
   * The rows of a measured run are the sampler's trace of a tick at time 0
   * followed by the traffic, appended to the rows written before.
   */
  lemma SimulationRows(c: Snapshot, nSources: I32, nRuns: I32, traffic: seq<Event>, flows: seq<FlowRecord>)
    ensures Simulation(c, nSources, nRuns, traffic, flows).samples
            == c.samples + Replay(c.meter, 0.0, [Tick] + traffic, c.Row(nRuns)).samples
  {
    var cfg := c.Row(nRuns);
    var started := Sampled(c, 0.0, nRuns).(iteration := c.iteration + 1);
    SimulatedIsReplay(started, traffic, nRuns);
    assert ([Tick] + traffic)[0] == Tick && ([Tick] + traffic)[1..] == traffic;
    var later := Replay(Cleared, 1.0, traffic, cfg).samples;
    assert started.samples + later == c.samples + ([MakeSample(cfg, 0.0, c.meter)] + later);
  }

  /**
   * The rows of a successful run: one at second 0 and one per tick of the
   * traffic, at seconds 0, 1, 2, ..., all appended to the file named after
   * nRuns and the run's CSV name.
   */
  lemma RunAppendsRows(s: Snapshot, nSinks: I32, nSources: I32, txp: real, csvFileName: string, nRuns: I32,
                       traffic: seq<Event>, flows: seq<FlowRecord>)
    requires Protocol.Select(s.protocol).Success? && nSources != 0
    ensures var r := AfterRun(s, nSinks, nSources, txp, csvFileName, nRuns, traffic, flows);
            && s.samples <= r.samples
            && |r.samples| == |s.samples| + 1 + TickCount(traffic)
            && RunRows(r.samples[|s.samples|..], SampleFileName(nRuns, csvFileName))
  {
    var c := Configured(s, nSinks, nSources, txp, csvFileName).(protocolName := Protocol.Select(s.protocol).value.name);
    var rows := Replay(c.meter, 0.0, [Tick] + traffic, c.Row(nRuns)).samples;
    SimulationRows(c, nSources, nRuns, traffic, flows);
    RunTrace(c.meter, traffic, c.Row(nRuns));
    var r := AfterRun(s, nSinks, nSources, txp, csvFileName, nRuns, traffic, flows);
    assert r.samples == s.samples + rows;
    assert r.samples[|s.samples|..] == rows;
  }

  /**
   * The counters of a successful run started between runs: the selected flows'
   * averages are folded into Total*, this run's summary is their per-source
   * average, and the overall summary appears exactly on the run where the
   * checker equals nRuns, averaged over the updated Total*.
   */
  lemma RunFoldsTotals(s: Snapshot, nSinks: I32, nSources: I32, txp: real, csvFileName: string, nRuns: I32,
                       traffic: seq<Event>, flows: seq<FlowRecord>)
    requires s.Between()
    requires Protocol.Select(s.protocol).Success? && nSources != 0
    ensures var r := AfterRun(s, nSinks, nSources, txp, csvFileName, nRuns, traffic, flows);
            var outcome := RunOutcome(s, nSinks, nSources, txp, csvFileName, nRuns, traffic, flows);
            var run := Reduce(Zero, flows, nSources);
            && r.total == Fold(s.total, run, nSources)
            && outcome.value.thisRun == Averages(PerSource(run, nSources))
            && (outcome.value.overall.Some? <==> s.checker == nRuns)
            && (outcome.value.overall.Some? ==> nRuns != 0 && outcome.value.overall.value == Averages(Overall(r.total, nRuns)))
  {
  }

  /** Every row of `rows` is written to `file`. */
  predicate InFile(rows: seq<Sample>, file: string) {
    forall k :: 0 <= k < |rows| ==> rows[k].file == file
  }

  /** Appending rows for `file` keeps every row after `prefix` in `file`. */
  lemma InFileAppend(prefix: seq<Sample>, rows: seq<Sample>, added: seq<Sample>, file: string)
    requires prefix <= rows && InFile(rows[|prefix|..], file) && InFile(added, file)
    ensures prefix <= rows + added && InFile((rows + added)[|prefix|..], file)
  {
    assert (rows + added)[|prefix|..] == rows[|prefix|..] + added;
  }

  /**
   * Where main's loop stands after `i` successful runs from `start`: between
   * runs with the checker at i + 1, the selector untouched, only rows for the
   * nRuns-named file appended, and Total* the fold of the first i runs.
   */
  predicate Progress(start: Snapshot, s: Snapshot, i: int, nSources: I32, nRuns: I32, csvFileName: string,
                     flows: seq<seq<FlowRecord>>)
  {
    && 0 <= i <= |flows| && nSources != 0
    && s.Between() && s.checker == 1 + i
    && s.protocol == start.protocol
    && (i > 0 ==> Protocol.Select(s.protocol).Success?)
    && (i == 0 ==> s.samples == start.samples)
    && start.samples <= s.samples
    && InFile(s.samples[|start.samples|..], SampleFileName(nRuns, csvFileName))
    && s.total == FoldRuns(start.total, RunTallies(flows[..i], nSources), nSources)
  }

  /**
   * Progress by one run: a run that keeps the selector, ends between runs,
   * appends rows only to the nRuns-named file and folds run i's flows into
   * Total* moves the loop from i to i + 1.
   */
  lemma ProgressStep(start: Snapshot, s: Snapshot, r: Snapshot, i: int, nSources: I32, nRuns: I32, csvFileName: string,
                     flows: seq<seq<FlowRecord>>, rows: seq<Sample>)
    requires Progress(start, s, i, nSources, nRuns, csvFileName, flows) && i < |flows|
    requires Protocol.Select(s.protocol).Success?
    requires r.Between() && r.protocol == s.protocol && r.checker == s.checker + 1
    requires r.samples == s.samples + rows && InFile(rows, SampleFileName(nRuns, csvFileName))
    requires r.total == Fold(s.total, Reduce(Zero, flows[i], nSources), nSources)
    ensures Progress(start, r, i + 1, nSources, nRuns, csvFileName, flows)
  {
    InFileAppend(start.samples, s.samples, rows, SampleFileName(nRuns, csvFileName));
    FoldRunsNext(start.total, flows, i, nSources);
  }

  /**
   * One turn of main's loop: an unknown protocol leaves the rows and Total*
   * as they were and reports the fatal error; a known one makes progress by
   * one run, appends 1 + (ticks) rows, reports run i's per-source averages,
   * and carries the overall summary, Total* / nRuns, exactly when it is
   * run nRuns.
   */
  lemma RunStep(start: Snapshot, s: Snapshot, i: int, nSinks: I32, nSources: I32, txp: real, csvFileName: string,
                nRuns: I32, traffic: seq<Event>, flows: seq<seq<FlowRecord>>)
    requires Progress(start, s, i, nSources, nRuns, csvFileName, flows) && i < |flows|
    requires Protocol.Select(s.protocol).Success?
    ensures var r := AfterRun(s, nSinks, nSources, txp, csvFileName, nRuns, traffic, flows[i]);
            var outcome := RunOutcome(s, nSinks, nSources, txp, csvFileName, nRuns, traffic, flows[i]);
            && outcome.Success?
            && Progress(start, r, i + 1, nSources, nRuns, csvFileName, flows)
            && (outcome.value.overall.Some? <==> i == nRuns - 1)
            && outcome.value.thisRun == Averages(PerSource(Reduce(Zero, flows[i], nSources), nSources))
            && |r.samples| == |s.samples| + 1 + TickCount(traffic)
    ensures var r := AfterRun(s, nSinks, nSources, txp, csvFileName, nRuns, traffic, flows[i]);
            var outcome := RunOutcome(s, nSinks, nSources, txp, csvFileName, nRuns, traffic, flows[i]);
            i == nRuns - 1 ==> outcome.value.overall == Some(Averages(Overall(r.total, nRuns)))
  {
    var r := AfterRun(s, nSinks, nSources, txp, csvFileName, nRuns, traffic, flows[i]);
    RunKeepsBetween(s, nSinks, nSources, txp, csvFileName, nRuns, traffic, flows[i]);
    RunAppendsRows(s, nSinks, nSources, txp, csvFileName, nRuns, traffic, flows[i]);
    RunFoldsTotals(s, nSinks, nSources, txp, csvFileName, nRuns, traffic, flows[i]);
    ProgressStep(start, s, r, i, nSources, nRuns, csvFileName, flows, r.samples[|s.samples|..]);
  }

  class RoutingExperiment {
    /** The sink port; the constructor sets it and nothing changes it. */
    const port: U32 := 9

    /** bytesTotal and packetsReceived, which the sampler reads and clears. */
    var meter: Meter
    /** TotalDataRcd and TotalPacketsRcd, which count like the meter and are never cleared. */
    var lifetime: Meter

    var csvFileName: string
    var nSinks: I32
    var nSources: I32
    var protocolName: string
    var txp: real
    var traceMobility: bool
    var protocol: U32

    /** RunTxPackets, RunTxBytes, RunRxPackets, RunRxBytes and RunDelay. */
    var run: StoredCounters
    /** TotalTxPackets, TotalTxBytes, TotalRxPackets, TotalRxBytes and TotalDelay. */
    var total: StoredCounters

    /** The function-local statics `iteration` and `checker` of Run; there is one experiment per process. */
    var iteration: int
    var checker: int

    /** Every row CheckThroughput has appended, in order. */
    var samples: seq<Sample>
    /** The time the sampler is armed for, while a tick is pending in the simulator. */
    var nextTick: Option<real>

    ghost function State(): Snapshot
      reads this
    {
      Snapshot(meter, lifetime, csvFileName, nSinks, nSources, protocolName, txp, traceMobility, protocol,
               run, total, iteration, checker, samples, nextTick)
    }

    ghost predicate Valid()
      reads this
    {
      State().Between()
    }

    /** TotalDataRcd and TotalPacketsRcd are left uninitialised: nothing is known about them. */
    constructor ()
      ensures Constructed(State()) && Valid()
    {
      meter := Cleared;
      csvFileName := "Adhoc-routing.output.csv";
      traceMobility := false;
      protocol := Protocol.DefaultSelector;
      run := Zero;
      total := Zero;
      iteration, checker := 0, 1;
      samples := [];
      nextTick := None;
    }

    /** CommandSetup: the command-line overrides, and the CSV name they leave. */
    method CommandSetup(csvArg: Option<string>, traceArg: Option<bool>, protocolArg: Option<U32>) returns (name: string)
      modifies this
      ensures State() == CommandLine(old(State()), csvArg, traceArg, protocolArg)
      ensures name == csvFileName
    {
      if csvArg.Some? {
        csvFileName := csvArg.value;
      }
      if traceArg.Some? {
        traceMobility := traceArg.value;
      }
      if protocolArg.Some? {
        protocol := protocolArg.value;
      }
      name := csvFileName;
    }

    /** One packet drained from the socket: its size and the packet itself are counted on both meters. */
    method CountPacket(size: U32)
      modifies this`meter, this`lifetime
      ensures meter == Receive(old(meter), [size]) && lifetime == Receive(old(lifetime), [size])
    {
      ReceiveOne(meter, size);
      ReceiveOne(lifetime, size);
      meter := Meter(ToU32(meter.bytes + size), ToU32(meter.packets + 1));
      lifetime := Meter(ToU32(lifetime.bytes + size), ToU32(lifetime.packets + 1));
    }

    /** The receive callback: drains the socket, counting every packet's size and the packet itself. */
    method ReceivePacket(socket: seq<U32>)
      modifies this
      ensures State() == Received(old(State()), socket)
    {
      ghost var meter0, lifetime0 := meter, lifetime;
      var i := 0;
      while i < |socket|
        invariant 0 <= i <= |socket|
        invariant meter == Receive(meter0, socket[..i]) && lifetime == Receive(lifetime0, socket[..i])
        modifies this`meter, this`lifetime
      {
        assert socket[..i + 1] == socket[..i] + [socket[i]];
        ReceiveConcat(meter0, socket[..i], [socket[i]]);
        ReceiveConcat(lifetime0, socket[..i], [socket[i]]);
        CountPacket(socket[i]);
        i := i + 1;
      }
      assert socket[..|socket|] == socket;
    }

    /** CheckThroughput at simulated time `now`. */
    method CheckThroughput(now: real, nRuns: int)
      modifies this
      ensures State() == Sampled(old(State()), now, nRuns)
    {
      var bytes := meter.bytes;
      meter := meter.(bytes := 0);
      samples := samples + [Sample(SampleFileName(nRuns, csvFileName), now, bytes, meter.packets,
                                   nSinks, nSources, protocolName, txp)];
      meter := meter.(packets := 0);
      nextTick := Some(now + 1.0);
    }

    /**
     * The part of Simulator::Run the core takes part in: packets reach the
     * sink socket, and the armed sampler fires at the time it was armed for.
     */
    method SimulateTraffic(events: seq<Event>, nRuns: int)
      requires nextTick.Some?
      modifies this
      ensures State() == Simulated(old(State()), events, nRuns)
    {
      var i := 0;
      while i < |events|
        invariant 0 <= i <= |events|
        invariant nextTick.Some?
        invariant Simulated(State(), events[i..], nRuns) == Simulated(old(State()), events, nRuns)
      {
        assert events[i..][0] == events[i] && events[i..][1..] == events[i + 1..];
        match events[i] {
          case Packets(sizes) =>
            ReceivePacket(sizes);
          case Tick =>
            CheckThroughput(nextTick.value, nRuns);
        }
        i := i + 1;
      }
      assert events[|events|..] == [];
    }

    /**
     * The body of the loop over the flow monitor's statistics, for one flow:
     * a flow that passes the filter adds its counts into Run*, and its delay
     * term when it received anything.
     */
    method AddFlow(f: FlowRecord, nSources: I32)
      modifies this`run
      ensures run == if Selected(f, nSources) then old(run).Plus(Contribution(f)).Wrapped() else old(run)
    {
      if AsInt32(f.id) <= nSources {
        run := run.(txPackets := ToU32(run.txPackets + f.txPackets), txBytes := ToU32(run.txBytes + f.txBytes),
                    rxPackets := ToU32(run.rxPackets + f.rxPackets), rxBytes := ToU32(run.rxBytes + f.rxBytes));
        if f.rxPackets != 0 {
          run := run.(delay := ToU32(run.delay + TruncDiv(f.delayMs, f.rxPackets)));
        }
      }
    }

    /** The loop over the flow monitor's statistics: selected flows are added into the Run* counters. */
    method CollectFlowStats(flows: seq<FlowRecord>, nSources: I32)
      modifies this
      ensures State() == Collected(old(State()), flows, nSources)
    {
      ghost var start := run;
      var i := 0;
      while i < |flows|
        invariant 0 <= i <= |flows|
        invariant run == Reduce(start, flows[..i], nSources)
        modifies this`run
      {
        assert flows[..i + 1] == flows[..i] + [flows[i]];
        AddFlow(flows[i], nSources);
        i := i + 1;
      }
      assert flows[..|flows|] == flows;
    }

    /** The "this run" lines: every Run* counter divided by nSources, as uint32_t division. */
    method RunAverages(nSources: I32) returns (averages: Averages)
      requires nSources != 0
      ensures averages == Averages(PerSource(run, nSources))
    {
      var d := Divisor(nSources);
      averages := Averages(Counters(Quot(run.txPackets, d), Quot(run.txBytes, d), Quot(run.rxPackets, d),
                                    Quot(run.rxBytes, d), Quot(run.delay, d)));
    }

    /** `Total* += Run* / nSources` with every Run* cleared. */
    method FoldRun(nSources: I32)
      requires nSources != 0
      modifies this
      ensures State() == old(State()).(total := Fold(old(total), old(run), nSources), run := Zero)
    {
      var d := Divisor(nSources);
      total := Counters(ToU32(total.txPackets + Quot(run.txPackets, d)), ToU32(total.txBytes + Quot(run.txBytes, d)),
                        ToU32(total.rxPackets + Quot(run.rxPackets, d)), ToU32(total.rxBytes + Quot(run.rxBytes, d)),
                        ToU32(total.delay + Quot(run.delay, d)));
      run := Zero;
    }

    /** The "overall" lines `Total* / nRuns`, printed only on the run where checker == nRuns. */
    method OverallAverages(nRuns: I32) returns (overall: Option<Averages>)
      requires checker >= 1
      ensures overall.Some? <==> checker == nRuns
      ensures overall.Some? ==> overall.value == Averages(Overall(total, nRuns))
    {
      if checker == nRuns {
        var n := Divisor(nRuns);
        overall := Some(Averages(Counters(Quot(total.txPackets, n), Quot(total.txBytes, n), Quot(total.rxPackets, n),
                                          Quot(total.rxBytes, n), Quot(total.delay, n))));
      } else {
        overall := None;
      }
    }

    /**
     * The end of Run: the per-run summary, the fold into Total*, the overall
     * summary when checker == nRuns, and `checker++`.
     */
    method FoldAndReport(nSources: I32, nRuns: I32) returns (report: RunReport)
      requires nSources != 0 && checker >= 1
      modifies this
      ensures State() == Folded(old(State()), nSources)
      ensures report == Summary(old(State()), nSources, nRuns)
    {
      var thisRun := RunAverages(nSources);
      FoldRun(nSources);
      var overall := OverallAverages(nRuns);
      checker := checker + 1;
      report := RunReport(thisRun, overall);
    }

    /**
     * The part of Run after the protocol is installed: CheckThroughput at
     * time 0, `iteration++`, Simulator::Run, Simulator::Destroy dropping the
     * pending tick, then the flow statistics, the fold and the report.
     */
    method Measure(nSources: I32, nRuns: I32, traffic: seq<Event>, flows: seq<FlowRecord>) returns (report: RunReport)
      requires nSources != 0 && checker >= 1
      modifies this
      ensures State() == Folded(Simulation(old(State()), nSources, nRuns, traffic, flows), nSources)
      ensures report == Summary(Simulation(old(State()), nSources, nRuns, traffic, flows), nSources, nRuns)
    {
      CheckThroughput(0.0, nRuns);
      iteration := iteration + 1;
      SimulateTraffic(traffic, nRuns);
      nextTick := None;
      CollectFlowStats(flows, nSources);
      report := FoldAndReport(nSources, nRuns);
    }

    /** The start of Run: the run's parameters are stored, and the protocol name is the placeholder "protocol". */
    method Configure(nSinks: I32, nSources: I32, txp: real, csvFileName: string)
      modifies this
      ensures State() == Configured(old(State()), nSinks, nSources, txp, csvFileName)
    {
      this.nSinks := nSinks;
      this.nSources := nSources;
      this.txp := txp;
      this.csvFileName := csvFileName;
      protocolName := "protocol";
    }

    /** One run: configure, pick the protocol (fatal if unknown), then measure. */
    method Run(nSinks: I32, nSources: I32, txp: real, csvFileName: string, streamIndex: int, nRuns: I32,
               traffic: seq<Event>, flows: seq<FlowRecord>) returns (outcome: Result<RunReport, string>)
      requires checker >= 1
      requires Protocol.Select(protocol).Success? ==> nSources != 0
      modifies this
      ensures State() == AfterRun(old(State()), nSinks, nSources, txp, csvFileName, nRuns, traffic, flows)
      ensures outcome == RunOutcome(old(State()), nSinks, nSources, txp, csvFileName, nRuns, traffic, flows)
    {
      Configure(nSinks, nSources, txp, csvFileName);
      var choice := Protocol.Select(protocol);
      if choice.Failure? {
        return Failure(choice.error);
      }
      protocolName := choice.value.name;

      var report := Measure(nSources, nRuns, traffic, flows);
      outcome := Success(report);
    }
  }

  /** Run j was given stream index 50 * j. */
  predicate Strided(streamIndices: seq<int>) {
    forall j :: 0 <= j < |streamIndices| ==> streamIndices[j] == StreamStride * j
  }

  /** Only the report of run nRuns - 1 (counting from 0) carries the overall summary. */
  predicate OverallOnLast(reports: seq<RunReport>, nRuns: int) {
    forall j :: 0 <= j < |reports| ==> (reports[j].overall.Some? <==> j == nRuns - 1)
  }

  /** Report j carries run j's per-source averages, `Run* / nSources` over run j's selected flows. */
  predicate RunFigures(reports: seq<RunReport>, flows: seq<seq<FlowRecord>>, nSources: I32) {
    && nSources != 0 && |reports| <= |flows|
    && forall j :: 0 <= j < |reports| ==>
         reports[j].thisRun == Averages(PerSource(Reduce(Zero, flows[j], nSources), nSources))
  }

  /** The rows written by runs with the given traffic: one at second 0 and one per tick, per run. */
  function RowCount(traffic: seq<seq<Event>>): nat {
    if traffic == [] then 0 else RowCount(traffic[..|traffic| - 1]) + 1 + TickCount(traffic[|traffic| - 1])
  }

  lemma RowCountNext(traffic: seq<seq<Event>>, i: nat)
    requires i < |traffic|
    ensures RowCount(traffic[..i + 1]) == RowCount(traffic[..i]) + 1 + TickCount(traffic[i])
  {
    assert traffic[..i + 1][..i] == traffic[..i];
  }

  /** A single run writes one row at second 0 and one per tick. */
  lemma RowCountOfOneRun(traffic: seq<Event>)
    ensures RowCount([traffic][..1]) == 1 + TickCount(traffic)
  {
    assert [traffic][..1] == [traffic];
    assert [traffic][..0] == [];
  }

  lemma RunFiguresAppend(reports: seq<RunReport>, report: RunReport, flows: seq<seq<FlowRecord>>, nSources: I32)
    requires RunFigures(reports, flows, nSources) && |reports| < |flows|
    requires report.thisRun == Averages(PerSource(Reduce(Zero, flows[|reports|], nSources), nSources))
    ensures RunFigures(reports + [report], flows, nSources)
  {
  }

  lemma StridedAppend(streamIndices: seq<int>)
    requires Strided(streamIndices)
    ensures Strided(streamIndices + [StreamStride * |streamIndices|])
  {
  }

  lemma OverallOnLastAppend(reports: seq<RunReport>, report: RunReport, nRuns: int)
    requires OverallOnLast(reports, nRuns) && (report.overall.Some? <==> |reports| == nRuns - 1)
    ensures OverallOnLast(reports + [report], nRuns)
  {
  }

  /**
   * Where main's loop stands before turn i: the stream indices handed out so
   * far, the reports so far with their figures, the loop's Progress, the rows
   * written by the i runs, and, once the last run is done, its overall
   * summary over the final Total*.
   */
  predicate Looping(start: Snapshot, s: Snapshot, i: int, streamIndex: int, streamIndices: seq<int>, reports: seq<RunReport>,
                    nSources: I32, nRuns: I32, csvFileName: string, traffic: seq<seq<Event>>, flows: seq<seq<FlowRecord>>)
  {
    && Progress(start, s, i, nSources, nRuns, csvFileName, flows)
    && i <= |traffic|
    && streamIndex == StreamStride * i
    && |streamIndices| == |reports| == i
    && Strided(streamIndices) && OverallOnLast(reports, nRuns) && RunFigures(reports, flows, nSources)
    && |s.samples| == |start.samples| + RowCount(traffic[..i])
    && (i > 0 && i == nRuns ==> reports[i - 1].overall == Some(Averages(Overall(s.total, nRuns))))
  }

  /** A successful turn i, as IterationTurn promises it, moves the loop to turn i + 1. */
  lemma LoopStep(start: Snapshot, s: Snapshot, r: Snapshot, i: int, streamIndex: int, streamIndices: seq<int>,
                 reports: seq<RunReport>, report: RunReport, nSources: I32, nRuns: I32, csvFileName: string,
                 traffic: seq<seq<Event>>, flows: seq<seq<FlowRecord>>)
    requires Looping(start, s, i, streamIndex, streamIndices, reports, nSources, nRuns, csvFileName, traffic, flows)
    requires i < |traffic| && i < |flows|
    requires Progress(start, r, i + 1, nSources, nRuns, csvFileName, flows)
    requires report.overall.Some? <==> i == nRuns - 1
    requires report.thisRun == Averages(PerSource(Reduce(Zero, flows[i], nSources), nSources))
    requires |r.samples| == |s.samples| + 1 + TickCount(traffic[i])
    requires i == nRuns - 1 ==> report.overall == Some(Averages(Overall(r.total, nRuns)))
    ensures Looping(start, r, i + 1, streamIndex + StreamStride, streamIndices + [streamIndex], reports + [report],
                    nSources, nRuns, csvFileName, traffic, flows)
  {
    StridedAppend(streamIndices);
    OverallOnLastAppend(reports, report, nRuns);
    RunFiguresAppend(reports, report, flows, nSources);
    RowCountNext(traffic, i);
  }

  /**
   * One turn of main's loop: Run with run i's traffic and flows, returning
   * what Run reports. An unknown protocol changes no row and no counter of
   * Total*; a known one moves the loop one run further.
   */
  method IterationTurn(experiment: RoutingExperiment, ghost start: Snapshot, i: int, nSinks: I32, nSources: I32,
                       txp: real, csvFileName: string, streamIndex: int, nRuns: I32, traffic: seq<Event>,
                       flows: seq<seq<FlowRecord>>)
    returns (result: Result<RunReport, string>)
    requires Progress(start, experiment.State(), i, nSources, nRuns, csvFileName, flows) && i < |flows|
    modifies experiment
    ensures result == RunOutcome(old(experiment.State()), nSinks, nSources, txp, csvFileName, nRuns, traffic, flows[i])
    ensures result.Failure? <==> Protocol.Select(old(experiment.protocol)).Failure?
    ensures result.Failure? ==>
              && experiment.Valid() && experiment.protocol == old(experiment.protocol)
              && experiment.samples == old(experiment.samples) && experiment.total == old(experiment.total)
    ensures result.Success? ==>
              && Progress(start, experiment.State(), i + 1, nSources, nRuns, csvFileName, flows)
              && (result.value.overall.Some? <==> i == nRuns - 1)
              && result.value.thisRun == Averages(PerSource(Reduce(Zero, flows[i], nSources), nSources))
              && |experiment.samples| == |old(experiment.samples)| + 1 + TickCount(traffic)
    ensures result.Success? && i == nRuns - 1 ==> result.value.overall == Some(Averages(Overall(experiment.total, nRuns)))
  {
    ghost var before := experiment.State();
    result := experiment.Run(nSinks, nSources, txp, csvFileName, streamIndex, nRuns, traffic, flows[i]);
    RunKeepsBetween(before, nSinks, nSources, txp, csvFileName, nRuns, traffic, flows[i]);
    if result.Success? {
      RunStep(start, before, i, nSinks, nSources, txp, csvFileName, nRuns, traffic, flows);
    }
  }

  /**
   * The loop of main: run i gets stream index 50 * i and reports its own
   * per-source averages, the checker picks the last run for the overall
   * summary over the final Total*, every run appends its rows to the
   * nRuns-named file, and an unknown protocol aborts at once.
   */
  method RunIterations(experiment: RoutingExperiment, nRuns: I32, nSinks: I32, nSources: I32, txp: real,
                       csvFileName: string, traffic: seq<seq<Event>>, flows: seq<seq<FlowRecord>>)
    returns (streamIndices: seq<int>, outcome: Result<seq<RunReport>, string>)
    requires experiment.Valid() && experiment.checker == 1
    requires nSources != 0
    requires |traffic| >= nRuns && |flows| >= nRuns
    modifies experiment
    ensures experiment.Valid() && experiment.protocol == old(experiment.protocol)
    ensures outcome.Failure? <==> nRuns > 0 && Protocol.Select(experiment.protocol).Failure?
    ensures outcome.Failure? ==>
              && streamIndices == [0]
              && experiment.samples == old(experiment.samples)
              && experiment.total == old(experiment.total)
    ensures old(experiment.samples) <= experiment.samples
    ensures InFile(experiment.samples[|old(experiment.samples)|..], SampleFileName(nRuns, csvFileName))
    ensures outcome.Success? ==>
              && |streamIndices| == |outcome.value| == (if nRuns < 0 then 0 else nRuns)
              && Strided(streamIndices) && OverallOnLast(outcome.value, nRuns)
              && RunFigures(outcome.value, flows, nSources)
              && experiment.total
                 == FoldRuns(old(experiment.total), RunTallies(flows[..|outcome.value|], nSources), nSources)
              && |experiment.samples| == |old(experiment.samples)| + RowCount(traffic[..|outcome.value|])
    ensures outcome.Success? && nRuns > 0 ==> outcome.value[nRuns - 1].overall == Some(Averages(Overall(experiment.total, nRuns)))
  {
    ghost var start := experiment.State();
    var streamIndex := 0;
    var reports: seq<RunReport> := [];
    streamIndices := [];
    var i := 0;
    while i < nRuns
      invariant 0 <= i <= (if nRuns < 0 then 0 else nRuns)
      invariant Looping(start, experiment.State(), i, streamIndex, streamIndices, reports, nSources, nRuns, csvFileName, traffic, flows)
    {
      ghost var before := experiment.State();
      var result := IterationTurn(experiment, start, i, nSinks, nSources, txp, csvFileName, streamIndex, nRuns, traffic[i], flows);
      if result.Failure? {
        return streamIndices + [streamIndex], Failure(result.error);
      }
      LoopStep(start, before, experiment.State(), i, streamIndex, streamIndices, reports, result.value,
               nSources, nRuns, csvFileName, traffic, flows);
      streamIndices := streamIndices + [streamIndex];
      reports := reports + [result.value];
      streamIndex := streamIndex + StreamStride;
      i := i + 1;
    }
    outcome := Success(reports);
  }

  /**
   * The start of main: one experiment, the command-line overrides, and the
   * header written to the configured name.
   */
  method Setup(csvArg: Option<string>, traceArg: Option<bool>, protocolArg: Option<U32>)
    returns (experiment: RoutingExperiment, name: string, headerFile: string, header: seq<string>)
    ensures fresh(experiment) && experiment.Valid() && experiment.checker == 1 && experiment.samples == []
    ensures experiment.total == Zero
    ensures experiment.protocol == (if protocolArg.Some? then protocolArg.value else Protocol.DefaultSelector)
    ensures name == (if csvArg.Some? then csvArg.value else "Adhoc-routing.output.csv")
    ensures headerFile == name && header == HeaderColumns
  {
    experiment := new RoutingExperiment();
    name := experiment.CommandSetup(csvArg, traceArg, protocolArg);
    headerFile, header := HeaderFileName(name), HeaderColumns;
  }

  /**
   * main's loop as main runs it: nRuns = 1 run with one sink, five sources and
   * a transmit power of -5 dBm, on an experiment fresh from the setup. The one
   * run's report carries its per-source averages, and the overall summary
   * equals them.
   */
  method MainLoop(experiment: RoutingExperiment, name: string, traffic: seq<Event>, flows: seq<FlowRecord>)
    returns (outcome: Result<seq<RunReport>, string>)
    requires experiment.Valid() && experiment.checker == 1 && experiment.samples == [] && experiment.total == Zero
    modifies experiment
    ensures experiment.protocol == old(experiment.protocol)
    ensures outcome.Failure? <==> Protocol.Select(experiment.protocol).Failure?
    ensures outcome.Failure? ==> experiment.samples == []
    ensures outcome.Success? ==>
              && |outcome.value| == 1
              && outcome.value[0].thisRun == Averages(PerSource(Reduce(Zero, flows, 5), 5))
              && outcome.value[0].overall == Some(outcome.value[0].thisRun)
              && InFile(experiment.samples, SampleFileName(1, name))
              && |experiment.samples| == 1 + TickCount(traffic)
              && experiment.total == Fold(Zero, Reduce(Zero, flows, 5), 5)
  {
    var nSinks := 1;
    var nSources := 5;
    var txp := -5.0;
    var nRuns := 1;
    var streamIndices;
    streamIndices, outcome := RunIterations(experiment, nRuns, nSinks, nSources, txp, name, [traffic], [flows]);
    assert experiment.samples[0..] == experiment.samples;
    if outcome.Success? {
      FoldRunsNext(Zero, [flows], 0, nSources);
      assert [flows][..0] == [];
      OverallOfOneRun(Reduce(Zero, flows, 5), 5);
      RowCountOfOneRun(traffic);
    }
  }

  /** main: the setup, then its loop. */
  method ProgramMain(csvArg: Option<string>, traceArg: Option<bool>, protocolArg: Option<U32>,
                     traffic: seq<Event>, flows: seq<FlowRecord>)
    returns (headerFile: string, header: seq<string>, experiment: RoutingExperiment, outcome: Result<seq<RunReport>, string>)
    ensures headerFile == (if csvArg.Some? then csvArg.value else "Adhoc-routing.output.csv")
    ensures header == HeaderColumns
    ensures experiment.protocol == (if protocolArg.Some? then protocolArg.value else Protocol.DefaultSelector)
    ensures outcome.Failure? <==> Protocol.Select(experiment.protocol).Failure?
    ensures outcome.Failure? ==> experiment.samples == []
    ensures outcome.Success? ==>
              && |outcome.value| == 1
              && outcome.value[0].thisRun == Averages(PerSource(Reduce(Zero, flows, 5), 5))
              && outcome.value[0].overall == Some(outcome.value[0].thisRun)
              && InFile(experiment.samples, SampleFileName(1, headerFile))
              && |experiment.samples| == 1 + TickCount(traffic)
              && experiment.total == Fold(Zero, Reduce(Zero, flows, 5), 5)
  {
    var name;
    experiment, name, headerFile, header := Setup(csvArg, traceArg, protocolArg);
    outcome := MainLoop(experiment, name, traffic, flows);
  }
}
