/**
 * What the end-of-run bookkeeping in RoutingExperiment::Run computes, as
 * functions: the walk over the flow monitor's statistics into the Run*
 * counters, the fold of the per-source averages into the Total* counters,
 * and the overall averages over nRuns runs.
 */
module FlowStats {
  import opened FixedWidth

  /**
   * One entry of the flow monitor's map FlowId -> FlowStats, reduced to the
   * fields the experiment reads; delayMs is delaySum.GetMilliSeconds().
   */
  datatype FlowRecord = FlowRecord(id: U32, txPackets: U32, txBytes: U64, rxPackets: U32, rxBytes: U64, delayMs: I64)

  /** The five counters kept per run (Run*) and across runs (Total*), as unbounded integers. */
  datatype Counters = Counters(txPackets: int, txBytes: int, rxPackets: int, rxBytes: int, delay: int) {

    function Plus(other: Counters): Counters {
      Counters(txPackets + other.txPackets, txBytes + other.txBytes, rxPackets + other.rxPackets,
               rxBytes + other.rxBytes, delay + other.delay)
    }

    /** Unsigned division of every field, each read as the uint32_t it is stored in. */
    function DivBy(d: int): Counters
      requires d > 0
    {
      Counters(Quot(ToU32(txPackets), d), Quot(ToU32(txBytes), d), Quot(ToU32(rxPackets), d),
               Quot(ToU32(rxBytes), d), Quot(ToU32(delay), d))
    }

    function Times(k: nat): Counters {
      Counters(txPackets * k, txBytes * k, rxPackets * k, rxBytes * k, delay * k)
    }

    /** Every field stored into a uint32_t. */
    function Wrapped(): Counters {
      Counters(ToU32(txPackets), ToU32(txBytes), ToU32(rxPackets), ToU32(rxBytes), ToU32(delay))
    }

    predicate IsU32() {
      0 <= txPackets < TWO_32 && 0 <= txBytes < TWO_32 && 0 <= rxPackets < TWO_32 &&
      0 <= rxBytes < TWO_32 && 0 <= delay < TWO_32
    }
  }

  const Zero := Counters(0, 0, 0, 0, 0)

  /** Five counters each held in a uint32_t, as the Run* and Total* members are. */
  type StoredCounters = c: Counters | c.IsU32() witness Counters(0, 0, 0, 0, 0)

  /** The filter `(int)i->first <= nSources`: the id is cast to a signed int first. */
  predicate Selected(f: FlowRecord, nSources: I32) {
    AsInt32(f.id) <= nSources
  }

  /** A flow's own average delay in milliseconds, counted only when it received something. */
  function DelayContribution(f: FlowRecord): int {
    if f.rxPackets == 0 then 0 else TruncDiv(f.delayMs, f.rxPackets)
  }

  /** What one selected flow adds to the Run* counters. */
  function Contribution(f: FlowRecord): Counters {
    Counters(f.txPackets, f.txBytes, f.rxPackets, f.rxBytes, DelayContribution(f))
  }

  /** Exact sums, over the flows the filter selects, of what they add to the Run* counters. */
  function Tally(flows: seq<FlowRecord>, nSources: I32): (sums: Counters) {
    if flows == [] then Zero
    else
      var last := flows[|flows| - 1];
      Tally(flows[..|flows| - 1], nSources).Plus(if Selected(last, nSources) then Contribution(last) else Zero)
  }

  /**
   * The Run* counters after the loop over the flow statistics, starting from
   * `run`: each selected flow is added in turn and every sum is stored back
   * into its uint32_t field.
   */
  function Reduce(run: Counters, flows: seq<FlowRecord>, nSources: I32): (r: Counters) {
    if flows == [] then run
    else
      var c := Reduce(run, flows[..|flows| - 1], nSources);
      var last := flows[|flows| - 1];
      if Selected(last, nSources) then c.Plus(Contribution(last)).Wrapped() else c
  }

  /** The uint32_t divisor `nSources` or `nRuns` becomes in `Run* / nSources`. */
  function Divisor(n: I32): U32 {
    ToU32(n)
  }

  /** The per-source averages of one run, `Run* / nSources`. */
  function PerSource(run: Counters, nSources: I32): (avg: Counters)
    requires nSources != 0
  {
    run.DivBy(Divisor(nSources))
  }

  /** `Total* += Run* / nSources`, each stored back into a uint32_t. */
  function Fold(total: Counters, run: Counters, nSources: I32): (r: Counters)
    requires nSources != 0
  {
    total.Plus(PerSource(run, nSources)).Wrapped()
  }

  /** The overall averages `Total* / nRuns`. */
  function Overall(total: Counters, nRuns: I32): (avg: Counters)
    requires nRuns != 0
  {
    total.DivBy(Divisor(nRuns))
  }

  /** The Total* counters after folding each run of `runs` in turn. */
  function FoldRuns(total: Counters, runs: seq<Counters>, nSources: I32): (r: Counters)
    requires nSources != 0
  {
    if runs == [] then total else Fold(FoldRuns(total, runs[..|runs| - 1], nSources), runs[|runs| - 1], nSources)
  }

  /** Exact sum of the per-source averages of `runs`. */
  function SumPerSource(runs: seq<Counters>, nSources: I32): (sums: Counters)
    requires nSources != 0
  {
    if runs == [] then Zero else SumPerSource(runs[..|runs| - 1], nSources).Plus(PerSource(runs[|runs| - 1], nSources))
  }

  /** k runs with the same Run* counters. */
  function Repeat(run: Counters, k: nat): seq<Counters> {
    if k == 0 then [] else Repeat(run, k - 1) + [run]
  }

  /** The Run* counters each run ends with, from zeroed counters, given each run's flow statistics. */
  function RunTallies(flowsPerRun: seq<seq<FlowRecord>>, nSources: I32): (runs: seq<Counters>)
    ensures |runs| == |flowsPerRun|
    ensures forall i :: 0 <= i < |runs| ==> runs[i] == Reduce(Zero, flowsPerRun[i], nSources)
  {
    seq(|flowsPerRun|, i requires 0 <= i < |flowsPerRun| => Reduce(Zero, flowsPerRun[i], nSources))
  }

  /** The flows the filter keeps, in their order. */
  function Filter(flows: seq<FlowRecord>, nSources: I32): seq<FlowRecord> {
    if flows == [] then []
    else
      var last := flows[|flows| - 1];
      Filter(flows[..|flows| - 1], nSources) + (if Selected(last, nSources) then [last] else [])
  }

  /** Reference definition: the plain sum of the contributions of every flow given. */
  function SumAll(flows: seq<FlowRecord>): Counters {
    if flows == [] then Zero else SumAll(flows[..|flows| - 1]).Plus(Contribution(flows[|flows| - 1]))
  }

  // ---------------------------------------------------------------------
  // Properties of the flow walk

  lemma PlusZero(x: Counters)
    ensures x.Plus(Zero) == x
  {
  }

  lemma ZeroPlus(x: Counters)
    ensures Zero.Plus(x) == x
  {
  }

  lemma PlusAssoc(x: Counters, y: Counters, z: Counters)
    ensures x.Plus(y).Plus(z) == x.Plus(y.Plus(z))
  {
  }

  lemma WrappedPlus(a: Counters, b: Counters)
    ensures a.Wrapped().Plus(b).Wrapped() == a.Plus(b).Wrapped()
  {
    WrapAdd(a.txPackets, b.txPackets);
    WrapAdd(a.txBytes, b.txBytes);
    WrapAdd(a.rxPackets, b.rxPackets);
    WrapAdd(a.rxBytes, b.rxBytes);
    WrapAdd(a.delay, b.delay);
  }

  lemma TallySnoc(flows: seq<FlowRecord>, f: FlowRecord, nSources: I32)
    ensures Tally(flows + [f], nSources) == Tally(flows, nSources).Plus(if Selected(f, nSources) then Contribution(f) else Zero)
  {
    assert (flows + [f])[..|flows|] == flows;
  }

  /** One more step of the walk over the flow statistics, written out field by field. */
  lemma ReduceNext(run: Counters, flows: seq<FlowRecord>, i: nat, nSources: I32)
    requires run.IsU32() && i < |flows|
    ensures var c := Reduce(run, flows[..i], nSources);
            var f := flows[i];
            Reduce(run, flows[..i + 1], nSources)
            == if Selected(f, nSources) then
                 Counters(ToU32(c.txPackets + f.txPackets), ToU32(c.txBytes + f.txBytes), ToU32(c.rxPackets + f.rxPackets),
                          ToU32(c.rxBytes + f.rxBytes), if f.rxPackets != 0 then ToU32(c.delay + TruncDiv(f.delayMs, f.rxPackets)) else c.delay)
               else c
  {
    var f := flows[i];
    assert flows[..i + 1] == flows[..i] + [f];
    var c := Reduce(run, flows[..i], nSources);
    if Selected(f, nSources) {
      ReduceAddsSelected(run, flows[..i], f, nSources);
      ReduceIsU32(run, flows[..i], nSources);
      var d := c.Plus(Contribution(f)).Wrapped();
      assert f.rxPackets == 0 ==> d.delay == ToU32(c.delay);
    } else {
      ReduceSkipsUnselected(run, flows[..i], f, nSources);
    }
  }

  /** Only the selected flows count: the tally is the plain sum over the filtered flows. */
  lemma {:induction false} TallyIsSumOfSelected(flows: seq<FlowRecord>, nSources: I32)
    ensures Tally(flows, nSources) == SumAll(Filter(flows, nSources))
  {
    if flows != [] {
      var init, last := flows[..|flows| - 1], flows[|flows| - 1];
      var fi := Filter(init, nSources);
      TallyIsSumOfSelected(init, nSources);
      if Selected(last, nSources) {
        assert Filter(flows, nSources) == fi + [last];
        assert (fi + [last])[..|fi|] == fi;
        assert SumAll(fi + [last]) == SumAll(fi).Plus(Contribution(last));
      } else {
        assert Filter(flows, nSources) == fi;
        assert Tally(flows, nSources) == Tally(init, nSources).Plus(Zero);
        PlusZero(Tally(init, nSources));
      }
    }
  }

  /** The selection predicate on ids below 2^31 is exactly `id <= nSources`. */
  lemma SelectedIff(f: FlowRecord, nSources: I32)
    requires f.id < TWO_31
    ensures Selected(f, nSources) <==> f.id <= nSources
  {
  }

  /** A flow the filter rejects leaves every Run* counter unchanged. */
  lemma ReduceSkipsUnselected(run: Counters, flows: seq<FlowRecord>, f: FlowRecord, nSources: I32)
    requires !Selected(f, nSources)
    ensures Reduce(run, flows + [f], nSources) == Reduce(run, flows, nSources)
  {
    assert (flows + [f])[..|flows|] == flows;
  }

  /** The step of ReduceIsWrappedTally: one more flow keeps the walk at the wrapped tally. */
  lemma WrappedTallyNext(run: Counters, init: seq<FlowRecord>, last: FlowRecord, nSources: I32)
    requires Reduce(run, init, nSources) == run.Plus(Tally(init, nSources)).Wrapped()
    ensures Reduce(run, init + [last], nSources) == run.Plus(Tally(init + [last], nSources)).Wrapped()
  {
    var flows := init + [last];
    assert flows[..|flows| - 1] == init && flows[|flows| - 1] == last;
    var t := Tally(init, nSources);
    if Selected(last, nSources) {
      var c := Contribution(last);
      assert Tally(flows, nSources) == t.Plus(c);
      assert Reduce(run, flows, nSources) == run.Plus(t).Wrapped().Plus(c).Wrapped();
      WrappedPlus(run.Plus(t), c);
      PlusAssoc(run, t, c);
    } else {
      PlusZero(t);
      assert Tally(flows, nSources) == t.Plus(Zero);
      assert Reduce(run, flows, nSources) == Reduce(run, init, nSources);
    }
  }

  /**
   * Storing after every step and storing once at the end agree: from uint32_t
   * counters, the walk ends at the wrapped plain sum of the selected flows.
   */
  lemma {:induction false} ReduceIsWrappedTally(run: Counters, flows: seq<FlowRecord>, nSources: I32)
    requires run.IsU32()
    ensures Reduce(run, flows, nSources) == run.Plus(Tally(flows, nSources)).Wrapped()
  {
    if flows == [] {
      PlusZero(run);
    } else {
      var init, last := flows[..|flows| - 1], flows[|flows| - 1];
      ReduceIsWrappedTally(run, init, nSources);
      assert init + [last] == flows;
      WrappedTallyNext(run, init, last, nSources);
    }
  }

  /**
   * A selected flow adds its packet and byte counts, and its own average delay
   * only when it received at least one packet.
   */
  lemma ReduceAddsSelected(run: Counters, flows: seq<FlowRecord>, f: FlowRecord, nSources: I32)
    requires Selected(f, nSources)
    ensures Reduce(run, flows + [f], nSources) == Reduce(run, flows, nSources).Plus(Contribution(f)).Wrapped()
  {
    assert (flows + [f])[..|flows|] == flows;
  }

  /** From uint32_t counters, the walk stays within uint32_t. */
  lemma ReduceIsU32(run: Counters, flows: seq<FlowRecord>, nSources: I32)
    requires run.IsU32()
    ensures Reduce(run, flows, nSources).IsU32()
  {
    ReduceIsWrappedTally(run, flows, nSources);
  }

  /**
   * The delay counter under a selected flow: unchanged when the flow received
   * nothing, else increased by the flow's delay sum over its packet count.
   */
  lemma ReduceAddsDelay(run: Counters, flows: seq<FlowRecord>, f: FlowRecord, nSources: I32)
    requires run.IsU32() && Selected(f, nSources)
    ensures f.rxPackets == 0 ==> Reduce(run, flows + [f], nSources).delay == Reduce(run, flows, nSources).delay
    ensures f.rxPackets > 0 && f.delayMs >= 0 ==>
              Reduce(run, flows + [f], nSources).delay == ToU32(Reduce(run, flows, nSources).delay + f.delayMs / f.rxPackets)
  {
    ReduceAddsSelected(run, flows, f, nSources);
    ReduceIsU32(run, flows, nSources);
    var c := Reduce(run, flows, nSources);
    assert Reduce(run, flows + [f], nSources).delay == ToU32(c.delay + DelayContribution(f));
    if f.rxPackets > 0 && f.delayMs >= 0 {
      QuotIsDiv(f.delayMs, f.rxPackets);
    }
  }

  /** Walking two runs of flows one after the other is walking their concatenation. */
  lemma {:induction false} ReduceConcat(run: Counters, a: seq<FlowRecord>, b: seq<FlowRecord>, nSources: I32)
    ensures Reduce(Reduce(run, a, nSources), b, nSources) == Reduce(run, a + b, nSources)
    decreases |b|
  {
    if b == [] {
      assert a + b == a;
    } else {
      var init := b[..|b| - 1];
      assert (a + b)[..|a + b| - 1] == a + init;
      assert (a + b)[|a + b| - 1] == b[|b| - 1];
      ReduceConcat(run, a, init, nSources);
    }
  }

  lemma {:induction false} TallyConcat(a: seq<FlowRecord>, b: seq<FlowRecord>, nSources: I32)
    ensures Tally(a + b, nSources) == Tally(a, nSources).Plus(Tally(b, nSources))
    decreases |b|
  {
    if b == [] {
      assert a + b == a;
      PlusZero(Tally(a, nSources));
    } else {
      var init, last := b[..|b| - 1], b[|b| - 1];
      var c := if Selected(last, nSources) then Contribution(last) else Zero;
      assert (a + b)[..|a + b| - 1] == a + init;
      assert (a + b)[|a + b| - 1] == last;
      assert Tally(a + b, nSources) == Tally(a + init, nSources).Plus(c);
      assert Tally(b, nSources) == Tally(init, nSources).Plus(c);
      TallyConcat(a, init, nSources);
      PlusAssoc(Tally(a, nSources), Tally(init, nSources), c);
    }
  }

  lemma PlusSwap(x: Counters, y: Counters, z: Counters)
    ensures x.Plus(y).Plus(z) == x.Plus(z).Plus(y)
  {
  }

  /** Two lists with the same elements still agree once a's last element is taken out of b at position k. */
  lemma MultisetRemoveLast<T>(a: seq<T>, b: seq<T>, k: nat)
    requires multiset(a) == multiset(b) && a != [] && k < |b| && b[k] == a[|a| - 1]
    ensures multiset(a[..|a| - 1]) == multiset(b[..k] + b[k + 1..])
  {
    var init, x := a[..|a| - 1], a[|a| - 1];
    assert a == init + [x];
    assert b == b[..k] + [x] + b[k + 1..];
    assert multiset(a) == multiset(init) + multiset{x};
    assert multiset(b) == multiset(b[..k]) + multiset{x} + multiset(b[k + 1..]);
    assert multiset(b[..k] + b[k + 1..]) == multiset(b[..k]) + multiset(b[k + 1..]);
    assert multiset(init) == multiset(a) - multiset{x};
  }

  /** Taking flow k out of the list takes exactly its share out of the sums. */
  lemma TallyRemove(flows: seq<FlowRecord>, k: nat, nSources: I32)
    requires k < |flows|
    ensures Tally(flows, nSources) == Tally(flows[..k] + flows[k + 1..], nSources).Plus(Tally([flows[k]], nSources))
  {
    var pre, x, post := flows[..k], flows[k], flows[k + 1..];
    assert flows == pre + [x] + post;
    TallyConcat(pre + [x], post, nSources);
    TallyConcat(pre, [x], nSources);
    TallyConcat(pre, post, nSources);
  }

  /**
   * The order in which the flow map is visited does not matter to the sums:
   * any two lists holding the same flows, counted with multiplicity, give the
   * same Run* sums.
   */
  lemma {:induction false} TallyOrderIrrelevant(a: seq<FlowRecord>, b: seq<FlowRecord>, nSources: I32)
    requires multiset(a) == multiset(b)
    ensures Tally(a, nSources) == Tally(b, nSources)
    decreases |a|
  {
    if a == [] {
      assert |b| == |multiset(b)| == 0;
    } else {
      var init, x := a[..|a| - 1], a[|a| - 1];
      assert a == init + [x];
      assert x in multiset(b);
      var k :| 0 <= k < |b| && b[k] == x;
      var rest := b[..k] + b[k + 1..];
      assert b == b[..k] + [x] + b[k + 1..];
      MultisetRemoveLast(a, b, k);
      TallyOrderIrrelevant(init, rest, nSources);
      TallyRemove(b, k, nSources);
      TallyConcat(init, [x], nSources);
    }
  }

  /** When no counter overflows, the Run* counters hold the exact sums. */
  lemma ReduceExact(run: Counters, flows: seq<FlowRecord>, nSources: I32)
    requires run.IsU32() && run.Plus(Tally(flows, nSources)).IsU32()
    ensures Reduce(run, flows, nSources) == run.Plus(Tally(flows, nSources))
  {
    ReduceIsWrappedTally(run, flows, nSources);
  }

  // ---------------------------------------------------------------------
  // Properties of the fold across runs

  /** Main's loop one run further: Total* after i + 1 runs is run i folded into Total* after i runs. */
  lemma FoldRunsNext(total: Counters, flowsPerRun: seq<seq<FlowRecord>>, i: nat, nSources: I32)
    requires nSources != 0 && i < |flowsPerRun|
    ensures FoldRuns(total, RunTallies(flowsPerRun[..i + 1], nSources), nSources)
            == Fold(FoldRuns(total, RunTallies(flowsPerRun[..i], nSources), nSources), Reduce(Zero, flowsPerRun[i], nSources), nSources)
  {
    assert RunTallies(flowsPerRun[..i + 1], nSources)[..i] == RunTallies(flowsPerRun[..i], nSources);
  }

  /** Counters already held in uint32_t fields are left alone by storing them again. */
  lemma WrappedId(c: Counters)
    requires c.IsU32()
    ensures c.Wrapped() == c
  {
  }

  /** The step of FoldRunsIsSum: folding one more run keeps Total* at the wrapped sum. */
  lemma FoldRunsSumNext(total: Counters, runs: seq<Counters>, nSources: I32)
    requires nSources != 0 && runs != []
    requires FoldRuns(total, runs[..|runs| - 1], nSources) == total.Plus(SumPerSource(runs[..|runs| - 1], nSources)).Wrapped()
    ensures FoldRuns(total, runs, nSources) == total.Plus(SumPerSource(runs, nSources)).Wrapped()
  {
    var sum := SumPerSource(runs[..|runs| - 1], nSources);
    var last := PerSource(runs[|runs| - 1], nSources);
    WrappedPlus(total.Plus(sum), last);
    PlusAssoc(total, sum, last);
  }

  /** Folding run after run adds up the per-source averages, wrapped once at the end. */
  lemma {:induction false} FoldRunsIsSum(total: Counters, runs: seq<Counters>, nSources: I32)
    requires nSources != 0 && total.IsU32()
    ensures FoldRuns(total, runs, nSources) == total.Plus(SumPerSource(runs, nSources)).Wrapped()
  {
    if runs == [] {
      PlusZero(total);
      WrappedId(total);
    } else {
      FoldRunsIsSum(total, runs[..|runs| - 1], nSources);
      FoldRunsSumNext(total, runs, nSources);
    }
  }

  lemma {:induction false} SumPerSourceConcat(a: seq<Counters>, b: seq<Counters>, nSources: I32)
    requires nSources != 0
    ensures SumPerSource(a + b, nSources) == SumPerSource(a, nSources).Plus(SumPerSource(b, nSources))
    decreases |b|
  {
    if b == [] {
      assert a + b == a;
      PlusZero(SumPerSource(a, nSources));
    } else {
      var init, last := b[..|b| - 1], b[|b| - 1];
      assert (a + b)[..|a + b| - 1] == a + init;
      assert (a + b)[|a + b| - 1] == last;
      SumPerSourceConcat(a, init, nSources);
      PlusAssoc(SumPerSource(a, nSources), SumPerSource(init, nSources), PerSource(last, nSources));
    }
  }

  /** Taking run k out of the list takes exactly its per-source averages out of the sum. */
  lemma SumPerSourceRemove(runs: seq<Counters>, k: nat, nSources: I32)
    requires nSources != 0 && k < |runs|
    ensures SumPerSource(runs, nSources) == SumPerSource(runs[..k] + runs[k + 1..], nSources).Plus(PerSource(runs[k], nSources))
  {
    var pre, x, post := runs[..k], runs[k], runs[k + 1..];
    var sPre, sPost, p := SumPerSource(pre, nSources), SumPerSource(post, nSources), PerSource(x, nSources);
    assert runs == (pre + [x]) + post;
    assert (pre + [x])[..|pre|] == pre;
    assert SumPerSource(pre + [x], nSources) == sPre.Plus(p);
    SumPerSourceConcat(pre + [x], post, nSources);
    SumPerSourceConcat(pre, post, nSources);
    PlusSwap(sPre, p, sPost);
  }

  /** The summed per-source averages depend only on which runs there were, counted with multiplicity. */
  lemma {:induction false} SumPerSourceOrderIrrelevant(a: seq<Counters>, b: seq<Counters>, nSources: I32)
    requires nSources != 0 && multiset(a) == multiset(b)
    ensures SumPerSource(a, nSources) == SumPerSource(b, nSources)
    decreases |a|
  {
    if a == [] {
      assert |b| == |multiset(b)| == 0;
    } else {
      var init, x := a[..|a| - 1], a[|a| - 1];
      assert a == init + [x];
      assert x in multiset(b);
      var k :| 0 <= k < |b| && b[k] == x;
      var rest := b[..k] + b[k + 1..];
      assert b == b[..k] + [x] + b[k + 1..];
      MultisetRemoveLast(a, b, k);
      SumPerSourceOrderIrrelevant(init, rest, nSources);
      SumPerSourceRemove(b, k, nSources);
    }
  }

  /**
   * Fold is pure addition: Total* does not depend on the order of the runs;
   * any reordering of the same runs gives the same Total*.
   */
  lemma FoldOrderIrrelevant(total: Counters, a: seq<Counters>, b: seq<Counters>, nSources: I32)
    requires nSources != 0 && total.IsU32() && multiset(a) == multiset(b)
    ensures FoldRuns(total, a, nSources) == FoldRuns(total, b, nSources)
  {
    FoldRunsIsSum(total, a, nSources);
    FoldRunsIsSum(total, b, nSources);
    SumPerSourceOrderIrrelevant(a, b, nSources);
  }

  lemma {:induction false} SumPerSourceRepeat(run: Counters, k: nat, nSources: I32)
    requires nSources != 0
    ensures SumPerSource(Repeat(run, k), nSources) == PerSource(run, nSources).Times(k)
  {
    if k > 0 {
      var prev := Repeat(run, k - 1);
      SumPerSourceRepeat(run, k - 1, nSources);
      assert Repeat(run, k) == prev + [run];
      assert (prev + [run])[..|prev|] == prev;
      TimesSucc(PerSource(run, nSources), k);
    }
  }

  /** k identical runs, folded from zero, give k times one run's per-source averages (modulo 2^32). */
  lemma FoldIdenticalRuns(run: Counters, k: nat, nSources: I32)
    requires nSources != 0
    ensures FoldRuns(Zero, Repeat(run, k), nSources) == PerSource(run, nSources).Times(k).Wrapped()
  {
    FoldRunsIsSum(Zero, Repeat(run, k), nSources);
    SumPerSourceRepeat(run, k, nSources);
    ZeroPlus(PerSource(run, nSources).Times(k));
  }

  lemma MulPred(x: int, k: nat)
    requires k > 0
    ensures x * k == x * (k - 1) + x
  {
  }

  lemma TimesSucc(c: Counters, k: nat)
    requires k > 0
    ensures c.Times(k) == c.Times(k - 1).Plus(c)
  {
    MulPred(c.txPackets, k);
    MulPred(c.txBytes, k);
    MulPred(c.rxPackets, k);
    MulPred(c.rxBytes, k);
    MulPred(c.delay, k);
  }

  /** Dividing a uint32_t value k * x by k gives x back. */
  lemma MulDivCancel(x: nat, k: nat)
    requires k > 0 && x * k < TWO_32
    ensures Quot(ToU32(x * k), k) == x
  {
    QuotBounds(x * k, k);
    var q := Quot(x * k, k);
    MulSubDistrib(x, q, k);
    if x - q > 0 {
      MulAtLeast(x - q, k);
    } else if x - q < 0 {
      MulSubDistrib(q, x, k);
      MulAtLeast(q - x, k);
    }
  }

  /**
   * With nRuns identical runs and no overflow, the overall averages equal one
   * run's per-source averages.
   */
  lemma OverallOfIdenticalRuns(run: Counters, nRuns: I32, nSources: I32)
    requires nSources != 0 && nRuns > 0
    requires PerSource(run, nSources).Times(nRuns).IsU32()
    ensures Overall(FoldRuns(Zero, Repeat(run, nRuns), nSources), nRuns) == PerSource(run, nSources)
  {
    FoldIdenticalRuns(run, nRuns, nSources);
    var avg := PerSource(run, nSources);
    MulDivCancel(avg.txPackets, nRuns);
    MulDivCancel(avg.txBytes, nRuns);
    MulDivCancel(avg.rxPackets, nRuns);
    MulDivCancel(avg.rxBytes, nRuns);
    MulDivCancel(avg.delay, nRuns);
  }

  /** The per-source averages fit the uint32_t fields they are added into. */
  lemma PerSourceIsU32(run: Counters, nSources: I32)
    requires nSources != 0
    ensures PerSource(run, nSources).IsU32()
  {
    var d := Divisor(nSources);
    QuotAtMost(ToU32(run.txPackets), d);
    QuotAtMost(ToU32(run.txBytes), d);
    QuotAtMost(ToU32(run.rxPackets), d);
    QuotAtMost(ToU32(run.rxBytes), d);
    QuotAtMost(ToU32(run.delay), d);
  }

  /** With nRuns = 1, the overall averages are the one run's per-source averages. */
  lemma OverallOfOneRun(run: Counters, nSources: I32)
    requires nSources != 0
    ensures Overall(Fold(Zero, run, nSources), 1) == PerSource(run, nSources)
  {
    var avg := PerSource(run, nSources);
    PerSourceIsU32(run, nSources);
    ZeroPlus(avg);
    WrappedId(avg);
    QuotIsDiv(avg.txPackets, 1);
    QuotIsDiv(avg.txBytes, 1);
    QuotIsDiv(avg.rxPackets, 1);
    QuotIsDiv(avg.rxBytes, 1);
    QuotIsDiv(avg.delay, 1);
  }

  /**
   * Five sources, one sink: flows 1-5 each deliver 10 packets of 1000 bytes in
   * total with a delay sum of 50 ms; flow 6 (not a source flow) is ignored.
   */
  lemma FiveSourceScenario()
    ensures var flows := [FlowRecord(1, 10, 1000, 10, 1000, 50), FlowRecord(2, 10, 1000, 10, 1000, 50),
                          FlowRecord(3, 10, 1000, 10, 1000, 50), FlowRecord(4, 10, 1000, 10, 1000, 50),
                          FlowRecord(5, 10, 1000, 10, 1000, 50), FlowRecord(6, 7, 700, 7, 700, 70)];
            && Reduce(Zero, flows, 5) == Counters(50, 5000, 50, 5000, 25)
            && Fold(Zero, Reduce(Zero, flows, 5), 5) == Counters(10, 1000, 10, 1000, 5)
  {
    var f1 := FlowRecord(1, 10, 1000, 10, 1000, 50);
    var f2, f3, f4, f5 := f1.(id := 2), f1.(id := 3), f1.(id := 4), f1.(id := 5);
    var g := FlowRecord(6, 7, 700, 7, 700, 70);
    QuotIsDiv(50, 10);
    var c := Counters(10, 1000, 10, 1000, 5);
    assert Contribution(f1) == c;
    var p1 := [] + [f1];
    ReduceAddsSelected(Zero, [], f1, 5);
    assert Reduce(Zero, p1, 5) == c;
    var p2 := p1 + [f2];
    ReduceAddsSelected(Zero, p1, f2, 5);
    assert Reduce(Zero, p2, 5) == c.Times(2);
    var p3 := p2 + [f3];
    ReduceAddsSelected(Zero, p2, f3, 5);
    assert Reduce(Zero, p3, 5) == c.Times(3);
    var p4 := p3 + [f4];
    ReduceAddsSelected(Zero, p3, f4, 5);
    assert Reduce(Zero, p4, 5) == c.Times(4);
    var p5 := p4 + [f5];
    ReduceAddsSelected(Zero, p4, f5, 5);
    assert Reduce(Zero, p5, 5) == c.Times(5);
    ReduceSkipsUnselected(Zero, p5, g, 5);
    assert p5 + [g] == [f1, f2, f3, f4, f5, g];
    var run := Counters(50, 5000, 50, 5000, 25);
    assert Divisor(5) == 5;
    QuotIsDiv(50, 5);
    QuotIsDiv(5000, 5);
    QuotIsDiv(25, 5);
    assert PerSource(run, 5) == Counters(10, 1000, 10, 1000, 5);
  }
}
