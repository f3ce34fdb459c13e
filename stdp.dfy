/** Spike-timing-dependent plasticity test (stdp_tester.py): the pre- and
    post-synaptic voltage sequences, the paired two-channel run, the
    analysis that turns the recorded rows into (delta_t, delta_g) pairs, and
    the choice of a file name for them. */
module Stdp {
  import opened Common
  import opened Text
  import opened Instrument
  import opened Samples

  /** The tester's parameters, as the constructor sets them. */
  datatype StdpConfig = StdpConfig(
    offTime: real,
    vRead: real, readNum: nat,
    vSpike: real, spikeNum: nat,
    vActive: real, activeNum: int,
    vRest: real, vTime: real,
    vStop: real, stopNum: nat,
    timeNum: seq<real>)

  function DefaultConfig(): StdpConfig
  {
    StdpConfig(0.0001, 0.1, 5, 0.5, 5, 0.0, 1, 0.0, 0.0, 0.0, 5, [0.0, 5.0, 20.0])
  }

  // ---------------------------------------------------------------------
  // Voltage sequences

  /** The samples of a pre block apart from the int(t) wait steps. */
  function PreWidth(c: StdpConfig): nat
  {
    2 * c.readNum + c.spikeNum + Max0(c.activeNum + c.spikeNum) + Max0(c.activeNum) + c.stopNum
  }

  /** The samples of a post block apart from the int(t) wait steps. */
  function PostWidth(c: StdpConfig): nat
  {
    c.readNum + 2 * c.spikeNum + Max0(c.activeNum) + Max0(c.activeNum + c.readNum) + c.stopNum
  }

  /** The pre-synaptic samples for one interval t: read, spike, rest, wait
      int(t) steps, active, read again, stop; int(t) samples more than
      PreWidth. */
  function PreBlock(c: StdpConfig, t: real): (b: seq<real>)
    ensures |b| == PreWidth(c) + Max0(Trunc(t))
  {
    Repeat(c.vRead, c.readNum) + Repeat(c.vSpike, c.spikeNum)
    + Repeat(c.vRest, c.activeNum + c.spikeNum) + Repeat(c.vTime, Trunc(t))
    + Repeat(c.vActive, c.activeNum) + Repeat(c.vRead, c.readNum)
    + Repeat(c.vStop, c.stopNum)
  }

  /** The post-synaptic samples for one interval t: rest, active, wait int(t)
      steps, spike, rest, stop; int(t) samples more than PostWidth. */
  function PostBlock(c: StdpConfig, t: real): (b: seq<real>)
    ensures |b| == PostWidth(c) + Max0(Trunc(t))
  {
    Repeat(c.vRest, c.readNum + c.spikeNum) + Repeat(c.vActive, c.activeNum)
    + Repeat(c.vTime, Trunc(t)) + Repeat(c.vSpike, c.spikeNum)
    + Repeat(c.vRest, c.activeNum + c.readNum) + Repeat(c.vStop, c.stopNum)
  }

  /** The pre sequence over the intervals ts: one pre block per interval,
      in order, so |ts| * PreWidth samples plus the wait steps
      (Count(n, w) == n * w, CountIsProduct). */
  function PreSeq(c: StdpConfig, ts: seq<real>): (r: seq<real>)
    ensures |r| == Count(|ts|, PreWidth(c)) + Ticks(ts)
  {
    if ts == [] then [] else PreSeq(c, ts[..|ts| - 1]) + PreBlock(c, ts[|ts| - 1])
  }

  /** The post sequence over the intervals ts: one post block per interval,
      in order, so |ts| * PostWidth samples plus the wait steps. */
  function PostSeq(c: StdpConfig, ts: seq<real>): (r: seq<real>)
    ensures |r| == Count(|ts|, PostWidth(c)) + Ticks(ts)
  {
    if ts == [] then [] else PostSeq(c, ts[..|ts| - 1]) + PostBlock(c, ts[|ts| - 1])
  }

  /** How much longer a pre block is than a post block; zero unless
      active_num is negative and read_num differs from spike_num. */
  function Skew(c: StdpConfig): int
  {
    c.readNum + Max0(c.activeNum + c.spikeNum) - c.spikeNum - Max0(c.activeNum + c.readNum)
  }

  /** The number of wait steps int(t), summed over the intervals. */
  function Ticks(ts: seq<real>): nat
  {
    if ts == [] then 0 else Ticks(ts[..|ts| - 1]) + Max0(Trunc(ts[|ts| - 1]))
  }

  /** One interval adds 2*read_num + 2*spike_num + 2*active_num + int(t) +
      stop_num samples to each sequence (for a non-negative active_num). */
  lemma BlockLengths(c: StdpConfig, t: real)
    ensures |PreBlock(c, t)| - |PostBlock(c, t)| == Skew(c)
    ensures c.activeNum >= 0 ==>
              |PreBlock(c, t)| == |PostBlock(c, t)| ==
              2 * c.readNum + 2 * c.spikeNum + 2 * c.activeNum + Max0(Trunc(t)) + c.stopNum
  {
  }

  /** Skew vanishes for the configurations the tester uses. */
  lemma SkewZero(c: StdpConfig)
    requires c.activeNum >= 0 || c.readNum == c.spikeNum
    ensures Skew(c) == 0
  {
  }

  /** Over all intervals the pre sequence is |time_num| * Skew longer. */
  lemma SeqSkew(c: StdpConfig, ts: seq<real>)
    ensures |PreSeq(c, ts)| - |PostSeq(c, ts)| == |ts| * Skew(c)
  {
    var n := |ts|;
    CountIsProduct(n, PreWidth(c));
    CountIsProduct(n, PostWidth(c));
    assert Skew(c) == PreWidth(c) - PostWidth(c);
    assert n * PreWidth(c) - n * PostWidth(c) == n * (PreWidth(c) - PostWidth(c));
  }

  /** The length of both sequences over all intervals, for a non-negative
      active_num. */
  lemma SeqLengths(c: StdpConfig, ts: seq<real>)
    requires c.activeNum >= 0
    ensures |PreSeq(c, ts)| == |PostSeq(c, ts)| ==
            |ts| * (2 * c.readNum + 2 * c.spikeNum + 2 * c.activeNum + c.stopNum) + Ticks(ts)
  {
    var w := 2 * c.readNum + 2 * c.spikeNum + 2 * c.activeNum + c.stopNum;
    assert PreWidth(c) == PostWidth(c) == w;
    CountIsProduct(|ts|, w);
  }

  /** The two sequences have equal length exactly when there are no
      intervals or a pre block is as long as a post block. */
  lemma EqualLengthIff(c: StdpConfig, ts: seq<real>)
    ensures |PreSeq(c, ts)| == |PostSeq(c, ts)| <==> ts == [] || Skew(c) == 0
  {
    SeqSkew(c, ts);
  }

  /** Building over two lists of intervals concatenates the results. */
  lemma {:induction false} PreSeqAppend(c: StdpConfig, a: seq<real>, b: seq<real>)
    ensures PreSeq(c, a + b) == PreSeq(c, a) + PreSeq(c, b)
    decreases |b|
  {
    if b == [] {
      assert a + b == a;
    } else {
      assert (a + b)[..|a + b| - 1] == a + b[..|b| - 1];
      assert (a + b)[|a + b| - 1] == b[|b| - 1];
      PreSeqAppend(c, a, b[..|b| - 1]);
    }
  }

  lemma {:induction false} PostSeqAppend(c: StdpConfig, a: seq<real>, b: seq<real>)
    ensures PostSeq(c, a + b) == PostSeq(c, a) + PostSeq(c, b)
    decreases |b|
  {
    if b == [] {
      assert a + b == a;
    } else {
      assert (a + b)[..|a + b| - 1] == a + b[..|b| - 1];
      assert (a + b)[|a + b| - 1] == b[|b| - 1];
      PostSeqAppend(c, a, b[..|b| - 1]);
    }
  }

  /** The block of the k-th interval sits in each sequence right after the
      blocks of the intervals before it: blocks appear in time_num order. */
  lemma BlockPlacement(c: StdpConfig, ts: seq<real>, k: nat)
    requires k < |ts|
    ensures var off := |PreSeq(c, ts[..k])|;
            off + |PreBlock(c, ts[k])| <= |PreSeq(c, ts)| &&
            PreSeq(c, ts)[off .. off + |PreBlock(c, ts[k])|] == PreBlock(c, ts[k])
    ensures var off := |PostSeq(c, ts[..k])|;
            off + |PostBlock(c, ts[k])| <= |PostSeq(c, ts)| &&
            PostSeq(c, ts)[off .. off + |PostBlock(c, ts[k])|] == PostBlock(c, ts[k])
  {
    assert ts == ts[..k] + [ts[k]] + ts[k + 1..];
    PreSeqAppend(c, ts[..k] + [ts[k]], ts[k + 1..]);
    PreSeqAppend(c, ts[..k], [ts[k]]);
    PostSeqAppend(c, ts[..k] + [ts[k]], ts[k + 1..]);
    PostSeqAppend(c, ts[..k], [ts[k]]);
    assert PreSeq(c, [ts[k]]) == PreBlock(c, ts[k]) by {
      assert [ts[k]][..0] == [];
    }
    assert PostSeq(c, [ts[k]]) == PostBlock(c, ts[k]) by {
      assert [ts[k]][..0] == [];
    }
  }

  /** A pre block opens with read_num reads at V_read and then spike_num
      spikes at V_spike; a post block opens with read_num + spike_num rests;
      both close with stop_num samples at V_stop. */
  lemma BlockShape(c: StdpConfig, t: real)
    ensures var b := PreBlock(c, t);
            |b| >= c.readNum + c.spikeNum + c.stopNum &&
            b[..c.readNum] == Repeat(c.vRead, c.readNum) &&
            b[c.readNum .. c.readNum + c.spikeNum] == Repeat(c.vSpike, c.spikeNum) &&
            b[|b| - c.stopNum..] == Repeat(c.vStop, c.stopNum)
    ensures var b := PostBlock(c, t);
            |b| >= c.readNum + c.spikeNum + c.stopNum &&
            b[..c.readNum + c.spikeNum] == Repeat(c.vRest, c.readNum + c.spikeNum) &&
            b[|b| - c.stopNum..] == Repeat(c.vStop, c.stopNum)
  {
    var b := PreBlock(c, t);
    var head := Repeat(c.vRead, c.readNum) + Repeat(c.vSpike, c.spikeNum);
    assert b[..c.readNum + c.spikeNum] == head;
    assert head[..c.readNum] == Repeat(c.vRead, c.readNum);
    assert head[c.readNum..] == Repeat(c.vSpike, c.spikeNum);
  }

  lemma SeqSnoc(c: StdpConfig, ts: seq<real>, k: nat)
    requires k < |ts|
    ensures PreSeq(c, ts[..k + 1]) == PreSeq(c, ts[..k]) + PreBlock(c, ts[k])
    ensures PostSeq(c, ts[..k + 1]) == PostSeq(c, ts[..k]) + PostBlock(c, ts[k])
  {
    assert ts[..k + 1][..k] == ts[..k];
  }

  /** The default parameters give 106 samples per channel. */
  lemma DefaultSequenceLength()
    ensures |PreSeq(DefaultConfig(), DefaultConfig().timeNum)| == 106
    ensures |PostSeq(DefaultConfig(), DefaultConfig().timeNum)| == 106
  {
    var c := DefaultConfig();
    var ts := c.timeNum;
    assert Trunc(5.0) == 5 && Trunc(20.0) == 20 && Trunc(0.0) == 0;
    assert ts[..2] == [0.0, 5.0] && ts[..2][..1] == [0.0] && [0.0][..0] == [];
    assert Ticks(ts) == 25;
    SeqLengths(c, ts);
  }

  /** generate_voltage_sequences: extend both lists block by block. */
  method GenerateVoltageSequences(c: StdpConfig) returns (pre: seq<real>, post: seq<real>)
    ensures pre == PreSeq(c, c.timeNum) && post == PostSeq(c, c.timeNum)
    ensures c.activeNum >= 0 ==> |pre| == |post|
  {
    pre, post := [], [];
    for k := 0 to |c.timeNum|
      invariant pre == PreSeq(c, c.timeNum[..k])
      invariant post == PostSeq(c, c.timeNum[..k])
    {
      var t := c.timeNum[k];
      var preBlock := PreBlock(c, t);
      var postBlock := PostBlock(c, t);
      pre := pre + preBlock;
      post := post + postBlock;
      SeqSnoc(c, c.timeNum, k);
    }
    assert c.timeNum[..|c.timeNum|] == c.timeNum;
    if c.activeNum >= 0 {
      SkewZero(c);
      SeqSkew(c, c.timeNum);
    }
  }

  // ---------------------------------------------------------------------
  // The paired run

  /** One recorded row: the two applied levels and the two currents. */
  datatype StdpRow = StdpRow(vA: real, vB: real, iA: real, iB: real)

  /** Row i before normalisation: channel A's current is measurement 2i,
      channel B's is measurement 2i+1, and the time is read after both. */
  function RawRow(a: seq<real>, b: seq<real>, port: Port, i: nat): Stamped<StdpRow>
    requires i < |a| && i < |b|
  {
    Stamped(port(2 * i + 1).time, StdpRow(a[i], b[i], port(2 * i).current, port(2 * i + 1).current))
  }

  function RawRows(a: seq<real>, b: seq<real>, port: Port): seq<Stamped<StdpRow>>
  {
    var n := Min(|a|, |b|);
    seq(n, i requires 0 <= i < n => RawRow(a, b, port, i))
  }

  /** The commands for index i: set both levels, wait off_time, measure A then B. */
  function StepCmds(vA: real, vB: real, offTime: real): seq<Command>
  {
    [SetLevel(ChanA, vA), SetLevel(ChanB, vB), Sleep(offTime), Measure(ChanA), Measure(ChanB)]
  }

  function StepsCmds(a: seq<real>, b: seq<real>, offTime: real, n: nat): seq<Command>
    requires n <= |a| && n <= |b|
  {
    if n == 0 then [] else StepsCmds(a, b, offTime, n - 1) + StepCmds(a[n - 1], b[n - 1], offTime)
  }

  /** Both outputs on, one step per index, both outputs off. */
  function StdpLog(a: seq<real>, b: seq<real>, offTime: real): seq<Command>
  {
    [SetOutput(ChanA, true), SetOutput(ChanB, true)]
    + StepsCmds(a, b, offTime, Min(|a|, |b|))
    + [SetOutput(ChanA, false), SetOutput(ChanB, false)]
  }

  /** run_stdp_test: channel A plays the pre sequence when pre_before_post
      (the post sequence otherwise), one row per index up to the shorter
      sequence, then times are normalised. */
  method RunStdpTest(c: StdpConfig, preBeforePost: bool, preSequence: seq<real>, postSequence: seq<real>, port: Port)
    returns (data: seq<Stamped<StdpRow>>, log: seq<Command>)
    ensures var a := if preBeforePost then preSequence else postSequence;
            var b := if preBeforePost then postSequence else preSequence;
            data == Normalized(RawRows(a, b, port)) && log == StdpLog(a, b, c.offTime)
    ensures |data| == Min(|preSequence|, |postSequence|)
    ensures forall i :: 0 <= i < |data| ==>
              data[i].value.vA == (if preBeforePost then preSequence[i] else postSequence[i]) &&
              data[i].value.vB == (if preBeforePost then postSequence[i] else preSequence[i])
    ensures data != [] ==> data[0].time == 0.0
  {
    var chanA, chanB;
    if preBeforePost {
      chanA, chanB := preSequence, postSequence;
    } else {
      chanA, chanB := postSequence, preSequence;
    }
    log := [SetOutput(ChanA, true), SetOutput(ChanB, true)];
    var raw: seq<Stamped<StdpRow>> := [];
    var length := Min(|chanA|, |chanB|);
    for i := 0 to length
      invariant |raw| == i
      invariant forall k :: 0 <= k < i ==> raw[k] == RawRow(chanA, chanB, port, k)
      invariant log == [SetOutput(ChanA, true), SetOutput(ChanB, true)] + StepsCmds(chanA, chanB, c.offTime, i)
    {
      var vA, vB := chanA[i], chanB[i];
      log := log + [SetLevel(ChanA, vA), SetLevel(ChanB, vB), Sleep(c.offTime), Measure(ChanA), Measure(ChanB)];
      var iA := port(2 * i).current;
      var iB := port(2 * i + 1).current;
      var tNow := port(2 * i + 1).time;
      raw := raw + [Stamped(tNow, StdpRow(vA, vB, iA, iB))];
    }
    log := log + [SetOutput(ChanA, false), SetOutput(ChanB, false)];
    assert raw == RawRows(chanA, chanB, port);
    data := Normalize(raw);
  }

  lemma StepEffect(vA: real, vB: real, offTime: real)
    ensures Replay(StepCmds(vA, vB, offTime), {ChanA, ChanB}) == Effect({ChanA, ChanB}, true, 2, offTime)
  {
    var on := {ChanA, ChanB};
    var log := StepCmds(vA, vB, offTime);
    assert Replay(log[5..], on) == Effect(on, true, 0, 0.0);
    assert Replay(log[4..], on) == Effect(on, true, 1, 0.0) by {
      assert log[4..][1..] == log[5..];
    }
    assert Replay(log[3..], on) == Effect(on, true, 2, 0.0) by {
      assert log[3..][1..] == log[4..];
    }
    assert Replay(log[2..], on) == Effect(on, true, 2, offTime) by {
      assert log[2..][1..] == log[3..];
    }
    assert Replay(log[1..], on) == Effect(on, true, 2, offTime) by {
      assert log[1..][1..] == log[2..];
    }
  }

  lemma {:induction false} StepsEffect(a: seq<real>, b: seq<real>, offTime: real, n: nat)
    requires n <= |a| && n <= |b|
    ensures Replay(StepsCmds(a, b, offTime, n), {ChanA, ChanB}) ==
            Effect({ChanA, ChanB}, true, 2 * n, Times(n, offTime))
  {
    if n > 0 {
      StepsEffect(a, b, offTime, n - 1);
      StepEffect(a[n - 1], b[n - 1], offTime);
      ReplayAppend(StepsCmds(a, b, offTime, n - 1), StepCmds(a[n - 1], b[n - 1], offTime), {ChanA, ChanB});
    }
  }

  /** The run measures only while both outputs are on, takes two
      measurements per row, waits off_time per row and leaves both outputs
      off. */
  lemma StdpLogEffect(a: seq<real>, b: seq<real>, offTime: real)
    ensures var n := Min(|a|, |b|);
            Replay(StdpLog(a, b, offTime), {}) == Effect({}, true, 2 * n, Times(n, offTime))
  {
    var n := Min(|a|, |b|);
    var open := [SetOutput(ChanA, true), SetOutput(ChanB, true)];
    var close := [SetOutput(ChanA, false), SetOutput(ChanB, false)];
    var steps := StepsCmds(a, b, offTime, n);
    OpenEffect();
    StepsEffect(a, b, offTime, n);
    CloseEffect();
    ReplayConcat3(open, steps, close, {});
  }

  lemma OpenEffect()
    ensures Replay([SetOutput(ChanA, true), SetOutput(ChanB, true)], {}) == Effect({ChanA, ChanB}, true, 0, 0.0)
  {
    assert [SetOutput(ChanA, true), SetOutput(ChanB, true)] == [SetOutput(ChanA, true)] + [SetOutput(ChanB, true)];
    SingleEffect(SetOutput(ChanA, true), {});
    SingleEffect(SetOutput(ChanB, true), {ChanA});
    ReplayAppend([SetOutput(ChanA, true)], [SetOutput(ChanB, true)], {});
    assert {} + {ChanA} == {ChanA};
    assert {ChanA} + {ChanB} == {ChanA, ChanB};
  }

  lemma CloseEffect()
    ensures Replay([SetOutput(ChanA, false), SetOutput(ChanB, false)], {ChanA, ChanB}) == Effect({}, true, 0, 0.0)
  {
    assert [SetOutput(ChanA, false), SetOutput(ChanB, false)] == [SetOutput(ChanA, false)] + [SetOutput(ChanB, false)];
    SingleEffect(SetOutput(ChanA, false), {ChanA, ChanB});
    SingleEffect(SetOutput(ChanB, false), {ChanB});
    ReplayAppend([SetOutput(ChanA, false)], [SetOutput(ChanB, false)], {ChanA, ChanB});
    assert {ChanA, ChanB} - {ChanA} == {ChanB};
    assert {ChanB} - {ChanB} == {};
  }

  // ---------------------------------------------------------------------
  // Analysis

  /** A mean read current below this magnitude makes delta_g NaN. */
  const ZeroCurrent: real := 0.00000000000000000001

  function PreV(r: StdpRow, preBeforePost: bool): real { if preBeforePost then r.vA else r.vB }
  function PreI(r: StdpRow, preBeforePost: bool): real { if preBeforePost then r.iA else r.iB }
  function PostV(r: StdpRow, preBeforePost: bool): real { if preBeforePost then r.vB else r.vA }

  /** The rows whose pre voltage is close to V_read, in their original order: a row of the
      data is kept exactly when it is close. */
  function ReadRows(c: StdpConfig, pbp: bool, data: seq<Stamped<StdpRow>>): (rows: seq<Stamped<StdpRow>>)
    ensures |rows| <= |data|
    ensures forall r :: r in rows ==> r in data
    ensures forall r :: r in data ==> (r in rows <==> IsClose(PreV(r.value, pbp), c.vRead, Atol))
  {
    var keep := (r: Stamped<StdpRow>) => IsClose(PreV(r.value, pbp), c.vRead, Atol);
    var rows := Filter(data, keep);
    assert forall r :: r in data && keep(r) ==> r in rows by {
      forall r | r in data && keep(r)
        ensures r in rows
      {
        FilterComplete(data, keep, r);
      }
    }
    rows
  }

  /** The rows whose pre voltage is close to V_spike, in their original order: a row of the
      data is kept exactly when it is close. */
  function PreSpikeRows(c: StdpConfig, pbp: bool, data: seq<Stamped<StdpRow>>): (rows: seq<Stamped<StdpRow>>)
    ensures |rows| <= |data|
    ensures forall r :: r in rows ==> r in data
    ensures forall r :: r in data ==> (r in rows <==> IsClose(PreV(r.value, pbp), c.vSpike, Atol))
  {
    var keep := (r: Stamped<StdpRow>) => IsClose(PreV(r.value, pbp), c.vSpike, Atol);
    var rows := Filter(data, keep);
    assert forall r :: r in data && keep(r) ==> r in rows by {
      forall r | r in data && keep(r)
        ensures r in rows
      {
        FilterComplete(data, keep, r);
      }
    }
    rows
  }

  /** The rows whose post voltage is close to V_spike, in their original order: a row of the
      data is kept exactly when it is close. */
  function PostSpikeRows(c: StdpConfig, pbp: bool, data: seq<Stamped<StdpRow>>): (rows: seq<Stamped<StdpRow>>)
    ensures |rows| <= |data|
    ensures forall r :: r in rows ==> r in data
    ensures forall r :: r in data ==> (r in rows <==> IsClose(PostV(r.value, pbp), c.vSpike, Atol))
  {
    var keep := (r: Stamped<StdpRow>) => IsClose(PostV(r.value, pbp), c.vSpike, Atol);
    var rows := Filter(data, keep);
    assert forall r :: r in data && keep(r) ==> r in rows by {
      forall r | r in data && keep(r)
        ensures r in rows
      {
        FilterComplete(data, keep, r);
      }
    }
    rows
  }

  function PreCurrents(block: seq<Stamped<StdpRow>>, pbp: bool): seq<real>
  {
    seq(|block|, j requires 0 <= j < |block| => PreI(block[j].value, pbp))
  }

  /** The mean pre current of a group of reads. */
  function BlockCurrent(block: seq<Stamped<StdpRow>>, pbp: bool): real
    requires |block| > 0
  {
    Mean(PreCurrents(block, pbp))
  }

  /** The mean pre current of each group, in order. */
  function GroupMeans(groups: seq<seq<Stamped<StdpRow>>>, pbp: bool): seq<real>
    requires forall g :: 0 <= g < |groups| ==> |groups[g]| > 0
  {
    seq(|groups|, g requires 0 <= g < |groups| => BlockCurrent(groups[g], pbp))
  }

  /** The time of the first row of each block, in order. */
  function FirstTimes(blocks: seq<seq<Stamped<StdpRow>>>): seq<real>
    requires forall j :: 0 <= j < |blocks| ==> |blocks[j]| > 0
  {
    seq(|blocks|, j requires 0 <= j < |blocks| => blocks[j][0].time)
  }

  /** Group g of k rows is rows g*k .. g*k + k - 1, and its mean is taken. */
  lemma GroupMeansAt(rows: seq<Stamped<StdpRow>>, k: nat, pbp: bool)
    requires k > 0
    ensures var r := GroupMeans(Blocks(rows, k), pbp);
            |r| == |rows| / k &&
            forall g :: 0 <= g < |r| ==>
              g * k + k <= |rows| && r[g] == Mean(PreCurrents(rows[g * k .. g * k + k], pbp))
  {
    BlocksCount(rows, k);
    BlocksAt(rows, k);
  }

  /** Block j of k rows starts at row j*k. */
  lemma FirstTimesAt(rows: seq<Stamped<StdpRow>>, k: nat)
    requires k > 0
    ensures var r := FirstTimes(Blocks(rows, k));
            |r| == |rows| / k &&
            forall j :: 0 <= j < |r| ==> j * k < |rows| && r[j] == rows[j * k].time
  {
    BlocksCount(rows, k);
    BlocksAt(rows, k);
  }

  /** The mean pre current of each complete block of k rows. */
  function BlockMeans(rows: seq<Stamped<StdpRow>>, k: nat, pbp: bool): (r: seq<real>)
    requires k > 0
    ensures |r| == |rows| / k
    ensures forall g :: 0 <= g < |r| ==>
              g * k + k <= |rows| && r[g] == Mean(PreCurrents(rows[g * k .. g * k + k], pbp))
  {
    GroupMeansAt(rows, k, pbp);
    GroupMeans(Blocks(rows, k), pbp)
  }

  /** One mean current per complete group of read_num reads: floor(n /
      read_num) of them for n read rows, current g being the mean over rows
      g*read_num .. g*read_num + read_num - 1. */
  function ReadCurrents(c: StdpConfig, pbp: bool, data: seq<Stamped<StdpRow>>): (r: seq<real>)
    requires c.readNum > 0
    ensures var rows := ReadRows(c, pbp, data);
            var k := c.readNum;
            |r| == |rows| / k &&
            forall g :: 0 <= g < |r| ==>
              g * k + k <= |rows| && r[g] == Mean(PreCurrents(rows[g * k .. g * k + k], pbp))
  {
    BlockMeans(ReadRows(c, pbp, data), c.readNum, pbp)
  }

  /** The time of the first row of each complete block of k rows: onset j
      is the time of row j*k. */
  function Onsets(rows: seq<Stamped<StdpRow>>, k: nat): (r: seq<real>)
    requires k > 0
    ensures |r| == |rows| / k
    ensures forall j :: 0 <= j < |r| ==> j * k < |rows| && r[j] == rows[j * k].time
  {
    FirstTimesAt(rows, k);
    FirstTimes(Blocks(rows, k))
  }

  /** delta_g for consecutive read currents i1, i2: NaN (None) when i1 is
      numerically zero, (i2 - i1) / i1 otherwise. */
  function RelativeChange(i1: real, i2: real): (r: Option<real>)
    ensures r.None? <==> Abs(i1) < ZeroCurrent
    ensures r.Some? ==> i2 == i1 * (1.0 + r.value)
  {
    if Abs(i1) < ZeroCurrent then None else Some((i2 - i1) / i1)
  }

  /** Each block mean lies within any bounds of the rows' pre currents. */
  lemma BlockMeansInRange(rows: seq<Stamped<StdpRow>>, k: nat, pbp: bool, lo: real, hi: real)
    requires k > 0
    requires forall r :: r in rows ==> lo <= PreI(r.value, pbp) <= hi
    ensures forall g :: 0 <= g < |BlockMeans(rows, k, pbp)| ==> lo <= BlockMeans(rows, k, pbp)[g] <= hi
  {
    forall g | 0 <= g < |BlockMeans(rows, k, pbp)|
      ensures lo <= BlockMeans(rows, k, pbp)[g] <= hi
    {
      var block := rows[g * k .. g * k + k];
      forall j | 0 <= j < |block|
        ensures lo <= PreCurrents(block, pbp)[j] <= hi
      {
        assert block[j] in rows;
      }
      MeanBounds(PreCurrents(block, pbp), lo, hi);
    }
  }

  /** Every read current lies within the range of the currents of the read
      rows. */
  lemma ReadCurrentsInRange(c: StdpConfig, pbp: bool, data: seq<Stamped<StdpRow>>, lo: real, hi: real)
    requires c.readNum > 0
    requires forall r :: r in ReadRows(c, pbp, data) ==> lo <= PreI(r.value, pbp) <= hi
    ensures forall g :: 0 <= g < |ReadCurrents(c, pbp, data)| ==> lo <= ReadCurrents(c, pbp, data)[g] <= hi
  {
    BlockMeansInRange(ReadRows(c, pbp, data), c.readNum, pbp, lo, hi);
  }

  /** The mean current of each group, in order. */
  method GroupCurrents(groups: seq<seq<Stamped<StdpRow>>>, pbp: bool) returns (currents: seq<real>)
    requires forall g :: 0 <= g < |groups| ==> |groups[g]| > 0
    ensures |currents| == |groups|
    ensures forall g :: 0 <= g < |groups| ==> currents[g] == BlockCurrent(groups[g], pbp)
  {
    currents := [];
    for g := 0 to |groups|
      invariant |currents| == g
      invariant forall h :: 0 <= h < g ==> currents[h] == BlockCurrent(groups[h], pbp)
    {
      currents := currents + [BlockCurrent(groups[g], pbp)];
    }
  }

  /** The time of the first row of each block, in order. */
  method BlockOnsets(blocks: seq<seq<Stamped<StdpRow>>>) returns (times: seq<real>)
    requires forall j :: 0 <= j < |blocks| ==> |blocks[j]| > 0
    ensures |times| == |blocks|
    ensures forall j :: 0 <= j < |blocks| ==> times[j] == blocks[j][0].time
  {
    times := [];
    for j := 0 to |blocks|
      invariant |times| == j
      invariant forall h :: 0 <= h < j ==> times[h] == blocks[h][0].time
    {
      times := times + [blocks[j][0].time];
    }
  }

  /** One relative change per consecutive pair of currents. */
  method DeltaG(currents: seq<real>) returns (dg: seq<Option<real>>)
    ensures |dg| == Max0(|currents| - 1)
    ensures forall i :: 0 <= i < |dg| ==> dg[i] == RelativeChange(currents[i], currents[i + 1])
  {
    dg := [];
    var i := 0;
    while i < |currents| - 1
      invariant 0 <= i <= Max0(|currents| - 1)
      invariant |dg| == i
      invariant forall h :: 0 <= h < i ==> dg[h] == RelativeChange(currents[h], currents[h + 1])
    {
      var i1, i2 := currents[i], currents[i + 1];
      var d: Option<real>;
      if Abs(i1) < ZeroCurrent {
        d := None;
      } else {
        d := Some((i2 - i1) / i1);
      }
      dg := dg + [d];
      i := i + 1;
    }
  }

  /** post - pre for each pair of onsets, negated when the post spike is
      applied first. */
  method DeltaT(preTimes: seq<real>, postTimes: seq<real>, pbp: bool) returns (dt: seq<real>)
    ensures |dt| == Min(|preTimes|, |postTimes|)
    ensures forall i :: 0 <= i < |dt| ==>
              dt[i] == if pbp then postTimes[i] - preTimes[i] else preTimes[i] - postTimes[i]
  {
    dt := [];
    var n := Min(|preTimes|, |postTimes|);
    for i := 0 to n
      invariant |dt| == i
      invariant forall h :: 0 <= h < i ==>
                  dt[h] == if pbp then postTimes[h] - preTimes[h] else preTimes[h] - postTimes[h]
    {
      var d := postTimes[i] - preTimes[i];
      if !pbp {
        d := -d;
      }
      dt := dt + [d];
    }
  }

  /** The paired analysis results: delta_t and delta_g, of equal length. */
  datatype Deltas = Deltas(deltaT: seq<real>, deltaG: seq<Option<real>>)

  /** process_measurement_data: delta_t and delta_g truncated to a common
      length; both are empty when either list is. An empty table has no
      columns for pandas to name, so the call fails (None). */
  method ProcessMeasurementData(c: StdpConfig, pbp: bool, data: seq<Stamped<StdpRow>>)
    returns (r: Option<Deltas>)
    requires c.readNum > 0 && c.spikeNum > 0
    ensures r.None? <==> data == []
    ensures r.Some? ==>
              var cur := ReadCurrents(c, pbp, data);
              var pre := Onsets(PreSpikeRows(c, pbp, data), c.spikeNum);
              var post := Onsets(PostSpikeRows(c, pbp, data), c.spikeNum);
              var n := Min(Max0(|cur| - 1), Min(|pre|, |post|));
              var (deltaT, deltaG) := (r.value.deltaT, r.value.deltaG);
              |deltaT| == n && |deltaG| == n &&
              (forall i :: 0 <= i < n ==> deltaG[i] == RelativeChange(cur[i], cur[i + 1])) &&
              (forall i :: 0 <= i < n ==>
                 deltaT[i] == if pbp then post[i] - pre[i] else pre[i] - post[i])
  {
    if data == [] {
      r := None;
      return;
    }
    var readGroups := CompleteBlocks(ReadRows(c, pbp, data), c.readNum);
    var readCurrents := GroupCurrents(readGroups, pbp);

    var preBlocks := CompleteBlocks(PreSpikeRows(c, pbp, data), c.spikeNum);
    var postBlocks := CompleteBlocks(PostSpikeRows(c, pbp, data), c.spikeNum);
    var spikePreTimes := BlockOnsets(preBlocks);
    var spikePostTimes := BlockOnsets(postBlocks);

    var deltaGList := DeltaG(readCurrents);
    var deltaTList := DeltaT(spikePreTimes, spikePostTimes, pbp);

    var nMin := Min(|deltaGList|, |deltaTList|);
    if nMin == 0 {
      r := Some(Deltas([], []));
    } else {
      r := Some(Deltas(deltaTList[..nMin], deltaGList[..nMin]));
    }
  }

  // ---------------------------------------------------------------------
  // File naming

  /** The k-th name tried: "{prefix}_delta.csv", then "{prefix}_delta_{k}.csv". */
  function DeltaCsvCandidate(prefix: string, k: nat): string
  {
    if k == 0 then prefix + "_delta.csv" else prefix + "_delta" + "_" + Decimal(k) + ".csv"
  }

  /** No name is tried twice. */
  lemma CandidatesDistinct(prefix: string, j: nat, k: nat)
    requires j != k
    ensures DeltaCsvCandidate(prefix, j) != DeltaCsvCandidate(prefix, k)
  {
    var base := prefix + "_delta";
    if j == 0 || k == 0 {
      var m := if j == 0 then k else j;
      assert DeltaCsvCandidate(prefix, 0)[|base|] == '.';
      assert DeltaCsvCandidate(prefix, m)[|base|] == '_';
    } else {
      var cj, ck := DeltaCsvCandidate(prefix, j), DeltaCsvCandidate(prefix, k);
      assert cj[|base| + 1 .. |cj| - 4] == Decimal(j);
      assert ck[|base| + 1 .. |ck| - 4] == Decimal(k);
      if cj == ck {
        DecimalInjective(j, k);
      }
    }
  }

  function CandidatesBelow(prefix: string, n: nat): set<string>
  {
    set j | 0 <= j < n :: DeltaCsvCandidate(prefix, j)
  }

  /** save_delta_csv's choice of name: the first candidate that is not
      already in the folder. */
  method DeltaCsvName(existing: set<string>, prefix: string) returns (name: string)
    ensures name !in existing
    ensures exists k: nat :: name == DeltaCsvCandidate(prefix, k) &&
                        forall j :: 0 <= j < k ==> DeltaCsvCandidate(prefix, j) in existing
  {
    name := prefix + "_delta.csv";
    var idx := 1;
    var basePrefix := prefix + "_delta";
    ghost var tried: set<string> := {};
    while name in existing
      invariant idx >= 1
      invariant name == DeltaCsvCandidate(prefix, idx - 1)
      invariant tried == CandidatesBelow(prefix, idx - 1)
      invariant tried <= existing
      invariant name !in tried
      decreases |existing - tried|
    {
      assert existing - (tried + {name}) < existing - tried;
      tried := tried + {name};
      assert tried == CandidatesBelow(prefix, idx);
      name := basePrefix + "_" + Decimal(idx) + ".csv";
      forall j | 0 <= j < idx
        ensures DeltaCsvCandidate(prefix, j) != name
      {
        CandidatesDistinct(prefix, j, idx);
      }
      idx := idx + 1;
    }
    assert forall j :: 0 <= j < idx - 1 ==> DeltaCsvCandidate(prefix, j) in tried;
  }
}
