/** Spike-rate-dependent plasticity and long-term memory tests
    (srdp_tester.py): read/write pulse trains separated by a space time, the
    labelled samples they record, the read filter with its conductance, and
    the parsing of the LTM space list. */
module Srdp {
  import opened Common
  import opened Text
  import opened Instrument
  import opened Samples

  // ---------------------------------------------------------------------
  // Labels and rows

  /** A row's label; space and pulse count from 1, as printed. */
  datatype Label =
    | Read(space: nat, pulse: nat)
    | Write(space: nat, pulse: nat)
    | LtmWrite(space: nat, pulse: nat)

  /** The text in front of a label's numbers. */
  function Prefix(l: Label): string
  {
    match l
    case Read(_, _) => "read_"
    case Write(_, _) => "write_"
    case LtmWrite(_, _) => "ltm_write_"
  }

  /** The label as written in the Label column: read_{space}-{pulse},
      write_{space}-{pulse} or ltm_write_{space}-{pulse}. After the prefix
      come the decimal forms of the two numbers around the only '-', so
      each number reads back from its run of digits. */
  function LabelText(l: Label): (t: string)
    ensures var p, n := |Prefix(l)|, |Prefix(l)| + |Decimal(l.space)|;
            p < n < |t| - 1 && t[..p] == Prefix(l) && t[n] == '-' &&
            t[p..n] == Decimal(l.space) && t[n + 1..] == Decimal(l.pulse)
  {
    PiecesAroundSep(Prefix(l), Decimal(l.space), Decimal(l.pulse), '-');
    Prefix(l) + Decimal(l.space) + "-" + Decimal(l.pulse)
  }

  /** The first character tells the kind of label apart. */
  lemma PrefixByFirst(a: Label, b: Label)
    requires Prefix(a)[0] == Prefix(b)[0]
    ensures Prefix(a) == Prefix(b) && a.Read? == b.Read? && a.Write? == b.Write? && a.LtmWrite? == b.LtmWrite?
  {
  }

  /** Different labels are written differently: the prefix fixes the kind,
      the only '-' after it splits the two numbers, and each reads back. */
  lemma LabelTextInjective(a: Label, b: Label)
    requires LabelText(a) == LabelText(b)
    ensures a == b
  {
    assert Prefix(a) == Prefix(b) && a.Read? == b.Read? && a.Write? == b.Write? by {
      assert Prefix(a)[0] == LabelText(a)[0] == Prefix(b)[0];
      PrefixByFirst(a, b);
    }
    PrefixedPairInjective(Prefix(a), a.space, a.pulse, b.space, b.pulse, '-');
  }

  /** One recorded row: the measured voltage and current, and the label. */
  datatype SrdpSample = SrdpSample(voltage: real, current: real, tag: Label)

  /** Row j of a run: the j-th measurement with its time and the given label. */
  function Row(port: Port, j: nat, tag: Label): Stamped<SrdpSample>
  {
    Stamped(port(j).time, SrdpSample(port(j).voltage, port(j).current, tag))
  }

  /** The label of row j of an SRDP run with n pulses per space value: rows
      come in read/write pairs, pulse index inner, space index outer. */
  function SrdpLabel(n: nat, j: nat): Label
    requires n > 0
  {
    var k := j / 2;
    if j % 2 == 0 then Read(k / n + 1, k % n + 1) else Write(k / n + 1, k % n + 1)
  }

  /** The label of row j of an LTM run with n pulses per space value. */
  function LtmLabel(n: nat, j: nat): Label
    requires n > 0
  {
    LtmWrite(j / n + 1, j % n + 1)
  }

  /** The read row and the write row of pulse p at space index s carry
      read_{s+1}-{p+1} and write_{s+1}-{p+1}, and the LTM row of that pulse
      carries ltm_write_{s+1}-{p+1}. */
  lemma SlotLabels(n: nat, s: nat, p: nat)
    requires 0 < n && p < n
    ensures SrdpLabel(n, 2 * (s * n + p)) == Read(s + 1, p + 1)
    ensures SrdpLabel(n, 2 * (s * n + p) + 1) == Write(s + 1, p + 1)
    ensures LtmLabel(n, s * n + p) == LtmWrite(s + 1, p + 1)
  {
    var k := s * n + p;
    DivModUnique(2 * k, 2, k, 0);
    DivModUnique(2 * k + 1, 2, k, 1);
    DivModUnique(k, n, s, p);
  }

  /** Slot k = s*n + p of m*n slots lies at space index s < m. */
  lemma SlotRange(n: nat, m: nat, k: nat)
    requires n > 0 && k < n * m
    ensures k / n < m && k % n < n
  {
    if k / n >= m {
      MulLe(m, k / n, n);
    }
  }

  /** Every label of an SRDP run names a space value and a pulse that
      exist, and even rows are reads, odd rows writes. */
  lemma SrdpLabelRange(n: nat, m: nat, j: nat)
    requires n > 0 && j < 2 * n * m
    ensures var l := SrdpLabel(n, j);
            1 <= l.space <= m && 1 <= l.pulse <= n && (l.Read? <==> j % 2 == 0)
  {
    assert 2 * n * m == 2 * (n * m);
    SlotRange(n, m, j / 2);
  }

  /** Different rows of an SRDP run carry different labels. */
  lemma SrdpLabelUnique(n: nat, j: nat, j': nat)
    requires n > 0 && SrdpLabel(n, j) == SrdpLabel(n, j')
    ensures j == j'
  {
    var k, k' := j / 2, j' / 2;
    assert j % 2 == j' % 2 && k / n == k' / n && k % n == k' % n;
    assert k == k' by {
      assert k' == (k' / n) * n + k' % n;
      DivModUnique(k', n, k / n, k % n);
    }
  }

  /** Every label of an LTM run names a space value and a pulse that exist. */
  lemma LtmLabelRange(n: nat, m: nat, j: nat)
    requires n > 0 && j < n * m
    ensures 1 <= LtmLabel(n, j).space <= m && 1 <= LtmLabel(n, j).pulse <= n
  {
    SlotRange(n, m, j);
  }

  /** Different rows of an LTM run carry different labels. */
  lemma LtmLabelUnique(n: nat, j: nat, j': nat)
    requires n > 0 && LtmLabel(n, j) == LtmLabel(n, j')
    ensures j == j'
  {
    DivModUnique(j', n, j / n, j % n);
  }

  /** No label text repeats within a run. */
  lemma LabelTextsDistinct(n: nat, j: nat, j': nat)
    requires n > 0 && j != j'
    ensures LabelText(SrdpLabel(n, j)) != LabelText(SrdpLabel(n, j'))
    ensures LabelText(LtmLabel(n, j)) != LabelText(LtmLabel(n, j'))
  {
    if LabelText(SrdpLabel(n, j)) == LabelText(SrdpLabel(n, j')) {
      LabelTextInjective(SrdpLabel(n, j), SrdpLabel(n, j'));
      SrdpLabelUnique(n, j, j');
    }
    if LabelText(LtmLabel(n, j)) == LabelText(LtmLabel(n, j')) {
      LabelTextInjective(LtmLabel(n, j), LtmLabel(n, j'));
      LtmLabelUnique(n, j, j');
    }
  }

  /** The rows of an SRDP run over m space values, before normalisation. */
  function SrdpRows(n: nat, m: nat, port: Port): seq<Stamped<SrdpSample>>
  {
    if n == 0 then [] else seq(2 * n * m, j requires 0 <= j < 2 * n * m => Row(port, j, SrdpLabel(n, j)))
  }

  /** The rows of an LTM run over m space values, before normalisation. */
  function LtmRows(n: nat, m: nat, port: Port): seq<Stamped<SrdpSample>>
  {
    if n == 0 then [] else seq(n * m, j requires 0 <= j < n * m => Row(port, j, LtmLabel(n, j)))
  }

  /** raw holds the first |raw| rows of an SRDP run with n pulses per space value. */
  ghost predicate SrdpPrefix(raw: seq<Stamped<SrdpSample>>, n: nat, port: Port)
  {
    forall j :: 0 <= j < |raw| ==> n > 0 && raw[j] == Row(port, j, SrdpLabel(n, j))
  }

  /** raw holds the first |raw| rows of an LTM run with n pulses per space value. */
  ghost predicate LtmPrefix(raw: seq<Stamped<SrdpSample>>, n: nat, port: Port)
  {
    forall j :: 0 <= j < |raw| ==> n > 0 && raw[j] == Row(port, j, LtmLabel(n, j))
  }

  lemma SrdpPrefixExtend(raw: seq<Stamped<SrdpSample>>, rows: seq<Stamped<SrdpSample>>, n: nat, port: Port)
    requires SrdpPrefix(raw, n, port)
    requires |rows| > 0 ==> n > 0
    requires forall q :: 0 <= q < |rows| ==> rows[q] == Row(port, |raw| + q, SrdpLabel(n, |raw| + q))
    ensures SrdpPrefix(raw + rows, n, port)
  {
    forall j | |raw| <= j < |raw + rows|
      ensures (raw + rows)[j] == rows[j - |raw|]
    {
    }
  }

  lemma LtmPrefixExtend(raw: seq<Stamped<SrdpSample>>, rows: seq<Stamped<SrdpSample>>, n: nat, port: Port)
    requires LtmPrefix(raw, n, port)
    requires |rows| > 0 ==> n > 0
    requires forall q :: 0 <= q < |rows| ==> rows[q] == Row(port, |raw| + q, LtmLabel(n, |raw| + q))
    ensures LtmPrefix(raw + rows, n, port)
  {
    forall j | |raw| <= j < |raw + rows|
      ensures (raw + rows)[j] == rows[j - |raw|]
    {
    }
  }

  /** A prefix of the full length is the whole run. */
  lemma SrdpPrefixFull(raw: seq<Stamped<SrdpSample>>, n: nat, m: nat, port: Port)
    requires SrdpPrefix(raw, n, port) && |raw| == 2 * (m * n)
    ensures raw == SrdpRows(n, m, port) && |raw| == 2 * n * m
  {
    assert 2 * (m * n) == 2 * n * m;
  }

  lemma LtmPrefixFull(raw: seq<Stamped<SrdpSample>>, n: nat, m: nat, port: Port)
    requires LtmPrefix(raw, n, port) && |raw| == m * n
    ensures raw == LtmRows(n, m, port) && |raw| == n * m
  {
    assert m * n == n * m;
  }

  // ---------------------------------------------------------------------
  // Command logs

  /** The tester's settings that the runs and the analysis read. */
  datatype SrdpConfig = SrdpConfig(
    offTime: real, pulseWidth: real, pulseNum: int,
    vRead: real, vWrite: real, ltmPulseCount: int)

  /** k pulses of a train of n: each pulse is body, followed by gap unless it
      is pulse n-1. */
  function Train(body: seq<Command>, gap: seq<Command>, n: int, k: nat): seq<Command>
  {
    if k == 0 then [] else Train(body, gap, n, k - 1) + body + (if k - 1 < n - 1 then gap else [])
  }

  /** How many gaps the first k pulses of a train of n are followed by. */
  function Gaps(n: int, k: nat): nat
  {
    if k < n then k else Max0(n - 1)
  }

  /** SRDP pulse: read, output off/on, write. */
  function SrdpBody(c: SrdpConfig): seq<Command>
  {
    Pulse(ChanA, c.vRead, c.pulseWidth) + Toggle(ChanA, c.offTime) + Pulse(ChanA, c.vWrite, c.pulseWidth)
  }

  /** Between SRDP pulses: output off/on, then wait the space time. */
  function SrdpGap(c: SrdpConfig, space: real): seq<Command>
  {
    Toggle(ChanA, c.offTime) + [Sleep(space)]
  }

  /** LTM pulse: write, then output off/on. */
  function LtmBody(c: SrdpConfig): seq<Command>
  {
    Pulse(ChanA, c.vWrite, c.pulseWidth) + Toggle(ChanA, c.offTime)
  }

  /** Between LTM pulses: wait the space time. */
  function LtmGap(space: real): seq<Command>
  {
    [Sleep(space)]
  }

  /** The full train for one space value. */
  function SpaceTrain(c: SrdpConfig, space: real, ltm: bool): seq<Command>
  {
    if ltm then Train(LtmBody(c), LtmGap(space), c.ltmPulseCount, Max0(c.ltmPulseCount))
    else Train(SrdpBody(c), SrdpGap(c, space), c.pulseNum, Max0(c.pulseNum))
  }

  /** One train per space value, in order. */
  function Sweep(c: SrdpConfig, spaces: seq<real>, ltm: bool): seq<Command>
  {
    if spaces == [] then []
    else Sweep(c, spaces[..|spaces| - 1], ltm) + SpaceTrain(c, spaces[|spaces| - 1], ltm)
  }

  /** Output on, the sweep, output off. */
  function RunLog(c: SrdpConfig, spaces: seq<real>, ltm: bool): seq<Command>
  {
    [SetOutput(ChanA, true)] + Sweep(c, spaces, ltm) + [SetOutput(ChanA, false)]
  }

  lemma SrdpBodyEffect(c: SrdpConfig)
    ensures Replay(SrdpBody(c), {ChanA}) == Effect({ChanA}, true, 2, c.pulseWidth + c.offTime + c.pulseWidth)
  {
    PulseEffect(ChanA, c.vRead, c.pulseWidth, {ChanA});
    ToggleEffect(ChanA, c.offTime, {ChanA});
    PulseEffect(ChanA, c.vWrite, c.pulseWidth, {ChanA});
    assert {ChanA} + {ChanA} == {ChanA};
    ReplayConcat3(Pulse(ChanA, c.vRead, c.pulseWidth), Toggle(ChanA, c.offTime), Pulse(ChanA, c.vWrite, c.pulseWidth), {ChanA});
  }

  lemma SrdpGapEffect(c: SrdpConfig, space: real)
    ensures Replay(SrdpGap(c, space), {ChanA}) == Effect({ChanA}, true, 0, c.offTime + space)
  {
    ToggleEffect(ChanA, c.offTime, {ChanA});
    assert {ChanA} + {ChanA} == {ChanA};
    SingleEffect(Sleep(space), {ChanA});
    ReplayAppend(Toggle(ChanA, c.offTime), [Sleep(space)], {ChanA});
  }

  lemma LtmBodyEffect(c: SrdpConfig)
    ensures Replay(LtmBody(c), {ChanA}) == Effect({ChanA}, true, 1, c.pulseWidth + c.offTime)
  {
    PulseEffect(ChanA, c.vWrite, c.pulseWidth, {ChanA});
    ToggleEffect(ChanA, c.offTime, {ChanA});
    assert {ChanA} + {ChanA} == {ChanA};
    ReplayAppend(Pulse(ChanA, c.vWrite, c.pulseWidth), Toggle(ChanA, c.offTime), {ChanA});
  }

  /** A train of bodies that each take mb measurements and sleep sb, with
      gaps that sleep sg, measures k*mb times and sleeps sb per pulse plus
      sg per gap; there is one gap fewer than pulses in a full train. */
  lemma {:induction false} TrainEffect(body: seq<Command>, gap: seq<Command>, n: int, k: nat, mb: nat, sb: real, sg: real)
    requires k <= Max0(n)
    requires Replay(body, {ChanA}) == Effect({ChanA}, true, mb, sb)
    requires Replay(gap, {ChanA}) == Effect({ChanA}, true, 0, sg)
    ensures Replay(Train(body, gap, n, k), {ChanA}) ==
            Effect({ChanA}, true, k * mb, Times(k, sb) + Times(Gaps(n, k), sg))
  {
    if k > 0 {
      var prev := Train(body, gap, n, k - 1);
      var tail := if k - 1 < n - 1 then gap else [];
      var g := if k < n then sg else 0.0;
      var ep := Replay(prev, {ChanA});
      assert ep == Effect({ChanA}, true, (k - 1) * mb, Times(k - 1, sb) + Times(Gaps(n, k - 1), sg)) by {
        TrainEffect(body, gap, n, k - 1, mb, sb, sg);
      }
      var et := Replay(tail, {ChanA});
      assert et == Effect({ChanA}, true, 0, g);
      var e := Replay(Train(body, gap, n, k), {ChanA});
      assert e == Then(Then(ep, Replay(body, {ChanA})), et) by {
        assert Train(body, gap, n, k) == prev + body + tail;
        ReplayConcat3(prev, body, tail, {ChanA});
      }
      assert e.measures == k * mb by {
        MulSucc(k - 1, mb);
      }
      assert e.slept == Times(k, sb) + Times(Gaps(n, k), sg) by {
        GapsStep(n, k);
        assert Times(k, sb) == Times(k - 1, sb) + sb;
      }
    }
  }

  lemma GapsStep(n: int, k: nat)
    requires 0 < k <= Max0(n)
    ensures Gaps(n, k) == Gaps(n, k - 1) + (if k < n then 1 else 0)
  {
  }

  /** A full train ends with the last pulse's body: no gap, and so no
      off/on toggle or space sleep, follows the last pulse. */
  lemma TrainEndsWithBody(body: seq<Command>, gap: seq<Command>, n: int)
    requires n > 0
    ensures var t := Train(body, gap, n, n);
            |t| >= |body| && t[|t| - |body|..] == body
  {
    var t := Train(body, gap, n, n);
    assert t == Train(body, gap, n, n - 1) + body + [];
  }

  /** The time one space value's train sleeps. */
  function SpaceSlept(c: SrdpConfig, space: real, ltm: bool): real
  {
    if ltm then Times(Max0(c.ltmPulseCount), c.pulseWidth + c.offTime) + Times(Max0(c.ltmPulseCount - 1), space)
    else Times(Max0(c.pulseNum), c.pulseWidth + c.offTime + c.pulseWidth) + Times(Max0(c.pulseNum - 1), c.offTime + space)
  }

  function SweepSlept(c: SrdpConfig, spaces: seq<real>, ltm: bool): real
  {
    if spaces == [] then 0.0 else SweepSlept(c, spaces[..|spaces| - 1], ltm) + SpaceSlept(c, spaces[|spaces| - 1], ltm)
  }

  /** Measurements per pulse: a read and a write, or one LTM write. */
  function PerPulse(ltm: bool): nat { if ltm then 1 else 2 }

  function PulseCount(c: SrdpConfig, ltm: bool): nat
  {
    if ltm then Max0(c.ltmPulseCount) else Max0(c.pulseNum)
  }

  lemma SpaceTrainEffect(c: SrdpConfig, space: real, ltm: bool)
    ensures Replay(SpaceTrain(c, space, ltm), {ChanA}) ==
            Effect({ChanA}, true, PerPulse(ltm) * PulseCount(c, ltm), SpaceSlept(c, space, ltm))
  {
    if ltm {
      LtmBodyEffect(c);
      SingleEffect(Sleep(space), {ChanA});
      TrainEffect(LtmBody(c), LtmGap(space), c.ltmPulseCount, Max0(c.ltmPulseCount), 1, c.pulseWidth + c.offTime, space);
    } else {
      SrdpBodyEffect(c);
      SrdpGapEffect(c, space);
      TrainEffect(SrdpBody(c), SrdpGap(c, space), c.pulseNum, Max0(c.pulseNum), 2,
                  c.pulseWidth + c.offTime + c.pulseWidth, c.offTime + space);
    }
  }

  lemma {:induction false} SweepEffect(c: SrdpConfig, spaces: seq<real>, ltm: bool)
    ensures Replay(Sweep(c, spaces, ltm), {ChanA}) ==
            Effect({ChanA}, true, PerPulse(ltm) * PulseCount(c, ltm) * |spaces|, SweepSlept(c, spaces, ltm))
  {
    if spaces != [] {
      var init, last := spaces[..|spaces| - 1], spaces[|spaces| - 1];
      var w := PerPulse(ltm) * PulseCount(c, ltm);
      var ei := Replay(Sweep(c, init, ltm), {ChanA});
      assert ei == Effect({ChanA}, true, w * |init|, SweepSlept(c, init, ltm)) by {
        SweepEffect(c, init, ltm);
      }
      assert Replay(SpaceTrain(c, last, ltm), {ChanA}) == Effect({ChanA}, true, w, SpaceSlept(c, last, ltm)) by {
        SpaceTrainEffect(c, last, ltm);
      }
      assert Replay(Sweep(c, spaces, ltm), {ChanA}) == Then(ei, Replay(SpaceTrain(c, last, ltm), {ChanA})) by {
        ReplayAppend(Sweep(c, init, ltm), SpaceTrain(c, last, ltm), {ChanA});
      }
      assert w * |init| + w == w * |spaces| by {
        MulSucc(|init|, w);
        assert |spaces| == |init| + 1;
      }
    }
  }

  /** Both runs measure only while the output is on, take one measurement
      per recorded row, sleep exactly the pulse, off and space times
      (the space time once fewer than pulses per space value) and leave the
      output off. */
  lemma RunLogEffect(c: SrdpConfig, spaces: seq<real>, ltm: bool)
    ensures Replay(RunLog(c, spaces, ltm), {}) ==
            Effect({}, true, PerPulse(ltm) * PulseCount(c, ltm) * |spaces|, SweepSlept(c, spaces, ltm))
  {
    SingleEffect(SetOutput(ChanA, true), {});
    assert {} + {ChanA} == {ChanA};
    SweepEffect(c, spaces, ltm);
    SingleEffect(SetOutput(ChanA, false), {ChanA});
    assert {ChanA} - {ChanA} == {};
    ReplayConcat3([SetOutput(ChanA, true)], Sweep(c, spaces, ltm), [SetOutput(ChanA, false)], {});
  }

  // ---------------------------------------------------------------------
  // Read filter and conductance

  /** The rows whose voltage is close to V_read, in their original order:
      a row of the data is kept exactly when it is close. */
  function ReadSamples(vRead: real, data: seq<Stamped<SrdpSample>>): (rows: seq<Stamped<SrdpSample>>)
    ensures |rows| <= |data|
    ensures forall r :: r in rows ==> r in data
    ensures forall r :: r in data ==> (r in rows <==> IsClose(r.value.voltage, vRead, Atol))
  {
    var keep := (r: Stamped<SrdpSample>) => IsClose(r.value.voltage, vRead, Atol);
    var rows := Filter(data, keep);
    assert forall r :: r in data && keep(r) ==> r in rows by {
      forall r | r in data && keep(r)
        ensures r in rows
      {
        FilterComplete(data, keep, r);
      }
    }
    rows
  }

  /** The four result columns of the read rows. */
  datatype Columns = Columns(time: seq<real>, voltage: seq<real>, current: seq<real>, conductance: seq<Option<real>>)

  /** current / V_read; there is no finite conductance for V_read = 0. */
  function Conductance(current: real, vRead: real): (g: Option<real>)
    ensures g.Some? <==> vRead != 0.0
    ensures g.Some? ==> g.value * vRead == current
  {
    if vRead == 0.0 then None else Some(current / vRead)
  }

  function TimeColumn(rows: seq<Stamped<SrdpSample>>): seq<real>
  {
    seq(|rows|, k requires 0 <= k < |rows| => rows[k].time)
  }

  function VoltageColumn(rows: seq<Stamped<SrdpSample>>): seq<real>
  {
    seq(|rows|, k requires 0 <= k < |rows| => rows[k].value.voltage)
  }

  function CurrentColumn(rows: seq<Stamped<SrdpSample>>): seq<real>
  {
    seq(|rows|, k requires 0 <= k < |rows| => rows[k].value.current)
  }

  function ConductanceColumn(rows: seq<Stamped<SrdpSample>>, vRead: real): seq<Option<real>>
  {
    seq(|rows|, k requires 0 <= k < |rows| => Conductance(rows[k].value.current, vRead))
  }

  /** The read filter keeps the rows in order (filtering a concatenation
      filters each part), and the conductance column has one entry per kept
      row with conductance * V_read = current. */
  lemma ReadFilterExact(vRead: real, data: seq<Stamped<SrdpSample>>, more: seq<Stamped<SrdpSample>>)
    ensures ReadSamples(vRead, data + more) == ReadSamples(vRead, data) + ReadSamples(vRead, more)
    ensures var rows := ReadSamples(vRead, data);
            var g := ConductanceColumn(rows, vRead);
            |g| == |CurrentColumn(rows)| == |TimeColumn(rows)| == |VoltageColumn(rows)| &&
            forall k :: 0 <= k < |g| ==>
              (g[k].Some? <==> vRead != 0.0) &&
              (g[k].Some? ==> g[k].value * vRead == CurrentColumn(rows)[k])
  {
    var keep := (r: Stamped<SrdpSample>) => IsClose(r.value.voltage, vRead, Atol);
    FilterAppend(data, more, keep);
  }

  // ---------------------------------------------------------------------
  // LTM space list

  /** One piece as parsed: float(piece.strip()). */
  function ParsePiece(piece: string, parse: string -> Option<real>): Option<real>
  {
    parse(Strip(piece))
  }

  /** Every piece parsed in turn; None as soon as one piece does not parse. */
  function ParseAll(pieces: seq<string>, f: string -> Option<real>): (r: Option<seq<real>>)
    ensures r.Some? ==> |r.value| == |pieces|
  {
    if pieces == [] then Some([])
    else
      match f(pieces[0])
      case None => None
      case Some(x) =>
        match ParseAll(pieces[1..], f)
        case None => None
        case Some(xs) => Some([x] + xs)
  }

  /** When ParseAll succeeds it holds the parsed value of every piece, in
      order. */
  lemma {:induction false} ParseAllValues(pieces: seq<string>, f: string -> Option<real>)
    requires ParseAll(pieces, f).Some?
    ensures forall k :: 0 <= k < |pieces| ==> f(pieces[k]) == Some(ParseAll(pieces, f).value[k])
  {
    if pieces != [] {
      ParseAllValues(pieces[1..], f);
      forall k | 0 <= k < |pieces|
        ensures f(pieces[k]) == Some(ParseAll(pieces, f).value[k])
      {
        if k > 0 {
          assert pieces[k] == pieces[1..][k - 1];
        }
      }
    }
  }

  /** ParseAll fails exactly when some piece does not parse. */
  lemma {:induction false} ParseAllFails(pieces: seq<string>, f: string -> Option<real>)
    ensures ParseAll(pieces, f).None? <==> exists k :: 0 <= k < |pieces| && f(pieces[k]).None?
  {
    if pieces != [] {
      ParseAllFails(pieces[1..], f);
      if f(pieces[0]).Some? {
        if ParseAll(pieces[1..], f).None? {
          var k :| 0 <= k < |pieces| - 1 && f(pieces[1..][k]).None?;
          assert f(pieces[k + 1]).None?;
        } else {
          forall k | 0 <= k < |pieces|
            ensures f(pieces[k]).Some?
          {
            if k > 0 {
              assert pieces[k] == pieces[1..][k - 1];
            }
          }
        }
      }
    }
  }

  /** The space list for the LTM test from the answer typed by the user:
      comma-separated numbers, or [1.0] when the answer is blank or any
      piece fails to parse. */
  function LtmSpaceValues(answer: string, parse: string -> Option<real>): (r: seq<real>)
    ensures |r| >= 1
  {
    var s := Strip(answer);
    if s == [] then [1.0]
    else
      match ParseAll(Split(s, ','), p => ParsePiece(p, parse))
      case Some(vs) => vs
      case None => [1.0]
  }

  /** The answer's pieces are used exactly when the stripped answer is
      non-empty and every piece parses; otherwise the list is [1.0]. */
  lemma LtmSpaceFallback(answer: string, parse: string -> Option<real>)
    ensures var s := Strip(answer);
            var pieces := Split(s, ',');
            var r := LtmSpaceValues(answer, parse);
            (s == [] || (exists k :: 0 <= k < |pieces| && ParsePiece(pieces[k], parse).None?) ==> r == [1.0]) &&
            (s != [] && (forall k :: 0 <= k < |pieces| ==> ParsePiece(pieces[k], parse).Some?) ==>
               |r| == |pieces| && forall k :: 0 <= k < |pieces| ==> Some(r[k]) == ParsePiece(pieces[k], parse))
  {
    var s := Strip(answer);
    var pieces := Split(s, ',');
    var f := p => ParsePiece(p, parse);
    ParseAllFails(pieces, f);
    if ParseAll(pieces, f).Some? {
      ParseAllValues(pieces, f);
    }
  }

  /** Since float("") fails, an answer with a trailing comma falls back to [1.0]. */
  lemma TrailingCommaFallsBack(answer: string, parse: string -> Option<real>)
    requires parse([]).None?
    requires Strip(answer) != [] && Strip(answer)[|Strip(answer)| - 1] == ','
    ensures LtmSpaceValues(answer, parse) == [1.0]
  {
    var s := Strip(answer);
    SplitEndsEmpty(s, ',');
    var pieces := Split(s, ',');
    assert Strip(pieces[|pieces| - 1]) == [];
    assert ParsePiece(pieces[|pieces| - 1], parse).None?;
    ParseAllFails(pieces, p => ParsePiece(p, parse));
  }

  /** The inner loop of run_srdp_test for the space value at index idx:
      pulse_num read/write pairs, which are rows 2*idx*n .. 2*idx*n + 2n - 1
      of the run. */
  method SrdpPulses(c: SrdpConfig, idx: nat, spaceVal: real, port: Port)
    returns (rows: seq<Stamped<SrdpSample>>, cmds: seq<Command>)
    ensures var n := Max0(c.pulseNum);
            |rows| == 2 * n &&
            forall q :: 0 <= q < |rows| ==> rows[q] == Row(port, 2 * (idx * n) + q, SrdpLabel(n, 2 * (idx * n) + q))
    ensures cmds == SpaceTrain(c, spaceVal, false)
  {
    var n := Max0(c.pulseNum);
    var base := 2 * (idx * n);
    rows, cmds := [], [];
    for p := 0 to n
      invariant |rows| == 2 * p
      invariant forall q :: 0 <= q < |rows| ==> rows[q] == Row(port, base + q, SrdpLabel(n, base + q))
      invariant cmds == Train(SrdpBody(c), SrdpGap(c, spaceVal), c.pulseNum, p)
    {
      var j := base + |rows|;
      assert j == 2 * (idx * n + p);
      SlotLabels(n, idx, p);
      ghost var cmds0 := cmds;

      cmds := cmds + Pulse(ChanA, c.vRead, c.pulseWidth);
      var rRead := port(j);
      rows := rows + [Stamped(rRead.time, SrdpSample(rRead.voltage, rRead.current, Read(idx + 1, p + 1)))];

      cmds := cmds + Toggle(ChanA, c.offTime);

      cmds := cmds + Pulse(ChanA, c.vWrite, c.pulseWidth);
      var rWrite := port(j + 1);
      rows := rows + [Stamped(rWrite.time, SrdpSample(rWrite.voltage, rWrite.current, Write(idx + 1, p + 1)))];
      assert cmds == cmds0 + SrdpBody(c) by {
        ConcatAssoc(cmds0, Pulse(ChanA, c.vRead, c.pulseWidth), Toggle(ChanA, c.offTime), Pulse(ChanA, c.vWrite, c.pulseWidth));
      }

      if p < c.pulseNum - 1 {
        cmds := cmds + Toggle(ChanA, c.offTime) + [Sleep(spaceVal)];
      }
    }
  }

  /** The inner loop of run_ltm_test for the space value at index idx:
      ltm_pulse_count writes, which are rows idx*n .. idx*n + n - 1 of the
      run. */
  method LtmPulses(c: SrdpConfig, idx: nat, spaceVal: real, port: Port)
    returns (rows: seq<Stamped<SrdpSample>>, cmds: seq<Command>)
    ensures var n := Max0(c.ltmPulseCount);
            |rows| == n &&
            forall q :: 0 <= q < |rows| ==> rows[q] == Row(port, idx * n + q, LtmLabel(n, idx * n + q))
    ensures cmds == SpaceTrain(c, spaceVal, true)
  {
    var n := Max0(c.ltmPulseCount);
    var base := idx * n;
    rows, cmds := [], [];
    for p := 0 to n
      invariant |rows| == p
      invariant forall q :: 0 <= q < |rows| ==> rows[q] == Row(port, base + q, LtmLabel(n, base + q))
      invariant cmds == Train(LtmBody(c), LtmGap(spaceVal), c.ltmPulseCount, p)
    {
      var j := base + p;
      SlotLabels(n, idx, p);

      cmds := cmds + Pulse(ChanA, c.vWrite, c.pulseWidth);
      var r := port(j);
      rows := rows + [Stamped(r.time, SrdpSample(r.voltage, r.current, LtmWrite(idx + 1, p + 1)))];

      cmds := cmds + Toggle(ChanA, c.offTime);

      if p < c.ltmPulseCount - 1 {
        cmds := cmds + [Sleep(spaceVal)];
      }
    }
  }

  // ---------------------------------------------------------------------
  // The tester

  class SrdpTester {
    var offTime: real
    var pulseWidth: real
    var pulseNum: int
    var vRead: real
    var vWrite: real
    var ltmPulseCount: int
    var spaceArrays: seq<seq<real>>

    var timeValues: seq<real>
    var voltageValues: seq<real>
    var currentValues: seq<real>
    var conductanceValues: seq<Option<real>>

    /** The default settings. */
    constructor ()
      ensures offTime == 0.0001 && pulseWidth == 0.2 && pulseNum == 10
      ensures vRead == 0.1 && vWrite == 1.0 && ltmPulseCount == 50
      ensures spaceArrays == [[20.0, 2.0, 0.2, 2.0], [20.0, 5.0, 0.2, 5.0], [20.0, 1.0, 0.2, 1.0], [20.0, 2.0, 0.1, 2.0]]
      ensures timeValues == [] && voltageValues == [] && currentValues == [] && conductanceValues == []
    {
      offTime, pulseWidth, pulseNum := 0.0001, 0.2, 10;
      vRead, vWrite, ltmPulseCount := 0.1, 1.0, 50;
      spaceArrays := [[20.0, 2.0, 0.2, 2.0], [20.0, 5.0, 0.2, 5.0], [20.0, 1.0, 0.2, 1.0], [20.0, 2.0, 0.1, 2.0]];
      timeValues, voltageValues, currentValues, conductanceValues := [], [], [], [];
    }

    function Config(): SrdpConfig
      reads this
    {
      SrdpConfig(offTime, pulseWidth, pulseNum, vRead, vWrite, ltmPulseCount)
    }

    /** run_srdp_test: for each space value and each of pulse_num pulses, a
        read row then a write row; the rows are then normalised. */
    method RunSrdpTest(spaceArray: seq<real>, port: Port) returns (data: seq<Stamped<SrdpSample>>, log: seq<Command>)
      ensures data == Normalized(SrdpRows(Max0(pulseNum), |spaceArray|, port))
      ensures log == RunLog(Config(), spaceArray, false)
      ensures |data| == 2 * Max0(pulseNum) * |spaceArray|
      ensures forall j :: 0 <= j < |data| ==> data[j].value.tag == SrdpLabel(Max0(pulseNum), j)
      ensures data != [] ==> data[0].time == 0.0
    {
      var c := Config();
      var n := Max0(c.pulseNum);
      log := [SetOutput(ChanA, true)];
      var raw: seq<Stamped<SrdpSample>> := [];
      for idx := 0 to |spaceArray|
        invariant |raw| == 2 * (idx * n)
        invariant SrdpPrefix(raw, n, port)
        invariant log == [SetOutput(ChanA, true)] + Sweep(c, spaceArray[..idx], false)
      {
        var rows, cmds := SrdpPulses(c, idx, spaceArray[idx], port);
        SrdpPrefixExtend(raw, rows, n, port);
        raw := raw + rows;
        log := log + cmds;
        assert spaceArray[..idx + 1][..idx] == spaceArray[..idx];
        assert (idx + 1) * n == idx * n + n;
      }
      log := log + [SetOutput(ChanA, false)];
      assert spaceArray[..|spaceArray|] == spaceArray;
      SrdpPrefixFull(raw, n, |spaceArray|, port);
      data := Normalize(raw);
    }

    /** run_ltm_test: for each space value, ltm_pulse_count write rows;
        the rows are then normalised. */
    method RunLtmTest(spaceValues: seq<real>, port: Port) returns (data: seq<Stamped<SrdpSample>>, log: seq<Command>)
      ensures data == Normalized(LtmRows(Max0(ltmPulseCount), |spaceValues|, port))
      ensures log == RunLog(Config(), spaceValues, true)
      ensures |data| == Max0(ltmPulseCount) * |spaceValues|
      ensures forall j :: 0 <= j < |data| ==> data[j].value.tag == LtmLabel(Max0(ltmPulseCount), j)
      ensures data != [] ==> data[0].time == 0.0
    {
      var c := Config();
      var n := Max0(c.ltmPulseCount);
      log := [SetOutput(ChanA, true)];
      var raw: seq<Stamped<SrdpSample>> := [];
      for idx := 0 to |spaceValues|
        invariant |raw| == idx * n
        invariant LtmPrefix(raw, n, port)
        invariant log == [SetOutput(ChanA, true)] + Sweep(c, spaceValues[..idx], true)
      {
        var rows, cmds := LtmPulses(c, idx, spaceValues[idx], port);
        LtmPrefixExtend(raw, rows, n, port);
        raw := raw + rows;
        log := log + cmds;
        assert spaceValues[..idx + 1][..idx] == spaceValues[..idx];
        assert (idx + 1) * n == idx * n + n;
      }
      log := log + [SetOutput(ChanA, false)];
      assert spaceValues[..|spaceValues|] == spaceValues;
      LtmPrefixFull(raw, n, |spaceValues|, port);
      data := Normalize(raw);
    }

    /** process_measurement_data: keep the read rows and store their time,
        voltage, current and conductance columns in the tester. An empty
        table has no columns for pandas to name, so the call fails (None)
        and the tester is left as it was. */
    method ProcessMeasurementData(data: seq<Stamped<SrdpSample>>) returns (r: Option<Columns>)
      modifies this
      ensures r.None? <==> data == []
      ensures data == [] ==> unchanged(this)
      ensures Config() == old(Config()) && spaceArrays == old(spaceArrays)
      ensures data != [] ==>
                var rows := ReadSamples(vRead, data);
                timeValues == TimeColumn(rows) && voltageValues == VoltageColumn(rows) &&
                currentValues == CurrentColumn(rows) && conductanceValues == ConductanceColumn(rows, vRead)
      ensures r.Some? ==> r.value == Columns(timeValues, voltageValues, currentValues, conductanceValues)
    {
      if data == [] {
        r := None;
        return;
      }
      var readData := ReadSamples(vRead, data);
      timeValues := TimeColumn(readData);
      voltageValues := VoltageColumn(readData);
      currentValues := CurrentColumn(readData);
      conductanceValues := ConductanceColumn(readData, vRead);
      r := Some(Columns(timeValues, voltageValues, currentValues, conductanceValues));
    }
  }
}
