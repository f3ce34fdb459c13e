/** The source-measurement unit as the testers see it: a log of the commands
    a run issues, and an oracle that answers each measurement. */
module Instrument {

  /** The two source-measure channels, smua and smub. */
  datatype Channel = ChanA | ChanB

  /** One command sent to the instrument. Sleep stands for time.sleep
      between commands; only its place in the log and its duration matter. */
  datatype Command =
    | SetOutput(ch: Channel, on: bool)
    | SetLevel(ch: Channel, volts: real)
    | Sleep(seconds: real)
    | Measure(ch: Channel)

  /** What the k-th measurement of a run returns: the current, the measured
      voltage, and the elapsed time read right after it. */
  datatype Reading = Reading(current: real, voltage: real, time: real)

  /** The instrument as an oracle: port(k) answers the k-th measurement
      (counting from 0) of a run. */
  type Port = nat -> Reading

  /** Set a level, wait for it to settle, measure: the read/write step. */
  function Pulse(ch: Channel, volts: real, settle: real): seq<Command>
  {
    [SetLevel(ch, volts), Sleep(settle), Measure(ch)]
  }

  /** Output off, wait, output on. */
  function Toggle(ch: Channel, off: real): seq<Command>
  {
    [SetOutput(ch, false), Sleep(off), SetOutput(ch, true)]
  }

  /** What a stretch of log does, replayed from a set of enabled outputs:
      the outputs enabled afterwards, whether every measurement was taken
      on an enabled channel, how many measurements it takes, and how long
      it sleeps in all. */
  datatype Effect = Effect(enabled: set<Channel>, safe: bool, measures: nat, slept: real)

  function After(c: Command, on: set<Channel>): set<Channel>
  {
    match c
    case SetOutput(ch, b) => if b then on + {ch} else on - {ch}
    case _ => on
  }

  /** The log contains no SetOutput command. */
  predicate NoSwitch(log: seq<Command>)
  {
    forall k :: 0 <= k < |log| ==> !log[k].SetOutput?
  }

  /** Only SetOutput commands switch outputs on or off. */
  function Replay(log: seq<Command>, on: set<Channel>): (r: Effect)
    ensures NoSwitch(log) ==> r.enabled == on
    decreases |log|
  {
    if log == [] then Effect(on, true, 0, 0.0)
    else
      var c := log[0];
      var rest := Replay(log[1..], After(c, on));
      Effect(rest.enabled,
             (c.Measure? ==> c.ch in on) && rest.safe,
             (if c.Measure? then 1 else 0) + rest.measures,
             (if c.Sleep? then c.seconds else 0.0) + rest.slept)
  }

  /** Running x and then y. */
  function Then(x: Effect, y: Effect): Effect
  {
    Effect(y.enabled, x.safe && y.safe, x.measures + y.measures, x.slept + y.slept)
  }

  /** Replaying a concatenation replays the first part, then the second part
      from where the first left the outputs. */
  lemma {:induction false} ReplayAppend(a: seq<Command>, b: seq<Command>, on: set<Channel>)
    ensures Replay(a + b, on) == Then(Replay(a, on), Replay(b, Replay(a, on).enabled))
    decreases |a|
  {
    if a == [] {
      assert a + b == b;
    } else {
      assert (a + b)[0] == a[0];
      assert (a + b)[1..] == a[1..] + b;
      ReplayAppend(a[1..], b, After(a[0], on));
    }
  }

  /** Replaying three stretches of log one after the other. */
  lemma ReplayConcat3(a: seq<Command>, b: seq<Command>, c: seq<Command>, on: set<Channel>)
    ensures var ea := Replay(a, on);
            var eb := Replay(b, ea.enabled);
            Replay(a + b + c, on) == Then(Then(ea, eb), Replay(c, eb.enabled))
  {
    ReplayAppend(a, b, on);
    ReplayAppend(a + b, c, on);
  }

  /** A single command. */
  lemma SingleEffect(c: Command, on: set<Channel>)
    ensures Replay([c], on) == Effect(After(c, on), c.Measure? ==> c.ch in on,
                                      if c.Measure? then 1 else 0,
                                      if c.Sleep? then c.seconds else 0.0)
  {
    assert [c][1..] == [];
  }

  /** Three commands in a row. */
  lemma TripleEffect(c0: Command, c1: Command, c2: Command, on: set<Channel>)
    ensures Replay([c0, c1, c2], on) ==
            Then(Replay([c0], on), Then(Replay([c1], After(c0, on)), Replay([c2], After(c1, After(c0, on)))))
  {
    assert [c0, c1, c2] == [c0] + ([c1] + [c2]);
    SingleEffect(c0, on);
    ReplayAppend([c0], [c1] + [c2], on);
    ReplayAppend([c1], [c2], After(c0, on));
  }

  /** A pulse on an enabled channel measures once, sleeps for the settle
      time and leaves the outputs as they were. */
  lemma PulseEffect(ch: Channel, volts: real, settle: real, on: set<Channel>)
    requires ch in on
    ensures Replay(Pulse(ch, volts, settle), on) == Effect(on, true, 1, settle)
  {
    TripleEffect(SetLevel(ch, volts), Sleep(settle), Measure(ch), on);
    SingleEffect(SetLevel(ch, volts), on);
    SingleEffect(Sleep(settle), on);
    SingleEffect(Measure(ch), on);
  }

  /** A toggle leaves the channel enabled and sleeps for the off time. */
  lemma ToggleEffect(ch: Channel, off: real, on: set<Channel>)
    ensures Replay(Toggle(ch, off), on) == Effect(on + {ch}, true, 0, off)
  {
    TripleEffect(SetOutput(ch, false), Sleep(off), SetOutput(ch, true), on);
    SingleEffect(SetOutput(ch, false), on);
    SingleEffect(Sleep(off), on - {ch});
    SingleEffect(SetOutput(ch, true), on - {ch});
    assert on - {ch} + {ch} == on + {ch};
  }
}
