/** The recorded rows of a run and their time-zero normalisation: after a
    run every row's time has the first row's time subtracted. */
module Samples {

  /** A recorded row: its elapsed time and the rest of the row. */
  datatype Stamped<P> = Stamped(time: real, value: P)

  /** Every row's time shifted down by t0. */
  function Shifted<P>(data: seq<Stamped<P>>, t0: real): seq<Stamped<P>>
  {
    seq(|data|, i requires 0 <= i < |data| => data[i].(time := data[i].time - t0))
  }

  /** `if data: t0 = data[0][0]; for row in data: row[0] -= t0`.
      Normalisation keeps every row's contents and its place, makes the first
      time 0 and shifts all times by the same amount, so the gaps between
      rows are unchanged. Empty data stays empty. */
  function Normalized<P>(data: seq<Stamped<P>>): (r: seq<Stamped<P>>)
    ensures |r| == |data|
    ensures data != [] ==> r[0].time == 0.0
    ensures forall i :: 0 <= i < |data| ==>
              r[i].value == data[i].value && r[i].time == data[i].time - data[0].time
  {
    if data == [] then [] else Shifted(data, data[0].time)
  }

  predicate NonDecreasing<P>(data: seq<Stamped<P>>)
  {
    forall i, j :: 0 <= i <= j < |data| ==> data[i].time <= data[j].time
  }

  /** The normalisation loop, shifting each row's time in turn. */
  method Normalize<P>(data: seq<Stamped<P>>) returns (out: seq<Stamped<P>>)
    ensures out == Normalized(data)
  {
    out := data;
    if out != [] {
      var t0 := out[0].time;
      for i := 0 to |out|
        invariant |out| == |data|
        invariant forall k :: 0 <= k < i ==> out[k] == data[k].(time := data[k].time - t0)
        invariant forall k :: i <= k < |out| ==> out[k] == data[k]
      {
        out := out[i := out[i].(time := out[i].time - t0)];
      }
    }
  }

  /** Normalising twice is the same as normalising once. */
  lemma NormalizeIdempotent<P>(data: seq<Stamped<P>>)
    ensures Normalized(Normalized(data)) == Normalized(data)
  {
    var n := Normalized(data);
    if data != [] {
      assert n[0].time == 0.0;
      assert forall i :: 0 <= i < |n| ==> n[i].(time := n[i].time - 0.0) == n[i];
    }
  }

  /** Times read in increasing order stay in order and become non-negative. */
  lemma NormalizeKeepsOrder<P>(data: seq<Stamped<P>>)
    requires NonDecreasing(data)
    ensures NonDecreasing(Normalized(data))
    ensures forall i :: 0 <= i < |data| ==> Normalized(data)[i].time >= 0.0
  {
  }
}
