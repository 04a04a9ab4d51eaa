/** take_data_point's averaging (data_file.py lines 43-58, data_files.py
    lines 197-212): `ave` rounds, each reading time, voltage, temperature and
    counts in that order into four arrays, then the four means. */
module Averaging {
  import opened Outcomes
  import opened Text
  import opened Gpib
  import FakeDevices
  import LakeShore

  /** What one round reads: the clock, the voltage supply's reply text, what
      read_temperature returned, and the photon counter's reply text. */
  datatype Reading = Reading(time: real, voltage: string, temperature: Result<real>, counts: string)

  /** One round against the instruments: the clock, then the voltage
      supply's "V?" query, the temperature controller's default temperature
      read, and the photon counter's "C?" query; `client` is what each
      device call answers. */
  function RoundReading(clock: real, client: ClientCall -> string): (rd: Reading)
    ensures rd.time == clock
    ensures rd.voltage == client(FakeDevices.ReadVoltage("").0)
    ensures rd.temperature == LakeShore.ReadTemperature("A", "K", (op: Op) => client(ClientCall("LS", op)))
    ensures rd.counts == client(FakeDevices.ReadCounts("").0)
  {
    Reading(clock, client(FakeDevices.ReadVoltage("").0),
            LakeShore.ReadTemperature("A", "K", (op: Op) => client(ClientCall("LS", op))),
            client(FakeDevices.ReadCounts("").0))
  }

  /** One round's values once stored into the numeric arrays. */
  datatype Sample = Sample(time: real, voltage: real, temperature: real, counts: real)

  /** One round, failing at the first of its four stores that fails; storing
      a reply text into a numpy float array converts it with float(). */
  function RoundSample(rd: Reading): (r: Result<Sample>)
    ensures LakeShore.DecodeFloat(rd.voltage).Fault? ==> r == Fault(ValueError)
    ensures LakeShore.DecodeFloat(rd.voltage).Ok? && rd.temperature.Fault? ==> r == Fault(rd.temperature.error)
    ensures r.Ok? <==> LakeShore.DecodeFloat(rd.voltage).Ok? && rd.temperature.Ok? && LakeShore.DecodeFloat(rd.counts).Ok?
    ensures r.Ok? ==> r.value == Sample(rd.time, LakeShore.DecodeFloat(rd.voltage).value, rd.temperature.value, LakeShore.DecodeFloat(rd.counts).value)
  {
    var v :- LakeShore.DecodeFloat(rd.voltage);
    var t :- rd.temperature;
    var c :- LakeShore.DecodeFloat(rd.counts);
    Ok(Sample(rd.time, v, t, c))
  }

  /** Rounds 0 .. n-1 in order, where `round(i)` is what round i stores;
      the first round that fails decides. */
  function Rounds(n: nat, round: nat -> Result<Sample>): (r: Result<seq<Sample>>)
    ensures r.Ok? ==> |r.value| == n
    ensures r.Ok? <==> forall i :: 0 <= i < n ==> round(i).Ok?
    ensures r.Ok? ==> forall i :: 0 <= i < n ==> r.value[i] == round(i).value
  {
    if n == 0 then Ok([])
    else
      var front :- Rounds(n - 1, round);
      var last :- round(n - 1);
      Ok(front + [last])
  }

  /** What each round of a sequence of readings stores. */
  function Stores(reading: nat -> Reading): (round: nat -> Result<Sample>)
    ensures forall i :: round(i) == RoundSample(reading(i))
  {
    (i: nat) => RoundSample(reading(i))
  }

  /** The rounds against the instruments: round i at clock time `clock(i)`
      with the device answers `client(i)`. */
  function InstrumentRounds(clock: nat -> real, client: nat -> (ClientCall -> string)): (round: nat -> Result<Sample>)
    ensures forall i :: round(i) == RoundSample(RoundReading(clock(i), client(i)))
  {
    Stores((i: nat) => RoundReading(clock(i), client(i)))
  }

  /** Once a round has failed, no later count of rounds succeeds, and the
      error is that of the first failing round. */
  lemma {:induction false} RoundsFaultStays(m: nat, n: nat, round: nat -> Result<Sample>)
    requires m <= n && Rounds(m, round).Fault?
    ensures Rounds(n, round) == Rounds(m, round)
    decreases n - m
  {
    if m < n {
      RoundsFaultStays(m, n - 1, round);
    }
  }

  function Values(s: Sample): (v: seq<real>)
    ensures |v| == 4
  {
    [s.time, s.voltage, s.temperature, s.counts]
  }

  /** The k-th array (0 time, 1 voltage, 2 temperature, 3 counts). */
  function Column(rows: seq<Sample>, k: nat): (c: seq<real>)
    requires k < 4
    ensures |c| == |rows|
    ensures forall i :: 0 <= i < |rows| ==> c[i] == Values(rows[i])[k]
  {
    seq(|rows|, i requires 0 <= i < |rows| => Values(rows[i])[k])
  }

  /** sum() of an array, added from the front. */
  function Sum(xs: seq<real>): real {
    if xs == [] then 0.0 else xs[0] + Sum(xs[1..])
  }

  /** sum(xs) / n */
  function Mean(xs: seq<real>, n: nat): real
    requires n > 0
  {
    Sum(xs) / n as real
  }

  /** The data point: each column's sum divided by the round count. */
  function Means(rows: seq<Sample>, n: nat): (point: seq<real>)
    requires n > 0
    ensures |point| == 4
    ensures forall k :: 0 <= k < 4 ==> point[k] == Mean(Column(rows, k), n)
  {
    seq(4, k requires 0 <= k < 4 => Mean(Column(rows, k), n))
  }

  /** What take_data_point returns: np.zeros raises ValueError for a negative
      count; a failing round raises; with no rounds, sum() is the integer 0 and
      dividing it by 0 raises ZeroDivisionError. */
  function Averaged(ave: int, round: nat -> Result<Sample>): (r: Result<seq<real>>)
    ensures ave < 0 ==> r == Fault(ValueError)
    ensures ave == 0 ==> r == Fault(ZeroDivisionError)
    ensures ave > 0 && Rounds(ave, round).Fault? ==> r == Fault(Rounds(ave, round).error)
    ensures r.Ok? ==> ave > 0 && Rounds(ave, round).Ok? && r.value == Means(Rounds(ave, round).value, ave)
  {
    if ave < 0 then Fault(ValueError)
    else
      var rows :- Rounds(ave, round);
      if ave == 0 then Fault(ZeroDivisionError)
      else Ok(Means(rows, ave))
  }

  lemma AveragedAfterFault(ii: nat, ave: int, round: nat -> Result<Sample>)
    requires ii < ave && round(ii).Fault?
    requires forall j :: 0 <= j < ii ==> round(j).Ok?
    ensures Averaged(ave, round) == Fault(round(ii).error)
  {
    assert Rounds(ii, round).Ok?;
    RoundsFaultStays(ii + 1, ave, round);
  }

  lemma ColumnOfRounds(ave: nat, round: nat -> Result<Sample>, k: nat, col: seq<real>)
    requires k < 4 && |col| == ave
    requires forall j :: 0 <= j < ave ==> round(j).Ok? && col[j] == Values(round(j).value)[k]
    ensures Rounds(ave, round).Ok? && col == Column(Rounds(ave, round).value, k)
  {
    var rows := Rounds(ave, round).value;
    assert forall j :: 0 <= j < ave ==> rows[j] == round(j).value;
  }

  lemma AveragedOfArrays(ave: int, round: nat -> Result<Sample>,
                         t: seq<real>, v: seq<real>, tk: seq<real>, c: seq<real>)
    requires ave > 0 && |t| == |v| == |tk| == |c| == ave
    requires forall j :: 0 <= j < ave ==> round(j).Ok?
    requires forall j :: 0 <= j < ave ==> t[j] == round(j).value.time && v[j] == round(j).value.voltage
    requires forall j :: 0 <= j < ave ==> tk[j] == round(j).value.temperature && c[j] == round(j).value.counts
    ensures Averaged(ave, round) == Ok([Mean(t, ave), Mean(v, ave), Mean(tk, ave), Mean(c, ave)])
  {
    ColumnOfRounds(ave, round, 0, t);
    ColumnOfRounds(ave, round, 1, v);
    ColumnOfRounds(ave, round, 2, tk);
    ColumnOfRounds(ave, round, 3, c);
    var m := Means(Rounds(ave, round).value, ave);
    assert m == [m[0], m[1], m[2], m[3]];
  }

  /** take_data_point's loop over four arrays, proved to compute `Averaged`. */
  method Average(ave: int, round: nat -> Result<Sample>) returns (r: Result<seq<real>>)
    ensures r == Averaged(ave, round)
  {
    if ave < 0 {
      return Fault(ValueError);
    }
    var times := new real[ave];
    var voltages := new real[ave];
    var temperatures := new real[ave];
    var counts := new real[ave];
    var ii := 0;
    while ii < ave
      invariant 0 <= ii <= ave
      invariant forall j :: 0 <= j < ii ==> round(j).Ok?
      invariant forall j :: 0 <= j < ii ==> times[j] == round(j).value.time && voltages[j] == round(j).value.voltage
      invariant forall j :: 0 <= j < ii ==> temperatures[j] == round(j).value.temperature && counts[j] == round(j).value.counts
    {
      var s := round(ii);
      if s.Fault? {
        AveragedAfterFault(ii, ave, round);
        return Fault(s.error);
      }
      times[ii] := s.value.time;
      voltages[ii] := s.value.voltage;
      temperatures[ii] := s.value.temperature;
      counts[ii] := s.value.counts;
      ii := ii + 1;
    }
    if ave == 0 {
      return Fault(ZeroDivisionError);
    }
    r := Ok([Mean(times[..], ave), Mean(voltages[..], ave), Mean(temperatures[..], ave), Mean(counts[..], ave)]);
    AveragedOfArrays(ave, round, times[..], voltages[..], temperatures[..], counts[..]);
  }

  // ------------------------------------------------------------ properties

  lemma {:induction false} SumConstant(xs: seq<real>, x: real)
    requires forall i :: 0 <= i < |xs| ==> xs[i] == x
    ensures Sum(xs) == |xs| as real * x
    decreases |xs|
  {
    if xs != [] {
      SumConstant(xs[1..], x);
    }
  }

  /** Rounds that all store the same thing average to that one round. */
  lemma ConstantRoundsAverage(ave: int, round: nat -> Result<Sample>)
    requires ave > 0
    requires forall i: nat :: i < ave ==> round(i) == round(0)
    ensures round(0).Fault? ==> Averaged(ave, round) == Fault(round(0).error)
    ensures round(0).Ok? ==> Averaged(ave, round) == Ok(Values(round(0).value))
  {
    var one := round(0);
    if one.Fault? {
      assert Rounds(0, round) == Ok([]);
      assert Rounds(1, round) == Fault(one.error);
      RoundsFaultStays(1, ave, round);
    } else {
      var rows := Rounds(ave, round).value;
      forall k | 0 <= k < 4
        ensures Mean(Column(rows, k), ave) == Values(one.value)[k]
      {
        SumConstant(Column(rows, k), Values(one.value)[k]);
      }
      assert Means(rows, ave) == Values(one.value);
    }
  }

  /** With one round the point is that round's values (data_file.py lines
      46-56 with ave = 1). */
  lemma SingleRound(round: nat -> Result<Sample>)
    ensures round(0).Ok? ==> Averaged(1, round) == Ok(Values(round(0).value))
    ensures round(0).Fault? ==> Averaged(1, round) == Fault(round(0).error)
  {
    ConstantRoundsAverage(1, round);
  }

  lemma {:induction false} SumWithin(xs: seq<real>, lo: real, hi: real)
    requires forall i :: 0 <= i < |xs| ==> lo <= xs[i] <= hi
    ensures |xs| as real * lo <= Sum(xs) <= |xs| as real * hi
    decreases |xs|
  {
    if xs != [] {
      SumWithin(xs[1..], lo, hi);
    }
  }

  /** A mean lies within any bounds that hold for every round of its column. */
  lemma MeanWithin(ave: int, round: nat -> Result<Sample>, k: nat, lo: real, hi: real)
    requires k < 4 && Averaged(ave, round).Ok?
    requires forall i: nat :: i < ave ==> round(i).Ok? && lo <= Values(round(i).value)[k] <= hi
    ensures lo <= Averaged(ave, round).value[k] <= hi
  {
    var rows := Rounds(ave, round).value;
    var col := Column(rows, k);
    forall i | 0 <= i < |col| ensures lo <= col[i] <= hi {
      assert col[i] == Values(round(i).value)[k];
    }
    SumWithin(col, lo, hi);
    QuotientWithin(Sum(col), ave as real, lo, hi);
    assert Averaged(ave, round).value[k] == Mean(col, ave);
  }

  lemma QuotientWithin(s: real, n: real, lo: real, hi: real)
    requires n > 0.0 && n * lo <= s <= n * hi
    ensures lo <= s / n <= hi
  {
    var q := s / n;
    assert q * n == s;
    assert (q - lo) * n >= 0.0;
    assert (hi - q) * n >= 0.0;
  }
}
