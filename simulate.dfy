/** The Python synthetic dataset builder: split the requested number of events
    into signal (nuclear recoil) and background (electronic recoil), emit the
    labelled rows signal first, shuffle them and number them by position.
    Random sources are parameters: `expDraw(k)` is the k-th exponential sample
    (scale 5), `unitDraw(k)` the k-th uniform draw in [0,1) behind
    `uniform(2.0, 50.0)`, `sampler(k, m)` the k-th bivariate normal sample with
    moments `m`, and `choice(i)` the index the shuffle draws at step i. */
module Simulate {
  import opened Wrappers
  import opened Seqs

  const NrLabel: string := "Nuclear Recoil"
  const ErLabel: string := "Electronic Recoil"

  /** Python's `int()` on a float: truncation toward zero. */
  function Trunc(x: real): (n: int)
    ensures x >= 0.0 ==> n == x.Floor && n as real <= x < n as real + 1.0
    ensures x < 0.0 ==> x <= n as real <= 0.0 && n as real - 1.0 < x
  {
    if x >= 0.0 then x.Floor else -((-x).Floor)
  }

  /** `n_signal = int(num_events * signal_fraction)`, `n_background = num_events - n_signal`. */
  function SplitCounts(numEvents: int, signalFraction: real): (counts: (int, int))
    ensures counts.0 + counts.1 == numEvents
    ensures numEvents >= 0 && signalFraction >= 0.0 ==>
              counts.0 == (numEvents as real * signalFraction).Floor && counts.0 >= 0
    ensures numEvents >= 0 && 0.0 <= signalFraction <= 1.0 ==> 0 <= counts.0 <= numEvents
  {
    var x := numEvents as real * signalFraction;
    FractionOf(numEvents as real, signalFraction);
    var nSignal := Trunc(x);
    assert 0.0 <= x <= numEvents as real ==> 0 <= nSignal <= numEvents;
    (nSignal, numEvents - nSignal)
  }

  /** The defaults of `generate_dataset`: 500 events, a fifth of them signal. */
  const DefaultNumEvents: int := 500
  const DefaultSignalFraction: real := 0.2

  /** With the defaults, 100 signal and 400 background events are emitted. */
  lemma DefaultSplit()
    ensures SplitCounts(DefaultNumEvents, DefaultSignalFraction) == (100, 400)
  {
    assert DefaultNumEvents as real * DefaultSignalFraction == 100.0;
  }

  /** A fraction in [0, 1] of a non-negative amount lies between 0 and the amount. */
  lemma FractionOf(x: real, fraction: real)
    ensures x >= 0.0 && fraction >= 0.0 ==> x * fraction >= 0.0
    ensures x >= 0.0 && 0.0 <= fraction <= 1.0 ==> x * fraction <= x
  {
    if x >= 0.0 && 0.0 <= fraction <= 1.0 {
      assert x - x * fraction == x * (1.0 - fraction);
    }
  }

  /** The parameters of one correlated sample: the two means, the factor that
      multiplies sqrt(mean) to give each standard deviation, and the correlation. */
  datatype Moments = Moments(meanS1: real, meanS2: real, spread: real, correlation: real)

  /** Nuclear-recoil moments: means 2E and 50E, spread 0.5, correlation -0.6. */
  function NrMoments(energy: real): Moments
  {
    Moments(energy * 2.0, energy * 50.0, 0.5, -0.6)
  }

  /** Electronic-recoil moments: means 1.5E and 200E, spread 0.7, correlation -0.4. */
  function ErMoments(energy: real): Moments
  {
    Moments(energy * 1.5, energy * 200.0, 0.7, -0.4)
  }

  /** `events[events < 0] = 0` on one value. */
  function Clamp(x: real): real
  {
    if x < 0.0 then 0.0 else x
  }

  /** The in-place clamp of `generate_correlated_events`: every negative sample
      becomes 0 and every other sample is kept. */
  method ClampNegatives(a: array<real>)
    modifies a
    ensures forall i :: 0 <= i < a.Length ==> a[i] >= 0.0
    ensures forall i :: 0 <= i < a.Length ==> (old(a[i]) < 0.0 ==> a[i] == 0.0) && (old(a[i]) >= 0.0 ==> a[i] == old(a[i]))
  {
    var i := 0;
    while i < a.Length
      invariant 0 <= i <= a.Length
      invariant forall j :: 0 <= j < i ==> a[j] == Clamp(old(a[j]))
      invariant forall j :: i <= j < a.Length ==> a[j] == old(a[j])
    {
      if a[i] < 0.0 {
        a[i] := 0.0;
      }
      i := i + 1;
    }
  }

  /** `generate_correlated_events(1, ...)`: the k-th sample with moments `m`, clamped. */
  method CorrelatedEvent(k: nat, m: Moments, sampler: (nat, Moments) -> (real, real)) returns (s1: real, s2: real)
    ensures s1 == Clamp(sampler(k, m).0) && s2 == Clamp(sampler(k, m).1)
  {
    var raw := sampler(k, m);
    var events := new real[2];
    events[0], events[1] := raw.0, raw.1;
    ClampNegatives(events);
    s1, s2 := events[0], events[1];
  }

  /** One emitted row, before the frame is shuffled and numbered. */
  datatype Row = Row(trueLabel: string, energy: real, s1: real, s2: real)

  /** A row of the finished frame: its `event_id` and its columns. */
  datatype Record = Record(eventId: nat, row: Row)

  /** The k-th nuclear-recoil row: energy = exponential sample + 2.0. */
  function NrRow(k: nat, expDraw: nat -> real, sampler: (nat, Moments) -> (real, real)): (row: Row)
    ensures row.trueLabel == NrLabel && row.s1 >= 0.0 && row.s2 >= 0.0
    ensures row.energy == expDraw(k) + 2.0 && (expDraw(k) >= 0.0 ==> row.energy >= 2.0)
    ensures row.s1 == Clamp(sampler(k, NrMoments(row.energy)).0)
    ensures row.s2 == Clamp(sampler(k, NrMoments(row.energy)).1)
  {
    var energy := expDraw(k) + 2.0;
    var raw := sampler(k, NrMoments(energy));
    Row(NrLabel, energy, Clamp(raw.0), Clamp(raw.1))
  }

  /** The k-th electronic-recoil row: energy = 2.0 + 48.0 u, drawn after all signal samples. */
  function ErRow(k: nat, nSignal: nat, unitDraw: nat -> real, sampler: (nat, Moments) -> (real, real)): (row: Row)
    ensures row.trueLabel == ErLabel && row.s1 >= 0.0 && row.s2 >= 0.0
    ensures 0.0 <= unitDraw(k) < 1.0 ==> 2.0 <= row.energy < 50.0
    ensures row.s1 == Clamp(sampler(nSignal + k, ErMoments(row.energy)).0)
    ensures row.s2 == Clamp(sampler(nSignal + k, ErMoments(row.energy)).1)
  {
    var energy := 2.0 + (50.0 - 2.0) * unitDraw(k);
    var raw := sampler(nSignal + k, ErMoments(energy));
    Row(ErLabel, energy, Clamp(raw.0), Clamp(raw.1))
  }

  /** The signal row the first loop appends at step k. */
  lemma NrRowOf(k: nat, expDraw: nat -> real, sampler: (nat, Moments) -> (real, real),
                energy: real, s1: real, s2: real)
    requires energy == expDraw(k) + 2.0
    requires s1 == Clamp(sampler(k, NrMoments(energy)).0) && s2 == Clamp(sampler(k, NrMoments(energy)).1)
    ensures NrRow(k, expDraw, sampler) == Row(NrLabel, energy, s1, s2)
  {
  }

  /** The background row the second loop appends at step k. */
  lemma ErRowOf(k: nat, nSignal: nat, unitDraw: nat -> real, sampler: (nat, Moments) -> (real, real),
                energy: real, s1: real, s2: real)
    requires energy == 2.0 + (50.0 - 2.0) * unitDraw(k)
    requires s1 == Clamp(sampler(nSignal + k, ErMoments(energy)).0)
    requires s2 == Clamp(sampler(nSignal + k, ErMoments(energy)).1)
    ensures ErRow(k, nSignal, unitDraw, sampler) == Row(ErLabel, energy, s1, s2)
  {
  }

  function NrRows(n: nat, expDraw: nat -> real, sampler: (nat, Moments) -> (real, real)): seq<Row>
  {
    if n == 0 then [] else NrRows(n - 1, expDraw, sampler) + [NrRow(n - 1, expDraw, sampler)]
  }

  function ErRows(n: nat, nSignal: nat, unitDraw: nat -> real, sampler: (nat, Moments) -> (real, real)): seq<Row>
  {
    if n == 0 then [] else ErRows(n - 1, nSignal, unitDraw, sampler) + [ErRow(n - 1, nSignal, unitDraw, sampler)]
  }

  lemma {:induction false} NrRowsAt(n: nat, expDraw: nat -> real, sampler: (nat, Moments) -> (real, real))
    ensures |NrRows(n, expDraw, sampler)| == n
    ensures forall k :: 0 <= k < n ==> NrRows(n, expDraw, sampler)[k] == NrRow(k, expDraw, sampler)
  {
    if n > 0 { NrRowsAt(n - 1, expDraw, sampler); }
  }

  lemma {:induction false} ErRowsAt(n: nat, nSignal: nat, unitDraw: nat -> real, sampler: (nat, Moments) -> (real, real))
    ensures |ErRows(n, nSignal, unitDraw, sampler)| == n
    ensures forall k :: 0 <= k < n ==> ErRows(n, nSignal, unitDraw, sampler)[k] == ErRow(k, nSignal, unitDraw, sampler)
  {
    if n > 0 { ErRowsAt(n - 1, nSignal, unitDraw, sampler); }
  }

  /** Appending background row k after the rows before it gives the first k + 1 background rows. */
  lemma AppendErRow(nr: seq<Row>, k: nat, nSignal: nat, unitDraw: nat -> real, sampler: (nat, Moments) -> (real, real))
    ensures nr + ErRows(k, nSignal, unitDraw, sampler) + [ErRow(k, nSignal, unitDraw, sampler)]
            == nr + ErRows(k + 1, nSignal, unitDraw, sampler)
  {
    var er := ErRows(k, nSignal, unitDraw, sampler);
    assert (nr + er) + [ErRow(k, nSignal, unitDraw, sampler)] == nr + (er + [ErRow(k, nSignal, unitDraw, sampler)]);
  }

  /** The rows in emission order: all signal rows, then all background rows. */
  function Unshuffled(nSignal: nat, nBackground: nat, expDraw: nat -> real, unitDraw: nat -> real,
                      sampler: (nat, Moments) -> (real, real)): seq<Row>
  {
    NrRows(nSignal, expDraw, sampler) + ErRows(nBackground, nSignal, unitDraw, sampler)
  }

  /** The two emission loops of `generate_dataset`. */
  method BuildRows(nSignal: nat, nBackground: nat, expDraw: nat -> real, unitDraw: nat -> real,
                   sampler: (nat, Moments) -> (real, real)) returns (eventsList: seq<Row>)
    ensures eventsList == Unshuffled(nSignal, nBackground, expDraw, unitDraw, sampler)
  {
    eventsList := [];
    var k := 0;
    while k < nSignal
      invariant k <= nSignal
      invariant eventsList == NrRows(k, expDraw, sampler)
    {
      var energy := expDraw(k) + 2.0;
      var s1, s2 := CorrelatedEvent(k, NrMoments(energy), sampler);
      NrRowOf(k, expDraw, sampler, energy, s1, s2);
      eventsList := eventsList + [Row(NrLabel, energy, s1, s2)];
      k := k + 1;
    }
    k := 0;
    while k < nBackground
      invariant k <= nBackground
      invariant eventsList == NrRows(nSignal, expDraw, sampler) + ErRows(k, nSignal, unitDraw, sampler)
    {
      var energy := 2.0 + (50.0 - 2.0) * unitDraw(k);
      var s1, s2 := CorrelatedEvent(nSignal + k, ErMoments(energy), sampler);
      ErRowOf(k, nSignal, unitDraw, sampler, energy, s1, s2);
      AppendErRow(NrRows(nSignal, expDraw, sampler), k, nSignal, unitDraw, sampler);
      eventsList := eventsList + [Row(ErLabel, energy, s1, s2)];
      k := k + 1;
    }
  }

  predicate IsNr(r: Row) { r.trueLabel == NrLabel }
  predicate IsEr(r: Row) { r.trueLabel == ErLabel }

  /** The emitted rows: n_signal nuclear rows, then n_background electronic rows.
      Every signal value is non-negative and is the clamped sample the sampler draws at
      that event's index with the moments of its energy;
      with exponential samples >= 0 the NR energies are >= 2.0, and with uniform draws
      in [0,1) the ER energies lie in [2.0, 50.0). */
  lemma UnshuffledLayout(nSignal: nat, nBackground: nat, expDraw: nat -> real, unitDraw: nat -> real,
                         sampler: (nat, Moments) -> (real, real))
    ensures var rows := Unshuffled(nSignal, nBackground, expDraw, unitDraw, sampler);
      && |rows| == nSignal + nBackground
      && (forall k :: 0 <= k < |rows| ==> rows[k].s1 >= 0.0 && rows[k].s2 >= 0.0)
      && (forall k :: 0 <= k < nSignal ==>
            rows[k].trueLabel == NrLabel && rows[k].energy == expDraw(k) + 2.0
            && rows[k].s1 == Clamp(sampler(k, NrMoments(rows[k].energy)).0)
            && rows[k].s2 == Clamp(sampler(k, NrMoments(rows[k].energy)).1)
            && (expDraw(k) >= 0.0 ==> rows[k].energy >= 2.0))
      && (forall k :: nSignal <= k < |rows| ==>
            rows[k].trueLabel == ErLabel
            && rows[k].s1 == Clamp(sampler(k, ErMoments(rows[k].energy)).0)
            && rows[k].s2 == Clamp(sampler(k, ErMoments(rows[k].energy)).1)
            && (0.0 <= unitDraw(k - nSignal) < 1.0 ==> 2.0 <= rows[k].energy < 50.0))
  {
    NrRowsAt(nSignal, expDraw, sampler);
    ErRowsAt(nBackground, nSignal, unitDraw, sampler);
  }

  /** Exactly n_signal rows carry the nuclear label and n_background the electronic one. */
  lemma UnshuffledLabelCounts(nSignal: nat, nBackground: nat, expDraw: nat -> real, unitDraw: nat -> real,
                              sampler: (nat, Moments) -> (real, real))
    ensures Count(Unshuffled(nSignal, nBackground, expDraw, unitDraw, sampler), IsNr) == nSignal
    ensures Count(Unshuffled(nSignal, nBackground, expDraw, unitDraw, sampler), IsEr) == nBackground
  {
    var nr := NrRows(nSignal, expDraw, sampler);
    var er := ErRows(nBackground, nSignal, unitDraw, sampler);
    NrRowsAt(nSignal, expDraw, sampler);
    ErRowsAt(nBackground, nSignal, unitDraw, sampler);
    CountConcat(nr, er, IsNr);
    CountConcat(nr, er, IsEr);
    CountUniform(nr, IsNr);
    CountUniform(nr, IsEr);
    CountUniform(er, IsNr);
    CountUniform(er, IsEr);
  }

  /** `df.sample(frac=1)`: numpy's Fisher-Yates permutation, walking from the last
      position down and swapping each with a drawn position at or below it. */
  method Shuffle(a: array<Row>, choice: nat -> nat)
    modifies a
    ensures multiset(a[..]) == old(multiset(a[..]))
  {
    var i := a.Length;
    while i > 1
      invariant 0 <= i <= a.Length
      invariant multiset(a[..]) == old(multiset(a[..]))
    {
      i := i - 1;
      var j := choice(i) % (i + 1);
      a[i], a[j] := a[j], a[i];
    }
  }

  function RowsOf(records: seq<Record>): (rows: seq<Row>)
    ensures |rows| == |records|
    ensures forall j :: 0 <= j < |records| ==> rows[j] == records[j].row
  {
    seq(|records|, j requires 0 <= j < |records| => records[j].row)
  }

  /** `reset_index` plus `df['event_id'] = df.index`: every row is numbered by its position. */
  function Number(rows: seq<Row>): (records: seq<Record>)
    ensures RowsOf(records) == rows
    ensures forall j :: 0 <= j < |records| ==> records[j].eventId == j
  {
    seq(|rows|, j requires 0 <= j < |rows| => Record(j, rows[j]))
  }

  /**
   * Why `generate_dataset` raises: numpy refuses a negative sample count ("negative
   * dimensions are not allowed"), and a frame built from no rows has no `s2_charge`
   * column for the final log step to read.
   */
  datatype DatasetError = NegativeSampleCount | MissingColumn(name: string)

  const S2ChargeColumn: string := "s2_charge"

  /** `generate_dataset`: fails when one of the two counts is negative, or when no row
      is emitted at all; otherwise num_events records numbered 0..num_events-1 in order,
      holding a permutation of the emitted rows, so n_signal nuclear and n_background
      electronic labels. */
  method GenerateDataset(numEvents: int, signalFraction: real, expDraw: nat -> real, unitDraw: nat -> real,
                         sampler: (nat, Moments) -> (real, real), choice: nat -> nat)
    returns (r: Result<seq<Record>, DatasetError>)
    ensures r.Failure? <==>
              SplitCounts(numEvents, signalFraction).0 < 0 || SplitCounts(numEvents, signalFraction).1 < 0
              || numEvents == 0
    ensures r.Failure? ==>
              r.error == if numEvents == 0 then MissingColumn(S2ChargeColumn) else NegativeSampleCount
    ensures r.Success? ==>
              var counts := SplitCounts(numEvents, signalFraction);
              && |r.value| == numEvents
              && (forall j :: 0 <= j < |r.value| ==> r.value[j].eventId == j)
              && multiset(RowsOf(r.value)) == multiset(Unshuffled(counts.0, counts.1, expDraw, unitDraw, sampler))
              && Count(RowsOf(r.value), IsNr) == counts.0
              && Count(RowsOf(r.value), IsEr) == counts.1
  {
    var counts := SplitCounts(numEvents, signalFraction);
    var nSignal, nBackground := counts.0, counts.1;
    if nSignal < 0 || nBackground < 0 {
      return Failure(NegativeSampleCount);
    }
    var eventsList := BuildRows(nSignal, nBackground, expDraw, unitDraw, sampler);
    var frame := new Row[|eventsList|](i requires 0 <= i < |eventsList| => eventsList[i]);
    assert frame[..] == eventsList;
    Shuffle(frame, choice);
    var df := Number(frame[..]);
    UnshuffledLayout(nSignal, nBackground, expDraw, unitDraw, sampler);
    UnshuffledLabelCounts(nSignal, nBackground, expDraw, unitDraw, sampler);
    CountPermutation(frame[..], eventsList, IsNr);
    CountPermutation(frame[..], eventsList, IsEr);
    assert |frame[..]| == |multiset(frame[..])| == |multiset(eventsList)| == |eventsList|;
    if |df| == 0 {
      return Failure(MissingColumn(S2ChargeColumn));
    }
    return Success(df);
  }
}
