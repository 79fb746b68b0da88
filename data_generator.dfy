/** The synthetic-data generator view: a progress animation driven by a reset
    action (`handleGenerate`) and a 200 ms interval tick, and the download action. */
module DataGenerator {

  /** The view's progress state: the three React state variables plus whether the
      interval timer is still running. */
  datatype GenState = GenState(generating: bool, progress: int, generated: bool, timerActive: bool)

  /** What holds in every reachable state. */
  predicate Inv(s: GenState)
  {
    && 0 <= s.progress <= 100
    && s.progress % 10 == 0
    && !(s.generating && s.generated)
    && s.timerActive == s.generating
    && (s.generated ==> s.progress == 100)
  }

  /** `handleGenerate`: generating on, generated off, progress back to 0, timer started. */
  function Reset(s: GenState): (r: GenState)
    ensures r.generating && !r.generated && r.progress == 0 && r.timerActive
    ensures Inv(r)
  {
    GenState(true, 0, false, true)
  }

  /** One interval tick. Below 100 it adds exactly 10 and changes nothing else; at
      100 or above it pins progress at 100, stops generating, marks the data as
      generated and clears the timer. Ticks keep the invariant and never lower progress. */
  function Tick(s: GenState): (r: GenState)
    requires s.timerActive
    ensures s.progress < 100 ==> r == s.(progress := s.progress + 10)
    ensures s.progress >= 100 ==> r.progress == 100 && !r.generating && r.generated && !r.timerActive
    ensures Inv(s) ==> Inv(r) && r.progress >= s.progress
  {
    if s.progress >= 100 then GenState(false, 100, true, false)
    else s.(progress := s.progress + 10)
  }

  /** The state after `n` interval periods; once the timer is cleared nothing fires. */
  function Run(s: GenState, n: nat): GenState
    decreases n
  {
    if n == 0 || !s.timerActive then s else Run(Tick(s), n - 1)
  }

  /** Every run keeps the invariant and never lowers progress. */
  lemma {:induction false} RunPreservesInv(s: GenState, n: nat)
    requires Inv(s)
    ensures Inv(Run(s, n)) && Run(s, n).progress >= s.progress
    decreases n
  {
    if n > 0 && s.timerActive {
      RunPreservesInv(Tick(s), n - 1);
    }
  }

  /** From a running state at 10j percent, m ticks (j + m <= 10) reach 10(j+m) percent
      with generation still under way. */
  lemma {:induction false} RunFromStep(j: nat, m: nat)
    requires j + m <= 10
    ensures Run(GenState(true, 10 * j, false, true), m) == GenState(true, 10 * (j + m), false, true)
    decreases m
  {
    if m > 0 {
      assert Tick(GenState(true, 10 * j, false, true)) == GenState(true, 10 * (j + 1), false, true);
      RunFromStep(j + 1, m - 1);
    }
  }

  /** From reset, ten ticks bring progress to 100 without finishing, the eleventh
      finishes, and nothing changes after that. */
  lemma ElevenTicksToGenerated(s: GenState, k: nat)
    ensures k <= 10 ==> Run(Reset(s), k) == GenState(true, 10 * k, false, true)
    ensures k <= 10 ==> !Run(Reset(s), k).generated
    ensures k >= 11 ==> Run(Reset(s), k) == GenState(false, 100, true, false)
  {
    if k <= 10 {
      RunFromStep(0, k);
    } else {
      RunFromStep(0, 10);
      RunSplit(Reset(s), 10, k - 10);
      assert Run(GenState(true, 100, false, true), k - 10) == Run(GenState(false, 100, true, false), k - 11);
    }
  }

  /** Running a + b periods is running a periods and then b more. */
  lemma {:induction false} RunSplit(s: GenState, a: nat, b: nat)
    ensures Run(s, a + b) == Run(Run(s, a), b)
    decreases a
  {
    if a > 0 && s.timerActive {
      RunSplit(Tick(s), a - 1, b);
    }
  }

  /** The generator view's state: the six sliders and the progress variables. */
  class GeneratorView {
    var numEvents: int
    var wimpPercentage: int
    var neutronRate: int
    var electronicRate: int
    var energyMin: real
    var energyMax: real
    var generating: bool
    var progress: int
    var generated: bool
    var timerActive: bool

    function State(): GenState
      reads this
    {
      GenState(generating, progress, generated, timerActive)
    }

    ghost predicate Valid()
      reads this
    {
      Inv(State())
    }

    /** The initial `useState` values. */
    constructor ()
      ensures Valid()
      ensures numEvents == 1000 && wimpPercentage == 10 && neutronRate == 5 && electronicRate == 85
      ensures energyMin == 1.0 && energyMax == 100.0
      ensures State() == GenState(false, 0, false, false)
    {
      numEvents, wimpPercentage, neutronRate, electronicRate := 1000, 10, 5, 85;
      energyMin, energyMax := 1.0, 100.0;
      generating, progress, generated, timerActive := false, 0, false, false;
    }

    /** The Generate button (disabled while generating) runs `handleGenerate`;
        the sliders are not read. */
    method HandleGenerate()
      requires Valid() && !generating
      modifies this
      ensures Valid()
      ensures State() == Reset(old(State()))
      ensures numEvents == old(numEvents) && wimpPercentage == old(wimpPercentage)
      ensures neutronRate == old(neutronRate) && electronicRate == old(electronicRate)
      ensures energyMin == old(energyMin) && energyMax == old(energyMax)
    {
      generating := true;
      generated := false;
      progress := 0;
      timerActive := true;
    }

    /** The interval callback, which fires only while the timer is set. */
    method IntervalTick()
      requires Valid() && timerActive
      modifies this
      ensures Valid()
      ensures State() == Tick(old(State()))
      ensures progress >= old(progress)
      ensures numEvents == old(numEvents) && wimpPercentage == old(wimpPercentage)
      ensures neutronRate == old(neutronRate) && electronicRate == old(electronicRate)
      ensures energyMin == old(energyMin) && energyMax == old(energyMax)
    {
      if progress >= 100 {
        timerActive := false;
        generating := false;
        generated := true;
        progress := 100;
      } else {
        progress := progress + 10;
      }
    }
  }

  // ---------------------------------------------------------------- download

  datatype Format = Csv | Json

  function Extension(f: Format): string
  {
    if f == Csv then "csv" else "json"
  }

  /** The extension with its dot, as a file-name suffix. */
  lemma DottedExtension(f: Format)
    ensures "." + Extension(f) == if f == Csv then ".csv" else ".json"
  {
  }

  const FileStem: string := "dark_matter_events."

  /** The fixed text every download holds: a header and one data row. */
  const MockExport: string :=
    "Event_ID,S1,S2,S2_S1_Ratio,Recoil_Energy,X,Y,Z,Classification\nEV00001,25.3,456.7,18.05,15.2,-5.2,3.1,12.4,nuclear_recoil\n"

  datatype DownloadFile = DownloadFile(fileName: string, mimeType: string, content: string)

  /** `handleDownload`: the file is named after the format and typed by it, but its
      content is the same fixed text for either format and does not depend on the
      sliders or on any generated data. */
  function HandleDownload(format: Format): (d: DownloadFile)
    ensures d.fileName == FileStem + Extension(format)
    ensures d.mimeType == "text/csv" <==> format == Csv
    ensures d.mimeType == "application/json" <==> format == Json
    ensures d.content == MockExport
  {
    DownloadFile(FileStem + Extension(format),
                 if format == Csv then "text/csv" else "application/json",
                 MockExport)
  }
}
