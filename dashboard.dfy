/** The event classification dashboard: the mock-data generator that fills it,
    the search-and-filter over the generated events, and the view state
    (events, selection, query, filter, loading flag). */
module Dashboard {
  import opened Wrappers
  import opened Seqs
  import opened Strings
  import opened Events
  import opened ScatterPlot

  /** Number of events one generation produces. */
  const MockCount: nat := 200
  /** Width the numeric part of an id is zero-padded to. */
  const IdWidth: nat := 5
  /** The classification draw above which an event is nuclear. */
  const NuclearThreshold: real := 0.6

  /** The two fixed reasoning texts, one per classification. */
  const NuclearReasoning: string :=
    "Low S2/S1 ratio indicates nuclear recoil. Energy and position consistent with WIMP interaction."
  const ElectronicReasoning: string :=
    "High S2/S1 ratio characteristic of electronic recoil. Likely background radiation event."

  /** The eight `Math.random()` draws one loop iteration makes, in the order the
      source makes them: the classification coin, S1, the S2 factor, the recoil
      energy, x, y, z and the confidence. */
  datatype Roll = Roll(
    nuclear: Unit, s1: Unit, factor: Unit, energy: Unit,
    x: Unit, y: Unit, z: Unit, confidence: Unit)

  /** What `Math.random()` returns: a number in [0, 1). */
  type Unit = u: real | 0.0 <= u < 1.0

  // ---------------------------------------------------------------- ids

  /** `EV` followed by `i` zero-padded to five digits: the decimal numeral of `i` at
      the end, and between it and `EV` only the zeros that reach width five. */
  function EventId(i: nat): (id: string)
    ensures |id| == 2 + if |Digits(i)| >= IdWidth then |Digits(i)| else IdWidth
    ensures id[..2] == "EV"
    ensures id[|id| - |Digits(i)|..] == Digits(i)
    ensures forall k :: 2 <= k < |id| - |Digits(i)| ==> id[k] == '0'
  {
    var padded := PadStart(Digits(i), IdWidth, '0');
    assert forall k :: 2 <= k < 2 + |padded| - |Digits(i)| ==> ("EV" + padded)[k] == padded[k - 2];
    "EV" + padded
  }

  /** Reads an id back: strip `EV`, then read the (zero-padded) decimal number. */
  function ParseId(id: string): Option<nat>
  {
    if |id| > 2 && id[..2] == "EV" && AllDigits(id[2..]) then Some(ValueOf(id[2..])) else None
  }

  /** Stripping `EV` and the padding zeros from the id of event `i` gives back `i`. */
  lemma EventIdRoundTrip(i: nat)
    ensures ParseId(EventId(i)) == Some(i)
  {
    var d := Digits(i);
    var p := PadStart(d, IdWidth, '0');
    var k := |p| - |d|;
    assert p == Zeros(k) + d;
    LeadingZeros(k, d);
    DigitsRoundTrip(i);
    assert EventId(i)[2..] == p;
  }

  /** Different loop indices give different ids. */
  lemma EventIdInjective(i: nat, j: nat)
    ensures EventId(i) == EventId(j) ==> i == j
  {
    EventIdRoundTrip(i);
    EventIdRoundTrip(j);
  }

  /** Up to 99999 every id is seven characters long. */
  lemma EventIdLength(i: nat)
    requires i <= 99999
    ensures |EventId(i)| == 7
  {
    assert Pow10(5) == 100000;
    DigitsLength(i, 5);
  }

  // ---------------------------------------------------------------- generation

  /** The event one loop iteration builds from its eight draws under the id `id`:
      one flag, `draw > 0.6`, decides classification, true label and reasoning together. */
  function RolledEvent(id: string, r: Roll): Event
  {
    var isNuclear := r.nuclear > NuclearThreshold;
    var s1 := if isNuclear then r.s1 * 50.0 + 10.0 else r.s1 * 100.0 + 20.0;
    var s2 := if isNuclear then s1 * (r.factor * 30.0 + 10.0) else s1 * (r.factor * 100.0 + 50.0);
    Event(
      id, s1, s2, s2 / s1,
      r.energy * 50.0 + 1.0,
      r.x * 40.0 - 20.0, r.y * 40.0 - 20.0, r.z * 100.0 - 50.0,
      if isNuclear then NuclearRecoil else ElectronicRecoil,
      Some(if isNuclear then "WIMP" else "Background"),
      r.confidence * 0.3 + 0.7,
      Some(if isNuclear then NuclearReasoning else ElectronicReasoning))
  }

  /** Event number `i` of a generation: the event its draws give, carrying the id built from `i`. */
  function MakeEvent(i: nat, r: Roll): (e: Event)
    ensures e.id == EventId(i)
  {
    RolledEvent(EventId(i), r)
  }

  /** One flag decides a generated event's classification, true label and reasoning together. */
  lemma MockEventLabels(id: string, r: Roll)
    ensures var e := RolledEvent(id, r);
      && (e.classification == NuclearRecoil <==> r.nuclear > NuclearThreshold)
      && (e.classification == NuclearRecoil <==> e.trueLabel == Some("WIMP"))
      && (e.classification == ElectronicRecoil <==> e.trueLabel == Some("Background"))
      && (e.classification == NuclearRecoil <==> e.reasoning == Some(NuclearReasoning))
      && (e.classification == ElectronicRecoil <==> e.reasoning == Some(ElectronicReasoning))
  {
    assert |NuclearReasoning| != |ElectronicReasoning|;
  }

  /** The readings of a generated event, for draws in [0,1): S1 and the S2/S1 ratio
      fall in the ranges of the event's class, so S1 > 0 and the ratio is S2/S1. */
  lemma MockReadingRanges(id: string, r: Roll)
    ensures var e := RolledEvent(id, r);
      && (e.classification == NuclearRecoil ==> 10.0 <= e.s1 < 60.0 && 10.0 <= e.s2S1Ratio < 40.0)
      && (e.classification == ElectronicRecoil ==> 20.0 <= e.s1 < 120.0 && 50.0 <= e.s2S1Ratio < 150.0)
      && e.s1 > 0.0 && e.s2S1Ratio == e.s2 / e.s1
  {
    var e := RolledEvent(id, r);
    var isNuclear := r.nuclear > NuclearThreshold;
    var s1 := if isNuclear then r.s1 * 50.0 + 10.0 else r.s1 * 100.0 + 20.0;
    var factor := if isNuclear then r.factor * 30.0 + 10.0 else r.factor * 100.0 + 50.0;
    assert e.s1 == s1 && e.s2 == s1 * factor && e.s2S1Ratio == e.s2 / e.s1;
    assert e.classification == NuclearRecoil <==> isNuclear;
    RatioOfProduct(s1, factor);
  }

  /** The other numeric fields of a generated event, for draws in [0,1): energy,
      position and confidence fall in their fixed ranges. */
  lemma MockEventRanges(id: string, r: Roll)
    ensures var e := RolledEvent(id, r);
      && 1.0 <= e.recoilEnergy < 51.0
      && -20.0 <= e.x < 20.0 && -20.0 <= e.y < 20.0 && -50.0 <= e.z < 50.0
      && 0.7 <= e.confidence < 1.0
  {
  }

  /** Dividing `a * b` by a positive `a` leaves `b`. */
  lemma RatioOfProduct(a: real, b: real)
    requires a > 0.0
    ensures (a * b) / a == b
  {
  }

  /** The generator loop of `generateMockData`: i runs 1..200 and event i is
      built from the i-th roll and pushed at the end. */
  method BuildMockEvents(rolls: seq<Roll>) returns (mockEvents: seq<Event>)
    requires |rolls| >= MockCount
    ensures |mockEvents| == MockCount
    ensures forall k :: 0 <= k < MockCount ==> mockEvents[k] == MakeEvent(k + 1, rolls[k])
  {
    mockEvents := [];
    var i := 1;
    while i <= MockCount
      invariant 1 <= i <= MockCount + 1
      invariant mockEvents == Numbered(rolls, i - 1, MakeEvent)
    {
      NumberedNext(rolls, i - 1, MakeEvent);
      mockEvents := mockEvents + [MakeEvent(i, rolls[i - 1])];
      i := i + 1;
    }
    NumberedAll(rolls, MockCount, MakeEvent);
  }

  /** The id of every event reads back as its position plus one. */
  predicate IdsReadBack(events: seq<Event>)
  {
    forall k :: 0 <= k < |events| ==> ParseId(events[k].id) == Some(k + 1)
  }

  /** The ids of the generated events read back as 1..200, in order. */
  lemma MockIdsReadBack(rolls: seq<Roll>, mockEvents: seq<Event>)
    requires |rolls| >= MockCount && |mockEvents| == MockCount
    requires forall k :: 0 <= k < MockCount ==> mockEvents[k] == MakeEvent(k + 1, rolls[k])
    ensures IdsReadBack(mockEvents)
  {
    forall k | 0 <= k < MockCount
      ensures ParseId(mockEvents[k].id) == Some(k + 1)
    {
      EventIdRoundTrip(k + 1);
    }
  }

  /** Generated ids are pairwise distinct. */
  lemma MockIdsDistinct(mockEvents: seq<Event>)
    requires IdsReadBack(mockEvents)
    ensures forall j, k :: 0 <= j < k < |mockEvents| ==> mockEvents[j].id != mockEvents[k].id
  {
    forall j, k | 0 <= j < k < |mockEvents| ensures mockEvents[j].id != mockEvents[k].id {
      assert ParseId(mockEvents[j].id) != ParseId(mockEvents[k].id);
    }
  }

  // ---------------------------------------------------------------- filtering

  /** The classification drop-down: everything, or one classification. */
  datatype FilterType = All | Only(c: Classification)

  /** `filteredEvents`' test: the lower-cased id contains the lower-cased query,
      and the classification is the selected one unless the filter is `all`. */
  predicate Matches(e: Event, query: string, filter: FilterType)
  {
    Contains(ToLower(e.id), ToLower(query)) && (filter.All? || e.classification == filter.c)
  }

  /** An event is kept exactly when its lower-cased id holds the lower-cased query at some
      position and, unless the filter is `all`, its classification is the selected one. */
  lemma MatchesAt(e: Event, query: string, filter: FilterType)
    ensures Matches(e, query, filter) <==>
              (exists k :: OccursAt(ToLower(e.id), ToLower(query), k))
              && (filter.All? || e.classification == filter.c)
  {
    ContainsAt(ToLower(e.id), ToLower(query));
  }

  function Keep(query: string, filter: FilterType): Event -> bool
  {
    (e: Event) => Matches(e, query, filter)
  }

  /** `filteredEvents`: an order-preserving subsequence of the events holding
      exactly the events that match the query and the filter. */
  function FilteredEvents(events: seq<Event>, query: string, filter: FilterType): (r: seq<Event>)
    ensures IsSubsequence(r, events)
    ensures |r| <= |events|
    ensures forall k :: 0 <= k < |r| ==>
              Contains(ToLower(r[k].id), ToLower(query)) && (filter.All? || r[k].classification == filter.c)
    ensures forall i :: 0 <= i < |events| && Matches(events[i], query, filter) ==> events[i] in r
    ensures |r| == Count(events, Keep(query, filter))
  {
    FilterLength(events, Keep(query, filter));
    Filter(events, Keep(query, filter))
  }

  /** An empty query with the `all` filter shows every event, in order. */
  lemma ShowAllIsIdentity(events: seq<Event>)
    ensures FilteredEvents(events, "", All) == events
  {
    assert ToLower("") == "";
    forall i | 0 <= i < |events| ensures Keep("", All)(events[i]) {
      EmptyContained(ToLower(events[i].id));
    }
    FilterKeepsAll(events, Keep("", All));
  }

  /** For a fixed query, the nuclear-only and electronic-only views split the `all` view. */
  lemma {:induction false} FilterPartition(events: seq<Event>, query: string)
    ensures |FilteredEvents(events, query, Only(NuclearRecoil))|
            + |FilteredEvents(events, query, Only(ElectronicRecoil))|
            == |FilteredEvents(events, query, All)|
  {
    if events != [] { FilterPartition(events[1..], query); }
  }

  // ---------------------------------------------------------------- view state

  /** The dashboard's React state. */
  class DashboardView {
    var events: seq<Event>
    var selected: Option<Event>
    var searchQuery: string
    var filterType: FilterType
    var loading: bool

    /** The initial state: no events, nothing selected, empty query, `all`, loading. */
    constructor ()
      ensures events == [] && selected == None && searchQuery == "" && filterType == All && loading
    {
      events := [];
      selected := None;
      searchQuery := "";
      filterType := All;
      loading := true;
    }

    /** The events the plot receives. */
    function Visible(): seq<Event>
      reads this
    {
      FilteredEvents(events, searchQuery, filterType)
    }

    /** `generateMockData`: replace the events by a fresh batch of 200 and clear the loading flag. */
    method GenerateMockData(rolls: seq<Roll>)
      requires |rolls| >= MockCount
      modifies this
      ensures |events| == MockCount
      ensures forall k :: 0 <= k < MockCount ==> events[k] == MakeEvent(k + 1, rolls[k])
      ensures !loading
      ensures selected == old(selected) && searchQuery == old(searchQuery) && filterType == old(filterType)
    {
      var mockEvents := BuildMockEvents(rolls);
      events := mockEvents;
      loading := false;
    }

    /** The search box's `onChange`. */
    method SetSearchQuery(query: string)
      modifies this
      ensures searchQuery == query
      ensures events == old(events) && selected == old(selected) && filterType == old(filterType)
      ensures loading == old(loading)
    {
      searchQuery := query;
    }

    /** The drop-down's `onChange`. */
    method SetFilterType(filter: FilterType)
      modifies this
      ensures filterType == filter
      ensures events == old(events) && selected == old(selected) && searchQuery == old(searchQuery)
      ensures loading == old(loading)
    {
      filterType := filter;
    }

    /** A click on point `k` of a plotted group: the clicked event becomes the
        selection (replacing any earlier one), and it is one of the visible events. */
    method ClickPoint(c: Classification, k: nat, log10: real -> real)
      requires k < |PlotGroup(Visible(), c, log10)|
      modifies this
      ensures events == old(events) && searchQuery == old(searchQuery) && filterType == old(filterType)
      ensures loading == old(loading)
      ensures selected == Some(PlotGroup(Visible(), c, log10)[k].event)
      ensures selected.value in Visible() && selected.value.classification == c
    {
      ClickedEventIsDisplayed(Visible(), c, log10, k);
      selected := Some(PlotGroup(Visible(), c, log10)[k].event);
    }

    /** The footer "Showing k of n events": k visible events out of n, and k never exceeds n. */
    function ShowingCounts(): (counts: (nat, nat))
      reads this
      ensures counts.0 == |Visible()| && counts.1 == |events|
      ensures counts.0 <= counts.1
    {
      (|Visible()|, |events|)
    }
  }
}
