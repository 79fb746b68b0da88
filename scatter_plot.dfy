/** The S2/S1-versus-S1 scatter plot: it splits the events it is given into the
    two classification groups, tags every point with log10(S1), shows a tooltip
    for the hovered point and hands a clicked point to its caller. */
module ScatterPlot {
  import opened Wrappers
  import opened Seqs
  import opened Events

  /** A plotted point: the event, unchanged, plus its `s1Log` coordinate. */
  datatype PlotPoint = PlotPoint(event: Event, s1Log: real)

  function InClass(c: Classification): Event -> bool
  {
    (e: Event) => e.classification == c
  }

  function EventsOf(points: seq<PlotPoint>): (r: seq<Event>)
    ensures |r| == |points|
    ensures forall k :: 0 <= k < |points| ==> r[k] == points[k].event
  {
    seq(|points|, k requires 0 <= k < |points| => points[k].event)
  }

  /** The points of one classification group, `log10` standing for `Math.log10`. */
  function PlotGroup(events: seq<Event>, c: Classification, log10: real -> real): (points: seq<PlotPoint>)
    ensures EventsOf(points) == Filter(events, InClass(c))
    ensures forall k :: 0 <= k < |points| ==>
              points[k].event.classification == c && points[k].s1Log == log10(points[k].event.s1)
  {
    var kept := Filter(events, InClass(c));
    seq(|kept|, k requires 0 <= k < |kept| => PlotPoint(kept[k], log10(kept[k].s1)))
  }

  /** `nuclearData`: exactly the nuclear-recoil events, in input order. */
  function NuclearData(events: seq<Event>, log10: real -> real): (points: seq<PlotPoint>)
    ensures IsSubsequence(EventsOf(points), events)
    ensures forall k :: 0 <= k < |points| ==> points[k].event.classification == NuclearRecoil
    ensures forall i :: 0 <= i < |events| && events[i].classification == NuclearRecoil ==>
              events[i] in EventsOf(points)
    ensures |points| == Count(events, InClass(NuclearRecoil))
  {
    FilterLength(events, InClass(NuclearRecoil));
    PlotGroup(events, NuclearRecoil, log10)
  }

  /** `electronicData`: exactly the electronic-recoil events, in input order. */
  function ElectronicData(events: seq<Event>, log10: real -> real): (points: seq<PlotPoint>)
    ensures IsSubsequence(EventsOf(points), events)
    ensures forall k :: 0 <= k < |points| ==> points[k].event.classification == ElectronicRecoil
    ensures forall i :: 0 <= i < |events| && events[i].classification == ElectronicRecoil ==>
              events[i] in EventsOf(points)
    ensures |points| == Count(events, InClass(ElectronicRecoil))
  {
    FilterLength(events, InClass(ElectronicRecoil));
    PlotGroup(events, ElectronicRecoil, log10)
  }

  /** Because the classification has only two values, the two legend counts
      add up to the number of events handed to the plot. */
  lemma LegendCountsSum(events: seq<Event>, log10: real -> real)
    ensures |NuclearData(events, log10)| + |ElectronicData(events, log10)| == |events|
  {
    FilterLength(events, InClass(NuclearRecoil));
    FilterLength(events, InClass(ElectronicRecoil));
    CountDisjointPair(events, InClass(NuclearRecoil), InClass(ElectronicRecoil));
    assert EventsOf(NuclearData(events, log10)) == Filter(events, InClass(NuclearRecoil));
    assert EventsOf(ElectronicData(events, log10)) == Filter(events, InClass(ElectronicRecoil));
  }

  /** What the tooltip shows: the id, S1, the ratio, the energy and the class name.
      (The source rounds the numbers for display; they are kept exact here.) */
  datatype TooltipView = TooltipView(id: string, s1: real, ratio: real, energy: real, classLabel: string)

  function ClassLabel(c: Classification): string
  {
    if c == NuclearRecoil then "Nuclear Recoil" else "Electronic Recoil"
  }

  /** `CustomTooltip`: renders only when active and the payload is present and non-empty,
      and then describes the first payload entry. */
  function Tooltip(active: bool, payload: Option<seq<PlotPoint>>): (view: Option<TooltipView>)
    ensures view.Some? <==> active && payload.Some? && |payload.value| > 0
    ensures view.Some? ==>
              var e := payload.value[0].event;
              view.value.id == e.id && view.value.s1 == e.s1 && view.value.ratio == e.s2S1Ratio
              && view.value.energy == e.recoilEnergy
              && (view.value.classLabel == "Nuclear Recoil" <==> e.classification == NuclearRecoil)
  {
    if active && payload.Some? && |payload.value| > 0 then
      var e := payload.value[0].event;
      Some(TooltipView(e.id, e.s1, e.s2S1Ratio, e.recoilEnergy, ClassLabel(e.classification)))
    else None
  }

  /** A click on point `k` of a group passes that point's event to `onEventClick`,
      so the handed-off event is one of the events given to the plot. */
  lemma ClickedEventIsDisplayed(events: seq<Event>, c: Classification, log10: real -> real, k: nat)
    requires k < |PlotGroup(events, c, log10)|
    ensures PlotGroup(events, c, log10)[k].event in events
    ensures PlotGroup(events, c, log10)[k].event.classification == c
  {
    var points := PlotGroup(events, c, log10);
    assert EventsOf(points)[k] == points[k].event;
    SubsequenceBounds(Filter(events, InClass(c)), events);
  }
}
