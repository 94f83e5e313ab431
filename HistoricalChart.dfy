/** The historical usage chart: the days inside the selected date range, the
    line datasets chosen by the selected systems, the x-axis labels and the
    total energy over the range. */
module HistoricalChart {
  import opened Seqs
  import opened Dates

  /** One day of `historicalData`, in kWh per system. */
  datatype Item = Item(date: Date, hvac: real, lighting: real, machinery: real, total: real)

  /** The four series the chart can draw. */
  datatype Series = Hvac | Lighting | Machinery | Total

  /** A line of the chart: its `label` (the legend text) and one value per shown day. */
  datatype Dataset = Dataset(series: Series, legend: string, data: seq<real>)

  /** `from <= date && date <= to` on dates: both bounds inclusive; an
      invalid date on either side fails the comparison. */
  predicate InRange(date: Date, from: Date, to: Date)
  {
    OnOrAfter(date, from) && OnOrBefore(date, to)
  }

  /** `filteredData`. */
  function FilteredData(data: seq<Item>, from: Date, to: Date): seq<Item>
  {
    Filter((item: Item) => InRange(item.date, from, to), data)
  }

  /** The days shown are exactly those within both bounds, in their original order. */
  lemma FilteredDataExact(data: seq<Item>, from: Date, to: Date)
    ensures forall item :: item in FilteredData(data, from, to) <==>
      item in data && item.date.At? && from.At? && to.At? && from.ms <= item.date.ms <= to.ms
    ensures IsSubseq(FilteredData(data, from, to), data)
  {
    FilterIsSubseq((item: Item) => InRange(item.date, from, to), data);
  }

  /** The system id that selects each series; `Total` has none. */
  function SystemId(s: Series): string
    requires s != Total
  {
    match s
    case Hvac => "hvac"
    case Lighting => "lighting"
    case Machinery => "machinery"
  }

  function Label(s: Series): string
  {
    match s
    case Hvac => "HVAC \U{1F321}\U{FE0F}"
    case Lighting => "Lighting \U{1F4A1}"
    case Machinery => "Machinery \U{2699}\U{FE0F}"
    case Total => "Total"
  }

  /** The value a series plots for one day (`item.hvac`, ..., `item.total`). */
  function Reading(s: Series, item: Item): real
  {
    match s
    case Hvac => item.hvac
    case Lighting => item.lighting
    case Machinery => item.machinery
    case Total => item.total
  }

  /** `filteredData.map(item => item.<series>)`. */
  function Column(s: Series, items: seq<Item>): (r: seq<real>)
    ensures |r| == |items|
    ensures forall i :: 0 <= i < |items| ==> r[i] == Reading(s, items[i])
  {
    seq(|items|, i requires 0 <= i < |items| => Reading(s, items[i]))
  }

  /** Whether the `push` for a series runs: the three systems when no system
      is selected or their id is selected, the total only when none is. */
  predicate Shown(s: Series, systems: seq<string>)
  {
    if s == Total then |systems| == 0 else |systems| == 0 || SystemId(s) in systems
  }

  /** The series one push contributes: itself when its guard holds, nothing otherwise. */
  function Pick(s: Series, systems: seq<string>): seq<Series>
  {
    if Shown(s, systems) then [s] else []
  }

  /** The series drawn, in the order of the pushes. */
  function Chosen(systems: seq<string>): seq<Series>
  {
    Pick(Hvac, systems) + Pick(Lighting, systems) + Pick(Machinery, systems) + Pick(Total, systems)
  }

  /** The dataset of one series over the shown days. */
  function DatasetFor(s: Series, items: seq<Item>): Dataset
  {
    Dataset(s, Label(s), Column(s, items))
  }

  /** The datasets of a list of series, in that order. */
  function DatasetsOf(series: seq<Series>, items: seq<Item>): (r: seq<Dataset>)
    ensures |r| == |series|
    ensures forall i :: 0 <= i < |series| ==> r[i] == DatasetFor(series[i], items)
  {
    seq(|series|, i requires 0 <= i < |series| => DatasetFor(series[i], items))
  }

  lemma DatasetsOfSnoc(series: seq<Series>, s: Series, items: seq<Item>)
    ensures DatasetsOf(series + [s], items) == DatasetsOf(series, items) + [DatasetFor(s, items)]
  {
  }

  /** `datasets`: built by the four guarded pushes, in source order. */
  method BuildDatasets(systems: seq<string>, items: seq<Item>) returns (datasets: seq<Dataset>)
    ensures datasets == DatasetsOf(Chosen(systems), items)
  {
    datasets := [];
    if |systems| == 0 || "hvac" in systems {
      datasets := datasets + [Dataset(Hvac, "HVAC \U{1F321}\U{FE0F}", Column(Hvac, items))];
    }
    ghost var drawn := Pick(Hvac, systems);
    assert datasets == DatasetsOf(drawn, items);
    if |systems| == 0 || "lighting" in systems {
      DatasetsOfSnoc(drawn, Lighting, items);
      datasets := datasets + [Dataset(Lighting, "Lighting \U{1F4A1}", Column(Lighting, items))];
    }
    drawn := drawn + Pick(Lighting, systems);
    assert datasets == DatasetsOf(drawn, items);
    if |systems| == 0 || "machinery" in systems {
      DatasetsOfSnoc(drawn, Machinery, items);
      datasets := datasets + [Dataset(Machinery, "Machinery \U{2699}\U{FE0F}", Column(Machinery, items))];
    }
    drawn := drawn + Pick(Machinery, systems);
    assert datasets == DatasetsOf(drawn, items);
    if |systems| == 0 {
      DatasetsOfSnoc(drawn, Total, items);
      datasets := datasets + [Dataset(Total, "Total", Column(Total, items))];
    }
    drawn := drawn + Pick(Total, systems);
  }

  /** With no system selected, all four lines are drawn, total last. */
  lemma NoSystemsAllSeries()
    ensures Chosen([]) == [Hvac, Lighting, Machinery, Total]
  {
  }

  /** With systems selected, a series is drawn exactly when its id is
      selected, never the total, and always in the fixed order HVAC,
      lighting, machinery. */
  lemma SelectedSystemsOnly(systems: seq<string>)
    requires |systems| > 0
    ensures forall s :: s in Chosen(systems) <==> s != Total && SystemId(s) in systems
    ensures IsSubseq(Chosen(systems), [Hvac, Lighting, Machinery])
  {
    EverySeriesListed();
    SelectedInOrder(systems);
  }

  lemma EverySeriesListed()
    ensures forall s :: s in [Hvac, Lighting, Machinery, Total]
  {
    var all := [Hvac, Lighting, Machinery, Total];
    forall s: Series ensures s in all {
      match s
      case Hvac => assert all[0] == s;
      case Lighting => assert all[1] == s;
      case Machinery => assert all[2] == s;
      case Total => assert all[3] == s;
    }
  }

  lemma SelectedInOrder(systems: seq<string>)
    requires |systems| > 0
    ensures IsSubseq(Chosen(systems), [Hvac, Lighting, Machinery])
  {
    var h, l, m := Pick(Hvac, systems), Pick(Lighting, systems), Pick(Machinery, systems);
    assert IsSubseq(m, [Machinery]) by {
      PickSubseq(Machinery, systems, [], []);
      assert m + [] == m;
    }
    assert IsSubseq(l + m, [Lighting, Machinery]) by {
      PickSubseq(Lighting, systems, m, [Machinery]);
      assert [Lighting] + [Machinery] == [Lighting, Machinery];
    }
    assert IsSubseq(h + (l + m), [Hvac, Lighting, Machinery]) by {
      PickSubseq(Hvac, systems, l + m, [Lighting, Machinery]);
      assert [Hvac] + [Lighting, Machinery] == [Hvac, Lighting, Machinery];
    }
    assert Pick(Total, systems) == [];
    assert Chosen(systems) == h + (l + m);
  }

  /** A push placed before a subsequence of the series after it keeps the order. */
  lemma PickSubseq(s: Series, systems: seq<string>, rest: seq<Series>, after: seq<Series>)
    requires IsSubseq(rest, after)
    ensures IsSubseq(Pick(s, systems) + rest, [s] + after)
  {
    var all := [s] + after;
    assert all[1..] == after;
    if Shown(s, systems) {
      var drawn := [s] + rest;
      assert drawn[0] == all[0] && drawn[1..] == rest;
    } else {
      assert [] + rest == rest;
      SubseqOfTail(rest, all);
    }
  }

  /** An id that names none of the three systems adds no line to a
      non-empty selection. */
  lemma UnknownIdIgnored(systems: seq<string>, id: string)
    requires |systems| > 0
    requires id != "hvac" && id != "lighting" && id != "machinery"
    ensures Chosen(systems + [id]) == Chosen(systems)
  {
    assert forall x :: x in systems + [id] <==> x in systems || x == id;
  }

  /** Every dataset has one value per shown day, as many as there are labels. */
  lemma DatasetLengths(systems: seq<string>, items: seq<Item>)
    ensures forall d :: d in DatasetsOf(Chosen(systems), items) ==> |d.data| == |items| == |Labels(items)|
  {
  }

  /** `labels`: one entry per shown day; the `toLocaleDateString` text is
      represented by the day's date. */
  function Labels(items: seq<Item>): (r: seq<Date>)
    ensures |r| == |items|
    ensures forall i :: 0 <= i < |items| ==> r[i] == items[i].date
  {
    seq(|items|, i requires 0 <= i < |items| => items[i].date)
  }

  /** `items.reduce((sum, item) => sum + item.total, 0)`: a left fold. */
  function TotalEnergy(items: seq<Item>): real
  {
    if items == [] then 0.0 else TotalEnergy(items[..|items| - 1]) + items[|items| - 1].total
  }

  /** The total over two runs of days is the sum of their totals. */
  lemma {:induction false} TotalEnergyAppend(a: seq<Item>, b: seq<Item>)
    ensures TotalEnergy(a + b) == TotalEnergy(a) + TotalEnergy(b)
  {
    if b != [] {
      assert (a + b)[..|a + b| - 1] == a + b[..|b| - 1];
      TotalEnergyAppend(a, b[..|b| - 1]);
    } else {
      assert a + b == a;
    }
  }

  /** The total is the sum of the first day's total and the rest's. */
  lemma TotalEnergyCons(items: seq<Item>)
    requires items != []
    ensures TotalEnergy(items) == items[0].total + TotalEnergy(items[1..])
  {
    assert items == [items[0]] + items[1..];
    TotalEnergyAppend([items[0]], items[1..]);
  }

  /** Splitting the days by any predicate splits the total: what the range
      keeps plus what it drops is the total of all the data. */
  lemma {:induction false} TotalEnergySplit(p: Item -> bool, notP: Item -> bool, items: seq<Item>)
    requires forall x :: x in items ==> notP(x) == !p(x)
    ensures TotalEnergy(Filter(p, items)) + TotalEnergy(Filter(notP, items)) == TotalEnergy(items)
  {
    if items != [] {
      assert items[0] in items;
      TotalEnergySplit(p, notP, items[1..]);
      TotalEnergyCons(items);
      if p(items[0]) {
        TotalEnergyCons(Filter(p, items));
      } else {
        TotalEnergyCons(Filter(notP, items));
      }
    }
  }

  /** With non-negative day totals, the range total is non-negative and at
      most the total of all the data; an empty range totals 0. */
  lemma RangeTotalBounded(data: seq<Item>, from: Date, to: Date)
    requires forall item :: item in data ==> item.total >= 0.0
    ensures 0.0 <= TotalEnergy(FilteredData(data, from, to)) <= TotalEnergy(data)
    ensures FilteredData(data, from, to) == [] ==> TotalEnergy(FilteredData(data, from, to)) == 0.0
  {
    var out := (item: Item) => !InRange(item.date, from, to);
    TotalEnergySplit((item: Item) => InRange(item.date, from, to), out, data);
    TotalNonNegative(FilteredData(data, from, to));
    TotalNonNegative(Filter(out, data));
  }

  lemma {:induction false} TotalNonNegative(items: seq<Item>)
    requires forall item :: item in items ==> item.total >= 0.0
    ensures TotalEnergy(items) >= 0.0
  {
    if items != [] {
      assert items[|items| - 1] in items;
      assert forall item :: item in items[..|items| - 1] ==> item in items;
      TotalNonNegative(items[..|items| - 1]);
    }
  }
}
